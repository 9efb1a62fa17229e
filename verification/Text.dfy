// ASCII models of the Go string helpers the chat server calls.
module Text {
  datatype Option<+T> = None | Some(value: T)

  // The six ASCII characters that Go's unicode.IsSpace accepts.
  predicate IsSpace(c: char) {
    c == ' ' || '\t' <= c <= '\r'
  }

  predicate AllSpace(s: string) {
    forall i :: 0 <= i < |s| ==> IsSpace(s[i])
  }

  // No white space at either end.
  predicate Tight(s: string) {
    s != "" ==> !IsSpace(s[0]) && !IsSpace(s[|s| - 1])
  }

  // The first position from i on that is not white space.
  function SkipSpaces(s: string, i: nat): (n: nat)
    requires i <= |s|
    ensures i <= n <= |s| && (forall j :: i <= j < n ==> IsSpace(s[j]))
    ensures n < |s| ==> !IsSpace(s[n])
    decreases |s| - i
  {
    if i < |s| && IsSpace(s[i]) then SkipSpaces(s, i + 1) else i
  }

  // The end of s[i..k] without its trailing white space.
  function SkipBack(s: string, i: nat, k: nat): (n: nat)
    requires i <= k <= |s|
    ensures i <= n <= k && (forall j :: n <= j < k ==> IsSpace(s[j]))
    ensures i < n ==> !IsSpace(s[n - 1])
    decreases k
  {
    if i < k && IsSpace(s[k - 1]) then SkipBack(s, i, k - 1) else k
  }

  // strings.TrimSpace
  function Trim(s: string): (r: string)
    ensures Tight(r)
  {
    var i := SkipSpaces(s, 0);
    s[i..SkipBack(s, i, |s|)]
  }

  // Trim is pinned down by what it removes: two runs of spaces around a tight middle.
  lemma TrimIs(pre: string, mid: string, post: string)
    requires AllSpace(pre) && AllSpace(post) && Tight(mid)
    ensures Trim(pre + mid + post) == mid
  {
    hide SkipSpaces, SkipBack;
    var s := pre + mid + post;
    TrimBetween(s, |pre|, |pre| + |mid|);
    assert s[|pre|..|pre| + |mid|] == mid;
  }

  lemma TrimBetween(s: string, a: nat, b: nat)
    requires a <= b <= |s| && Tight(s[a..b])
    requires forall j :: 0 <= j < a || b <= j < |s| ==> IsSpace(s[j])
    ensures Trim(s) == s[a..b]
  {
    hide SkipSpaces, SkipBack;
    var i := SkipSpaces(s, 0);
    var n := SkipBack(s, i, |s|);
    if a < b {
      assert s[a..b][0] == s[a] && s[a..b][b - a - 1] == s[b - 1];
      assert i == a && n == b;
    }
  }

  lemma TrimTight(s: string)
    requires Tight(s)
    ensures Trim(s) == s
  {
    TrimIs("", s, "");
    assert "" + s + "" == s;
  }

  function LowerChar(c: char): char {
    if 'A' <= c <= 'Z' then c - 'A' + 'a' else c
  }

  // strings.ToLower
  function Lower(s: string): string {
    seq(|s|, i requires 0 <= i < |s| => LowerChar(s[i]))
  }

  lemma LowerIdempotent(s: string)
    ensures Lower(Lower(s)) == Lower(s)
  {}

  // strings.EqualFold
  predicate EqualFold(a: string, b: string) {
    Lower(a) == Lower(b)
  }

  lemma LowerTight(s: string)
    ensures Tight(Lower(s)) <==> Tight(s)
    ensures Lower(s) == "" <==> s == ""
  {}

  // The same letter, in the same case or not.
  predicate SameLetter(c: char, d: char) {
    c == d || ('A' <= c <= 'Z' && d as int == c as int + 32) || ('A' <= d <= 'Z' && c as int == d as int + 32)
  }

  // Names that differ in case, and only those, are the same name.
  lemma FoldsCase(a: string, b: string)
    ensures EqualFold(a, b) <==> |a| == |b| && forall i :: 0 <= i < |a| ==> SameLetter(a[i], b[i])
  {
    assert |Lower(a)| == |a| && |Lower(b)| == |b|;
    forall i | 0 <= i < |a| && i < |b| ensures SameLetter(a[i], b[i]) <==> Lower(a)[i] == Lower(b)[i] {
      Folds(a[i], b[i]);
    }
    if |a| == |b| && forall i :: 0 <= i < |a| ==> SameLetter(a[i], b[i]) {
      assert forall i :: 0 <= i < |a| ==> Lower(a)[i] == Lower(b)[i];
      assert Lower(a) == Lower(b);
    }
  }

  lemma Folds(c: char, d: char)
    ensures SameLetter(c, d) <==> LowerChar(c) == LowerChar(d)
  {}

  // strings.TrimRight(s, "\r\n")
  function TrimNewlines(s: string): (r: string)
    ensures r <= s
    ensures s == "" || (s[|s| - 1] != '\r' && s[|s| - 1] != '\n') ==> r == s
  {
    if s != "" && (s[|s| - 1] == '\r' || s[|s| - 1] == '\n') then TrimNewlines(s[..|s| - 1]) else s
  }

  lemma {:induction false} TrimsNewlines(text: string, tail: string)
    requires text == "" || (text[|text| - 1] != '\r' && text[|text| - 1] != '\n')
    requires forall i :: 0 <= i < |tail| ==> tail[i] == '\r' || tail[i] == '\n'
    ensures TrimNewlines(text + tail) == text
  {
    if tail == "" {
      assert text + tail == text;
    } else {
      assert (text + tail)[..|text + tail| - 1] == text + tail[..|tail| - 1];
      TrimsNewlines(text, tail[..|tail| - 1]);
    }
  }

  // fmt's %d
  function Decimal(n: nat): (r: string)
    ensures r != "" && forall c :: c in r ==> '0' <= c <= '9'
  {
    var digit := [('0' as int + n % 10) as char];
    if n < 10 then digit else Decimal(n / 10) + digit
  }

  // fmt's %04d
  function Decimal4(n: nat): string {
    var d := Decimal(n);
    if |d| < 4 then seq(4 - |d|, _ => '0') + d else d
  }

  // At least four places, filled up with zeros and with nothing else.
  lemma PaddedTo4(n: nat)
    ensures var d, p := Decimal(n), Decimal4(n);
      && |p| == (if |d| < 4 then 4 else |d|) && p[|p| - |d|..] == d
      && forall i :: 0 <= i < |p| - |d| ==> p[i] == '0'
  {
    hide Decimal;
    assert Decimal4(n)[|Decimal4(n)| - |Decimal(n)|..] == Decimal(n);
  }

  lemma DecimalTail(n: nat)
    ensures Decimal(n)[|Decimal(n)| - 1] as int == '0' as int + n % 10
    ensures |Decimal(n)| == 1 <==> n < 10
    ensures n >= 10 ==> Decimal(n)[..|Decimal(n)| - 1] == Decimal(n / 10)
  {}

  lemma {:induction false} DecimalInjective(a: nat, b: nat)
    requires Decimal(a) == Decimal(b)
    ensures a == b
  {
    DecimalTail(a);
    DecimalTail(b);
    if a >= 10 {
      DecimalInjective(a / 10, b / 10);
    }
  }
}
