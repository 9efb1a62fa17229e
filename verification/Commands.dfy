// Parsing of user input: room and user names, slash commands, /msg arguments.
module Commands {
  import opened Text

  function NormalizeRoomKey(name: string): (key: string) {
    Lower(Trim(name))
  }

  predicate IsAlnum(c: char) {
    'a' <= c <= 'z' || 'A' <= c <= 'Z' || '0' <= c <= '9'
  }

  predicate RoomNameChar(c: char) {
    IsAlnum(c) || c == '-' || c == '_' || c == ' '
  }

  predicate UserNameChar(c: char) {
    IsAlnum(c) || c == '-' || c == '_'
  }

  function SanitizeRoomName(name: string): (r: Option<string>)
    ensures r.Some? ==>
      && Tight(r.value) && 1 <= |r.value| <= 32
      && forall c :: c in r.value ==> RoomNameChar(c)
  {
    var t := Trim(name);
    if t == "" || |t| > 32 then None
    else if exists i :: 0 <= i < |t| && !RoomNameChar(t[i]) then None
    else Some(t)
  }

  function SanitizeUserName(name: string): (r: Option<string>)
    ensures r.Some? ==>
      && 3 <= |r.value| <= 24
      && forall c :: c in r.value ==> UserNameChar(c)
  {
    var t := Trim(name);
    if |t| < 3 || |t| > 24 then None
    else if exists i :: 0 <= i < |t| && !UserNameChar(t[i]) then None
    else Some(t)
  }

  // Accepted names are fixed points: sanitizing again changes nothing.
  lemma SanitizeIsIdempotent(name: string)
    ensures SanitizeRoomName(name).Some? ==> SanitizeRoomName(SanitizeRoomName(name).value) == SanitizeRoomName(name)
    ensures SanitizeUserName(name).Some? ==> SanitizeUserName(SanitizeUserName(name).value) == SanitizeUserName(name)
  {
    TrimTight(Trim(name));
  }

  // Position of the first blank, or |s|: where strings.SplitN(s, " ", 2) cuts.
  function FirstBlank(s: string, i: nat): (n: nat)
    requires i <= |s|
    ensures i <= n <= |s| && (forall j :: i <= j < n ==> s[j] != ' ') && (n < |s| ==> s[n] == ' ')
    decreases |s| - i
  {
    if i < |s| && s[i] != ' ' then FirstBlank(s, i + 1) else i
  }

  datatype Command = Command(cmd: string, args: string)

  function Unslashed(t: string): string {
    if t != "" && t[0] == '/' then t[1..] else t
  }

  function SplitCommand(t: string): Command {
    var n := FirstBlank(t, 0);
    if t == "" then Command("", "")
    else if n == |t| then Command(Lower(t), "")
    else Command(Lower(t[..n]), Trim(t[n + 1..]))
  }

  function ParseCommand(raw: string): Command {
    SplitCommand(Unslashed(Trim(raw)))
  }

  // A command/argument pair that can be typed without the parser changing it.
  predicate Typable(cmd: string, args: string) {
    && Lower(cmd) == cmd && ' ' !in cmd
    && Tight(args)
    && (args == "" && cmd != "" ==> !IsSpace(cmd[|cmd| - 1]))
  }

  // ParseCommand on an input of the form blank* "/" body blank*, with body tight at its end.
  lemma ParseBody(raw: string, body: string)
    requires Trim(raw) == "/" + body
    ensures ParseCommand(raw) == SplitCommand(body)
  {
    hide Trim, SplitCommand;
    assert ("/" + body)[1..] == body;
  }

  lemma TypedBody(cmd: string, args: string)
    requires args == "" && cmd != "" ==> !IsSpace(cmd[|cmd| - 1])
    requires Tight(args)
    ensures Trim("/" + cmd + " " + args) == "/" + (if args == "" then cmd else cmd + " " + args)
  {
    hide Trim;
    if args == "" {
      TrimIs("", "/" + cmd, " ");
      assert "/" + cmd + " " + args == "" + ("/" + cmd) + " ";
    } else {
      var raw := "/" + cmd + " " + args;
      assert raw[|raw| - 1] == args[|args| - 1];
      TrimTight(raw);
      assert raw == "/" + (cmd + " " + args);
    }
  }

  lemma SplitTyped(cmd: string, args: string)
    requires ' ' !in cmd && Tight(args)
    ensures SplitCommand(if args == "" then cmd else cmd + " " + args) == Command(Lower(cmd), args)
  {
    hide Trim, FirstBlank, Lower;
    if args != "" {
      var body := cmd + " " + args;
      assert body[|cmd|] == ' ';
      assert FirstBlank(body, 0) == |cmd| && body[..|cmd|] == cmd && body[|cmd| + 1..] == args;
      TrimTight(args);
    } else {
      assert cmd == "" ==> Lower(cmd) == "" by { LowerTight(cmd); }
    }
  }

  lemma ParseTyped(cmd: string, args: string)
    requires ' ' !in cmd && Tight(args)
    requires args == "" && cmd != "" ==> !IsSpace(cmd[|cmd| - 1])
    ensures ParseCommand("/" + cmd + " " + args) == Command(Lower(cmd), args)
  {
    hide Trim, SplitCommand, ParseCommand, Lower;
    TypedBody(cmd, args);
    SplitTyped(cmd, args);
    ParseBody("/" + cmd + " " + args, if args == "" then cmd else cmd + " " + args);
  }

  lemma LowerKeeps(s: string)
    requires ' ' !in s
    ensures ' ' !in Lower(s) && Lower(Lower(s)) == Lower(s) && |Lower(s)| == |s|
    ensures s != "" && !IsSpace(s[|s| - 1]) ==> !IsSpace(Lower(s)[|s| - 1])
  {
    assert forall i :: 0 <= i < |s| ==> s[i] in s && Lower(s)[i] == LowerChar(s[i]) != ' ';
    LowerIdempotent(s);
  }

  lemma SplitIsTypable(t: string)
    requires t != "" ==> !IsSpace(t[|t| - 1])
    ensures var p := SplitCommand(t); Typable(p.cmd, p.args)
  {
    hide Trim, FirstBlank, Lower, IsSpace;
    var n := FirstBlank(t, 0);
    LowerKeeps(t[..n]);
    if n < |t| {
      var rest := t[n + 1..];
      assert IsSpace(t[n]) by { SpaceIsSpace(); }
      assert rest != "" && rest[|rest| - 1] == t[|t| - 1];
      NotBlank(rest);
    } else {
      assert t[..n] == t;
      assert t == "" ==> Lower(t) == "";
    }
  }

  lemma SpaceIsSpace()
    ensures IsSpace(' ')
  {}

  // The parser never returns a pair that could not have been typed.
  lemma ParseIsTypable(raw: string)
    ensures var p := ParseCommand(raw); Typable(p.cmd, p.args)
  {
    hide Trim, SplitCommand, Typable, IsSpace;
    SplitIsTypable(Unslashed(Trim(raw)));
  }

  lemma NotBlank(s: string)
    requires s != "" && !IsSpace(s[|s| - 1])
    ensures Trim(s) != ""
  {}

  // A trailing space after a bare command is lost.
  lemma ParseShrinks(cmd: string)
    requires cmd != "" && IsSpace(cmd[|cmd| - 1]) && ' ' !in cmd
    ensures |ParseCommand("/" + cmd + " ").cmd| < |cmd|
  {
    hide SkipSpaces, SkipBack, FirstBlank;
    var raw := "/" + cmd + " ";
    assert !IsSpace(raw[0]) && IsSpace(raw[|cmd|]) && IsSpace(raw[|cmd| + 1]);
    assert SkipSpaces(raw, 0) == 0;
    assert |Trim(raw)| <= |cmd|;
    assert Trim(raw)[0] == '/';
  }

  // parseCommand inverts "/" + cmd + " " + args exactly on the typable pairs.
  lemma ParseRoundTrip(cmd: string, args: string)
    ensures ParseCommand("/" + cmd + " " + args) == Command(cmd, args) <==> Typable(cmd, args)
  {
    hide ParseCommand;
    ParseIsTypable("/" + cmd + " " + args);
    if Typable(cmd, args) {
      ParseTyped(cmd, args);
    }
  }

  // ---- /msg <user> <text>

  function FirstSpace(s: string, i: nat): (n: nat)
    requires i <= |s|
    ensures i <= n <= |s| && (forall j :: i <= j < n ==> !IsSpace(s[j])) && (n < |s| ==> IsSpace(s[n]))
    decreases |s| - i
  {
    if i < |s| && !IsSpace(s[i]) then FirstSpace(s, i + 1) else i
  }

  // strings.Fields of s[i..]
  function Fields(s: string, i: nat): (parts: seq<string>)
    requires i <= |s|
    ensures parts == [] <==> SkipSpaces(s, i) == |s|
    decreases |s| - i
  {
    var a := SkipSpaces(s, i);
    if a == |s| then []
    else
      var b := FirstSpace(s, a);
      [s[a..b]] + Fields(s, b)
  }

  datatype Direct = Usage | EmptyBody | Send(target: string, body: string)

  // cmdMsg up to the call of directMessage: the body starts |parts[0]| characters in.
  function SplitMsg(args: string): (d: Direct) {
    var parts := Fields(args, 0);
    if |parts| < 2 then Usage
    else
      assert |parts[0]| == FirstSpace(args, SkipSpaces(args, 0)) - SkipSpaces(args, 0);
      var message := Trim(args[|parts[0]|..]);
      if Trim(message) == "" then EmptyBody else Send(parts[0], message)
  }

  // args is a space-free target, a non-empty gap of white space and a tight body.
  ghost predicate Splits(args: string, target: string, body: string) {
    var n, m := |target|, |args| - |body|;
    && 0 < n < m < |args|
    && args[..n] == target && args[m..] == body
    && (forall j :: 0 <= j < n ==> !IsSpace(args[j]))
    && (forall j :: n <= j < m ==> IsSpace(args[j]))
    && Tight(body)
  }

  // On trimmed arguments, which is all parseCommand produces, the "message body"
  // check never fires and the body keeps its inner spacing.
  lemma SplitMsgExact(args: string)
    requires Tight(args)
    ensures !SplitMsg(args).EmptyBody?
    ensures SplitMsg(args).Send? <==> exists j :: 0 <= j < |args| && IsSpace(args[j])
    ensures SplitMsg(args).Send? ==> Splits(args, SplitMsg(args).target, SplitMsg(args).body)
  {
    hide SkipSpaces, SkipBack, FirstSpace, Trim, Splits;
    assert SkipSpaces(args, 0) == 0;
    var n := FirstSpace(args, 0);
    if args != "" && n < |args| {
      var m := SkipSpaces(args, n);
      assert m < |args| && n < m;
      TwoFields(args, n);
      TrimBody(args, n, m);
      CutSplits(args, n, m);
    } else if args != "" {
      assert Fields(args, 0) == [args[0..n]] + Fields(args, n);
    }
  }

  lemma TwoFields(args: string, n: nat)
    requires args != "" && n < |args| && n == FirstSpace(args, 0) && SkipSpaces(args, 0) == 0
    requires SkipSpaces(args, n) < |args|
    ensures |Fields(args, 0)| >= 2 && Fields(args, 0)[0] == args[..n]
  {
    hide SkipSpaces, FirstSpace;
    assert Fields(args, 0) == [args[0..n]] + Fields(args, n);
  }

  lemma TrimBody(args: string, n: nat, m: nat)
    requires Tight(args) && n < m < |args| && m == SkipSpaces(args, n)
    ensures Trim(args[n..]) == args[m..] && Trim(args[m..]) == args[m..] && Tight(args[m..])
  {
    hide SkipSpaces, Trim;
    var rest := args[n..];
    assert rest[m - n..|rest|] == args[m..];
    TrimBetween(rest, m - n, |rest|);
    TrimTight(args[m..]);
  }

  lemma CutSplits(args: string, n: nat, m: nat)
    requires 0 < n < m < |args| && n == FirstSpace(args, 0) && m == SkipSpaces(args, n) && Tight(args[m..])
    ensures Splits(args, args[..n], args[m..])
  {
    hide SkipSpaces, FirstSpace;
  }

  // ---- parseOptionalInt

  const MAX_INT := 0x7FFF_FFFF_FFFF_FFFF

  function Digits(s: string): (r: Option<nat>) {
    if s == "" then None
    else if !('0' <= s[|s| - 1] <= '9') then None
    else
      var d := s[|s| - 1] as int - '0' as int;
      if |s| == 1 then Some(d)
      else match Digits(s[..|s| - 1])
        case None => None
        case Some(n) => Some(10 * n + d)
  }

  // strconv.Atoi on a 64-bit platform
  function Atoi(s: string): (r: Option<int>)
    ensures r.Some? ==> -MAX_INT - 1 <= r.value <= MAX_INT
  {
    var neg := s != "" && s[0] == '-';
    var body := if s != "" && (s[0] == '-' || s[0] == '+') then s[1..] else s;
    match Digits(body)
    case None => None
    case Some(n) =>
      var v: int := if neg then 0 - n else n;
      if -MAX_INT - 1 <= v <= MAX_INT then Some(v) else None
  }

  function ParseOptionalInt(value: string, fallback: int): Option<int> {
    if Trim(value) == "" then Some(fallback) else Atoi(value)
  }

  predicate AllDigits(s: string) {
    forall i :: 0 <= i < |s| ==> '0' <= s[i] <= '9'
  }

  // A number is read from digits and nothing else.
  lemma {:induction false} DigitsExact(s: string)
    ensures Digits(s).Some? <==> s != "" && AllDigits(s)
  {
    if |s| > 1 && '0' <= s[|s| - 1] <= '9' {
      DigitsExact(s[..|s| - 1]);
      assert s == s[..|s| - 1] + [s[|s| - 1]];
    }
  }

  lemma {:induction false} DigitsOfDecimal(n: nat)
    ensures Digits(Decimal(n)) == Some(n)
  {
    DecimalTail(n);
    if n >= 10 {
      DigitsOfDecimal(n / 10);
    }
  }

  // Zeros in front change nothing.
  lemma {:induction false} LeadingZero(s: string)
    requires s != ""
    ensures Digits("0" + s) == Digits(s)
  {
    var z := "0" + s;
    assert z[..|z| - 1] == "0" + s[..|s| - 1] && z[|z| - 1] == s[|s| - 1];
    if |s| == 1 {
      assert z[..1] == "0";
      assert Digits("0") == Some(0);
    } else {
      LeadingZero(s[..|s| - 1]);
    }
  }

  // A printed number is read back, with or without a sign, if it fits 64 bits, and refused otherwise.
  lemma NumbersAreRead(n: nat, fallback: int)
    ensures ParseOptionalInt(Decimal(n), fallback) == if n <= MAX_INT then Some(n) else None
    ensures ParseOptionalInt("+" + Decimal(n), fallback) == if n <= MAX_INT then Some(n) else None
    ensures ParseOptionalInt("-" + Decimal(n), fallback) == if n <= MAX_INT + 1 then Some(0 - n) else None
  {
    hide Trim, Decimal, Digits;
    var d := Decimal(n);
    DigitsOfDecimal(n);
    DigitsExact(d);
    assert d[0] != '-' && d[0] != '+' && !IsSpace(d[|d| - 1]);
    NotBlank(d); NotBlank("+" + d); NotBlank("-" + d);
    assert ("+" + d)[1..] == d && ("-" + d)[1..] == d;
  }

  // Blank input is the default; anything but an optional sign and digits is an error.
  lemma OnlyNumbersAreRead(value: string, fallback: int)
    ensures var signed := value != "" && (value[0] == '-' || value[0] == '+');
      var digits := if signed then value[1..] else value;
      && (Trim(value) == "" ==> ParseOptionalInt(value, fallback) == Some(fallback))
      && (Trim(value) != "" && (digits == "" || !AllDigits(digits)) ==> ParseOptionalInt(value, fallback).None?)
  {
    hide Trim, Digits;
    var signed := value != "" && (value[0] == '-' || value[0] == '+');
    DigitsExact(if signed then value[1..] else value);
  }
}
