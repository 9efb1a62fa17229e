// Message history as the store serves it: filter, newest first, limited; and what a client
// sees when it pages backwards with "before".
module Paging {
  import opened Text
  import opened HubModel
  import opened BrowserStore

  datatype Row = Row(message: Message, at: int)

  function RoomRows(table: set<Row>, room: RoomId): set<Row> {
    set r | r in table && r.message.room == Some(room)
  }

  predicate Between(m: Message, a: UserId, b: UserId) {
    && m.room == None
    && ((m.sender == a && m.recipient == Some(b)) || (m.sender == b && m.recipient == Some(a)))
  }

  function DmRows(table: set<Row>, a: UserId, b: UserId): set<Row> {
    set r | r in table && Between(r.message, a, b)
  }

  function Before(rows: set<Row>, before: int): set<Row> {
    set r | r in rows && r.at < before
  }

  function Limit(limit: int): nat {
    if limit <= 0 then 50 else limit
  }

  function Rows(page: seq<Row>): set<Row> {
    set r | r in page
  }

  // What "where ... and created_at < before order by created_at desc limit n" may return;
  // rows with equal times come in any order.
  ghost predicate IsPage(rows: set<Row>, limit: int, before: int, page: seq<Row>) {
    && Rows(page) <= Before(rows, before)
    && |page| == |Rows(page)|
    && |page| == (if |Before(rows, before)| < Limit(limit) then |Before(rows, before)| else Limit(limit))
    && (forall i, j :: 0 <= i < j < |page| ==> page[i].at >= page[j].at)
    && (forall r, p :: r in Before(rows, before) && r !in page && p in page ==> r.at <= p.at)
  }

  // A short page is the last one: it holds everything.
  lemma ShortPageIsAll(rows: set<Row>, limit: int, before: int, page: seq<Row>)
    requires IsPage(rows, limit, before, page) && |page| < Limit(limit)
    ensures Rows(page) == Before(rows, before)
  {
    SubsetSize(Rows(page), Before(rows, before));
  }

  lemma SubsetSize(a: set<Row>, b: set<Row>)
    requires a <= b && |a| == |b|
    ensures a == b
  {
    assert |b - a| == |b| - |a|;
    assert b - a == {};
  }

  // The rows at or after time t, and those after it.
  function From(rows: set<Row>, t: int, before: int): set<Row> {
    set r | r in rows && t <= r.at < before
  }

  function After(rows: set<Row>, t: int, before: int): set<Row> {
    set r | r in rows && t < r.at < before
  }

  // The time of the last row that fits a full page.
  ghost predicate IsCut(rows: set<Row>, limit: int, before: int, t: int) {
    && |After(rows, t, before)| < Limit(limit) <= |From(rows, t, before)|
    && t < before && exists r :: r in rows && r.at == t
  }

  lemma SubsetAtMost(a: set<Row>, b: set<Row>)
    requires a <= b
    ensures |a| <= |b|
  {
    assert |b - a| == |b| - |a|;
  }

  // The table and the limit alone decide where a full page ends.
  lemma CutIsUnique(rows: set<Row>, limit: int, before: int, t: int, u: int)
    requires IsCut(rows, limit, before, t) && IsCut(rows, limit, before, u)
    ensures t == u
  {
    if t < u {
      SubsetAtMost(From(rows, u, before), After(rows, t, before));
    } else if u < t {
      SubsetAtMost(From(rows, t, before), After(rows, u, before));
    }
  }

  // A page ends at that time; it leaves out no row of its oldest time exactly when
  // there are not more rows up to that time than fit.
  lemma PageEnds(rows: set<Row>, limit: int, before: int, page: seq<Row>)
    requires IsPage(rows, limit, before, page) && page != []
    ensures var t := page[|page| - 1].at;
      && (|page| == Limit(limit) ==> IsCut(rows, limit, before, t))
      && ((forall r :: r in rows && r.at == t ==> r in page) <==> |From(rows, t, before)| == |page|)
  {
    var last := page[|page| - 1];
    var t := last.at;
    assert last in Rows(page) && last in page;
    assert After(rows, t, before) <= Rows(page) - {last} by { NewerAreIn(rows, limit, before, page); }
    SubsetAtMost(After(rows, t, before), Rows(page) - {last});
    assert Rows(page) <= From(rows, t, before) by { OldestIsLast(rows, limit, before, page); }
    SubsetAtMost(Rows(page), From(rows, t, before));
    if |From(rows, t, before)| == |page| {
      SubsetSize(Rows(page), From(rows, t, before));
      forall r | r in rows && r.at == t ensures r in page { assert r in From(rows, t, before); }
    }
    if forall r :: r in rows && r.at == t ==> r in page {
      forall r | r in From(rows, t, before) ensures r in Rows(page) {
        if r.at > t { assert r in After(rows, t, before); }
      }
      assert From(rows, t, before) == Rows(page);
    }
  }

  lemma NewerAreIn(rows: set<Row>, limit: int, before: int, page: seq<Row>)
    requires IsPage(rows, limit, before, page) && page != []
    ensures After(rows, page[|page| - 1].at, before) <= Rows(page) - {page[|page| - 1]}
  {
    forall r | r in After(rows, page[|page| - 1].at, before) ensures r in page {
      assert r in Before(rows, before) && page[|page| - 1] in page;
    }
  }

  lemma OldestIsLast(rows: set<Row>, limit: int, before: int, page: seq<Row>)
    requires IsPage(rows, limit, before, page) && page != []
    ensures Rows(page) <= From(rows, page[|page| - 1].at, before)
  {
    forall p | p in page ensures p in From(rows, page[|page| - 1].at, before) {
      var i :| 0 <= i < |page| && page[i] == p;
      assert p in Rows(page);
    }
  }

  // Paging on with before = the time of the page's oldest row repeats nothing, and misses nothing
  // exactly when the table has no more rows up to that time than fit the page.
  lemma NextPageContinues(rows: set<Row>, limit: int, before: int, page: seq<Row>)
    requires IsPage(rows, limit, before, page) && page != []
    ensures var oldest := page[|page| - 1].at;
      && Rows(page) !! Before(rows, oldest)
      && (Rows(page) + Before(rows, oldest) == Before(rows, before) <==> |From(rows, oldest, before)| == |page|)
  {
    PageEnds(rows, limit, before, page);
    var last := page[|page| - 1];
    assert last in page && last.at < before;
    OldestIsLast(rows, limit, before, page);
    if forall r :: r in rows && r.at == last.at ==> r in page {
      forall r | r in Before(rows, before) ensures r in Rows(page) + Before(rows, last.at) {
        if r !in page { assert r.at <= last.at; }
      }
    } else {
      var r :| r in rows && r.at == last.at && r !in page;
      assert r in Before(rows, before) && r !in Rows(page) + Before(rows, last.at);
    }
  }

  // Paging back until a page comes short, each time from the oldest row seen.
  ghost predicate IsPaging(rows: set<Row>, limit: int, before: int, pages: seq<seq<Row>>)
    decreases |pages|
  {
    && pages != [] && IsPage(rows, limit, before, pages[0])
    && if |pages| == 1 then |pages[0]| < Limit(limit)
       else |pages[0]| == Limit(limit) && IsPaging(rows, limit, pages[0][|pages[0]| - 1].at, pages[1..])
  }

  function Joined(pages: seq<seq<Row>>): seq<Row> {
    if pages == [] then [] else pages[0] + Joined(pages[1..])
  }

  // Newest first, and no row twice.
  predicate Listing(s: seq<Row>) {
    forall i, j :: 0 <= i < j < |s| ==> s[i].at >= s[j].at && s[i] != s[j]
  }

  // Counting back from the start in steps of the limit, no step falls between rows of equal times.
  // This is a condition on the table, whatever pages the database returns.
  ghost predicate NothingCut(rows: set<Row>, limit: int, before: int)
    decreases Before(rows, before)
  {
    || |Before(rows, before)| < Limit(limit)
    || exists t ::
         && IsCut(rows, limit, before, t) && |From(rows, t, before)| == Limit(limit)
         && Before(rows, t) < Before(rows, before) && NothingCut(rows, limit, t)
  }

  lemma CutGoesOn(rows: set<Row>, limit: int, before: int, t: int)
    requires IsCut(rows, limit, before, t) && |Before(rows, before)| >= Limit(limit)
    ensures NothingCut(rows, limit, before) <==> |From(rows, t, before)| == Limit(limit) && NothingCut(rows, limit, t)
  {
    var r :| r in rows && r.at == t;
    assert r in Before(rows, before) && r !in Before(rows, t);
    assert Before(rows, t) < Before(rows, before);
    hide IsCut;
    if NothingCut(rows, limit, before) {
      var u :| IsCut(rows, limit, before, u) && |From(rows, u, before)| == Limit(limit)
        && Before(rows, u) < Before(rows, before) && NothingCut(rows, limit, u);
      CutIsUnique(rows, limit, before, t, u);
    }
  }

  lemma Covers(all: set<Row>, older: set<Row>, page: set<Row>, rest: set<Row>)
    requires page <= all && older <= all && rest <= older && page !! older
    ensures page + rest == all <==> page + older == all && rest == older
  {
    if page + rest == all {
      forall r | r in older ensures r in rest { assert r in page + rest; }
    }
  }

  // Paging to the end lists rows newest first and never twice, all of them from before the start;
  // it lists every one of those exactly when no page has to cut between rows of equal times.
  lemma {:induction false} PagesListAll(rows: set<Row>, limit: int, before: int, pages: seq<seq<Row>>)
    requires IsPaging(rows, limit, before, pages)
    ensures Listing(Joined(pages)) && Rows(Joined(pages)) <= Before(rows, before)
    ensures Rows(Joined(pages)) == Before(rows, before) <==> NothingCut(rows, limit, before)
    decreases |pages|
  {
    var page, rest := pages[0], pages[1..];
    PageIsListing(rows, limit, before, page);
    if |pages| == 1 {
      ShortPageIsAll(rows, limit, before, page);
      assert Joined(rest) == [];
      assert Joined(pages) == page;
    } else {
      var oldest := page[|page| - 1].at;
      assert |Before(rows, before)| >= Limit(limit);
      assert Joined(pages) == page + Joined(rest);
      hide IsPage, IsPaging, Joined, Listing, Before, NothingCut, IsCut, From;
      PagesListAll(rows, limit, oldest, rest);
      NextPageContinues(rows, limit, before, page);
      OldestIsBefore(rows, limit, before, page);
      PageEnds(rows, limit, before, page);
      CutGoesOn(rows, limit, before, oldest);
      OlderThan(rows, oldest, Joined(rest));
      AppendOlder(page, Joined(rest), oldest);
      Covers(Before(rows, before), Before(rows, oldest), Rows(page), Rows(Joined(rest)));
    }
  }

  lemma OlderThan(rows: set<Row>, oldest: int, older: seq<Row>)
    requires Rows(older) <= Before(rows, oldest)
    ensures forall r :: r in Rows(older) ==> r.at < oldest
  {}

  // Three messages in a room, two of one time, pages of two: the third is never listed.
  function Said(id: nat): Message {
    Message(id, Some(0), 0, None, "")
  }

  lemma ATieIsLost()
    ensures var newest, tied, lost := Row(Said(0), 2), Row(Said(1), 1), Row(Said(2), 1);
      var rows := RoomRows({newest, tied, lost}, 0);
      && IsPaging(rows, 2, 3, [[newest, tied], []])
      && lost in Before(rows, 3) && lost !in Joined([[newest, tied], []])
  {
    var newest, tied, lost := Row(Said(0), 2), Row(Said(1), 1), Row(Said(2), 1);
    var rows := RoomRows({newest, tied, lost}, 0);
    assert rows == {newest, tied, lost} && Before(rows, 3) == rows && Before(rows, 1) == {};
    assert |rows| == 3;
    assert Rows([newest, tied]) == {newest, tied} && Rows([]) == {};
    assert IsPage(rows, 2, 3, [newest, tied]);
    assert [[newest, tied], []][1..] == [[]] && IsPage(rows, 2, 1, []);
    assert IsPaging(rows, 2, 1, [[]]);
    assert Joined([[]]) == [] + Joined([[]][1..]) && Joined([[newest, tied], []]) == [newest, tied] + Joined([[]]);
  }

  lemma OldestIsBefore(rows: set<Row>, limit: int, before: int, page: seq<Row>)
    requires IsPage(rows, limit, before, page) && page != []
    ensures Before(rows, page[|page| - 1].at) <= Before(rows, before) && Rows(page) <= Before(rows, before)
  {
    assert page[|page| - 1] in Rows(page);
  }

  lemma AppendOlder(page: seq<Row>, older: seq<Row>, oldest: int)
    requires Listing(page) && Listing(older) && page != [] && page[|page| - 1].at == oldest
    requires forall r :: r in Rows(older) ==> r.at < oldest
    ensures Listing(page + older) && Rows(page + older) == Rows(page) + Rows(older)
  {
    forall i, j | 0 <= i < j < |page + older|
      ensures (page + older)[i].at >= (page + older)[j].at && (page + older)[i] != (page + older)[j]
    {
      if j >= |page| { assert older[j - |page|] in Rows(older); }
    }
  }

  // No row comes twice in a page: it is as long as the set of its rows is large.
  lemma PageIsListing(rows: set<Row>, limit: int, before: int, page: seq<Row>)
    requires IsPage(rows, limit, before, page)
    ensures Listing(page)
  {
    forall i, j | 0 <= i < j < |page| ensures page[i] != page[j] {
      if page[i] == page[j] { SizeDrops(page, i, j); }
    }
  }

  lemma SizeDrops(page: seq<Row>, i: nat, j: nat)
    requires i < j < |page| && page[i] == page[j]
    ensures |Rows(page)| < |page|
  {
    var shorter := page[..j] + page[j + 1..];
    assert Rows(page) == Rows(shorter) by {
      forall r | r in page ensures r in shorter {
        var k :| 0 <= k < |page| && page[k] == r;
        if k < j { assert shorter[k] == r; }
        else if k == j { assert shorter[i] == r; }
        else { assert shorter[k - 1] == r; }
      }
    }
    RowsAtMost(shorter);
  }

  lemma {:induction false} RowsAtMost(s: seq<Row>)
    ensures |Rows(s)| <= |s|
  {
    if s != [] {
      RowsAtMost(s[1..]);
      assert Rows(s) == Rows(s[1..]) + {s[0]};
    }
  }

  // scanMessages appends row by row to a slice that starts out nil: without rows it stays nil.
  method ScanMessages(rows: seq<Row>) returns (out: array?<Message>)
    ensures out == null <==> rows == []
    ensures out != null ==> fresh(out) && out[..] == Messages(rows)
  {
    out := null;
    for i := 0 to |rows|
      invariant out == null <==> i == 0
      invariant out != null ==> fresh(out) && out[..] == Messages(rows[..i])
    {
      var was := if out == null then [] else out[..];
      var grown := new Message[i + 1](k requires 0 <= k <= i => if k < |was| then was[k] else rows[i].message);
      assert grown[..] == Messages(rows[..i + 1]);
      out := grown;
    }
    assert rows[..|rows|] == rows;
  }

  function Messages(rows: seq<Row>): (m: seq<Message>)
    ensures |m| == |rows| && forall i :: 0 <= i < |rows| ==> m[i] == rows[i].message
  {
    seq(|rows|, i requires 0 <= i < |rows| => rows[i].message)
  }

  // A history, from the query to the screen: a page with rows replaces the thread, oldest first; an
  // empty one leaves whatever the thread showed before.
  method OpenHistory(store: ChatStore, key: Key, page: seq<Row>)
    modifies store
    ensures store.state == if page == [] then old(store.state) else LoadHistory(old(store.state), key, Messages(page))
  {
    var out := ScanMessages(page);
    var ok := store.ShowHistory(key, out);
  }

  // The thread loaded from a page is in order of time.
  lemma LoadedThreadIsChronological(rows: set<Row>, limit: int, before: int, page: seq<Row>)
    requires IsPage(rows, limit, before, page)
    ensures forall i, j :: 0 <= i < j < |page| ==> Reversed(page)[i].at <= Reversed(page)[j].at
  {}

  // ListDMs does not depend on who asks.
  lemma DmsAreSymmetric(table: set<Row>, a: UserId, b: UserId)
    ensures DmRows(table, a, b) == DmRows(table, b, a)
  {
    assert forall m :: Between(m, a, b) <==> Between(m, b, a);
  }

  // No message is in a room's history and in a conversation, and none is in two conversations.
  lemma HistoriesAreApart(table: set<Row>, room: RoomId, a: UserId, b: UserId, c: UserId, d: UserId)
    ensures RoomRows(table, room) !! DmRows(table, a, b)
    ensures DmRows(table, a, b) !! DmRows(table, c, d) || {a, b} == {c, d}
  {
    if r :| r in DmRows(table, a, b) && r in DmRows(table, c, d) {
      assert {a, b} == {r.message.sender, r.message.recipient.value};
      assert {c, d} == {r.message.sender, r.message.recipient.value};
    }
  }

  // Live and stored agree: of the direct messages that reach a user's browser, the store files
  // under the other party exactly those the history query for that party returns.
  lemma LiveKeyAgreesWithHistory(self: UserId, other: UserId, m: Message)
    requires m.room == None && (m.sender == self || m.recipient == Some(self))
    ensures ThreadKey(self, m) == Some(DmKey(other)) <==> Between(m, self, other)
  {}

  // What the two history queries select is what the store files under the thread, live: under a room its
  // messages, and under another party, for anyone's own messages, the conversation with that party.
  lemma QueriesSelectThreads(self: UserId, table: set<Row>, row: Row, room: RoomId, other: UserId)
    requires row in table
    ensures row in RoomRows(table, room) <==> ThreadKey(self, row.message) == Some(RoomKey(room))
    ensures row.message.sender == self || row.message.recipient == Some(self) ==>
      (row in DmRows(table, self, other) <==> ThreadKey(self, row.message) == Some(DmKey(other)))
  {
    if row.message.room == None && (row.message.sender == self || row.message.recipient == Some(self)) {
      LiveKeyAgreesWithHistory(self, other, row.message);
    }
  }

  // A page never holds more than was asked for, fifty if nothing sensible was, and holds that many if there are.
  lemma PageIsBounded(rows: set<Row>, limit: int, before: int, page: seq<Row>)
    requires IsPage(rows, limit, before, page)
    ensures var most := if limit > 0 then limit else 50;
      |page| <= most && (|page| == most <==> |set r | r in rows && r.at < before| >= most)
  {
    assert Before(rows, before) == set r | r in rows && r.at < before;
  }

  // Without the second premise this fails: the live key of a message from another user is that
  // user, whoever the recipient is.
  lemma LiveKeyTrustsDelivery(self: UserId, sender: UserId, recipient: UserId, m: Message)
    requires m.room == None && m.sender == sender && m.recipient == Some(recipient) && sender != self
    ensures ThreadKey(self, m) == Some(DmKey(sender))
    ensures Between(m, self, sender) <==> recipient == self
  {}
}
