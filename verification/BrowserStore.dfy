// The browser's chat store: what each WebSocket event does to threads, presence and typing.
module BrowserStore {
  import opened Text
  import opened HubModel

  // Thread keys: a room id, "dm:" + user id, or "global".
  datatype Key = RoomKey(room: RoomId) | DmKey(user: UserId) | Global

  datatype Store = Store(messages: map<Key, seq<Message>>, presence: map<UserId, bool>, typing: map<Key, seq<UserId>>)

  const Empty := Store(map[], map[], map[])

  function Thread(s: Store, key: Key): seq<Message> {
    if key in s.messages then s.messages[key] else []
  }

  function TypingUsers(s: Store, key: Key): seq<UserId> {
    if key in s.typing then s.typing[key] else []
  }

  // A direct message is filed under the other party.
  function ThreadKey(self: UserId, m: Message): Option<Key> {
    if m.room.Some? then Some(RoomKey(m.room.value))
    else
      var other := if m.sender == self then m.recipient else Some(m.sender);
      if other.None? then None else Some(DmKey(other.value))
  }

  function TypingKey(e: Event): Key
    requires e.Typing?
  {
    if e.room.Some? then RoomKey(e.room.value)
    else if e.recipient.Some? then DmKey(e.user)
    else Global
  }

  // Set.add and Set.delete on an insertion-ordered set
  function AddUser(users: seq<UserId>, u: UserId): seq<UserId> {
    if u in users then users else users + [u]
  }

  function DeleteUser(users: seq<UserId>, u: UserId): seq<UserId> {
    if users == [] then []
    else DeleteUser(users[..|users| - 1], u) + if users[|users| - 1] == u then [] else [users[|users| - 1]]
  }

  // socket.onmessage
  function Reduce(self: UserId, s: Store, e: Event): Store {
    match e
    case MessageEvent(m) =>
      var key := ThreadKey(self, m);
      if key.None? then s else s.(messages := s.messages[key.value := Thread(s, key.value) + [m]])
    case Presence(u, online) => s.(presence := s.presence[u := online])
    case Typing(_, _, u, isTyping) =>
      var key := TypingKey(e);
      var current := TypingUsers(s, key);
      s.(typing := s.typing[key := if isTyping then AddUser(current, u) else DeleteUser(current, u)])
    case _ => s
  }

  function Fold(self: UserId, s: Store, events: seq<Event>): Store {
    if events == [] then s else Reduce(self, Fold(self, s, events[..|events| - 1]), events[|events| - 1])
  }

  // loadHistory: the server's newest-first page replaces the thread, oldest first.
  function Reversed<T>(s: seq<T>): (r: seq<T>)
    ensures |r| == |s| && forall i :: 0 <= i < |s| ==> r[i] == s[|s| - 1 - i]
  {
    if s == [] then [] else [s[|s| - 1]] + Reversed(s[..|s| - 1])
  }

  function LoadHistory(s: Store, key: Key, page: seq<Message>): Store {
    s.(messages := s.messages[key := Reversed(page)])
  }

  // ---- The folds are what they should be, by definitions that do not fold

  function MessagesFor(self: UserId, events: seq<Event>, key: Key): seq<Message> {
    if events == [] then []
    else
      var e := events[|events| - 1];
      MessagesFor(self, events[..|events| - 1], key)
      + if e.MessageEvent? && ThreadKey(self, e.message) == Some(key) then [e.message] else []
  }

  // A thread is what it was plus the messages filed under it, in arrival order.
  lemma {:induction false} ThreadIs(self: UserId, s: Store, events: seq<Event>, key: Key)
    ensures Thread(Fold(self, s, events), key) == Thread(s, key) + MessagesFor(self, events, key)
  {
    hide ThreadKey, AddUser, DeleteUser;
    if events != [] {
      ThreadIs(self, s, events[..|events| - 1], key);
    }
  }

  // The last word on whether u is online; None when no event was about u.
  function SaysOnline(events: seq<Event>, u: UserId): Option<bool> {
    if events == [] then None
    else
      var e := events[|events| - 1];
      if e.Presence? && e.user == u then Some(e.online) else SaysOnline(events[..|events| - 1], u)
  }

  // Presence shows the last event about each user, and nothing about users without events.
  lemma {:induction false} PresenceIs(self: UserId, events: seq<Event>, u: UserId)
    ensures var p := Fold(self, Empty, events).presence;
      SaysOnline(events, u) == if u in p then Some(p[u]) else None
  {
    hide ThreadKey, AddUser, DeleteUser, TypingKey;
    if events != [] {
      PresenceIs(self, events[..|events| - 1], u);
    }
  }

  // The last word on whether u is typing under key.
  function SaysTyping(events: seq<Event>, key: Key, u: UserId): bool {
    events != []
    && var e := events[|events| - 1];
       if e.Typing? && TypingKey(e) == key && e.user == u then e.isTyping
       else SaysTyping(events[..|events| - 1], key, u)
  }

  predicate NoDuplicates(s: seq<UserId>) {
    forall i, j :: 0 <= i < j < |s| ==> s[i] != s[j]
  }

  lemma {:induction false} DeleteUserIs(users: seq<UserId>, u: UserId)
    ensures forall x :: x in DeleteUser(users, u) <==> x in users && x != u
    ensures NoDuplicates(users) ==> NoDuplicates(DeleteUser(users, u))
  {
    if users != [] {
      var front, last := users[..|users| - 1], users[|users| - 1];
      DeleteUserIs(front, u);
      assert users == front + [last];
      if NoDuplicates(users) {
        assert last !in front;
      }
    }
  }

  // The typing list holds each user once, exactly those whose last event under the key said so.
  lemma {:induction false} TypingIs(self: UserId, events: seq<Event>, key: Key)
    ensures var users := TypingUsers(Fold(self, Empty, events), key);
      NoDuplicates(users) && forall u :: u in users <==> SaysTyping(events, key, u)
  {
    hide ThreadKey, DeleteUser;
    if events != [] {
      var front, e := events[..|events| - 1], events[|events| - 1];
      TypingIs(self, front, key);
      if e.Typing? && TypingKey(e) == key {
        DeleteUserIs(TypingUsers(Fold(self, Empty, front), key), e.user);
      }
    }
  }

  // ---- Where one event lands, without the keys' functions

  // The message is added at the end of this thread and nothing else changes.
  ghost predicate Filed(s: Store, t: Store, key: Key, m: Message) {
    && Thread(t, key) == Thread(s, key) + [m]
    && (forall k :: k != key ==> Thread(t, k) == Thread(s, k))
    && t.presence == s.presence && t.typing == s.typing
  }

  // A room message lands under its room; a direct one under the other party, which is the recipient for
  // one's own message and the sender for anyone else's.
  lemma MessageLands(self: UserId, s: Store, m: Message)
    ensures var t := Reduce(self, s, MessageEvent(m));
      && (m.room.Some? ==> Filed(s, t, RoomKey(m.room.value), m))
      && (m.room.None? && m.sender != self ==> Filed(s, t, DmKey(m.sender), m))
      && (m.room.None? && m.sender == self && m.recipient.Some? ==> Filed(s, t, DmKey(m.recipient.value), m))
      && (m.room.None? && m.sender == self && m.recipient.None? ==> t == s)
  {}

  // u is on the list exactly when it is typing, everyone else as before and in the same order; a newcomer
  // goes to the end. Nothing else changes.
  ghost predicate Noted(s: Store, t: Store, key: Key, u: UserId, isTyping: bool) {
    var before, after := TypingUsers(s, key), TypingUsers(t, key);
    && (u in after <==> isTyping)
    && (if isTyping then after == if u in before then before else before + [u]
        else
          && (u !in before ==> after == before)
          && forall p, q :: before == p + [u] + q && u !in p && u !in q ==> after == p + q)
    && (forall k :: k != key ==> TypingUsers(t, k) == TypingUsers(s, k))
    && t.messages == s.messages && t.presence == s.presence
  }

  lemma {:induction false} DeleteNobody(users: seq<UserId>, u: UserId)
    requires u !in users
    ensures DeleteUser(users, u) == users
  {
    if users != [] {
      DeleteNobody(users[..|users| - 1], u);
      assert users == users[..|users| - 1] + [users[|users| - 1]];
    }
  }

  lemma {:induction false} DeleteOne(p: seq<UserId>, u: UserId, q: seq<UserId>)
    requires u !in p && u !in q
    ensures DeleteUser(p + [u] + q, u) == p + q
  {
    var all := p + [u] + q;
    if q == [] {
      assert all == p + [u] && all[..|p|] == p;
      DeleteNobody(p, u);
    } else {
      var front := q[..|q| - 1];
      DeleteOne(p, u, front);
      assert all[..|all| - 1] == p + [u] + front && q == front + [q[|q| - 1]];
      assert all[|all| - 1] == q[|q| - 1] && q[|q| - 1] in q;
    }
  }

  lemma DeletedFrom(users: seq<UserId>, u: UserId)
    ensures u !in users ==> DeleteUser(users, u) == users
    ensures forall p, q :: users == p + [u] + q && u !in p && u !in q ==> DeleteUser(users, u) == p + q
  {
    if u !in users { DeleteNobody(users, u); }
    forall p, q | users == p + [u] + q && u !in p && u !in q ensures DeleteUser(users, u) == p + q {
      DeleteOne(p, u, q);
    }
  }

  lemma NotedBy(s: Store, key: Key, u: UserId, isTyping: bool)
    ensures var users := TypingUsers(s, key);
      var changed := if isTyping then AddUser(users, u) else DeleteUser(users, u);
      Noted(s, s.(typing := s.typing[key := changed]), key, u, isTyping)
  {
    hide DeleteUser;
    DeleteUserIs(TypingUsers(s, key), u);
    DeletedFrom(TypingUsers(s, key), u);
  }

  // Typing in a room lands under the room, typing to a recipient under the one who types, and typing
  // that names neither under the global list.
  lemma TypingLands(self: UserId, s: Store, e: Event)
    requires e.Typing?
    ensures var t := Reduce(self, s, e);
      && (e.room.Some? ==> Noted(s, t, RoomKey(e.room.value), e.user, e.isTyping))
      && (e.room.None? && e.recipient.Some? ==> Noted(s, t, DmKey(e.user), e.user, e.isTyping))
      && (e.room.None? && e.recipient.None? ==> Noted(s, t, Global, e.user, e.isTyping))
  {
    hide Noted, AddUser, DeleteUser, ThreadKey;
    NotedBy(s, TypingKey(e), e.user, e.isTyping);
  }

  // ---- The store object

  class ChatStore {
    const selfId: UserId
    var state: Store

    constructor (selfId: UserId)
      ensures this.selfId == selfId && state == Empty
    {
      this.selfId, state := selfId, Empty;
    }

    // The typing reducer builds a Set from the list, changes it and writes it back.
    method SetTyping(users: seq<UserId>, u: UserId, isTyping: bool) returns (r: seq<UserId>)
      ensures r == if isTyping then AddUser(users, u) else DeleteUser(users, u)
    {
      if isTyping {
        r := if u in users then users else users + [u];
        return;
      }
      r := [];
      for i := 0 to |users|
        invariant r == DeleteUser(users[..i], u)
      {
        assert users[..i + 1][..i] == users[..i];
        if users[i] != u {
          r := r + [users[i]];
        }
      }
      assert users[..|users|] == users;
    }

    method OnMessage(e: Event)
      modifies this
      ensures state == Reduce(selfId, old(state), e)
    {
      match e {
        case MessageEvent(m) =>
          var key := ThreadKey(selfId, m);
          if key.Some? {
            state := state.(messages := state.messages[key.value := Thread(state, key.value) + [m]]);
          }
        case Presence(u, online) =>
          state := state.(presence := state.presence[u := online]);
        case Typing(_, _, u, isTyping) =>
          var key := TypingKey(e);
          var users := SetTyping(TypingUsers(state, key), u, isTyping);
          state := state.(typing := state.typing[key := users]);
        case _ =>
      }
    }

    method ReverseInPlace(page: array<Message>)
      modifies page
      ensures page[..] == Reversed(old(page[..]))
    {
      var i, j := 0, page.Length;
      while i < j
        invariant 0 <= i && j == page.Length - i && i <= j + 1
        invariant forall k :: 0 <= k < i ==> page[k] == old(page[page.Length - 1 - k])
        invariant forall k :: j <= k < page.Length ==> page[k] == old(page[page.Length - 1 - k])
        invariant forall k :: i <= k < j ==> page[k] == old(page[k])
      {
        page[i], page[j - 1] := page[j - 1], page[i];
        i, j := i + 1, j - 1;
      }
    }

    // The array from the server is reversed in place and becomes the thread. A history without rows
    // arrives as null, on which reverse throws, and the thread stays as it was.
    method ShowHistory(key: Key, page: array?<Message>) returns (ok: bool)
      modifies this, page
      ensures ok <==> page != null
      ensures ok ==> page[..] == Reversed(old(page[..])) && state == LoadHistory(old(state), key, old(page[..]))
      ensures !ok ==> state == old(state)
    {
      ok := page != null;
      if ok {
        ReverseInPlace(page);
        state := state.(messages := state.messages[key := page[..]]);
      }
    }
  }
}
