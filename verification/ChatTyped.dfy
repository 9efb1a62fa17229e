// Every line that can be typed but those that change seats: what it does to the whole server.
module ChatTyped {
  import opened Text
  import opened Commands
  import opened Channels
  import opened ChatModel
  import opened ChatInvariants
  import opened ChatLaws
  import opened ChatEffects

  // ---- Reading a line

  // The trimmed line is a slash, this word, and, after a gap that starts with a blank, these arguments.
  ghost predicate Typed(line: string, word: string, gap: string, args: string) {
    && ' ' !in word && AllSpace(gap) && Tight(args)
    && (if args == "" then gap == "" else gap != "" && gap[0] == ' ')
    && Trim(line) == "/" + word + gap + args
  }

  // The command word in any case.
  ghost predicate Asks(line: string, cmd: string, args: string) {
    exists word, gap :: Typed(line, word, gap, args) && Lower(word) == cmd
  }

  lemma TypedParses(line: string, word: string, gap: string, args: string)
    requires Typed(line, word, gap, args)
    ensures ParseCommand(Trim(line)) == Command(Lower(word), args)
    ensures Trim(line) != "" && Trim(line)[0] == '/'
  {
    hide Trim, FirstBlank, Lower, SplitCommand;
    var body := word + gap + args;
    assert Trim(line)[1..] == body;
    TrimTight(Trim(line));
    if args == "" {
      assert body == word && FirstBlank(word, 0) == |word|;
      BareWord(word);
    } else {
      assert body[|word|] == ' ' && body[..|word|] == word && body[|word| + 1..] == gap[1..] + args + "";
      assert FirstBlank(body, 0) == |word|;
      TrimIs(gap[1..], args, "");
      WordAndRest(body, |word|);
    }
  }

  lemma BareWord(word: string)
    requires FirstBlank(word, 0) == |word|
    ensures SplitCommand(word) == Command(Lower(word), "")
  {
    assert word == "" ==> Lower(word) == "";
  }

  lemma WordAndRest(body: string, n: nat)
    requires n < |body| && FirstBlank(body, 0) == n
    ensures SplitCommand(body) == Command(Lower(body[..n]), Trim(body[n + 1..]))
  {}

  // Every line that starts with a slash is typed in this sense.
  lemma EveryCommandIsTyped(line: string)
    requires Trim(line) != "" && Trim(line)[0] == '/'
    ensures exists word, gap, args :: Typed(line, word, gap, args)
  {
    hide Trim, FirstBlank, SkipSpaces;
    var t := Trim(line);
    var n := FirstBlank(t, 0);
    var m := if n < |t| then SkipSpaces(t, n) else n;
    assert t == "/" + t[1..n] + t[n..m] + t[m..];
    if n < |t| {
      BlankIsSpace();
      assert m < |t| && t[m..][0] == t[m] && t[m..][|t| - m - 1] == t[|t| - 1];
      assert n < m && t[n..m][0] == ' ';
    }
    assert Typed(line, t[1..n], t[n..m], t[m..]);
  }

  lemma BlankIsSpace()
    ensures IsSpace(' ')
  {}

  lemma InputIs(cfg: Settings, s: State, id: string, line: string)
    requires id in s.sessions
    ensures var t := Step(cfg, s, Input(id, line));
      && (Trim(line) == "" ==> t == s)
      && (Trim(line) != "" && Trim(line)[0] != '/' ==>
            t == Speak(cfg, s, id, s.sessions[id].name + ": " + Trim(line)))
      && forall cmd, args :: Asks(line, cmd, args) ==> t == if cmd == "" then s else Execute(cfg, s, id, cmd, args)
  {
    forall cmd, args | Asks(line, cmd, args)
      ensures Step(cfg, s, Input(id, line)) == if cmd == "" then s else Execute(cfg, s, id, cmd, args)
    {
      var word, gap :| Typed(line, word, gap, args) && Lower(word) == cmd;
      TypedParses(line, word, gap, args);
      hide Trim, Lower, Typed, ParseCommand, Execute, Speak;
    }
    hide Trim, Lower, Typed, ParseCommand, Execute, Speak;
  }

  // ---- Sending, once more, on whole states

  lemma NotifyIs(cfg: Settings, s: State, id: string)
    ensures Notified(cfg, s, Notify(cfg, s, id), id)
  {
    hide Queues;
    var t := Notify(cfg, s, id);
    Outside(cfg, s, {id}, Notice);
    forall x | x in s.boxes
      ensures Queues(cfg.sendBufferSize, s.boxes[x], t.boxes[x], if x == id then [Notice] else [])
    {
      Delivers(cfg, s, {id}, Notice, x);
    }
  }

  // ---- Chat lines

  lemma Seat(cfg: Settings, s: State, id: string)
    requires Coherent(cfg, s, {}) && id in s.sessions
    ensures var k := s.sessions[id].roomKey;
      RoomOf(s, id) == (if k == "" then None else Some(k)) && (k != "" ==> k in s.rooms && id in s.rooms[k].members)
  {
    hide Furnished, NamesOk, BoxesOk;
    assert InRoom(s.rooms, s.sessions[id].roomKey, id) <==> HasSeat(s.sessions, s.sessions[id].roomKey, id);
  }

  // A text that ends in no line break goes out as it is.
  lemma CleanLine(room: string, text: string)
    requires Clean(text)
    ensures TrimNewlines("[" + room + "] " + text) == "[" + room + "] " + text
  {
    var l := "[" + room + "] " + text;
    assert l[|l| - 1] == text[|text| - 1];
    hide TrimNewlines;
  }

  lemma PublishPosts(cfg: Settings, s: State, k: string, text: string)
    requires k in s.rooms && LogOk(cfg, s.rooms[k]) && Clean(text)
    ensures Posted(cfg, s, Publish(cfg, s, k, text), k, text)
  {
    var r := s.rooms[k];
    WindowAppend(r.log, text, cfg.historyLimit);
    CleanLine(r.name, text);
    assert Format(r.name, text) == "[" + r.name + "] " + text;
    hide Queues, Format, TrimNewlines, Clean, LastN;
    TailIs(r.log + [text], cfg.historyLimit);
    var s1 := s.(rooms := s.rooms[k := AppendHistory(cfg, r, text)]);
    var l := Stored(Format(r.name, text));
    forall x | x in s.boxes
      ensures Queues(cfg.sendBufferSize, s.boxes[x], Publish(cfg, s, k, text).boxes[x],
                     if x in r.members then [l] else [])
    {
      Delivers(cfg, s1, r.members, l, x);
    }
  }

  lemma TailIs(log: seq<string>, n: nat)
    ensures LastN(log, n) == Tail(log, n)
  {}

  // What someone says, in a room or without one.
  ghost predicate Says(cfg: Settings, s: State, t: State, id: string, text: string)
    requires id in s.sessions
  {
    var k := s.sessions[id].roomKey;
    if k == "" then Notified(cfg, s, t, id) else k in s.rooms && Posted(cfg, s, t, k, text)
  }

  lemma SpeakSays(cfg: Settings, s: State, id: string, text: string)
    requires Coherent(cfg, s, {}) && id in s.sessions && Clean(text)
    ensures Says(cfg, s, Speak(cfg, s, id, text), id, text)
  {
    Seat(cfg, s, id);
    hide SeatsOk, NamesOk, BoxesOk, RoomsOk, Collected, LogOk, Clean, Posted, Notified, Publish, Notify;
    var k := s.sessions[id].roomKey;
    if k == "" {
      NotifyIs(cfg, s, id);
    } else {
      assert LogOk(cfg, s.rooms[k]);
      PublishPosts(cfg, s, k, text);
    }
  }

  lemma EndsClean(pre: string, text: string)
    requires Tight(text) && text != ""
    ensures Clean(pre + text)
  {
    assert (pre + text)[|pre + text| - 1] == text[|text| - 1];
  }

  // A line without a slash is stored in the speaker's room and sent to every member of it, speaker
  // included; nothing else changes. Without a room the speaker gets a notice.
  lemma LinePosts(cfg: Settings, s: State, id: string, line: string)
    requires Coherent(cfg, s, {}) && id in s.sessions && Trim(line) != "" && Trim(line)[0] != '/'
    ensures Says(cfg, s, Step(cfg, s, Input(id, line)), id, s.sessions[id].name + ": " + Trim(line))
  {
    hide Coherent, Says, Trim, Clean, Step, Speak;
    InputIs(cfg, s, id, line);
    var text := s.sessions[id].name + ": " + Trim(line);
    EndsClean(s.sessions[id].name + ": ", Trim(line));
    SpeakSays(cfg, s, id, text);
  }

  // So is an action.
  lemma ActionPosts(cfg: Settings, s: State, id: string, line: string, action: string)
    requires Coherent(cfg, s, {}) && id in s.sessions && Asks(line, "me", action)
    ensures var t := Step(cfg, s, Input(id, line));
      if action == "" then Notified(cfg, s, t, id) else Says(cfg, s, t, id, "* " + s.sessions[id].name + " " + action)
  {
    hide Coherent, Says, Trim, Clean, Step, Speak, Notified, Notify;
    AsksTight(line, "me", action);
    InputIs(cfg, s, id, line);
    TrimTight(action);
    if action == "" {
      NotifyIs(cfg, s, id);
    } else {
      EndsClean("* " + s.sessions[id].name + " ", action);
      SpeakSays(cfg, s, id, "* " + s.sessions[id].name + " " + action);
    }
  }

  lemma AsksTight(line: string, cmd: string, args: string)
    requires Asks(line, cmd, args)
    ensures Tight(args)
  {}

  // A blank line and a bare slash do nothing at all.
  lemma NothingTyped(cfg: Settings, s: State, id: string, line: string, args: string)
    requires id in s.sessions && (Trim(line) == "" || Asks(line, "", args))
    ensures Step(cfg, s, Input(id, line)) == s
  {
    hide Trim, Asks, Step;
    InputIs(cfg, s, id, line);
  }

  // ---- /msg

  // The arguments are a target without white space, a gap of it, and a body.
  ghost predicate Addressed(args: string, target: string, gap: string, body: string) {
    && args == target + gap + body
    && target != "" && (forall i :: 0 <= i < |target| ==> !IsSpace(target[i]))
    && gap != "" && AllSpace(gap) && body != "" && Tight(body)
  }

  lemma AddressedSplits(args: string, target: string, gap: string, body: string)
    requires Addressed(args, target, gap, body)
    ensures SplitMsg(args) == Direct.Send(target, body)
  {
    hide Trim, SkipSpaces, FirstSpace, SplitMsg, Fields;
    var n, m := |target|, |target| + |gap|;
    assert args[0] == target[0] && args[n] == gap[0] && args[m] == body[0] && args[|args| - 1] == body[|body| - 1];
    assert forall i :: 0 <= i < n ==> args[i] == target[i];
    assert forall i :: n <= i < m ==> args[i] == gap[i - n];
    assert Tight(args);
    SplitMsgExact(args);
    var d := SplitMsg(args);
    SplitsOnce(args, target, gap, body, d.target, d.body);
  }

  lemma SplitsOnce(args: string, target: string, gap: string, body: string, target': string, body': string)
    requires Addressed(args, target, gap, body) && Splits(args, target', body')
    ensures target' == target && body' == body
  {
    var n, m, n', m' := |target|, |target| + |gap|, |target'|, |args| - |body'|;
    assert forall i :: 0 <= i < n ==> args[i] == target[i];
    assert forall i :: n <= i < m ==> args[i] == gap[i - n];
    assert IsSpace(args[n]) && !IsSpace(args[m]) && args[m] == body[0];
    assert IsSpace(args[n']) && args[m'] == body'[0] && !IsSpace(args[m']);
    assert n' == n;
    assert m' == m;
    assert args[..n] == target && args[m..] == body;
  }

  lemma Bearer(cfg: Settings, s: State, target: string, to: string)
    requires Coherent(cfg, s, {}) && to in s.sessions && EqualFold(s.sessions[to].name, target)
    ensures Lower(target) in s.names && s.names[Lower(target)] == to
  {
    hide Coherent;
    NameResolves(cfg, s, target);
  }

  ghost predicate Free(s: State, n: string) {
    forall x :: x in s.sessions ==> !EqualFold(s.sessions[x].name, n)
  }

  lemma FreeName(cfg: Settings, s: State, n: string)
    requires Coherent(cfg, s, {})
    ensures Free(s, n) <==> Lower(n) !in s.names
  {
    hide Coherent, Lower;
    NameResolves(cfg, s, n);
  }

  // The client that bears the name, in any case, is sent the message with its sender's name, the sender is
  // sent it with the receiver's name, and nobody else is sent anything.
  lemma MsgArrives(cfg: Settings, s: State, id: string, line: string, args: string,
    target: string, gap: string, body: string, to: string)
    requires Coherent(cfg, s, {}) && id in s.sessions && to in s.sessions && EqualFold(s.sessions[to].name, target)
    requires Asks(line, "msg", args) && Addressed(args, target, gap, body)
    ensures var t := Step(cfg, s, Input(id, line));
      && OnlySent(s, t)
      && forall x :: x in s.boxes ==>
           Queues(cfg.sendBufferSize, s.boxes[x], t.boxes[x],
                  (if x == to then [Direct(true, s.sessions[id].name, body)] else [])
                  + (if x == id then [Direct(false, s.sessions[to].name, body)] else []))
  {
    hide Coherent, Trim, Queues, Asks, Addressed, SplitMsg, Lower, Step, Deliver;
    InputIs(cfg, s, id, line);
    AddressedSplits(args, target, gap, body);
    Bearer(cfg, s, target, to);
    BodyStays(args, target, gap, body);
    var first, second := Direct(true, s.sessions[id].name, body), Direct(false, s.sessions[to].name, body);
    var s1 := Deliver(cfg, s, {to}, first);
    var t := Deliver(cfg, s1, {id}, second);
    assert Step(cfg, s, Input(id, line)) == t;
    Outside(cfg, s, {to}, first);
    Outside(cfg, s1, {id}, second);
    forall x | x in s.boxes
      ensures Queues(cfg.sendBufferSize, s.boxes[x], t.boxes[x],
        (if x == to then [first] else []) + (if x == id then [second] else []))
    {
      Delivers(cfg, s, {to}, first, x);
      Delivers(cfg, s1, {id}, second, x);
      QueuesBoth(cfg.sendBufferSize, s.boxes[x], s1.boxes[x], t.boxes[x],
                 if x == to then [first] else [], if x == id then [second] else []);
    }
  }

  lemma BodyStays(args: string, target: string, gap: string, body: string)
    requires Addressed(args, target, gap, body)
    ensures Trim(body) == body != ""
  {
    TrimTight(body);
  }

  lemma Outside(cfg: Settings, s: State, to: set<string>, l: Line)
    ensures OnlySent(s, Deliver(cfg, s, to, l))
  {}

  // A message without a body, or to a name that nobody bears, only earns its sender a notice.
  lemma MsgGoesNowhere(cfg: Settings, s: State, id: string, line: string, args: string, target: string, gap: string,
    body: string)
    requires Coherent(cfg, s, {}) && id in s.sessions && Asks(line, "msg", args)
    requires
      || (forall i :: 0 <= i < |args| ==> !IsSpace(args[i]))
      || (Addressed(args, target, gap, body) && Free(s, target))
    ensures Notified(cfg, s, Step(cfg, s, Input(id, line)), id)
  {
    hide Coherent, Trim, Asks, Addressed, SplitMsg, Lower, Step, Notified, Notify, Free;
    AsksTight(line, "msg", args);
    InputIs(cfg, s, id, line);
    NotifyIs(cfg, s, id);
    if forall i :: 0 <= i < |args| ==> !IsSpace(args[i]) {
      SplitMsgExact(args);
    } else {
      AddressedSplits(args, target, gap, body);
      FreeName(cfg, s, target);
    }
  }

  // ---- /nick

  predicate Letter(c: char) {
    'a' <= c <= 'z' || 'A' <= c <= 'Z' || '0' <= c <= '9' || c == '-' || c == '_'
  }

  ghost predicate GoodName(n: string) {
    3 <= |n| <= 24 && forall i :: 0 <= i < |n| ==> Letter(n[i])
  }

  lemma GoodNames(n: string)
    requires Tight(n)
    ensures SanitizeUserName(n) == if GoodName(n) then Some(n) else None
  {
    TrimTight(n);
    hide Trim;
    assert forall c :: UserNameChar(c) <==> Letter(c);
  }

  // The client bears the new name, the index has it in place of the old one, the room hears of it.
  ghost predicate Renamed(cfg: Settings, s: State, t: State, id: string, n: string)
    requires id in s.sessions
  {
    var me := s.sessions[id];
    && t.sessions == s.sessions[id := Session(n, me.roomKey, me.roomDisplay)]
    && t.names == (s.names - {Lower(me.name)})[Lower(n) := id]
    && t.rooms == s.rooms && t.nextID == s.nextID && t.boxes.Keys == s.boxes.Keys
    && forall x :: x in s.boxes ==>
         Queues(cfg.sendBufferSize, s.boxes[x], t.boxes[x],
                if x == id then [Notice]
                else if me.roomKey in s.rooms && x in s.rooms[me.roomKey].members
                then [Announcement(s.rooms[me.roomKey].name)] else [])
  }

  // A /nick gives exactly the name asked for, if it is acceptable and nobody bears it in any case;
  // otherwise it only earns a notice.
  lemma NickGives(cfg: Settings, s: State, id: string, line: string, n: string)
    requires Coherent(cfg, s, {}) && id in s.sessions && Asks(line, "nick", n)
    ensures var t := Step(cfg, s, Input(id, line));
      if GoodName(n) && Free(s, n) then Renamed(cfg, s, t, id, n) else Notified(cfg, s, t, id)
  {
    hide Coherent, Trim, Asks, Lower, Step, Notified, Notify, GoodName, Free, Renamed, SanitizeUserName, Nick;
    AsksTight(line, "nick", n);
    InputIs(cfg, s, id, line);
    GoodNames(n);
    TrimTight(n);
    if GoodName(n) && Free(s, n) {
      FreeName(cfg, s, n);
      NickRenames(cfg, s, id, n);
    } else {
      NotifyIs(cfg, s, id);
      FreeName(cfg, s, n);
      NickRefuses(cfg, s, id, n);
    }
  }

  lemma NickRefuses(cfg: Settings, s: State, id: string, n: string)
    requires id in s.sessions && (SanitizeUserName(n).None? || Lower(SanitizeUserName(n).value) in s.names)
    ensures Nick(cfg, s, id, n) == Notify(cfg, s, id)
  {
    hide Trim, Lower, Notify;
  }

  // The new name in both indexes, before anyone hears of it.
  lemma NickIs(cfg: Settings, s: State, id: string, n: string)
    requires Coherent(cfg, s, {}) && id in s.sessions
    requires SanitizeUserName(n) == Some(n) && Lower(n) !in s.names && Trim(n) == n != ""
    ensures var s0 := Rename(s, id, n); var k := s.sessions[id].roomKey;
      Nick(cfg, s, id, n) == NotifyRoom(cfg, s0, id, k)
  {
    Seat(cfg, s, id);
    NoEmptyKey(cfg, s);
    hide Coherent, Trim, Lower, SanitizeUserName, Deliver;
    Outside(cfg, Rename(s, id, n), {id}, Notice);
    assert RoomOf(Notify(cfg, Rename(s, id, n), id), id) == RoomOf(s, id);
  }

  // A notice to one client and an announcement to the others in room k.
  function NotifyRoom(cfg: Settings, s: State, id: string, k: string): State {
    var s1 := Notify(cfg, s, id);
    if k !in s1.rooms then s1 else Announce(cfg, s1, k, {id})
  }

  lemma NotifiesRoom(cfg: Settings, s: State, id: string, k: string, x: string)
    requires x in s.boxes
    ensures var t := NotifyRoom(cfg, s, id, k);
      && OnlySent(s, t)
      && Queues(cfg.sendBufferSize, s.boxes[x], t.boxes[x],
                if x == id then [Notice]
                else if k in s.rooms && x in s.rooms[k].members then [Announcement(s.rooms[k].name)] else [])
  {
    hide Queues, Deliver;
    var s1 := Notify(cfg, s, id);
    Delivers(cfg, s, {id}, Notice, x);
    if k in s.rooms {
      var to, l := s.rooms[k].members - {id}, Announcement(s.rooms[k].name);
      Delivers(cfg, s1, to, l, x);
      QueuesBoth(cfg.sendBufferSize, s.boxes[x], s1.boxes[x], Announce(cfg, s1, k, {id}).boxes[x],
                 if x == id then [Notice] else [], if x in to then [l] else []);
      assert [Notice] + [] == [Notice] && [] + [l] == [l];
    }
  }

  lemma NickRenames(cfg: Settings, s: State, id: string, n: string)
    requires Coherent(cfg, s, {}) && id in s.sessions
    requires SanitizeUserName(n) == Some(n) && Lower(n) !in s.names && Trim(n) == n != ""
    ensures Renamed(cfg, s, Nick(cfg, s, id, n), id, n)
  {
    hide Coherent, Trim, Lower, SanitizeUserName, Queues, Nick, NotifyRoom;
    NickIs(cfg, s, id, n);
    var k, s0 := s.sessions[id].roomKey, Rename(s, id, n);
    var t := NotifyRoom(cfg, s0, id, k);
    BoxesThere(cfg, s);
    NotifiesRoom(cfg, s0, id, k, id);
    forall x | x in s.boxes
      ensures Queues(cfg.sendBufferSize, s.boxes[x], t.boxes[x],
        if x == id then [Notice]
        else if k in s.rooms && x in s.rooms[k].members then [Announcement(s.rooms[k].name)] else [])
    {
      NotifiesRoom(cfg, s0, id, k, x);
    }
  }

  lemma BoxesThere(cfg: Settings, s: State)
    requires Coherent(cfg, s, {})
    ensures s.boxes.Keys == s.sessions.Keys
  {}

  lemma NoEmptyKey(cfg: Settings, s: State)
    requires Coherent(cfg, s, {})
    ensures "" !in s.rooms
  {}

  // ---- /topic, /history and the rest

  // A topic is set and everyone in the room hears of it, the setter included; or it is shown.
  lemma TopicSets(cfg: Settings, s: State, id: string, line: string, topic: string)
    requires Coherent(cfg, s, {}) && id in s.sessions && Asks(line, "topic", topic)
    ensures var t, k := Step(cfg, s, Input(id, line)), s.sessions[id].roomKey;
      if topic == "" || k == "" then Notified(cfg, s, t, id)
      else
        && k in s.rooms && t == s.(rooms := s.rooms[k := s.rooms[k].(topic := topic)], boxes := t.boxes)
        && t.boxes.Keys == s.boxes.Keys
        && forall x :: x in s.boxes ==>
             Queues(cfg.sendBufferSize, s.boxes[x], t.boxes[x],
                    if x in s.rooms[k].members then [Announcement(s.rooms[k].name)] else [])
  {
    hide Coherent, Trim, Asks, Step, Notified, Notify, Queues, Deliver;
    AsksTight(line, "topic", topic);
    InputIs(cfg, s, id, line);
    Seat(cfg, s, id);
    TrimTight(topic);
    var k := s.sessions[id].roomKey;
    if topic == "" || k == "" {
      NotifyIs(cfg, s, id);
    } else {
      var s1 := s.(rooms := s.rooms[k := s.rooms[k].(topic := topic)]);
      var to, l := s.rooms[k].members, Announcement(s.rooms[k].name);
      assert to - {} == to;
      Outside(cfg, s1, to, l);
      var t := Deliver(cfg, s1, to, l);
      forall x | x in s.boxes
        ensures Queues(cfg.sendBufferSize, s.boxes[x], t.boxes[x], if x in to then [l] else [])
      {
        Delivers(cfg, s1, to, l, x);
      }
    }
  }

  lemma {:induction false} DeliversAll(cfg: Settings, s: State, id: string, lines: seq<Line>, x: string)
    requires x in s.boxes && forall i :: 0 <= i < |lines| ==> Sanitized(lines[i]) == lines[i]
    ensures var t := DeliverAll(cfg, s, id, lines);
      && OnlySent(s, t) && Queues(cfg.sendBufferSize, s.boxes[x], t.boxes[x], if x == id then lines else [])
  {
    hide Queues, Deliver, Sanitized;
    if lines == [] {
      QueuesNothing(cfg.sendBufferSize, s.boxes[x]);
    } else {
      var front, last := lines[..|lines| - 1], lines[|lines| - 1];
      DeliversAll(cfg, s, id, front, x);
      var m := DeliverAll(cfg, s, id, front);
      Outside(cfg, m, {id}, last);
      Delivers(cfg, m, {id}, last, x);
      var t := DeliverAll(cfg, s, id, lines);
      QueuesBoth(cfg.sendBufferSize, s.boxes[x], m.boxes[x], t.boxes[x],
                 if x == id then front else [], if x == id then [last] else []);
      assert x == id ==> front + [last] == lines;
    }
  }

  function Recollection(room: string, entries: seq<string>): seq<Line> {
    seq(|entries|, i requires 0 <= i < |entries| => Recalled("[" + room + "] " + entries[i]))
  }

  lemma RecollectionIs(room: string, entries: seq<string>)
    requires forall i :: 0 <= i < |entries| ==> Clean(entries[i])
    ensures Recalls(room, entries) == Recollection(room, entries)
    ensures var lines := Recalls(room, entries); forall i :: 0 <= i < |lines| ==> Sanitized(lines[i]) == lines[i]
  {
    forall i | 0 <= i < |entries| ensures Sanitized(Recalls(room, entries)[i]) == Recalls(room, entries)[i] {
      CleanLine(room, entries[i]);
    }
  }

  // id is sent a heading and these entries; without any, a notice.
  ghost predicate Recollects(cfg: Settings, s: State, t: State, id: string, room: string, entries: seq<string>) {
    if entries == [] then Notified(cfg, s, t, id)
    else
      && OnlySent(s, t)
      && forall x :: x in s.boxes ==>
           Queues(cfg.sendBufferSize, s.boxes[x], t.boxes[x],
                  if x == id then [Notice] + Recollection(room, entries) else [])
  }

  // The last entries the caller asked for, ten by default, of those the limit kept.
  ghost predicate Remembers(cfg: Settings, s: State, t: State, id: string, args: string)
    requires id in s.sessions
  {
    var k, asked := s.sessions[id].roomKey, ParseOptionalInt(args, 10);
    if k == "" || asked.None? then Notified(cfg, s, t, id)
    else
      k in s.rooms
      && Recollects(cfg, s, t, id, s.rooms[k].name,
                    Tail(Tail(s.rooms[k].log, cfg.historyLimit), if asked.value <= 0 then 10 else asked.value))
  }

  lemma HistoryRecalls(cfg: Settings, s: State, id: string, line: string, args: string)
    requires Coherent(cfg, s, {}) && id in s.sessions && Asks(line, "history", args)
    ensures Remembers(cfg, s, Step(cfg, s, Input(id, line)), id, args)
  {
    hide Coherent, Trim, Asks, Step, History, Remembers;
    InputIs(cfg, s, id, line);
    HistoryRemembers(cfg, s, id, args);
  }

  lemma HistoryRemembers(cfg: Settings, s: State, id: string, args: string)
    requires Coherent(cfg, s, {}) && id in s.sessions
    ensures Remembers(cfg, s, History(cfg, s, id, args), id, args)
  {
    hide Coherent, Notified, Notify, DeliverAll, ParseOptionalInt, Recalls, Recollects, Tail, LogOk, Recent;
    Seat(cfg, s, id);
    NotifyIs(cfg, s, id);
    var k, asked := s.sessions[id].roomKey, ParseOptionalInt(args, 10);
    if k != "" && asked.Some? {
      KeepsLog(cfg, s, k);
      var n: nat := if asked.value <= 0 then 10 else asked.value;
      RecentIs(cfg, s.rooms[k], n);
      RecallSends(cfg, s, id, s.rooms[k].name, Recent(s.rooms[k].history, n));
    }
  }

  lemma KeepsLog(cfg: Settings, s: State, k: string)
    requires Coherent(cfg, s, {}) && k in s.rooms
    ensures LogOk(cfg, s.rooms[k])
  {}

  lemma RecentIs(cfg: Settings, r: RoomView, n: nat)
    requires LogOk(cfg, r) && n > 0
    ensures var kept := Tail(Tail(r.log, cfg.historyLimit), n);
      Recent(r.history, n) == kept && forall i :: 0 <= i < |kept| ==> Clean(kept[i])
  {
    hide Clean;
    TailIs(r.log, cfg.historyLimit);
  }

  lemma RecallSends(cfg: Settings, s: State, id: string, room: string, kept: seq<string>)
    requires forall i :: 0 <= i < |kept| ==> Clean(kept[i])
    ensures var s1 := Notify(cfg, s, id);
      Recollects(cfg, s, if kept == [] then s1 else DeliverAll(cfg, s1, id, Recalls(room, kept)), id, room, kept)
  {
    hide Queues, Deliver, Recalls, Recollection, Sanitized, Clean, DeliverAll;
    NotifyIs(cfg, s, id);
    if kept != [] {
      RecollectionIs(room, kept);
      var lines := Recalls(room, kept);
      var s1 := Notify(cfg, s, id);
      var t := DeliverAll(cfg, s1, id, lines);
      GreetingKeepsRooms(cfg, s1, id, lines);
      forall x | x in s.boxes
        ensures Queues(cfg.sendBufferSize, s.boxes[x], t.boxes[x], if x == id then [Notice] + lines else [])
      {
        DeliversAll(cfg, s1, id, lines, x);
        QueuesBoth(cfg.sendBufferSize, s.boxes[x], s1.boxes[x], t.boxes[x],
                   if x == id then [Notice] else [], if x == id then lines else []);
      }
    }
  }

  // Any other word is answered by one line to whoever typed it.
  lemma OthersAreAnswered(cfg: Settings, s: State, id: string, line: string, cmd: string, args: string)
    requires id in s.sessions && Asks(line, cmd, args) && cmd != ""
    requires cmd !in ["nick", "join", "leave", "msg", "topic", "history", "me", "quit", "exit"]
    ensures Notified(cfg, s, Step(cfg, s, Input(id, line)), id)
  {
    hide Trim, Asks, Step, Notified, Notify;
    InputIs(cfg, s, id, line);
    NotifyIs(cfg, s, id);
  }
}
