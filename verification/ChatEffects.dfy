// What everything that can be typed does to the server, read off the state before and after. Nothing here
// is said through the functions that compute it.
module ChatEffects {
  import opened Channels
  import opened ChatModel

  lemma Delivers(cfg: Settings, s: State, to: set<string>, l: Line, x: string)
    requires x in s.boxes
    ensures var t := Deliver(cfg, s, to, l);
      && t == s.(boxes := t.boxes) && t.boxes.Keys == s.boxes.Keys
      && Queues(cfg.sendBufferSize, s.boxes[x], t.boxes[x], if x in to then [Sanitized(l)] else [])
  {
    hide Queues, Sanitized;
    QueuesNothing(cfg.sendBufferSize, s.boxes[x]);
    QueuesOne(cfg.sendBufferSize, s.boxes[x], Sanitized(l));
  }

  // ---- The new state, whole

  // Only the clients' channels changed.
  ghost predicate OnlySent(s: State, t: State) {
    t == s.(boxes := t.boxes) && t.boxes.Keys == s.boxes.Keys
  }

  // id is sent one notice and nothing else happens.
  ghost predicate Notified(cfg: Settings, s: State, t: State, id: string) {
    && OnlySent(s, t)
    && forall x :: x in s.boxes ==>
         Queues(cfg.sendBufferSize, s.boxes[x], t.boxes[x], if x == id then [Notice] else [])
  }

  function Tail(log: seq<string>, n: nat): seq<string> {
    if |log| <= n then log else log[|log| - n..]
  }

  // text is stored in room k, and every member is sent it once.
  ghost predicate Posted(cfg: Settings, s: State, t: State, k: string, text: string)
    requires k in s.rooms
  {
    var r := s.rooms[k];
    && t.sessions == s.sessions && t.names == s.names && t.nextID == s.nextID
    && t.rooms == s.rooms[k := r.(log := r.log + [text], history := Tail(r.log + [text], cfg.historyLimit))]
    && t.boxes.Keys == s.boxes.Keys
    && forall x :: x in s.boxes ==>
         Queues(cfg.sendBufferSize, s.boxes[x], t.boxes[x],
                if x in r.members then [Stored("[" + r.name + "] " + text)] else [])
  }
}
