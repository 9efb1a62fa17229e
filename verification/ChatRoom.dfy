// Clients and rooms of the TCP chat server as objects. A client owns its bounded channel; a room owns
// a Go slice of history: a backing array, an offset and a length, appended in place while
// there is capacity, copied to a larger array otherwise, and re-sliced to trim.
module ChatRoom {
  import opened Text
  import opened Commands
  import opened ChatModel

  class Client {
    const id: string
    const capacity: nat
    var name: string
    var roomKey: string
    var roomDisplay: string
    var queue: seq<Line>   // what waits in the channel
    var closed: bool       // done is closed
    ghost var box: Box     // the channel's whole past

    ghost predicate Valid()
      reads `queue, `closed, `box
    {
      && box.taken <= |box.accepted| <= box.taken + capacity
      && queue == box.Queue() && closed == box.closed
    }

    ghost function View(): Session
      reads `name, `roomKey, `roomDisplay
    {
      Session(name, roomKey, roomDisplay)
    }

    constructor (id: string, name: string, capacity: nat)
      ensures Valid() && this.id == id && this.capacity == capacity
      ensures View() == Session(name, "", "") && box == EmptyBox
    {
      this.id, this.name, this.capacity := id, name, capacity;
      roomKey, roomDisplay, queue, closed, box := "", "", [], false, EmptyBox;
    }

    // Accepted while the client is not shut down and the channel has room; dropped otherwise.
    method Send(l: Line)
      requires Valid()
      modifies `queue, `box
      ensures Valid() && box == old(box).Push(Sanitized(l), capacity)
      ensures |queue| <= capacity
    {
      if !closed && |queue| < capacity {
        queue := queue + [Sanitized(l)];
      }
      box := box.Push(Sanitized(l), capacity);
    }

    // The write loop's receive.
    method Receive() returns (l: Option<Line>)
      requires Valid()
      modifies `queue, `box
      ensures Valid() && box == old(box).Take()
      ensures l == if old(queue) == [] then None else Some(old(queue)[0])
    {
      l := None;
      if queue != [] {
        l, queue := Some(queue[0]), queue[1..];
      }
      box := box.Take();
    }

    // The client's own part of shutdown.
    method Close()
      requires Valid()
      modifies `closed, `box
      ensures Valid() && closed && box == old(box).Close()
    {
      closed, box := true, box.Close();
    }

    method SetRoom(room: Room)
      modifies `roomKey, `roomDisplay
      ensures View() == Session(name, room.key, room.name)
    {
      roomKey, roomDisplay := room.key, room.name;
    }
  }

  class Room {
    const key: string
    const name: string
    const limit: nat
    var topic: string
    var members: map<string, Client>
    var buf: array<string>
    var off: nat
    var len: nat
    ghost var log: seq<string>  // everything ever appended

    // The slice lies within its array.
    ghost predicate Bounded()
      reads `buf, `off, `len
    {
      off + len <= buf.Length
    }

    // The history slice.
    ghost function Window(): seq<string>
      requires Bounded()
      reads `buf, `off, `len, buf
    {
      buf[off..off + len]
    }

    ghost predicate Keyed()
      reads `members
    {
      forall id :: id in members ==> members[id].id == id
    }

    ghost predicate Valid()
      reads this, buf
    {
      Bounded() && Window() == LastN(log, limit) && Keyed()
    }

    ghost function View(): RoomView
      reads this
    {
      RoomView(key, name, topic, members.Keys, LastN(log, limit), log)
    }

    constructor (name: string, limit: nat)
      ensures Valid() && fresh(buf) && this.limit == limit
      ensures View() == NewRoom(name) && members == map[]
    {
      var trimmed := Trim(name);
      if trimmed == "" {
        trimmed := "lobby";
      }
      this.key, this.name, this.limit := NormalizeRoomKey(trimmed), trimmed, limit;
      topic, members, off, len, log := "", map[], 0, 0, [];
      buf := new string[limit];
    }

    method SetTopic(text: string)
      requires Valid()
      modifies `topic
      ensures Valid() && topic == Trim(text)
    {
      topic := Trim(text);
    }

    method AddMember(c: Client)
      requires Valid()
      modifies `members
      ensures Valid() && members == old(members)[c.id := c]
    {
      members := members[c.id := c];
    }

    method RemoveMember(id: string)
      requires Valid()
      modifies `members
      ensures Valid() && members == old(members) - {id}
    {
      members := members - {id};
    }

    function MemberCount(): nat
      reads `members
    {
      |members|
    }

    // The members but one, each once, in whatever order the map is iterated.
    method MembersSnapshot(exclude: Client?) returns (list: seq<Client>)
      requires Valid()
      ensures forall c :: c in list <==> c in members.Values && c != exclude
      ensures forall i, j :: 0 <= i < j < |list| ==> list[i] != list[j]
    {
      list := [];
      var todo := members.Keys;
      while todo != {}
        invariant todo <= members.Keys
        invariant forall id :: id in members && id !in todo && members[id] != exclude ==> members[id] in list
        invariant forall c :: c in list ==> c.id in members && c.id !in todo && c == members[c.id] && c != exclude
        invariant forall i, j :: 0 <= i < j < |list| ==> list[i] != list[j]
        decreases |todo|
      {
        var id :| id in todo;
        todo := todo - {id};
        if members[id] != exclude {
          list := list + [members[id]];
        }
      }
    }

    // Go's append grows the array when the capacity is used up; spare is how much more it allocates.
    method Grow(spare: nat)
      requires Bounded()
      modifies `buf, `off
      ensures Bounded() && off + len < buf.Length && Window() == old(Window())
      ensures if old(off + len < buf.Length) then buf == old(buf) && off == old(off) else fresh(buf)
    {
      if off + len == buf.Length {
        var grown := new string[len + 1 + spare];
        for i := 0 to len
          invariant unchanged(this) && Bounded()
          invariant grown[..i] == buf[off..off + i]
        {
          grown[i] := buf[off + i];
        }
        buf, off := grown, 0;
      }
    }

    method Put(entry: string)
      requires off + len < buf.Length
      modifies `len, buf
      ensures Bounded() && Window() == old(Window()) + [entry]
    {
      buf[off + len] := entry;
      len := len + 1;
    }

    method Reslice()
      requires Bounded()
      modifies `off, `len
      ensures Bounded() && Window() == LastN(old(Window()), limit)
    {
      if len > limit {
        off, len := off + (len - limit), limit;
      }
    }

    method Store(entry: string, spare: nat)
      requires Bounded()
      modifies `buf, `off, `len, buf
      ensures Bounded() && Window() == LastN(old(Window()) + [entry], limit)
      ensures buf == old(buf) || fresh(buf)
    {
      hide LastN, Window;
      Grow(spare);
      Put(entry);
      Reslice();
    }

    method AppendHistory(entry: string, spare: nat)
      requires Valid()
      modifies `buf, `off, `len, `log, buf
      ensures Valid() && (buf == old(buf) || fresh(buf))
      ensures log == if limit > 0 then old(log) + [entry] else old(log)
      ensures LastN(log, limit) == LastN(old(LastN(log, limit)) + [entry], limit)
    {
      if limit > 0 {
        WindowAppend(log, entry, limit);
        hide LastN, Window, Bounded;
        Store(entry, spare);
        log := log + [entry];
      }
    }

    // A fresh copy of the last entries.
    method RecentHistory(count: int) returns (out: array<string>)
      requires Valid()
      ensures fresh(out) && out[..] == Recent(LastN(log, limit), count)
    {
      var n := count;
      if n <= 0 || n > len {
        n := len;
      }
      out := CopyTail(n);
    }

    method CopyTail(n: nat) returns (out: array<string>)
      requires Bounded() && n <= len
      ensures fresh(out) && out[..] == Window()[len - n..]
    {
      var start := off + len - n;
      out := new string[n];
      for i := 0 to n
        invariant out[..i] == buf[start..start + i]
      {
        out[i] := buf[start + i];
      }
    }
  }

  // A copy taken now is not changed by any number of later appends, in place or not, and the
  // window after them is the end of the whole log.
  method CopyThenAppend(room: Room, count: int, later: seq<string>, spares: seq<nat>) returns (out: array<string>)
    requires room.Valid() && room.limit > 0 && |spares| == |later|
    modifies room, room.buf
    ensures fresh(out) && out[..] == Recent(LastN(old(room.log), room.limit), count)
    ensures room.Valid() && room.log == old(room.log) + later
    ensures room.Window() == LastN(old(room.log) + later, room.limit)
  {
    hide LastN, Room.Window, Room.Keyed, Room.Bounded;
    out := room.RecentHistory(count);
    for i := 0 to |later|
      invariant room.Valid() && room.log == old(room.log) + later[..i]
      invariant room.buf == old(room.buf) || fresh(room.buf)
      invariant room.buf != out && fresh(out) && out[..] == Recent(LastN(old(room.log), room.limit), count)
    {
      room.AppendHistory(later[i], spares[i]);
      assert later[..i + 1] == later[..i] + [later[i]];
    }
    assert later[..|later|] == later;
  }
}
