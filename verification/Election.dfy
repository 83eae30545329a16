/**
 One server's side of the leader election: what it does on starting an election
 and on reading one message, and the driver that repeats this until a winner is
 announced or a connection breaks.
 */
module Election {
  import opened Wrappers

  /** Server identifiers are one unsigned byte. */
  type Id = x: nat | x < 256

  datatype Message = Underway(id: Id) | Elected(id: Id)

  datatype Error = PreviousBroken | NextBroken

  /** The effect of one message: the new flag, what is sent on, and the id announced. */
  datatype Reaction = Reaction(started: bool, forward: Option<Message>, result: Option<Id>)

  function React(me: Id, started: bool, m: Message): Reaction {
    match m
    case Underway(id) =>
      if id < me && started then
        Reaction(started, None, None)
      else if id < me then
        Reaction(true, Some(Underway(me)), None)
      else if id == me then
        Reaction(started, Some(Elected(id)), None)
      else
        Reaction(started, Some(m), None)
    case Elected(id) =>
      Reaction(false, if id != me then Some(m) else None, Some(id))
  }

  /**
   One connection of the ring. Seen from the reader, `queue` holds what the peer
   delivers before it goes away, so that reading an empty queue is a short read.
   Seen from the writer, `room` more messages are written before the connection breaks.
   */
  class Link {
    var queue: seq<Message>
    var room: nat

    constructor (queue: seq<Message>, room: nat)
      ensures this.queue == queue && this.room == room
    {
      this.queue, this.room := queue, room;
    }

    method Read() returns (m: Option<Message>)
      modifies `queue
      ensures old(queue) == [] ==> m == None && queue == []
      ensures old(queue) != [] ==> m == Some(old(queue)[0]) && queue == old(queue)[1..]
    {
      if queue == [] {
        m := None;
      } else {
        m := Some(queue[0]);
        queue := queue[1..];
      }
    }

    method Write(m: Message) returns (complete: bool)
      modifies `queue, `room
      ensures complete == (old(room) > 0)
      ensures queue == if complete then old(queue) + [m] else old(queue)
      ensures room == old(room) - if complete then 1 else 0
    {
      complete := room > 0;
      if complete {
        queue, room := queue + [m], room - 1;
      }
    }
  }

  class Election {
    const id: Id
    const prev: Link
    const next: Link
    var electionStarted: bool

    constructor (prev: Link, next: Link, id: Id)
      ensures this.prev == prev && this.next == next && this.id == id && !electionStarted
    {
      this.prev, this.next, this.id := prev, next, id;
      electionStarted := false;
    }

    method StartElection() returns (ok: bool)
      modifies `electionStarted, next`queue, next`room
      ensures electionStarted
      ensures ok == (old(next.room) > 0)
      ensures next.queue == if ok then old(next.queue) + [Underway(id)] else old(next.queue)
      ensures next.room == old(next.room) - if ok then 1 else 0
    {
      electionStarted := true;
      ok := next.Write(Underway(id));
    }

    /** `Success(None)` means that the election goes on. */
    method ReplyElection() returns (r: Result<Option<Id>, Error>)
      requires prev != next
      modifies `electionStarted, prev`queue, next`queue, next`room
      ensures old(prev.queue) == [] ==>
                && r == Failure(PreviousBroken)
                && prev.queue == [] && unchanged(next) && unchanged(`electionStarted)
      ensures old(prev.queue) != [] ==>
                var a := React(id, old(electionStarted), old(prev.queue)[0]);
                && electionStarted == a.started
                && prev.queue == old(prev.queue)[1..]
                && (if a.forward.Some? && old(next.room) > 0 then
                      next.queue == old(next.queue) + [a.forward.value] && next.room == old(next.room) - 1
                    else
                      unchanged(next))
                && r == if a.forward.Some? && old(next.room) == 0 then Failure(NextBroken) else Success(a.result)
    {
      var received := prev.Read();
      if received.None? {
        return Failure(PreviousBroken);
      }
      var data := received.value;
      match data {
        case Underway(_) =>
          if data.id < id {
            if electionStarted {
              return Success(None);
            }
            electionStarted := true;
            data := data.(id := id);
          } else if data.id == id {
            data := Elected(data.id);
          }
          var sent := next.Write(data);
          if !sent {
            return Failure(NextBroken);
          }
          return Success(None);
        case Elected(_) =>
          electionStarted := false;
          if data.id != id {
            var sent := next.Write(data);
            if !sent {
              return Failure(NextBroken);
            }
          }
          return Success(Some(data.id));
      }
    }
  }

  /** What the driver has done once it stops: its result, what it sent and what it left unread. */
  datatype Drive = Drive(result: Result<Id, Error>, sent: seq<Message>, rest: seq<Message>)

  /** The reply loop, as a function of the messages that arrive. */
  function Replies(me: Id, started: bool, inbox: seq<Message>, room: nat): Drive
    decreases |inbox|
  {
    if inbox == [] then
      Drive(Failure(PreviousBroken), [], [])
    else
      var a := React(me, started, inbox[0]);
      if a.forward.Some? && room == 0 then
        Drive(Failure(NextBroken), [], inbox[1..])
      else
        var out := if a.forward.Some? then [a.forward.value] else [];
        if a.result.Some? then
          Drive(Success(a.result.value), out, inbox[1..])
        else
          var d := Replies(me, a.started, inbox[1..], room - |out|);
          d.(sent := out + d.sent)
  }

  /** A whole election of one server, as a function of the messages that arrive. */
  function Performed(me: Id, inbox: seq<Message>, room: nat): Drive {
    if room == 0 then
      Drive(Failure(NextBroken), [], inbox)
    else
      var d := Replies(me, true, inbox, room - 1);
      d.(sent := [Underway(me)] + d.sent)
  }

  lemma MessagesAssociate(a: seq<Message>, b: seq<Message>, c: seq<Message>)
    ensures (a + b) + c == a + (b + c)
  {
  }

  /** One whole election of the server `id` between its two neighbours. */
  method PerformElection(id: Id, prev: Link, next: Link) returns (r: Result<Id, Error>)
    requires prev != next
    modifies prev`queue, next`queue, next`room
    ensures var d := Performed(id, old(prev.queue), old(next.room));
            r == d.result && prev.queue == d.rest && next.queue == old(next.queue) + d.sent
    ensures old(next.room) == 0 ==> r == Failure(NextBroken) && unchanged(prev) && unchanged(next)
  {
    var election := new Election(prev, next, id);
    var ok := election.StartElection();
    if !ok {
      return Failure(NextBroken);
    }
    ghost var begun := next.queue;
    ghost var whole := Replies(id, true, prev.queue, next.room);
    assert begun == old(next.queue) + [Underway(id)];
    MessagesAssociate(old(next.queue), [Underway(id)], whole.sent);
    ghost var left, done := whole, [];
    var result: Result<Option<Id>, Error> := Success(None);
    while result.Success? && result.value.None?
      invariant
        && whole == left.(sent := done + left.sent)
        && next.queue == begun + done
      invariant
        if result == Success(None) then
          left == Replies(id, election.electionStarted, prev.queue, next.room)
        else
          && left.result == (if result.Success? then Success(result.value.value) else Failure(result.error))
          && prev.queue == left.rest && left.sent == []
      decreases result.Success? && result.value.None?, |prev.queue|
    {
      ghost var before, unsent := left, next.queue;
      result := election.ReplyElection();
      ghost var out := next.queue[|unsent|..];
      left := before.(sent := before.sent[|out|..]);
      assert next.queue == unsent + out && before.sent == out + left.sent;
      MessagesAssociate(begun, done, out);
      MessagesAssociate(done, out, left.sent);
      done := done + out;
    }
    if result.Success? {
      return Success(result.value.value);
    }
    return Failure(result.error);
  }

  predicate Announces(m: Message) {
    m.Elected?
  }

  ghost predicate NoneAnnounces(inbox: seq<Message>) {
    inbox == [] || (!Announces(inbox[0]) && NoneAnnounces(inbox[1..]))
  }

  /** What the driver leaves unread is the end of what arrives. */
  lemma {:induction false} RepliesReadOn(me: Id, started: bool, inbox: seq<Message>, room: nat)
    ensures var d := Replies(me, started, inbox, room);
            |d.rest| <= |inbox| && inbox[|inbox| - |d.rest|..] == d.rest && |d.sent| <= room
    decreases |inbox|
  {
    if inbox != [] {
      var a := React(me, started, inbox[0]);
      var out := if a.forward.Some? then 1 else 0;
      if a.result.None? && out <= room {
        RepliesReadOn(me, a.started, inbox[1..], room - out);
      }
    }
  }

  /**
   The driver returns an id only for the first announcement that arrives, and reads nothing
   beyond it; it reports a broken previous connection only after reading everything. With
   room for every reply these are the only outcomes, so it returns an id exactly when an
   announcement arrives.
   */
  lemma {:induction false} RepliesStopAtFirstAnnouncement(me: Id, started: bool, inbox: seq<Message>, room: nat)
    returns (read: seq<Message>)
    ensures Stops(Replies(me, started, inbox, room), inbox, room, read)
    decreases |inbox|
  {
    read := [];
    if inbox != [] {
      var a := React(me, started, inbox[0]);
      var out := if a.forward.Some? then 1 else 0;
      if a.result.None? && out <= room {
        var rest := RepliesStopAtFirstAnnouncement(me, a.started, inbox[1..], room - out);
        read := [inbox[0]] + rest;
        StopsLater(Replies(me, started, inbox, room), Replies(me, a.started, inbox[1..], room - out), inbox, room, out, rest);
      }
    }
  }

  /** `read` is what comes before the first announcement, if the driver returns its id. */
  ghost predicate Stops(d: Drive, inbox: seq<Message>, room: nat, read: seq<Message>) {
    match d.result
    case Success(id) => NoneAnnounces(read) && inbox == read + [Elected(id)] + d.rest
    case Failure(PreviousBroken) => NoneAnnounces(inbox) && d.rest == []
    case Failure(NextBroken) => |d.sent| == room < |inbox|
  }

  lemma StopsLater(d: Drive, e: Drive, inbox: seq<Message>, room: nat, out: nat, rest: seq<Message>)
    requires inbox != [] && !Announces(inbox[0]) && out <= room && out <= 1 && Stops(e, inbox[1..], room - out, rest)
    requires d.result == e.result && d.rest == e.rest && |d.sent| == out + |e.sent|
    ensures Stops(d, inbox, room, [inbox[0]] + rest)
  {
    assert ([inbox[0]] + rest)[1..] == rest;
  }
}
