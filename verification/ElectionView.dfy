/**
 One server's view of a whole election: what the server does in the distributed protocol is what
 its own driver does on the messages that reach it, whether or not connections break.
 */
module ElectionView {
  import opened Wrappers
  import opened Ring
  import opened Election
  import opened ElectionMachine
  import opened ElectionProgress

  /** The messages that server `i` reads in the course of `schedule`. */
  ghost function Inbox(ids: seq<Id>, s: State, schedule: seq<Step>, i: nat): seq<Message>
    requires ValidSize(|ids|, s) && Runs(ids, s, schedule) && i < |ids|
    decreases |schedule|
  {
    if schedule == [] then []
    else Read(s, schedule[0], i) + Inbox(ids, Apply(ids, s, schedule[0]), schedule[1..], i)
  }

  ghost function Read(s: State, step: Step, i: nat): seq<Message>
    requires i < |s.chan| && (step == Reply(i) ==> s.chan[i] != [])
  {
    if step == Reply(i) then [s.chan[i][0]] else []
  }

  /** What server `i` gets written in one step: nothing when its connection is down. */
  ghost function Written(ids: seq<Id>, s: State, step: Step, i: nat): seq<Message>
    requires ValidSize(|ids|, s) && Enabled(|ids|, s, step) && i < |ids|
  {
    if !s.up[Next(|ids|, i)] then []
    else if step == Start(i) then [Underway(ids[i])]
    else if step == Reply(i) then
      var a := React(ids[i], s.started[i], s.chan[i][0]);
      if a.forward.Some? then [a.forward.value] else []
    else []
  }

  /** The messages that server `i` writes in the course of `schedule`. */
  ghost function Outbox(ids: seq<Id>, s: State, schedule: seq<Step>, i: nat): (out: seq<Message>)
    requires ValidSize(|ids|, s) && Runs(ids, s, schedule) && i < |ids|
    ensures |out| <= |schedule|
    decreases |schedule|
  {
    if schedule == [] then []
    else Written(ids, s, schedule[0], i) + Outbox(ids, Apply(ids, s, schedule[0]), schedule[1..], i)
  }

  lemma Unfolds(ids: seq<Id>, s: State, step: Step, schedule: seq<Step>, i: nat)
    requires ValidSize(|ids|, s) && Runs(ids, s, schedule) && i < |ids| && schedule != [] && schedule[0] == step
    ensures Enabled(|ids|, s, step)
    ensures var t := Apply(ids, s, step);
            && Runs(ids, t, schedule[1..]) && Final(ids, s, schedule) == Final(ids, t, schedule[1..])
            && Inbox(ids, s, schedule, i) == Read(s, step, i) + Inbox(ids, t, schedule[1..], i)
            && Outbox(ids, s, schedule, i) == Written(ids, s, step, i) + Outbox(ids, t, schedule[1..], i)
  {
  }

  // ---------- Channels ----------

  lemma StartLocally(ids: seq<Id>, s: State, j: nat, i: nat, k: nat)
    requires ValidSize(|ids|, s) && AllUp(s) && Enabled(|ids|, s, Start(j)) && i < |ids| && k == Next(|ids|, i)
    ensures var t := Apply(ids, s, Start(j)); t.up == s.up && t.chan[k] == s.chan[k] + Written(ids, s, Start(j), i)
  {
    if j != i { assert Next(|ids|, j) != k; }
  }

  lemma ReplyLocally(ids: seq<Id>, s: State, j: nat, i: nat, k: nat)
    requires ValidSize(|ids|, s) && AllUp(s) && Enabled(|ids|, s, Reply(j)) && i < |ids| && k == Next(|ids|, i)
    ensures var t := Apply(ids, s, Reply(j));
            t.up == s.up && t.chan[k] == (if j == k then s.chan[k][1..] else s.chan[k]) + Written(ids, s, Reply(j), i)
  {
    if j != i { assert Next(|ids|, j) != k; }
  }

  /** What one regular step does to the channel behind server `i`. */
  lemma StepLocally(ids: seq<Id>, s: State, step: Step, i: nat, k: nat)
    requires ValidSize(|ids|, s) && AllUp(s) && Regular(step) && Enabled(|ids|, s, step)
    requires i < |ids| && k == Next(|ids|, i)
    ensures var t := Apply(ids, s, step);
            AllUp(t) && s.chan[k] + Written(ids, s, step, i) == Read(s, step, k) + t.chan[k]
  {
    if step.Start? {
      StartLocally(ids, s, step.i, i, k);
    } else {
      ReplyLocally(ids, s, step.i, i, k);
      var rest := if step.i == k then s.chan[k][1..] else s.chan[k];
      assert s.chan[k] == Read(s, step, k) + rest;
      MessagesAssociate(Read(s, step, k), rest, Written(ids, s, step, i));
    }
  }

  /**
   While connections hold, channels lose and invent nothing: what the next server reads and has
   still to read is what was written.
   */
  lemma {:induction false} ChannelsAreQueues(ids: seq<Id>, s: State, schedule: seq<Step>, i: nat, k: nat)
    requires ValidSize(|ids|, s) && AllUp(s) && Runs(ids, s, schedule) && AllRegular(schedule)
    requires i < |ids| && k == Next(|ids|, i)
    ensures s.chan[k] + Outbox(ids, s, schedule, i) == Inbox(ids, s, schedule, k) + Final(ids, s, schedule).chan[k]
    decreases |schedule|
  {
    if schedule != [] {
      var step := schedule[0];
      assert Regular(step);
      StepLocally(ids, s, step, i, k);
      var t := Apply(ids, s, step);
      var w, o := Written(ids, s, step, i), Outbox(ids, t, schedule[1..], i);
      var r, inbox := Read(s, step, k), Inbox(ids, t, schedule[1..], k);
      ChannelsAreQueues(ids, t, schedule[1..], i, k);
      MessagesAssociate(s.chan[k], w, o);
      MessagesAssociate(r, t.chan[k], o);
      MessagesAssociate(r, inbox, Final(ids, s, schedule).chan[k]);
    }
  }

  // ---------- One attempt ----------

  /** What the driver of a server yields, against what became of the server in the protocol. */
  ghost predicate Matches(d: Drive, phase: Phase, outbox: seq<Message>) {
    && d.sent == outbox && d.rest == []
    && match phase
       case Idle => false
       case Running => d.result == Failure(PreviousBroken)
       case Returned(id) => d.result == Success(id)
       case Failed(error) => d.result == Failure(error)
  }

  /** The connection takes what was written, and no more if a write failed. */
  ghost function Room(phase: Phase, outbox: seq<Message>, ample: nat): nat {
    if phase == Failed(NextBroken) then |outbox| else ample
  }

  /** The server does not begin another attempt. */
  ghost predicate OneAttempt(schedule: seq<Step>, i: nat) {
    forall q :: 0 <= q < |schedule| ==> schedule[q] != Retry(i)
  }

  ghost predicate Own(step: Step, i: nat) {
    step == Start(i) || step == Reply(i) || step == NoticeBreak(i) || step == Retry(i)
  }

  /** What others do, and what happens to connections, does not touch the server. */
  lemma OthersLeaveAlone(ids: seq<Id>, s: State, step: Step, i: nat)
    requires ValidSize(|ids|, s) && Enabled(|ids|, s, step) && i < |ids| && !Own(step, i)
    ensures var t := Apply(ids, s, step); t.phase[i] == s.phase[i] && t.started[i] == s.started[i]
    ensures Read(s, step, i) == [] && Written(ids, s, step, i) == []
  {
  }

  lemma NothingFirst(ids: seq<Id>, s: State, schedule: seq<Step>, i: nat)
    requires ValidSize(|ids|, s) && Runs(ids, s, schedule) && schedule != [] && i < |ids| && !Own(schedule[0], i)
    ensures var t := Apply(ids, s, schedule[0]);
            && t.phase[i] == s.phase[i] && t.started[i] == s.started[i]
            && Inbox(ids, s, schedule, i) == Inbox(ids, t, schedule[1..], i)
            && Outbox(ids, s, schedule, i) == Outbox(ids, t, schedule[1..], i)
  {
    OthersLeaveAlone(ids, s, schedule[0], i);
  }

  /** A server that has returned or failed neither reads nor writes any more. */
  lemma {:induction false} EndedRests(ids: seq<Id>, s: State, schedule: seq<Step>, i: nat)
    requires ValidSize(|ids|, s) && Runs(ids, s, schedule) && OneAttempt(schedule, i)
    requires i < |ids| && (s.phase[i].Returned? || s.phase[i].Failed?)
    ensures Inbox(ids, s, schedule, i) == [] && Outbox(ids, s, schedule, i) == []
    ensures Final(ids, s, schedule).phase[i] == s.phase[i]
    decreases |schedule|
  {
    if schedule != [] {
      assert schedule[0] != Retry(i);
      OthersLeaveAlone(ids, s, schedule[0], i);
      EndedRests(ids, Apply(ids, s, schedule[0]), schedule[1..], i);
    }
  }

  lemma {:induction false} RunningDrives(ids: seq<Id>, s: State, schedule: seq<Step>, i: nat, ample: nat)
    requires ValidSize(|ids|, s) && Runs(ids, s, schedule) && OneAttempt(schedule, i)
    requires i < |ids| && s.phase[i].Running? && ample >= |schedule|
    ensures var phase, out := Final(ids, s, schedule).phase[i], Outbox(ids, s, schedule, i);
            Matches(Replies(ids[i], s.started[i], Inbox(ids, s, schedule, i), Room(phase, out, ample)), phase, out)
    decreases |schedule|, 2
  {
    if schedule != [] {
      var step, t := schedule[0], Apply(ids, s, schedule[0]);
      assert step != Retry(i);
      if step == Reply(i) {
        ReplyDrives(ids, s, schedule, i, ample);
      } else if step == NoticeBreak(i) {
        EndedRests(ids, t, schedule[1..], i);
      } else {
        NothingFirst(ids, s, schedule, i);
        RunningDrives(ids, t, schedule[1..], i, ample);
      }
    }
  }

  lemma RepliesFirst(me: Id, started: bool, m: Message, inbox: seq<Message>, room: nat)
    ensures var a := React(me, started, m);
            var out := if a.forward.Some? then [a.forward.value] else [];
            var d := Replies(me, started, [m] + inbox, room);
            && (|out| > room ==> d == Drive(Failure(NextBroken), [], inbox))
            && (|out| <= room && a.result.Some? ==> d == Drive(Success(a.result.value), out, inbox))
            && (|out| <= room && a.result.None? ==>
                  var e := Replies(me, a.started, inbox, room - |out|); d == e.(sent := out + e.sent))
  {
    assert ([m] + inbox)[1..] == inbox;
  }

  lemma MatchesAfter(d: Drive, phase: Phase, out: seq<Message>, outbox: seq<Message>)
    requires Matches(d, phase, outbox)
    ensures Matches(d.(sent := out + d.sent), phase, out + outbox)
  {
  }

  /** What one reply does to the server that makes it. */
  lemma ReplyChanges(ids: seq<Id>, s: State, i: nat)
    requires ValidSize(|ids|, s) && Enabled(|ids|, s, Reply(i))
    ensures var t := Apply(ids, s, Reply(i));
            var a := React(ids[i], s.started[i], s.chan[i][0]);
            && t.started[i] == a.started
            && t.phase[i] == if a.forward.Some? && !s.up[Next(|ids|, i)] then Failed(NextBroken)
                             else if a.result.Some? then Returned(a.result.value) else Running
  {
  }

  ghost function Sent(a: Reaction, up: bool): seq<Message> {
    if a.forward.Some? && up then [a.forward.value] else []
  }

  /** What becomes of a server on reading a message, and what the driver does on those that follow it. */
  ghost predicate GoesOn(me: Id, a: Reaction, up: bool, inbox: seq<Message>, outbox: seq<Message>, phase: Phase, ample: nat)
    requires ample > 0
  {
    if a.forward.Some? && !up then phase == Failed(NextBroken) && inbox == [] && outbox == []
    else if a.result.Some? then phase == Returned(a.result.value) && inbox == [] && outbox == []
    else Matches(Replies(me, a.started, inbox, Room(phase, outbox, ample - |Sent(a, up)|)), phase, outbox)
  }

  lemma RepliesMatchLast(me: Id, started: bool, m: Message, up: bool, phase: Phase, ample: nat)
    requires var a := React(me, started, m);
             ample > 0 && GoesOn(me, a, up, [], [], phase, ample) && (a.result.Some? || (a.forward.Some? && !up))
    ensures var out := Sent(React(me, started, m), up) + [];
            Matches(Replies(me, started, [m] + [], Room(phase, out, ample)), phase, out)
  {
    RepliesFirst(me, started, m, [], Room(phase, Sent(React(me, started, m), up) + [], ample));
  }

  lemma RepliesMatchOn(me: Id, started: bool, m: Message, up: bool, inbox: seq<Message>, outbox: seq<Message>, phase: Phase, ample: nat)
    requires var a := React(me, started, m);
             ample > 0 && GoesOn(me, a, up, inbox, outbox, phase, ample) && a.result.None? && (up || a.forward.None?)
    ensures var out := Sent(React(me, started, m), up) + outbox;
            Matches(Replies(me, started, [m] + inbox, Room(phase, out, ample)), phase, out)
  {
    var a := React(me, started, m);
    var out := Sent(a, up);
    var room := Room(phase, out + outbox, ample);
    RepliesFirst(me, started, m, inbox, room);
    assert Room(phase, outbox, ample - |out|) == room - |out|;
    MatchesAfter(Replies(me, a.started, inbox, room - |out|), phase, out, outbox);
  }

  lemma RepliesMatch(me: Id, started: bool, m: Message, up: bool, inbox: seq<Message>, outbox: seq<Message>, phase: Phase, ample: nat)
    requires ample > 0 && GoesOn(me, React(me, started, m), up, inbox, outbox, phase, ample)
    ensures var out := Sent(React(me, started, m), up) + outbox;
            Matches(Replies(me, started, [m] + inbox, Room(phase, out, ample)), phase, out)
  {
    var a := React(me, started, m);
    if a.result.None? && (up || a.forward.None?) {
      RepliesMatchOn(me, started, m, up, inbox, outbox, phase, ample);
    } else {
      RepliesMatchLast(me, started, m, up, phase, ample);
    }
  }

  lemma OneAttemptLater(schedule: seq<Step>, i: nat)
    requires OneAttempt(schedule, i) && schedule != []
    ensures OneAttempt(schedule[1..], i)
  {
  }

  lemma ReplyGoesOn(ids: seq<Id>, s: State, t: State, later: seq<Step>, i: nat, ample: nat)
    requires ValidSize(|ids|, s) && Enabled(|ids|, s, Reply(i)) && t == Apply(ids, s, Reply(i))
    requires Runs(ids, t, later) && OneAttempt(later, i) && ample > |later|
    ensures GoesOn(ids[i], React(ids[i], s.started[i], s.chan[i][0]), s.up[Next(|ids|, i)],
                   Inbox(ids, t, later, i), Outbox(ids, t, later, i), Final(ids, t, later).phase[i], ample)
    decreases |later| + 1, 0
  {
    var a, up := React(ids[i], s.started[i], s.chan[i][0]), s.up[Next(|ids|, i)];
    ReplyChanges(ids, s, i);
    if t.phase[i].Running? {
      var room := ample - |Sent(a, up)|;
      assert room >= |later|;
      RunningDrives(ids, t, later, i, room);
    } else {
      EndedRests(ids, t, later, i);
    }
  }

  lemma ReplyWrites(ids: seq<Id>, s: State, i: nat)
    requires ValidSize(|ids|, s) && Enabled(|ids|, s, Reply(i))
    ensures Written(ids, s, Reply(i), i) == Sent(React(ids[i], s.started[i], s.chan[i][0]), s.up[Next(|ids|, i)])
  {
  }

  lemma {:induction false} ReplyDrives(ids: seq<Id>, s: State, schedule: seq<Step>, i: nat, ample: nat)
    requires ValidSize(|ids|, s) && Runs(ids, s, schedule) && OneAttempt(schedule, i)
    requires i < |ids| && s.phase[i].Running? && ample >= |schedule| > 0 && schedule[0] == Reply(i)
    ensures var phase, out := Final(ids, s, schedule).phase[i], Outbox(ids, s, schedule, i);
            Matches(Replies(ids[i], s.started[i], Inbox(ids, s, schedule, i), Room(phase, out, ample)), phase, out)
    decreases |schedule|, 1
  {
    var t, later := Apply(ids, s, Reply(i)), schedule[1..];
    Unfolds(ids, s, Reply(i), schedule, i);
    ReplyWrites(ids, s, i);
    OneAttemptLater(schedule, i);
    ReplyGoesOn(ids, s, t, later, i, ample);
    RepliesMatch(ids[i], s.started[i], s.chan[i][0], s.up[Next(|ids|, i)], Inbox(ids, t, later, i),
                 Outbox(ids, t, later, i), Final(ids, t, later).phase[i], ample);
  }

  /**
   Refinement. From any state of any election, whatever breaks and comes back: in one attempt a
   server that begins writes, returns or reports what its driver does on the messages that reach it,
   with a connection that takes exactly as many messages as were written if a write fails.
   */
  lemma {:induction false} AttemptFollowsDriver(ids: seq<Id>, s: State, schedule: seq<Step>, i: nat, ample: nat)
    requires ValidSize(|ids|, s) && Runs(ids, s, schedule) && OneAttempt(schedule, i)
    requires i < |ids| && s.phase[i].Idle? && ample >= |schedule|
    ensures var phase, out := Final(ids, s, schedule).phase[i], Outbox(ids, s, schedule, i);
            phase.Idle? || Matches(Performed(ids[i], Inbox(ids, s, schedule, i), Room(phase, out, ample)), phase, out)
    decreases |schedule|
  {
    if schedule != [] {
      var step, t, later := schedule[0], Apply(ids, s, schedule[0]), schedule[1..];
      assert step != Retry(i);
      if step == Start(i) {
        StartDrives(ids, s, schedule, i, ample);
      } else {
        NothingFirst(ids, s, schedule, i);
        AttemptFollowsDriver(ids, t, later, i, ample);
      }
    }
  }

  lemma PerformedMatches(me: Id, inbox: seq<Message>, outbox: seq<Message>, phase: Phase, ample: nat)
    requires ample > 0 && Matches(Replies(me, true, inbox, Room(phase, outbox, ample - 1)), phase, outbox)
    ensures var out := [Underway(me)] + outbox; Matches(Performed(me, inbox, Room(phase, out, ample)), phase, out)
  {
    var room := Room(phase, [Underway(me)] + outbox, ample);
    assert Room(phase, outbox, ample - 1) == room - 1;
    MatchesAfter(Replies(me, true, inbox, room - 1), phase, [Underway(me)], outbox);
  }

  /** A server that begins is running, with its own id written, or has failed if its connection is down. */
  lemma StartChanges(ids: seq<Id>, s: State, i: nat)
    requires ValidSize(|ids|, s) && Enabled(|ids|, s, Start(i))
    ensures var t := Apply(ids, s, Start(i));
            && t.phase[i] == (if s.up[Next(|ids|, i)] then Running else Failed(NextBroken))
            && t.started[i] && Read(s, Start(i), i) == []
            && Written(ids, s, Start(i), i) == if s.up[Next(|ids|, i)] then [Underway(ids[i])] else []
  {
  }

  lemma StartGoesOn(ids: seq<Id>, s: State, t: State, later: seq<Step>, i: nat, ample: nat)
    requires ValidSize(|ids|, s) && Enabled(|ids|, s, Start(i)) && t == Apply(ids, s, Start(i))
    requires Runs(ids, t, later) && OneAttempt(later, i) && ample > |later|
    ensures var phase, inbox, outbox := Final(ids, t, later).phase[i], Inbox(ids, t, later, i), Outbox(ids, t, later, i);
            if s.up[Next(|ids|, i)] then Matches(Replies(ids[i], true, inbox, Room(phase, outbox, ample - 1)), phase, outbox)
            else inbox == [] && outbox == [] && phase == Failed(NextBroken)
  {
    StartChanges(ids, s, i);
    if s.up[Next(|ids|, i)] {
      RunningDrives(ids, t, later, i, ample - 1);
    } else {
      EndedRests(ids, t, later, i);
    }
  }

  /** What the driver does once its own id is written or could not be written. */
  lemma StartMatches(me: Id, up: bool, inbox: seq<Message>, outbox: seq<Message>, phase: Phase, ample: nat)
    requires ample > 0
    requires if up then Matches(Replies(me, true, inbox, Room(phase, outbox, ample - 1)), phase, outbox)
             else inbox == [] && outbox == [] && phase == Failed(NextBroken)
    ensures var out := (if up then [Underway(me)] else []) + outbox;
            Matches(Performed(me, [] + inbox, Room(phase, out, ample)), phase, out)
  {
    assert [] + inbox == inbox;
    if up {
      PerformedMatches(me, inbox, outbox, phase, ample);
    }
  }

  lemma StartDrives(ids: seq<Id>, s: State, schedule: seq<Step>, i: nat, ample: nat)
    requires ValidSize(|ids|, s) && Runs(ids, s, schedule) && OneAttempt(schedule, i)
    requires i < |ids| && s.phase[i].Idle? && ample >= |schedule| > 0 && schedule[0] == Start(i)
    ensures var phase, out := Final(ids, s, schedule).phase[i], Outbox(ids, s, schedule, i);
            Matches(Performed(ids[i], Inbox(ids, s, schedule, i), Room(phase, out, ample)), phase, out)
  {
    var t, later := Apply(ids, s, Start(i)), schedule[1..];
    Unfolds(ids, s, Start(i), schedule, i);
    StartChanges(ids, s, i);
    OneAttemptLater(schedule, i);
    StartGoesOn(ids, s, t, later, i, ample);
    StartMatches(ids[i], s.up[Next(|ids|, i)], Inbox(ids, t, later, i), Outbox(ids, t, later, i),
                 Final(ids, t, later).phase[i], ample);
  }

  /**
   In every election from its beginning, with any starters, every server follows its driver; one
   that is not a starter follows the reply loop alone.
   */
  lemma ServersFollowDriver(ids: seq<Id>, starters: seq<bool>, schedule: seq<Step>, i: nat)
    requires i < |ids| == |starters| && Runs(ids, Init(starters), schedule) && OneAttempt(schedule, i)
    ensures var s := Init(starters);
            var phase, inbox, out := Final(ids, s, schedule).phase[i], Inbox(ids, s, schedule, i), Outbox(ids, s, schedule, i);
            var room := Room(phase, out, |schedule|);
            phase.Idle? ||
            Matches(if starters[i] then Performed(ids[i], inbox, room) else Replies(ids[i], false, inbox, room), phase, out)
  {
    if starters[i] {
      AttemptFollowsDriver(ids, Init(starters), schedule, i, |schedule|);
    } else {
      RunningDrives(ids, Init(starters), schedule, i, |schedule|);
    }
  }
}
