/**
 The election as a distributed protocol: all servers of the ring at once, one FIFO
 channel per connection, and one server moving at a time in any order. Connections
 may break and come back, and servers whose attempt failed may try again.
 */
module ElectionMachine {
  import opened Ring
  import opened Election

  datatype Phase = Idle | Running | Returned(id: Id) | Failed(error: Error)

  /**
   `chan[i]` and `up[i]` belong to the connection that server `i` reads from. The last three
   fields only record history: how often each server put its own id on the ring, how many
   winners were declared, and how many messages were written.
   */
  datatype State = State(
    phase: seq<Phase>,
    started: seq<bool>,
    up: seq<bool>,
    chan: seq<seq<Message>>,
    launched: seq<nat>,
    declared: nat,
    sent: nat)

  datatype Step =
    | Start(i: nat)                // the server begins its attempt
    | Reply(i: nat)                // the server reads and handles one message
    | NoticeBreak(i: nat)          // the server finds its previous connection broken
    | Break(i: nat, kept: nat)     // the connection into i breaks; what follows the first `kept` messages is lost
    | Reconnect(i: nat)            // a new connection into i is made
    | Retry(i: nat)                // a failed server goes back to the beginning

  ghost predicate Distinct(ids: seq<Id>) {
    forall i, j :: 0 <= i < j < |ids| ==> ids[i] != ids[j]
  }

  ghost predicate ValidSize(n: nat, s: State) {
    |s.phase| == n && |s.started| == n && |s.up| == n && |s.chan| == n && |s.launched| == n
  }

  /** Before the election. A server that is not a starter only replies. */
  ghost function Init(starters: seq<bool>): (s: State)
    ensures ValidSize(|starters|, s)
  {
    var n := |starters|;
    State(
      seq(n, i requires 0 <= i < n => if starters[i] then Idle else Running),
      seq(n, _ => false), seq(n, _ => true), seq(n, _ => []), seq(n, _ => 0), 0, 0)
  }

  ghost predicate Enabled(n: nat, s: State, step: Step)
    requires ValidSize(n, s)
  {
    && step.i < n
    && match step
       case Start(i) => s.phase[i].Idle?
       case Reply(i) => s.phase[i].Running? && s.chan[i] != []
       case NoticeBreak(i) => s.phase[i].Running? && s.chan[i] == [] && !s.up[i]
       case Break(i, kept) => kept <= |s.chan[i]|
       case Reconnect(i) => !s.up[i]
       case Retry(i) => s.phase[i].Failed?
  }

  /** Server `i` writes `m`; when the connection is down the write fails and so does the attempt. */
  ghost function Write(n: nat, s: State, i: nat, m: Message): (t: State)
    requires ValidSize(n, s) && i < n
    ensures ValidSize(n, t)
  {
    var k := Next(n, i);
    if s.up[k] then
      s.(chan := s.chan[k := s.chan[k] + [m]], sent := s.sent + 1)
    else
      s.(phase := s.phase[i := Failed(NextBroken)])
  }

  /** Server `i` puts its own id on the ring. */
  ghost function Launch(ids: seq<Id>, s: State, i: nat): (t: State)
    requires ValidSize(|ids|, s) && i < |ids|
    ensures ValidSize(|ids|, t)
  {
    Write(|ids|, s.(launched := s.launched[i := s.launched[i] + 1]), i, Underway(ids[i]))
  }

  /** Server `i` acts on `m`, which has been taken off its channel. */
  ghost function Handle(ids: seq<Id>, s: State, i: nat, m: Message): (t: State)
    requires ValidSize(|ids|, s) && i < |ids|
    ensures ValidSize(|ids|, t)
  {
    var a := React(ids[i], s.started[i], m);
    var s1 := s.(started := s.started[i := a.started],
                 phase := if a.result.Some? then s.phase[i := Returned(a.result.value)] else s.phase);
    if a.forward.None? then s1
    else if m.Underway? && m.id < ids[i] then Launch(ids, s1, i)
    else if m.Underway? && a.forward.value.Elected? then
      Write(|ids|, s1.(declared := s1.declared + 1), i, a.forward.value)
    else Write(|ids|, s1, i, a.forward.value)
  }

  ghost function Apply(ids: seq<Id>, s: State, step: Step): (t: State)
    requires ValidSize(|ids|, s) && Enabled(|ids|, s, step)
    ensures ValidSize(|ids|, t)
  {
    var i := step.i;
    match step
    case Start(_) => Launch(ids, s.(started := s.started[i := true], phase := s.phase[i := Running]), i)
    case Reply(_) => Handle(ids, s.(chan := s.chan[i := s.chan[i][1..]]), i, s.chan[i][0])
    case NoticeBreak(_) => s.(phase := s.phase[i := Failed(PreviousBroken)])
    case Break(_, kept) => s.(up := s.up[i := false], chan := s.chan[i := s.chan[i][..kept]])
    case Reconnect(_) => s.(up := s.up[i := true], chan := s.chan[i := []])
    case Retry(_) => s.(started := s.started[i := false], phase := s.phase[i := Idle])
  }

  /** `schedule` can be carried out from `s`, every step being enabled in its turn. */
  ghost predicate Runs(ids: seq<Id>, s: State, schedule: seq<Step>)
    requires ValidSize(|ids|, s)
    decreases |schedule|
  {
    schedule == [] ||
    (Enabled(|ids|, s, schedule[0]) && Runs(ids, Apply(ids, s, schedule[0]), schedule[1..]))
  }

  ghost function Final(ids: seq<Id>, s: State, schedule: seq<Step>): (t: State)
    requires ValidSize(|ids|, s) && Runs(ids, s, schedule)
    ensures ValidSize(|ids|, t)
    decreases |schedule|
  {
    if schedule == [] then s else Final(ids, Apply(ids, s, schedule[0]), schedule[1..])
  }

  // ---------- Safety ----------

  ghost predicate IsMax(ids: seq<Id>, id: Id) {
    id in ids && forall k :: 0 <= k < |ids| ==> ids[k] <= id
  }

  ghost function Position(ids: seq<Id>, id: Id): (i: nat)
    requires id in ids
    ensures i < |ids| && ids[i] == id
  {
    var i :| 0 <= i < |ids| && ids[i] == id; i
  }

  /** All servers strictly between `j` and the place `d` hops after it have smaller ids than `j`. */
  ghost predicate Passed(ids: seq<Id>, j: nat, d: nat)
    requires j < |ids| && d <= |ids|
  {
    forall e :: 1 <= e < d ==> ids[At(|ids|, j, e)] < ids[j]
  }

  /** What every message on its way to server `i` has to satisfy. */
  ghost predicate Sound(ids: seq<Id>, i: nat, m: Message)
    requires i < |ids|
  {
    match m
    case Underway(id) => id in ids && Passed(ids, Position(ids, id), Hops(|ids|, Position(ids, id), i))
    case Elected(id) => IsMax(ids, id)
  }

  ghost predicate Safe(ids: seq<Id>, s: State) {
    && ValidSize(|ids|, s)
    && (forall i, q :: 0 <= i < |ids| && 0 <= q < |s.chan[i]| ==> Sound(ids, i, s.chan[i][q]))
    && (forall i :: 0 <= i < |ids| && s.phase[i].Returned? ==> IsMax(ids, s.phase[i].id))
  }

  lemma PositionUnique(ids: seq<Id>, i: nat)
    requires Distinct(ids) && i < |ids|
    ensures Position(ids, ids[i]) == i
  {
  }

  /** A sound message stays sound when handled: whatever is sent on is sound for the next server. */
  lemma ReactSound(ids: seq<Id>, i: nat, started: bool, m: Message)
    requires Distinct(ids) && i < |ids| && Sound(ids, i, m)
    ensures var a := React(ids[i], started, m);
            && (a.forward.Some? ==> Sound(ids, Next(|ids|, i), a.forward.value))
            && (a.result.Some? ==> IsMax(ids, a.result.value))
  {
    var n := |ids|;
    PositionUnique(ids, i);
    HopsNext(n, i, i);
    if m.Underway? {
      var j := Position(ids, m.id);
      HopsNext(n, j, i);
      if m.id == ids[i] {
        forall k | 0 <= k < n && k != i ensures ids[k] < ids[i] {
          assert At(n, i, Hops(n, i, k)) == k;
        }
      } else {
        assert At(n, j, Hops(n, j, i)) == i;
      }
    }
  }

  lemma WriteSafe(ids: seq<Id>, s: State, i: nat, m: Message)
    requires Safe(ids, s) && i < |ids| && Sound(ids, Next(|ids|, i), m)
    ensures Safe(ids, Write(|ids|, s, i, m))
  {
  }

  lemma LaunchSafe(ids: seq<Id>, s: State, i: nat)
    requires Distinct(ids) && Safe(ids, s) && i < |ids|
    ensures Safe(ids, Launch(ids, s, i))
  {
    PositionUnique(ids, i);
    HopsNext(|ids|, i, i);
    WriteSafe(ids, s.(launched := s.launched[i := s.launched[i] + 1]), i, Underway(ids[i]));
  }

  /** Every step, including broken and renewed connections, keeps the messages sound. */
  lemma ApplySafe(ids: seq<Id>, s: State, step: Step)
    requires Distinct(ids) && Safe(ids, s) && Enabled(|ids|, s, step)
    ensures Safe(ids, Apply(ids, s, step))
  {
    var i := step.i;
    match step {
      case Start(_) =>
        LaunchSafe(ids, s.(started := s.started[i := true], phase := s.phase[i := Running]), i);
      case Reply(_) =>
        var m := s.chan[i][0];
        var s0 := s.(chan := s.chan[i := s.chan[i][1..]]);
        assert Sound(ids, i, m);
        assert Safe(ids, s0);
        ReactSound(ids, i, s.started[i], m);
        var a := React(ids[i], s.started[i], m);
        var s1 := s0.(started := s0.started[i := a.started],
                      phase := if a.result.Some? then s0.phase[i := Returned(a.result.value)] else s0.phase);
        assert Safe(ids, s1);
        if a.forward.Some? {
          if m.Underway? && m.id < ids[i] {
            LaunchSafe(ids, s1, i);
          } else if m.Underway? && a.forward.value.Elected? {
            WriteSafe(ids, s1.(declared := s1.declared + 1), i, a.forward.value);
          } else {
            WriteSafe(ids, s1, i, a.forward.value);
          }
        }
      case _ =>
    }
  }

  lemma {:induction false} RunSafe(ids: seq<Id>, s: State, schedule: seq<Step>)
    requires Distinct(ids) && Safe(ids, s) && Runs(ids, s, schedule)
    ensures Safe(ids, Final(ids, s, schedule))
    decreases |schedule|
  {
    if schedule != [] {
      ApplySafe(ids, s, schedule[0]);
      RunSafe(ids, Apply(ids, s, schedule[0]), schedule[1..]);
    }
  }

  /**
   Election safety. For every arrangement of distinct ids, every set of starters and every
   interleaving, with connections breaking and coming back at any time, whoever returns an id
   returns the largest one.
   */
  lemma ReturnersAgreeOnMax(ids: seq<Id>, starters: seq<bool>, schedule: seq<Step>)
    requires Distinct(ids) && |starters| == |ids| && Runs(ids, Init(starters), schedule)
    ensures var t := Final(ids, Init(starters), schedule);
            && (forall i :: 0 <= i < |ids| && t.phase[i].Returned? ==> IsMax(ids, t.phase[i].id))
            && (forall i, j :: 0 <= i < |ids| && 0 <= j < |ids| && t.phase[i].Returned? && t.phase[j].Returned?
                               ==> t.phase[i] == t.phase[j])
  {
    RunSafe(ids, Init(starters), schedule);
  }

  /** Who has returned is ready for another election. */
  ghost predicate Reset(s: State) {
    |s.phase| == |s.started| && forall i :: 0 <= i < |s.phase| && s.phase[i].Returned? ==> !s.started[i]
  }

  lemma ApplyKeepsReset(ids: seq<Id>, s: State, step: Step)
    requires ValidSize(|ids|, s) && Reset(s) && Enabled(|ids|, s, step)
    ensures Reset(Apply(ids, s, step))
  {
  }

  lemma {:induction false} RunKeepsReset(ids: seq<Id>, s: State, schedule: seq<Step>)
    requires ValidSize(|ids|, s) && Reset(s) && Runs(ids, s, schedule)
    ensures Reset(Final(ids, s, schedule))
    decreases |schedule|
  {
    if schedule != [] {
      ApplyKeepsReset(ids, s, schedule[0]);
      RunKeepsReset(ids, Apply(ids, s, schedule[0]), schedule[1..]);
    }
  }

  /** In every run an election that has returned has taken back its start. */
  lemma ReturnedAreReset(ids: seq<Id>, starters: seq<bool>, schedule: seq<Step>)
    requires |starters| == |ids| && Runs(ids, Init(starters), schedule)
    ensures var t := Final(ids, Init(starters), schedule);
            forall i :: 0 <= i < |ids| && t.phase[i].Returned? ==> !t.started[i]
  {
    RunKeepsReset(ids, Init(starters), schedule);
  }
}
