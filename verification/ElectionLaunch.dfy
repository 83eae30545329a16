/**
 Which servers put their own id on the ring in an unbroken election: this depends on who starts
 and on the arrangement of the ids, and not on the interleaving; hence so does the cost.
 */
module ElectionLaunch {
  import opened Ring
  import opened Election
  import opened ElectionMachine
  import opened ElectionProgress
  import opened ElectionCost

  /** The first server after `j` with a larger id; for the largest one, `j` itself. */
  ghost function Greater(ids: seq<Id>, j: nat): (k: nat)
    requires j < |ids|
    ensures k < |ids| && (Reach(ids, j) < |ids| ==> ids[k] > ids[j]) && (ids[k] != ids[j] ==> Reach(ids, j) < |ids|)
  {
    At(|ids|, j, Reach(ids, j))
  }

  /** A server joins if it starts, or if it is the first larger one after a server that joins. */
  ghost predicate Joins(ids: seq<Id>, starters: seq<bool>, j: nat)
    requires |starters| == |ids| && j < |ids|
    decreases ids[j]
  {
    starters[j] || exists i :: 0 <= i < |ids| && ids[i] < ids[j] && Greater(ids, i) == j && Joins(ids, starters, i)
  }

  /** The own message of a server is on some channel. */
  ghost predicate OnRing(s: State, m: Message) {
    exists c: nat, q: nat :: OnTheWay(s, m, c, q)
  }

  /** Who has put its id on the ring joins, and its message is still on its way or has made the next larger server do the same. */
  ghost predicate Launches(ids: seq<Id>, starters: seq<bool>, s: State)
    requires ValidSize(|ids|, s) && |starters| == |ids|
  {
    forall j :: 0 <= j < |ids| && s.launched[j] > 0 ==>
      && Joins(ids, starters, j)
      && (OnRing(s, Underway(ids[j])) || Reach(ids, j) == |ids| || s.launched[Greater(ids, j)] > 0)
  }

  lemma TakenStays(s: State, c: nat, m: Message)
    requires c < |s.chan| && s.chan[c] != [] && s.chan[c][0] != m && OnRing(s, m)
    ensures OnRing(Take(s, c), m)
  {
    var e: nat, q: nat :| OnTheWay(s, m, e, q);
    assert OnTheWay(Take(s, c), m, e, if e == c then q - 1 else q);
  }

  lemma PostedStays(s: State, c: nat, x: Message, m: Message)
    requires c < |s.chan| && (m == x || OnRing(s, m))
    ensures OnRing(Post(s, c, x), m)
  {
    if m == x {
      assert OnTheWay(Post(s, c, x), m, c, |s.chan[c]|);
    } else {
      var e: nat, q: nat :| OnTheWay(s, m, e, q);
      assert OnTheWay(Post(s, c, x), m, e, q);
    }
  }

  lemma SameChannels(s: State, t: State, m: Message)
    requires t.chan == s.chan && OnRing(s, m)
    ensures OnRing(t, m)
  {
    var e: nat, q: nat :| OnTheWay(s, m, e, q);
    assert OnTheWay(t, m, e, q);
  }

  /** A server that starts. */
  lemma StartLaunches(ids: seq<Id>, starters: seq<bool>, s: State, i: nat)
    requires |starters| == |ids| && ValidSize(|ids|, s) && AllUp(s) && Enabled(|ids|, s, Start(i)) && starters[i]
    requires Launches(ids, starters, s)
    ensures Launches(ids, starters, Apply(ids, s, Start(i)))
  {
    var t, p := Apply(ids, s, Start(i)), Post(s, Next(|ids|, i), Underway(ids[i]));
    assert t.chan == p.chan;
    forall j | 0 <= j < |ids| && (j == i || OnRing(s, Underway(ids[j]))) ensures OnRing(t, Underway(ids[j])) {
      PostedStays(s, Next(|ids|, i), Underway(ids[i]), Underway(ids[j]));
      SameChannels(p, t, Underway(ids[j]));
    }
  }

  /** A server that replaces a smaller id by its own. */
  lemma SubstituteLaunches(ids: seq<Id>, starters: seq<bool>, s: State, c: nat, t: State)
    requires |starters| == |ids| && ValidSize(|ids|, s) && ValidSize(|ids|, t) && c < |ids| && Distinct(ids)
    requires s.chan[c] != [] && Launches(ids, starters, s) && s.chan[c][0].Underway?
    requires s.chan[c][0].id in ids && s.launched[Position(ids, s.chan[c][0].id)] > 0
    requires s.chan[c][0].id < ids[c] && Greater(ids, Position(ids, s.chan[c][0].id)) == c
    requires t.chan == Post(Take(s, c), Next(|ids|, c), Underway(ids[c])).chan && t.launched == s.launched[c := s.launched[c] + 1]
    ensures Launches(ids, starters, t)
  {
    var i := Position(ids, s.chan[c][0].id);
    assert Joins(ids, starters, i);
    var p := Post(Take(s, c), Next(|ids|, c), Underway(ids[c]));
    forall j | 0 <= j < |ids| && (j == c || (j != i && OnRing(s, Underway(ids[j])))) ensures OnRing(t, Underway(ids[j])) {
      if j != c { TakenStays(s, c, Underway(ids[j])); }
      PostedStays(Take(s, c), Next(|ids|, c), Underway(ids[c]), Underway(ids[j]));
      SameChannels(p, t, Underway(ids[j]));
    }
  }

  /** A server that drops a smaller id, having put its own on the ring before. */
  lemma DropLaunches(ids: seq<Id>, starters: seq<bool>, s: State, c: nat)
    requires |starters| == |ids| && ValidSize(|ids|, s) && c < |ids| && Distinct(ids)
    requires s.chan[c] != [] && Launches(ids, starters, s) && s.chan[c][0].Underway? && s.chan[c][0].id in ids
    requires Greater(ids, Position(ids, s.chan[c][0].id)) == c && s.launched[c] > 0
    ensures Launches(ids, starters, Take(s, c))
  {
    var i := Position(ids, s.chan[c][0].id);
    forall j | 0 <= j < |ids| && j != i && OnRing(s, Underway(ids[j])) ensures OnRing(Take(s, c), Underway(ids[j])) {
      TakenStays(s, c, Underway(ids[j]));
    }
  }

  /** A server that sends a message on, or turns its own one into the announcement. */
  lemma ForwardLaunches(ids: seq<Id>, starters: seq<bool>, s: State, c: nat, x: Message, t: State)
    requires |starters| == |ids| && ValidSize(|ids|, s) && ValidSize(|ids|, t) && c < |ids|
    requires s.chan[c] != [] && Launches(ids, starters, s)
    requires x == s.chan[c][0] || (s.chan[c][0] == Underway(ids[c]) && Reach(ids, c) == |ids| && Distinct(ids))
    requires t.chan == Post(Take(s, c), Next(|ids|, c), x).chan && t.launched == s.launched
    ensures Launches(ids, starters, t)
  {
    var p := Post(Take(s, c), Next(|ids|, c), x);
    forall j | 0 <= j < |ids| && OnRing(s, Underway(ids[j])) && (x == s.chan[c][0] || j != c)
      ensures OnRing(t, Underway(ids[j]))
    {
      if s.chan[c][0] != Underway(ids[j]) { TakenStays(s, c, Underway(ids[j])); }
      PostedStays(Take(s, c), Next(|ids|, c), x, Underway(ids[j]));
      SameChannels(p, t, Underway(ids[j]));
    }
  }

  /** The largest id is back at its server, or a smaller one has come to the first larger server. */
  lemma MetHere(ids: seq<Id>, c: nat, x: Message)
    requires Distinct(ids) && c < |ids| && x.Underway? && Sound(ids, c, x) && x.id <= ids[c]
    ensures Greater(ids, Position(ids, x.id)) == c
    ensures x.id == ids[c] ==> Reach(ids, c) == |ids|
  {
    SoundReach(ids, c, x);
    AtHops(|ids|, Position(ids, x.id), c);
    PositionUnique(ids, c);
  }

  /** The message read is of a server that has put its id on the ring, and a reader that takes part has done so itself. */
  ghost predicate Known(ids: seq<Id>, s: State, c: nat)
    requires ValidSize(|ids|, s) && Enabled(|ids|, s, Reply(c))
  {
    var x := s.chan[c][0];
    && x.Underway? && x.id in ids && Sound(ids, c, x) && s.launched[Position(ids, x.id)] > 0
    && (s.started[c] ==> s.launched[c] > 0)
  }

  lemma DropReply(ids: seq<Id>, starters: seq<bool>, s: State, c: nat)
    requires Distinct(ids) && |starters| == |ids| && ValidSize(|ids|, s) && AllUp(s) && Launches(ids, starters, s)
    requires Enabled(|ids|, s, Reply(c)) && Known(ids, s, c) && s.chan[c][0].id < ids[c] && s.started[c]
    ensures Launches(ids, starters, Apply(ids, s, Reply(c)))
  {
    MetHere(ids, c, s.chan[c][0]);
    ReplyEffect(ids, s, c);
    DropLaunches(ids, starters, s, c);
  }

  lemma SubstituteReply(ids: seq<Id>, starters: seq<bool>, s: State, c: nat)
    requires Distinct(ids) && |starters| == |ids| && ValidSize(|ids|, s) && AllUp(s) && Launches(ids, starters, s)
    requires Enabled(|ids|, s, Reply(c)) && Known(ids, s, c) && s.chan[c][0].id < ids[c] && !s.started[c]
    ensures Launches(ids, starters, Apply(ids, s, Reply(c)))
  {
    MetHere(ids, c, s.chan[c][0]);
    ReplyEffect(ids, s, c);
    SubstituteLaunches(ids, starters, s, c, Apply(ids, s, Reply(c)));
  }

  lemma ForwardReply(ids: seq<Id>, starters: seq<bool>, s: State, c: nat)
    requires Distinct(ids) && |starters| == |ids| && ValidSize(|ids|, s) && AllUp(s) && Launches(ids, starters, s)
    requires Enabled(|ids|, s, Reply(c)) && Known(ids, s, c) && s.chan[c][0].id >= ids[c]
    ensures Launches(ids, starters, Apply(ids, s, Reply(c)))
  {
    var x, t := s.chan[c][0], Apply(ids, s, Reply(c));
    ReplyEffect(ids, s, c);
    if x.id == ids[c] {
      MetHere(ids, c, x);
      ForwardLaunches(ids, starters, s, c, Elected(x.id), t);
    } else {
      ForwardLaunches(ids, starters, s, c, x, t);
    }
  }

  /** When the announcement is made nothing else is on the ring, and it changes nothing here. */
  lemma ClosedReplyLaunches(ids: seq<Id>, starters: seq<bool>, s: State, m: nat, step: Step)
    requires Distinct(ids) && |starters| == |ids| && Inv(ids, starters, s, m) && Closed(ids, s, m)
    requires Regular(step) && Enabled(|ids|, s, step) && Launches(ids, starters, s)
    ensures Launches(ids, starters, Apply(ids, s, step))
  {
    AtHops(|ids|, m, step.i);
    var d :| 1 <= d <= |ids| && Announcing(ids, s, m, d);
    assert step.Reply?;
    AnnouncementMoves(ids, s, m, d, step.i);
    NothingUnderway(ids, s, m, d);
  }

  lemma NothingUnderway(ids: seq<Id>, s: State, m: nat, d: nat)
    requires ValidSize(|ids|, s) && m < |ids| && 1 <= d <= |ids| && Announcing(ids, s, m, d)
    ensures forall id :: !OnRing(s, Underway(id))
  {
  }

  lemma StepLaunches(ids: seq<Id>, starters: seq<bool>, s: State, m: nat, step: Step)
    requires Distinct(ids) && |starters| == |ids| && Inv(ids, starters, s, m) && Launches(ids, starters, s)
    requires Regular(step) && Enabled(|ids|, s, step)
    ensures Launches(ids, starters, Apply(ids, s, step))
  {
    if !Open(ids, starters, s, m) {
      ClosedReplyLaunches(ids, starters, s, m, step);
    } else if step.Start? {
      StartLaunches(ids, starters, s, step.i);
    } else {
      assert Known(ids, s, step.i);
      if s.chan[step.i][0].id >= ids[step.i] {
        ForwardReply(ids, starters, s, step.i);
      } else if s.started[step.i] {
        DropReply(ids, starters, s, step.i);
      } else {
        SubstituteReply(ids, starters, s, step.i);
      }
    }
  }

  lemma {:induction false} RunLaunches(ids: seq<Id>, starters: seq<bool>, s: State, m: nat, schedule: seq<Step>)
    requires Distinct(ids) && |starters| == |ids| && Inv(ids, starters, s, m) && Launches(ids, starters, s)
    requires Runs(ids, s, schedule) && AllRegular(schedule)
    ensures Launches(ids, starters, Final(ids, s, schedule))
    decreases |schedule|
  {
    if schedule != [] {
      assert Regular(schedule[0]);
      StepLaunches(ids, starters, s, m, schedule[0]);
      StepKeepsInv(ids, starters, s, m, schedule[0]);
      RunLaunches(ids, starters, Apply(ids, s, schedule[0]), m, schedule[1..]);
    }
  }

  /** At rest every server that joins has put its id on the ring. */
  lemma {:induction false} JoinersLaunched(ids: seq<Id>, starters: seq<bool>, t: State, m: nat, j: nat)
    requires |starters| == |ids| && m < |ids| && j < |ids| && ValidSize(|ids|, t) && Over(ids, t, m)
    requires LaunchedOnce(starters, t) && Launches(ids, starters, t) && Joins(ids, starters, j)
    ensures t.launched[j] > 0
    decreases ids[j]
  {
    if !starters[j] {
      var i :| 0 <= i < |ids| && ids[i] < ids[j] && Greater(ids, i) == j && Joins(ids, starters, i);
      JoinersLaunched(ids, starters, t, m, i);
      assert !OnRing(t, Underway(ids[i]));
    }
  }

  /** In every complete election, whatever the interleaving, exactly the servers that join put their ids on the ring. */
  lemma JoinersLaunch(ids: seq<Id>, starters: seq<bool>, schedule: seq<Step>, j: nat)
    requires Distinct(ids) && |starters| == |ids| && (exists i :: 0 <= i < |ids| && starters[i]) && j < |ids|
    requires Runs(ids, Init(starters), schedule) && AllRegular(schedule)
    requires Stuck(|ids|, Final(ids, Init(starters), schedule))
    ensures Final(ids, Init(starters), schedule).launched[j] > 0 <==> Joins(ids, starters, j)
  {
    var m := TopExists(ids);
    var s, t := Init(starters), Final(ids, Init(starters), schedule);
    InitInv(ids, starters, m);
    RunLaunches(ids, starters, s, m, schedule);
    RunKeepsInv(ids, starters, s, m, schedule);
    var i :| 0 <= i < |ids| && starters[i];
    StuckMeansOver(ids, starters, t, m, i);
    if Joins(ids, starters, j) { JoinersLaunched(ids, starters, t, m, j); }
  }

  /** The hops of the ids of those servers that join. */
  ghost function JoinedReach(ids: seq<Id>, starters: seq<bool>): int
    requires |starters| == |ids|
  {
    Sum(seq(|ids|, i requires 0 <= i < |ids| => if Joins(ids, starters, i) then Reach(ids, i) else 0))
  }

  lemma SameReach(ids: seq<Id>, starters: seq<bool>, t: State)
    requires |starters| == |ids| && ValidSize(|ids|, t)
    requires forall j :: 0 <= j < |ids| ==> (t.launched[j] > 0 <==> Joins(ids, starters, j))
    ensures LaunchedReach(ids, t) == JoinedReach(ids, starters)
  {
    assert seq(|ids|, i requires 0 <= i < |ids| => if t.launched[i] == 0 then 0 else Reach(ids, i))
        == seq(|ids|, i requires 0 <= i < |ids| => if Joins(ids, starters, i) then Reach(ids, i) else 0);
  }

  /** The number of messages of a complete election is known from the ids and the starters alone. */
  lemma JoinersDecideCost(ids: seq<Id>, starters: seq<bool>, schedule: seq<Step>)
    requires Distinct(ids) && |starters| == |ids| && (exists i :: 0 <= i < |ids| && starters[i])
    requires Runs(ids, Init(starters), schedule) && AllRegular(schedule)
    requires Stuck(|ids|, Final(ids, Init(starters), schedule))
    ensures Final(ids, Init(starters), schedule).sent == JoinedReach(ids, starters) + |ids|
  {
    var t := Final(ids, Init(starters), schedule);
    forall j | 0 <= j < |ids| ensures t.launched[j] > 0 <==> Joins(ids, starters, j) {
      JoinersLaunch(ids, starters, schedule, j);
    }
    SameReach(ids, starters, t);
    CompleteElectionCost(ids, starters, schedule);
  }
}
