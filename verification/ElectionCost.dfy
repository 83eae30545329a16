/**
 How much an election costs while no connection breaks: the number of messages and the number
 of steps do not depend on the interleaving, only on the arrangement of the ids.
 */
module ElectionCost {
  import opened Ring
  import opened Election
  import opened ElectionMachine
  import opened ElectionProgress

  /** How far the id of server `j` travels: to the first larger id, or once around. */
  ghost function Reach(ids: seq<Id>, j: nat): (d: nat)
    requires j < |ids|
    ensures 1 <= d <= |ids|
    ensures forall e :: 1 <= e < d ==> ids[At(|ids|, j, e)] <= ids[j]
    ensures d < |ids| ==> ids[At(|ids|, j, d)] > ids[j]
  {
    ReachFrom(ids, j, 1)
  }

  ghost function ReachFrom(ids: seq<Id>, j: nat, d: nat): (r: nat)
    requires j < |ids| && 1 <= d <= |ids|
    ensures d <= r <= |ids|
    ensures forall e :: d <= e < r ==> ids[At(|ids|, j, e)] <= ids[j]
    ensures r < |ids| ==> ids[At(|ids|, j, r)] > ids[j]
    decreases |ids| - d
  {
    if d == |ids| || ids[At(|ids|, j, d)] > ids[j] then d else ReachFrom(ids, j, d + 1)
  }

  ghost function Sum(xs: seq<int>): int {
    if xs == [] then 0 else xs[0] + Sum(xs[1..])
  }

  lemma {:induction false} SumUpdate(xs: seq<int>, i: nat, v: int)
    requires i < |xs|
    ensures Sum(xs[i := v]) == Sum(xs) - xs[i] + v
  {
    if i == 0 {
      assert xs[i := v][1..] == xs[1..];
    } else {
      assert xs[i := v][1..] == xs[1..][i - 1 := v];
      SumUpdate(xs[1..], i - 1, v);
    }
  }

  lemma {:induction false} SumAppend(xs: seq<int>, v: int)
    ensures Sum(xs + [v]) == Sum(xs) + v
  {
    if xs == [] {
      assert xs + [v] == [v];
    } else {
      assert (xs + [v])[1..] == xs[1..] + [v];
      SumAppend(xs[1..], v);
    }
  }

  lemma {:induction false} SumZero(xs: seq<int>)
    requires forall i :: 0 <= i < |xs| ==> xs[i] == 0
    ensures Sum(xs) == 0
  {
    if xs != [] { SumZero(xs[1..]); }
  }

  // ---------- What remains to be done ----------

  /**
   The hops a message on its way to server `i` still has ahead of it. With `u == 1` its own
   removal from the channel is counted as well, so that writes are counted for `u == 0` and
   steps for `u == 1`.
   */
  ghost function Ahead(ids: seq<Id>, i: nat, m: Message, u: nat): int
    requires i < |ids|
  {
    if m.id !in ids then 0
    else
      var j := Position(ids, m.id);
      (if m.Underway? then Reach(ids, j) else |ids|) - Hops(|ids|, j, i) + u
  }

  ghost function ChannelWork(ids: seq<Id>, i: nat, q: seq<Message>, u: nat): int
    requires i < |ids|
  {
    if q == [] then 0 else Ahead(ids, i, q[0], u) + ChannelWork(ids, i, q[1..], u)
  }

  lemma {:induction false} ChannelWorkAppend(ids: seq<Id>, i: nat, q: seq<Message>, m: Message, u: nat)
    requires i < |ids|
    ensures ChannelWork(ids, i, q + [m], u) == ChannelWork(ids, i, q, u) + Ahead(ids, i, m, u)
  {
    if q == [] {
      assert q + [m] == [m];
    } else {
      assert (q + [m])[1..] == q[1..] + [m];
      ChannelWorkAppend(ids, i, q[1..], m, u);
    }
  }

  /** The work a server may still bring to the ring. */
  ghost function ServerWork(ids: seq<Id>, s: State, i: nat, u: nat): int
    requires ValidSize(|ids|, s) && i < |ids|
  {
    (if s.launched[i] == 0 then Reach(ids, i) else 0) + (if s.phase[i].Idle? then u else 0)
  }

  ghost function ServerWorks(ids: seq<Id>, s: State, u: nat): (xs: seq<int>)
    requires ValidSize(|ids|, s)
    ensures |xs| == |ids| && forall i :: 0 <= i < |ids| ==> xs[i] == ServerWork(ids, s, i, u)
  {
    seq(|ids|, i requires 0 <= i < |ids| => ServerWork(ids, s, i, u))
  }

  ghost function ChannelWorks(ids: seq<Id>, s: State, u: nat): (xs: seq<int>)
    requires ValidSize(|ids|, s)
    ensures |xs| == |ids| && forall i :: 0 <= i < |ids| ==> xs[i] == ChannelWork(ids, i, s.chan[i], u)
  {
    seq(|ids|, i requires 0 <= i < |ids| => ChannelWork(ids, i, s.chan[i], u))
  }

  /** Writes (`u == 0`) or steps (`u == 1`) left, plus what servers that never launch will not use. */
  ghost function Work(ids: seq<Id>, s: State, u: nat): int
    requires ValidSize(|ids|, s)
  {
    Sum(ServerWorks(ids, s, u)) + Sum(ChannelWorks(ids, s, u)) + (if s.declared == 0 then |ids| else 0)
  }

  lemma WorkTake(ids: seq<Id>, s: State, i: nat, u: nat)
    requires ValidSize(|ids|, s) && i < |ids| && s.chan[i] != []
    ensures Work(ids, Take(s, i), u) == Work(ids, s, u) - Ahead(ids, i, s.chan[i][0], u)
  {
    var t := Take(s, i);
    var v := ChannelWork(ids, i, t.chan[i], u);
    SumUpdate(ChannelWorks(ids, s, u), i, v);
    assert ChannelWorks(ids, t, u) == ChannelWorks(ids, s, u)[i := v];
    assert ServerWorks(ids, t, u) == ServerWorks(ids, s, u);
  }

  lemma WorkPost(ids: seq<Id>, s: State, i: nat, m: Message, u: nat)
    requires ValidSize(|ids|, s) && i < |ids|
    ensures Work(ids, Post(s, i, m), u) == Work(ids, s, u) + Ahead(ids, i, m, u)
  {
    var t := Post(s, i, m);
    var v := ChannelWork(ids, i, t.chan[i], u);
    ChannelWorkAppend(ids, i, s.chan[i], m, u);
    SumUpdate(ChannelWorks(ids, s, u), i, v);
    assert ChannelWorks(ids, t, u) == ChannelWorks(ids, s, u)[i := v];
    assert ServerWorks(ids, t, u) == ServerWorks(ids, s, u);
  }

  lemma WorkJoined(ids: seq<Id>, s: State, i: nat, u: nat)
    requires ValidSize(|ids|, s) && i < |ids| && s.launched[i] == 0
    ensures Work(ids, Joined(s, i), u) == Work(ids, s, u) - Reach(ids, i) - if s.phase[i].Idle? then u else 0
  {
    var t := Joined(s, i);
    SumUpdate(ServerWorks(ids, s, u), i, 0);
    assert ServerWorks(ids, t, u) == ServerWorks(ids, s, u)[i := 0];
    assert ChannelWorks(ids, t, u) == ChannelWorks(ids, s, u);
  }

  /** States that differ only in flags, in history or in who has returned have the same work. */
  lemma WorkSame(ids: seq<Id>, s: State, t: State, u: nat)
    requires ValidSize(|ids|, s) && ValidSize(|ids|, t)
    requires t.chan == s.chan && t.launched == s.launched && t.declared == s.declared
    requires forall i :: 0 <= i < |ids| ==> t.phase[i].Idle? == s.phase[i].Idle?
    ensures Work(ids, t, u) == Work(ids, s, u)
  {
    assert ServerWorks(ids, t, u) == ServerWorks(ids, s, u);
    assert ChannelWorks(ids, t, u) == ChannelWorks(ids, s, u);
  }

  /** A step takes one off the step count, and one off the write count for each message written. */
  ghost predicate Pays(ids: seq<Id>, s: State, t: State, u: nat)
    requires ValidSize(|ids|, s) && ValidSize(|ids|, t)
  {
    Work(ids, t, u) == Work(ids, s, u) - if u == 1 then 1 else t.sent - s.sent
  }

  /** An id that meets a larger one, or its own server, has gone exactly as far as it can. */
  lemma SoundReach(ids: seq<Id>, i: nat, m: Message)
    requires Distinct(ids) && i < |ids| && m.Underway? && Sound(ids, i, m) && m.id <= ids[i]
    ensures Reach(ids, Position(ids, m.id)) == Hops(|ids|, Position(ids, m.id), i)
  {
    var j := Position(ids, m.id);
    PositionUnique(ids, i);
    var r := Reach(ids, j);
    assert At(|ids|, j, Hops(|ids|, j, i)) == i;
  }

  lemma StartPays(ids: seq<Id>, s: State, i: nat, u: nat)
    requires Distinct(ids) && ValidSize(|ids|, s) && AllUp(s) && Enabled(|ids|, s, Start(i))
    requires s.launched[i] == 0 && u <= 1
    ensures Pays(ids, s, Apply(ids, s, Start(i)), u)
  {
    var k := Next(|ids|, i);
    PositionUnique(ids, i);
    HopsNext(|ids|, i, i);
    WorkJoined(ids, s, i, u);
    WorkPost(ids, Joined(s, i), k, Underway(ids[i]), u);
    WorkSame(ids, Post(Joined(s, i), k, Underway(ids[i])), Apply(ids, s, Start(i)), u);
  }

  /** Passing an id on takes one hop. */
  lemma ForwardPays(ids: seq<Id>, s: State, i: nat, u: nat)
    requires Distinct(ids) && Safe(ids, s) && AllUp(s) && Enabled(|ids|, s, Reply(i)) && u <= 1
    requires s.chan[i][0].Underway? && s.chan[i][0].id > ids[i]
    ensures Pays(ids, s, Apply(ids, s, Reply(i)), u)
  {
    var x := s.chan[i][0];
    var k := Next(|ids|, i);
    assert Sound(ids, i, x);
    ReplyEffect(ids, s, i);
    WorkTake(ids, s, i, u);
    HopsNext(|ids|, Position(ids, x.id), i);
    WorkPost(ids, Take(s, i), k, x, u);
    WorkSame(ids, Post(Take(s, i), k, x), Apply(ids, s, Reply(i)), u);
  }

  /** Replacing an id by a larger one ends the hops of the former and starts those of the latter. */
  lemma SubstitutePays(ids: seq<Id>, s: State, i: nat, u: nat)
    requires Distinct(ids) && Safe(ids, s) && AllUp(s) && Enabled(|ids|, s, Reply(i)) && u <= 1
    requires s.chan[i][0].Underway? && s.chan[i][0].id < ids[i] && !s.started[i] && s.launched[i] == 0
    ensures Pays(ids, s, Apply(ids, s, Reply(i)), u)
  {
    var x := s.chan[i][0];
    var k := Next(|ids|, i);
    var t := Take(s, i);
    assert Sound(ids, i, x);
    ReplyEffect(ids, s, i);
    WorkTake(ids, s, i, u);
    SoundReach(ids, i, x);
    PositionUnique(ids, i);
    HopsNext(|ids|, i, i);
    WorkJoined(ids, t, i, u);
    WorkPost(ids, Joined(t, i), k, Underway(ids[i]), u);
    WorkSame(ids, Post(Joined(t, i), k, Underway(ids[i])), Apply(ids, s, Reply(i)), u);
  }

  /** Declaring the winner turns a finished lap into the lap of the announcement. */
  lemma DeclarePays(ids: seq<Id>, s: State, i: nat, u: nat)
    requires Distinct(ids) && Safe(ids, s) && AllUp(s) && Enabled(|ids|, s, Reply(i)) && s.declared == 0 && u <= 1
    requires s.chan[i][0] == Underway(ids[i])
    ensures Pays(ids, s, Apply(ids, s, Reply(i)), u)
  {
    var k := Next(|ids|, i);
    var t := Take(s, i);
    assert Sound(ids, i, s.chan[i][0]);
    ReplyEffect(ids, s, i);
    WorkTake(ids, s, i, u);
    SoundReach(ids, i, s.chan[i][0]);
    PositionUnique(ids, i);
    HopsNext(|ids|, i, i);
    WorkPost(ids, t, k, Elected(ids[i]), u);
    DeclareWork(ids, Post(t, k, Elected(ids[i])), Apply(ids, s, Reply(i)), u);
  }

  lemma ReplyUnderwayPays(ids: seq<Id>, s: State, i: nat, u: nat)
    requires Distinct(ids) && Safe(ids, s) && AllUp(s) && Enabled(|ids|, s, Reply(i)) && s.declared == 0 && u <= 1
    requires s.chan[i][0].Underway?
    requires s.chan[i][0].id < ids[i] && !s.started[i] ==> s.launched[i] == 0
    ensures Pays(ids, s, Apply(ids, s, Reply(i)), u)
  {
    var x := s.chan[i][0];
    if x.id > ids[i] {
      ForwardPays(ids, s, i, u);
    } else if x.id == ids[i] {
      DeclarePays(ids, s, i, u);
    } else if !s.started[i] {
      SubstitutePays(ids, s, i, u);
    } else {
      assert Sound(ids, i, x);
      SoundReach(ids, i, x);
      ReplyEffect(ids, s, i);
      WorkTake(ids, s, i, u);
    }
  }

  lemma DeclareWork(ids: seq<Id>, s: State, t: State, u: nat)
    requires ValidSize(|ids|, s) && s.declared == 0 && t.declared == 1 && t == s.(declared := 1, sent := t.sent)
    ensures Work(ids, t, u) == Work(ids, s, u) - |ids|
  {
    assert ServerWorks(ids, t, u) == ServerWorks(ids, s, u);
    assert ChannelWorks(ids, t, u) == ChannelWorks(ids, s, u);
  }

  lemma ReplyElectedPays(ids: seq<Id>, s: State, i: nat, u: nat)
    requires Distinct(ids) && Safe(ids, s) && AllUp(s) && Enabled(|ids|, s, Reply(i)) && u <= 1
    requires s.chan[i][0].Elected?
    ensures Pays(ids, s, Apply(ids, s, Reply(i)), u)
  {
    var x := s.chan[i][0];
    var t := Take(s, i);
    assert Sound(ids, i, x);
    WorkTake(ids, s, i, u);
    HopsNext(|ids|, Position(ids, x.id), i);
    PositionUnique(ids, i);
    if x.id == ids[i] {
      WorkSame(ids, t, Apply(ids, s, Reply(i)), u);
    } else {
      WorkPost(ids, t, Next(|ids|, i), x, u);
      WorkSame(ids, Post(t, Next(|ids|, i), x), Apply(ids, s, Reply(i)), u);
    }
  }

  lemma StepPays(ids: seq<Id>, starters: seq<bool>, s: State, m: nat, step: Step, u: nat)
    requires Distinct(ids) && |starters| == |ids| && Inv(ids, starters, s, m) && u <= 1
    requires Regular(step) && Enabled(|ids|, s, step)
    ensures Pays(ids, s, Apply(ids, s, step), u)
  {
    var i := step.i;
    AtHops(|ids|, m, i);
    if step.Start? {
      StartPays(ids, s, i, u);
    } else if s.chan[i][0].Elected? {
      ReplyElectedPays(ids, s, i, u);
    } else {
      ReplyUnderwayPays(ids, s, i, u);
    }
  }

  lemma {:induction false} RunPays(ids: seq<Id>, starters: seq<bool>, s: State, m: nat, schedule: seq<Step>)
    requires Distinct(ids) && |starters| == |ids| && Inv(ids, starters, s, m)
    requires Runs(ids, s, schedule) && AllRegular(schedule)
    ensures var t := Final(ids, s, schedule);
            && Work(ids, t, 0) + t.sent == Work(ids, s, 0) + s.sent
            && Work(ids, t, 1) + |schedule| == Work(ids, s, 1)
    decreases |schedule|
  {
    if schedule != [] {
      assert Regular(schedule[0]);
      StepPays(ids, starters, s, m, schedule[0], 0);
      StepPays(ids, starters, s, m, schedule[0], 1);
      StepKeepsInv(ids, starters, s, m, schedule[0]);
      var t := Apply(ids, s, schedule[0]);
      assert Runs(ids, t, schedule[1..]) && Final(ids, s, schedule) == Final(ids, t, schedule[1..]);
      RunPays(ids, starters, t, m, schedule[1..]);
    }
  }

  // ---------- The total ----------

  ghost function Reaches(ids: seq<Id>): (xs: seq<int>)
    ensures |xs| == |ids| && forall i :: 0 <= i < |ids| ==> xs[i] == Reach(ids, i)
  {
    seq(|ids|, i requires 0 <= i < |ids| => Reach(ids, i))
  }

  /** The hops of all ids together. */
  ghost function TotalReach(ids: seq<Id>): int {
    Sum(Reaches(ids))
  }

  /** The hops of the ids of those servers that put theirs on the ring. */
  ghost function LaunchedReach(ids: seq<Id>, s: State): int
    requires ValidSize(|ids|, s)
  {
    Sum(seq(|ids|, i requires 0 <= i < |ids| => if s.launched[i] == 0 then 0 else Reach(ids, i)))
  }

  lemma {:induction false} SumMonotone(xs: seq<int>, ys: seq<int>)
    requires |xs| == |ys| && forall i :: 0 <= i < |xs| ==> xs[i] <= ys[i]
    ensures Sum(xs) <= Sum(ys)
  {
    if xs != [] { SumMonotone(xs[1..], ys[1..]); }
  }

  lemma {:induction false} SumAdd(xs: seq<int>, ys: seq<int>, zs: seq<int>)
    requires |xs| == |ys| == |zs| && forall i :: 0 <= i < |xs| ==> zs[i] == xs[i] + ys[i]
    ensures Sum(zs) == Sum(xs) + Sum(ys)
  {
    if xs != [] { SumAdd(xs[1..], ys[1..], zs[1..]); }
  }

  ghost function Starting(starters: seq<bool>): (xs: seq<int>)
    ensures |xs| == |starters| && forall i :: 0 <= i < |xs| ==> xs[i] == if starters[i] then 1 else 0
  {
    seq(|starters|, i requires 0 <= i < |starters| => if starters[i] then 1 else 0)
  }

  lemma InitialWork(ids: seq<Id>, starters: seq<bool>)
    requires |starters| == |ids|
    ensures Work(ids, Init(starters), 0) == TotalReach(ids) + |ids|
    ensures Work(ids, Init(starters), 1) == TotalReach(ids) + Sum(Starting(starters)) + |ids|
  {
    var s := Init(starters);
    SumZero(ChannelWorks(ids, s, 0));
    SumZero(ChannelWorks(ids, s, 1));
    assert ServerWorks(ids, s, 0) == Reaches(ids);
    SumAdd(Reaches(ids), Starting(starters), ServerWorks(ids, s, 1));
  }

  /** Once everyone has returned, what is left are the hops of the ids that were never put on the ring. */
  lemma FinalWork(ids: seq<Id>, s: State, m: nat, u: nat)
    requires m < |ids| && ValidSize(|ids|, s) && Over(ids, s, m) && s.declared > 0
    ensures Work(ids, s, u) == TotalReach(ids) - LaunchedReach(ids, s)
  {
    SumZero(ChannelWorks(ids, s, u));
    SumAdd(ServerWorks(ids, s, u),
           seq(|ids|, i requires 0 <= i < |ids| => if s.launched[i] == 0 then 0 else Reach(ids, i)),
           Reaches(ids));
  }

  lemma {:induction false} ChannelWorkPositive(ids: seq<Id>, i: nat, q: seq<Message>, u: nat)
    requires Distinct(ids) && i < |ids| && forall k :: 0 <= k < |q| ==> Sound(ids, i, q[k])
    ensures ChannelWork(ids, i, q, u) >= 0
  {
    if q != [] {
      ChannelWorkPositive(ids, i, q[1..], u);
      assert Sound(ids, i, q[0]);
    }
  }

  lemma WorkPositive(ids: seq<Id>, s: State, u: nat)
    requires Distinct(ids) && Safe(ids, s)
    ensures Work(ids, s, u) >= 0
  {
    forall i | 0 <= i < |ids| ensures ChannelWorks(ids, s, u)[i] >= 0 {
      ChannelWorkPositive(ids, i, s.chan[i], u);
    }
    var zeros := seq(|ids|, _ => 0);
    SumZero(zeros);
    SumMonotone(zeros, ChannelWorks(ids, s, u));
    SumMonotone(zeros, ServerWorks(ids, s, u));
  }

  // ---------- The worst case ----------

  ghost function Below(xs: seq<Id>, x: Id): nat {
    if xs == [] then 0 else Below(xs[..|xs| - 1], x) + if xs[|xs| - 1] < x then 1 else 0
  }

  ghost function Above(xs: seq<Id>, x: Id): nat {
    if xs == [] then 0 else Above(xs[..|xs| - 1], x) + if xs[|xs| - 1] > x then 1 else 0
  }

  lemma {:induction false} BelowAbove(xs: seq<Id>, x: Id)
    requires x !in xs
    ensures Below(xs, x) + Above(xs, x) == |xs|
  {
    if xs != [] { BelowAbove(xs[..|xs| - 1], x); }
  }

  /** For each id of `xs`, the smaller ids in `ys`. */
  ghost function PairsBelow(xs: seq<Id>, ys: seq<Id>): nat {
    if xs == [] then 0 else PairsBelow(xs[..|xs| - 1], ys) + Below(ys, xs[|xs| - 1])
  }

  lemma {:induction false} PairsBelowAppend(xs: seq<Id>, ys: seq<Id>, y: Id)
    ensures PairsBelow(xs, ys + [y]) == PairsBelow(xs, ys) + Above(xs, y)
  {
    if xs != [] {
      assert (ys + [y])[..|ys|] == ys;
      PairsBelowAppend(xs[..|xs| - 1], ys, y);
    }
  }

  lemma {:induction false} PairsBelowTotal(xs: seq<Id>)
    requires Distinct(xs)
    ensures 2 * PairsBelow(xs, xs) == |xs| * (|xs| - 1)
  {
    if xs != [] {
      var pre, x := xs[..|xs| - 1], xs[|xs| - 1];
      PairsBelowTotal(pre);
      assert xs == pre + [x];
      PairsBelowAppend(pre, pre, x);
      BelowAbove(pre, x);
      assert Below(xs, x) == Below(pre, x);
    }
  }

  ghost function SmallerPlaces(ids: seq<Id>, n: nat, x: Id): set<nat>
    requires n <= |ids|
  {
    set k: nat | k < n && ids[k] < x
  }

  lemma {:induction false} BelowCounts(ids: seq<Id>, n: nat, x: Id)
    requires n <= |ids|
    ensures |SmallerPlaces(ids, n, x)| == Below(ids[..n], x)
  {
    if n > 0 {
      BelowCounts(ids, n - 1, x);
      assert ids[..n][..n - 1] == ids[..n - 1];
      if ids[n - 1] < x {
        assert SmallerPlaces(ids, n, x) == SmallerPlaces(ids, n - 1, x) + {n - 1};
      } else {
        assert SmallerPlaces(ids, n, x) == SmallerPlaces(ids, n - 1, x);
      }
    } else {
      assert SmallerPlaces(ids, n, x) == {};
    }
  }

  /** The first `d` places after `j`. */
  ghost function PlacesAfter(n: nat, j: nat, d: nat): set<nat>
    requires j < n && d < n
  {
    set e: nat | 1 <= e <= d :: At(n, j, e)
  }

  lemma {:induction false} PlacesAfterCount(n: nat, j: nat, d: nat)
    requires j < n && d < n
    ensures |PlacesAfter(n, j, d)| == d
  {
    if d > 0 {
      PlacesAfterCount(n, j, d - 1);
      assert PlacesAfter(n, j, d) == PlacesAfter(n, j, d - 1) + {At(n, j, d)};
    }
  }

  lemma SubsetSize(a: set<nat>, b: set<nat>)
    requires a <= b
    ensures |a| <= |b|
  {
    assert b == a + (b - a);
  }

  /** An id goes no further than one hop past each smaller id. */
  lemma ReachBelow(ids: seq<Id>, j: nat)
    requires Distinct(ids) && j < |ids|
    ensures Reach(ids, j) <= 1 + Below(ids, ids[j])
  {
    var d := Reach(ids, j) - 1;
    BelowCounts(ids, |ids|, ids[j]);
    assert ids[..|ids|] == ids;
    PlacesAfterCount(|ids|, j, d);
    assert PlacesAfter(|ids|, j, d) <= SmallerPlaces(ids, |ids|, ids[j]);
    SubsetSize(PlacesAfter(|ids|, j, d), SmallerPlaces(ids, |ids|, ids[j]));
  }

  lemma {:induction false} ReachesBelow(ids: seq<Id>, rs: seq<int>)
    requires |rs| <= |ids| && forall j :: 0 <= j < |rs| ==> rs[j] <= 1 + Below(ids, ids[j])
    ensures Sum(rs) <= |rs| + PairsBelow(ids[..|rs|], ids)
  {
    if rs != [] {
      var k := |rs| - 1;
      ReachesBelow(ids, rs[..k]);
      assert rs == rs[..k] + [rs[k]];
      SumAppend(rs[..k], rs[k]);
      assert ids[..k + 1][..k] == ids[..k];
    }
  }

  lemma TotalReachWorst(ids: seq<Id>)
    requires Distinct(ids)
    ensures 2 * TotalReach(ids) <= |ids| * (|ids| + 1)
  {
    forall j | 0 <= j < |ids| ensures Reaches(ids)[j] <= 1 + Below(ids, ids[j]) {
      ReachBelow(ids, j);
    }
    ReachesBelow(ids, Reaches(ids));
    assert ids[..|ids|] == ids;
    PairsBelowTotal(ids);
  }

  // ---------- The ring that the servers build ----------

  ghost predicate Ascending(ids: seq<Id>) {
    forall i, j :: 0 <= i < j < |ids| ==> ids[i] < ids[j]
  }

  lemma {:induction false} AscendingSum(ids: seq<Id>, k: nat)
    requires Ascending(ids) && k < |ids|
    ensures Sum(Reaches(ids)[..k]) == k
  {
    if k > 0 {
      AscendingSum(ids, k - 1);
      assert Reach(ids, k - 1) == 1;
      assert Reaches(ids)[..k] == Reaches(ids)[..k - 1] + [Reaches(ids)[k - 1]];
      SumAppend(Reaches(ids)[..k - 1], Reaches(ids)[k - 1]);
    }
  }

  lemma AscendingReach(ids: seq<Id>)
    requires Ascending(ids) && |ids| > 0
    ensures TotalReach(ids) == 2 * |ids| - 1
  {
    var n := |ids|;
    AscendingSum(ids, n - 1);
    assert Reaches(ids) == Reaches(ids)[..n - 1] + [Reaches(ids)[n - 1]];
    SumAppend(Reaches(ids)[..n - 1], Reaches(ids)[n - 1]);
    assert Reach(ids, n - 1) == n;
  }

  // ---------- Main results ----------

  /**
   Termination: every election, whatever the interleaving, stops after a number of steps that
   is known beforehand, and has written no more messages than the last clause says.
   */
  lemma ElectionTerminates(ids: seq<Id>, starters: seq<bool>, schedule: seq<Step>)
    requires Distinct(ids) && |starters| == |ids| > 0
    requires Runs(ids, Init(starters), schedule) && AllRegular(schedule)
    ensures |schedule| <= TotalReach(ids) + Sum(Starting(starters)) + |ids|
    ensures 2 * Final(ids, Init(starters), schedule).sent <= |ids| * (|ids| + 1) + 2 * |ids|
  {
    var m := TopExists(ids);
    var s := Init(starters);
    InitInv(ids, starters, m);
    RunPays(ids, starters, s, m, schedule);
    RunKeepsInv(ids, starters, s, m, schedule);
    InitialWork(ids, starters);
    WorkPositive(ids, Final(ids, s, schedule), 0);
    WorkPositive(ids, Final(ids, s, schedule), 1);
    TotalReachWorst(ids);
  }

  lemma FirstStep(ids: seq<Id>, s: State, step: Step, rest: seq<Step>)
    requires ValidSize(|ids|, s) && Regular(step) && Enabled(|ids|, s, step)
    requires Runs(ids, Apply(ids, s, step), rest) && AllRegular(rest)
    ensures Runs(ids, s, [step] + rest) && AllRegular([step] + rest)
    ensures Final(ids, s, [step] + rest) == Final(ids, Apply(ids, s, step), rest)
  {
    assert ([step] + rest)[1..] == rest;
  }

  lemma StepLeavesLess(ids: seq<Id>, starters: seq<bool>, s: State, m: nat, step: Step)
    requires Distinct(ids) && |starters| == |ids| && Inv(ids, starters, s, m)
    requires Regular(step) && Enabled(|ids|, s, step)
    ensures Inv(ids, starters, Apply(ids, s, step), m) && 0 <= Work(ids, Apply(ids, s, step), 1) < Work(ids, s, 1)
  {
    StepPays(ids, starters, s, m, step, 1);
    StepKeepsInv(ids, starters, s, m, step);
    WorkPositive(ids, Apply(ids, s, step), 1);
  }

  /** Every election can be brought to its end from wherever it has got to. */
  lemma {:induction false} RunCompletes(ids: seq<Id>, starters: seq<bool>, s: State, m: nat) returns (schedule: seq<Step>)
    requires Distinct(ids) && |starters| == |ids| && Inv(ids, starters, s, m)
    ensures Runs(ids, s, schedule) && AllRegular(schedule) && Stuck(|ids|, Final(ids, s, schedule))
    decreases Work(ids, s, 1)
  {
    schedule := [];
    if step :| Regular(step) && Enabled(|ids|, s, step) {
      StepLeavesLess(ids, starters, s, m, step);
      var rest := RunCompletes(ids, starters, Apply(ids, s, step), m);
      FirstStep(ids, s, step, rest);
      schedule := [step] + rest;
    }
  }

  /**
   Message complexity: all complete elections among the same starters write and handle exactly
   as many messages as the hops of the launched ids plus one lap of the announcement.
   */
  lemma CompleteElectionCost(ids: seq<Id>, starters: seq<bool>, schedule: seq<Step>)
    requires Distinct(ids) && |starters| == |ids| && (exists i :: 0 <= i < |ids| && starters[i])
    requires Runs(ids, Init(starters), schedule) && AllRegular(schedule)
    requires Stuck(|ids|, Final(ids, Init(starters), schedule))
    ensures var t := Final(ids, Init(starters), schedule);
            && t.sent == LaunchedReach(ids, t) + |ids|
            && |schedule| == t.sent + Sum(Starting(starters))
            && ((forall i :: 0 <= i < |ids| ==> starters[i]) ==> LaunchedReach(ids, t) == TotalReach(ids))
  {
    var m := TopExists(ids);
    var s := Init(starters);
    var t := Final(ids, s, schedule);
    InitInv(ids, starters, m);
    RunPays(ids, starters, s, m, schedule);
    RunKeepsInv(ids, starters, s, m, schedule);
    InitialWork(ids, starters);
    var i :| 0 <= i < |ids| && starters[i];
    StuckMeansOver(ids, starters, t, m, i);
    FinalWork(ids, t, m, 0);
    FinalWork(ids, t, m, 1);
    if forall i :: 0 <= i < |ids| ==> starters[i] {
      assert seq(|ids|, i requires 0 <= i < |ids| => if t.launched[i] == 0 then 0 else Reach(ids, i)) == Reaches(ids);
    }
  }

  /** On the ascending ring an election of all servers takes exactly 3n - 1 messages. */
  lemma AscendingElectionCost(ids: seq<Id>, schedule: seq<Step>)
    requires Ascending(ids) && |ids| > 0
    requires var s := Init(seq(|ids|, _ => true));
             && Runs(ids, s, schedule) && AllRegular(schedule) && Stuck(|ids|, Final(ids, s, schedule))
    ensures Final(ids, Init(seq(|ids|, _ => true)), schedule).sent == 3 * |ids| - 1
  {
    var starters := seq(|ids|, _ => true);
    assert starters[0];
    CompleteElectionCost(ids, starters, schedule);
    AscendingReach(ids);
  }
}
