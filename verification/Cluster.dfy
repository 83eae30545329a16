/**
 All servers together, through elections and losses: who is live, whom each of them is connected
 to, and when these connections form a ring. Backups may be lost as well as primaries; a lost
 backup is noticed by its neighbour only when the next primary is lost.
 */
module Cluster {
  import opened Wrappers
  import opened Ring
  import opened Election
  import opened ElectionMachine
  import opened ElectionProgress
  import opened Server

  /** All servers between two elections: who is live, the loop's offset, and the connection made. */
  datatype Cluster = Cluster(live: seq<bool>, offset: seq<nat>, next: seq<Option<nat>>)

  ghost predicate Sized(n: nat, c: Cluster) {
    |c.live| == |c.offset| == |c.next| == n
  }

  ghost function Boot(n: nat): (c: Cluster)
    ensures Sized(n, c)
  {
    Cluster(seq(n, _ => true), seq(n, _ => 1), seq(n, _ => None))
  }

  /** The connection of server `i` leads to a live server. */
  ghost predicate Holds(n: nat, c: Cluster, i: nat)
    requires Sized(n, c) && i < n
  {
    c.next[i].Some? && c.next[i].value < n && c.live[c.next[i].value]
  }

  /** Every live server keeps a connection that holds and otherwise searches from its offset on. */
  ghost function Repair(n: nat, c: Cluster): (d: Cluster)
    requires Sized(n, c)
    ensures Sized(n, d) && d.live == c.live && d.offset == c.offset
  {
    c.(next := seq(n, i requires 0 <= i < n =>
      if !c.live[i] then None
      else NextAfter(i, c.next[i], Holds(n, c, i), c.live, c.offset[i])))
  }

  /** The servers in `gone` and the primary `p` die; the survivors notice the loss of the primary. */
  ghost function Lose(n: nat, c: Cluster, gone: set<nat>, p: nat): (d: Cluster)
    requires Sized(n, c) && p < n
    ensures Sized(n, d)
  {
    var live := seq(n, i requires 0 <= i < n => c.live[i] && i != p && i !in gone);
    c.(live := live, offset := seq(n, i requires 0 <= i < n => if live[i] then c.offset[i] + 1 else c.offset[i]))
  }

  /** The connections of the live servers form the ring `ids`: one cycle through all of them. */
  ghost predicate IsRing(n: nat, c: Cluster, ids: seq<Id>)
    requires Sized(n, c)
  {
    && ids != [] && Distinct(ids)
    && (forall k :: 0 <= k < |ids| ==>
          ids[k] < n && c.live[ids[k]] && c.next[ids[k]] == Some(ids[Next(|ids|, k)]))
    && (forall i :: 0 <= i < n && c.live[i] ==> i in ids)
  }

  /** An election and what is lost after it: some backups at any time, and then the primary. */
  datatype Round = Round(ids: seq<Id>, schedule: seq<Step>, primary: Id, gone: set<nat>)

  ghost predicate Alone(n: nat, c: Cluster, p: nat)
    requires Sized(n, c) && p < n
  {
    c.live[p] && c.next[p] == None && forall i :: 0 <= i < n && c.live[i] ==> i == p
  }

  /**
   The primary is elected: it is the only server, which has found nobody to connect to and elects
   itself, or the connections form a ring and `schedule` is a complete election on it.
   */
  ghost predicate Elects(n: nat, c: Cluster, r: Round)
    requires Sized(n, c) && r.primary < n
  {
    && c.live[r.primary] && r.primary !in r.gone
    && (Alone(n, c, r.primary) ||
        (IsRing(n, c, r.ids) &&
         var s := Init(seq(|r.ids|, _ => true));
         && Runs(r.ids, s, r.schedule) && AllRegular(r.schedule) && Stuck(|r.ids|, Final(r.ids, s, r.schedule))
         && Final(r.ids, s, r.schedule).phase[0] == Returned(r.primary)))
  }

  /** One round: the survivors repair their connections, elect the primary and lose it. */
  ghost predicate RoundFrom(n: nat, d: Cluster, r: Round, e: Cluster)
    requires Sized(n, d)
  {
    && r.primary < n && Elects(n, Repair(n, d), r)
    && e == Lose(n, Repair(n, d), r.gone, r.primary)
  }

  /** A run of rounds; `ds` are the clusters that the rounds begin with, before the connections are repaired. */
  ghost predicate Run(n: nat, ds: seq<Cluster>, rounds: seq<Round>) {
    && |ds| == |rounds| + 1 && ds[0] == Boot(n)
    && (forall k :: 0 <= k < |ds| ==> Sized(n, ds[k]))
    && (forall k :: 0 <= k < |rounds| ==> RoundFrom(n, ds[k], rounds[k], ds[k + 1]))
  }

  // ---------- Who is elected ----------

  ghost predicate Largest(n: nat, c: Cluster, p: nat)
    requires Sized(n, c)
  {
    p < n && c.live[p] && forall i :: 0 <= i < n && c.live[i] ==> i <= p
  }

  /** Whatever the interleaving, the largest live server is elected. */
  lemma LargestElected(n: nat, c: Cluster, r: Round)
    requires Sized(n, c) && r.primary < n && Elects(n, c, r)
    ensures Largest(n, c, r.primary)
  {
    if !Alone(n, c, r.primary) {
      var starters := seq(|r.ids|, _ => true);
      assert starters[0];
      RestMeansElected(r.ids, starters, r.schedule);
      var t := Final(r.ids, Init(starters), r.schedule);
      assert t.phase[0].Returned? && IsMax(r.ids, t.phase[0].id);
      forall i | 0 <= i < n && c.live[i] ensures i <= r.primary {
        var k :| 0 <= k < |r.ids| && r.ids[k] == i;
        assert r.ids[k] <= t.phase[0].id;
      }
    }
  }

  // ---------- What every run keeps ----------

  /** The connection leads upwards, or back to the smallest live server. */
  ghost predicate UpOrBack(n: nat, c: Cluster, i: nat)
    requires Sized(n, c) && i < n
  {
    c.next[i].Some? ==>
      var j := c.next[i].value;
      && j < n && c.live[j] && j != i
      && (j > i || forall m :: 0 <= m < n && c.live[m] ==> j <= m)
  }

  /** After `k` lost primaries, all of them larger, a search never begins beyond a lap. */
  ghost predicate Placed(n: nat, k: nat, c: Cluster, i: nat)
    requires Sized(n, c) && i < n
  {
    c.live[i] ==> c.offset[i] == k + 1 && i + k + 1 <= n && UpOrBack(n, c, i)
  }

  ghost predicate Orderly(n: nat, k: nat, c: Cluster) {
    Sized(n, c) && forall i :: 0 <= i < n ==> Placed(n, k, c, i)
  }

  lemma BeginWithinLap(n: nat, offset: nat)
    requires 1 <= offset <= n
    ensures Begin(n, offset) == offset
  {
    if offset == n {
      ModLap(0, 1, n);
    }
  }

  /** A search that goes round the end comes to the smallest live server, if it begins within the lap. */
  lemma SearchUpOrBack(n: nat, live: seq<bool>, i: nat, d: nat)
    requires |live| == n && i < n && live[i] && 1 <= d && i + d <= n
    ensures var j := FirstLive(live, i, d);
            j.Some? ==> j.value > i || forall m :: 0 <= m < n && live[m] ==> j.value <= m
  {
    var j := FirstLive(live, i, d);
    if j.Some? && j.value < i {
      forall m | 0 <= m < j.value ensures !live[m] {
        assert At(n, i, m + n - i) == m;
      }
    }
  }

  lemma RepairPlaced(n: nat, k: nat, d: Cluster, i: nat)
    requires Sized(n, d) && i < n
    requires d.live[i] ==> d.offset[i] == k + 1 && i + k + 1 <= n && (Holds(n, d, i) ==> UpOrBack(n, d, i))
    ensures Placed(n, k, Repair(n, d), i)
  {
    if d.live[i] {
      BeginWithinLap(n, k + 1);
      SearchUpOrBack(n, d.live, i, k + 1);
    }
  }

  lemma RoundOrderly(n: nat, k: nat, c: Cluster, r: Round)
    requires Orderly(n, k, c) && Largest(n, c, r.primary)
    ensures Orderly(n, k + 1, Repair(n, Lose(n, c, r.gone, r.primary)))
  {
    var more, d := k + 1, Lose(n, c, r.gone, r.primary);
    var repaired := Repair(n, d);
    forall i | 0 <= i < n ensures Placed(n, more, repaired, i) {
      assert Placed(n, k, c, i) && Placed(n, k, c, r.primary);
      RepairPlaced(n, more, d, i);
    }
  }

  lemma BootOrderly(n: nat)
    ensures Orderly(n, 0, Repair(n, Boot(n)))
  {
    var d := Boot(n);
    var repaired := Repair(n, d);
    forall i | 0 <= i < n ensures Placed(n, 0, repaired, i) {
      RepairPlaced(n, 0, d, i);
    }
  }

  lemma RoundKeepsOrderly(n: nat, k: nat, d: Cluster, r: Round, e: Cluster)
    requires Sized(n, d) && Orderly(n, k, Repair(n, d)) && RoundFrom(n, d, r, e)
    ensures Orderly(n, k + 1, Repair(n, e))
  {
    LargestElected(n, Repair(n, d), r);
    RoundOrderly(n, k, Repair(n, d), r);
  }

  lemma {:induction false} RunOrderly(n: nat, ds: seq<Cluster>, rounds: seq<Round>, k: nat)
    requires Run(n, ds, rounds) && k < |ds|
    ensures Orderly(n, k, Repair(n, ds[k]))
    decreases k
  {
    if k == 0 {
      BootOrderly(n);
    } else {
      var j := k - 1;
      RunOrderly(n, ds, rounds, j);
      RoundKeepsOrderly(n, j, ds[j], rounds[j], ds[j + 1]);
    }
  }

  // ---------- Rings ----------

  /** The connection of server `i` passes over no live server. */
  ghost predicate Adjacent(n: nat, c: Cluster, i: nat)
    requires Sized(n, c) && i < n
  {
    && c.next[i].Some? && c.next[i].value < n && c.live[c.next[i].value] && c.next[i].value != i
    && forall e :: 1 <= e < Hops(n, i, c.next[i].value) ==> !c.live[At(n, i, e)]
  }

  /** `ids` is a ring of `c` whose connections lead upwards or back to its smallest member `ids[z]`. */
  ghost predicate RingFrom(n: nat, c: Cluster, ids: seq<Id>, z: nat) {
    && Sized(n, c) && IsRing(n, c, ids) && z < |ids|
    && forall k :: 0 <= k < |ids| && Next(|ids|, k) != z ==> ids[k] < ids[Next(|ids|, k)]
  }

  lemma RingOfOrderly(n: nat, k: nat, c: Cluster, ids: seq<Id>) returns (z: nat)
    requires Orderly(n, k, c) && IsRing(n, c, ids)
    ensures RingFrom(n, c, ids, z)
  {
    z := SmallestOf(n, c, ids);
    forall q | 0 <= q < |ids| && Next(|ids|, q) != z ensures ids[q] < ids[Next(|ids|, q)] {
      assert Placed(n, k, c, ids[q]);
      assert ids[Next(|ids|, q)] != ids[z];
    }
  }

  /** From its smallest member on, such a ring ascends. */
  lemma {:induction false} RingAscends(n: nat, c: Cluster, ids: seq<Id>, z: nat, d: nat, e: nat)
    requires RingFrom(n, c, ids, z) && d < e < |ids|
    ensures ids[At(|ids|, z, d)] < ids[At(|ids|, z, e)]
    decreases e
  {
    var k := At(|ids|, z, e - 1);
    assert Next(|ids|, k) == At(|ids|, z, e) != z;
    if d < e - 1 {
      RingAscends(n, c, ids, z, d, e - 1);
    }
  }

  lemma SmallestOf(n: nat, c: Cluster, ids: seq<Id>) returns (z: nat)
    requires Sized(n, c) && IsRing(n, c, ids)
    ensures z < |ids| && forall i :: 0 <= i < n && c.live[i] ==> ids[z] <= i
  {
    z := 0;
    for k := 0 to |ids|
      invariant z < |ids| && forall j :: 0 <= j < k ==> ids[z] <= ids[j]
    {
      if ids[k] < ids[z] { z := k; }
    }
  }

  /** On a ring of an orderly cluster no connection passes over a live server. */
  lemma RingIsAdjacent(n: nat, k: nat, c: Cluster, ids: seq<Id>, i: nat)
    requires Orderly(n, k, c) && IsRing(n, c, ids) && i < n && c.live[i] && |ids| > 1
    ensures Adjacent(n, c, i)
  {
    var z := RingOfOrderly(n, k, c, ids);
    var q :| 0 <= q < |ids| && ids[q] == i;
    var j := c.next[i].value;
    assert j == ids[Next(|ids|, q)];
    forall e | 1 <= e < Hops(n, i, j) ensures !c.live[At(n, i, e)] {
      var m := At(n, i, e);
      if c.live[m] {
        var w :| 0 <= w < |ids| && ids[w] == m;
        NothingBetween(n, c, ids, z, q, w);
      }
    }
  }

  /** No third member of such a ring lies between one and the next. */
  lemma NothingBetween(n: nat, c: Cluster, ids: seq<Id>, z: nat, q: nat, w: nat)
    requires RingFrom(n, c, ids, z) && q < |ids| && w < |ids| && |ids| > 1
    requires w != q && w != Next(|ids|, q)
    ensures var i, j := ids[q], ids[Next(|ids|, q)]; Hops(n, i, j) < Hops(n, i, ids[w])
  {
    var l := |ids|;
    var a, b := if q >= z then q - z else q + l - z, if w >= z then w - z else w + l - z;
    assert At(l, z, a) == q && At(l, z, b) == w;
    RingAscends(n, c, ids, z, if a < b then a else b, if a < b then b else a);
    if a + 1 < l {
      assert At(l, z, a + 1) == Next(l, q);
      RingAscends(n, c, ids, z, a, a + 1);
      if b > a + 1 {
        RingAscends(n, c, ids, z, a + 1, b);
      }
    } else {
      assert Next(l, q) == z == At(l, z, 0);
      RingAscends(n, c, ids, z, 0, b);
    }
  }

  /** A list of ids that holds the live servers in ascending order. */
  ghost predicate Lists(live: seq<bool>, ids: seq<Id>) {
    && (forall j, k :: 0 <= j < k < |ids| ==> ids[j] < ids[k])
    && (forall k :: 0 <= k < |ids| ==> LiveAt(live, ids[k]))
    && (forall i :: LiveAt(live, i) ==> i in ids)
  }

  lemma ListsOneMore(live: seq<bool>, rest: seq<Id>)
    requires 0 < |live| <= 256 && Lists(live[..|live| - 1], rest)
    ensures if live[|live| - 1] then Lists(live, rest + [|live| - 1]) else Lists(live, rest)
  {
    var n := |live| - 1;
    forall k | 0 <= k < |rest| ensures rest[k] < n && live[rest[k]] {
      assert LiveAt(live[..n], rest[k]);
    }
    forall i: nat | LiveAt(live, i) && i < n ensures i in rest {
      assert LiveAt(live[..n], i);
    }
    if live[n] {
      assert (rest + [n])[|rest|] == n;
    }
  }

  lemma {:induction false} LiveIds(live: seq<bool>) returns (ids: seq<Id>)
    requires |live| <= 256
    ensures Lists(live, ids)
    decreases |live|
  {
    if live == [] {
      ids := [];
    } else {
      var n := |live| - 1;
      var rest := LiveIds(live[..n]);
      ids := if live[n] then rest + [n] else rest;
      ListsOneMore(live, rest);
    }
  }

  lemma AdjacentIsNext(n: nat, c: Cluster, ids: seq<Id>, k: nat)
    requires Sized(n, c) && Lists(c.live, ids) && k < |ids| && ids[k] < n && Adjacent(n, c, ids[k])
    ensures c.next[ids[k]] == Some(ids[Next(|ids|, k)])
  {
    var i, j := ids[k], c.next[ids[k]].value;
    assert LiveAt(c.live, j);
    var q :| 0 <= q < |ids| && ids[q] == j;
    var m := ids[Next(|ids|, k)];
    assert LiveAt(c.live, m) && LiveAt(c.live, ids[|ids| - 1]);
    if m != i && m != j {
      assert At(n, i, Hops(n, i, m)) == m;
      BetweenNeighbours(n, ids, k, q);
    }
  }

  /** In an ascending list the next element comes before every other one, counted along the ring. */
  lemma BetweenNeighbours(n: nat, ids: seq<Id>, k: nat, q: nat)
    requires k < |ids| && q < |ids| && q != k && forall a, b :: 0 <= a < b < |ids| ==> ids[a] < ids[b]
    requires ids[|ids| - 1] < n
    ensures ids[k] < n && ids[q] < n && ids[Next(|ids|, k)] < n
    ensures Hops(n, ids[k], ids[Next(|ids|, k)]) <= Hops(n, ids[k], ids[q])
  {
    assert ids[k] <= ids[|ids| - 1] && ids[q] <= ids[|ids| - 1] && ids[Next(|ids|, k)] <= ids[|ids| - 1];
    if k + 1 < |ids| {
      if q > k + 1 { assert ids[k + 1] < ids[q]; }
    } else {
      if q > 0 { assert ids[0] < ids[q]; }
    }
  }

  lemma AdjacentIsRing(n: nat, c: Cluster, i: nat) returns (ids: seq<Id>)
    requires n <= 256 && Sized(n, c) && LiveAt(c.live, i)
    requires forall i :: 0 <= i < n && c.live[i] ==> Adjacent(n, c, i)
    ensures IsRing(n, c, ids)
  {
    ids := LiveIds(c.live);
    forall k | 0 <= k < |ids|
      ensures ids[k] < n && c.live[ids[k]] && c.next[ids[k]] == Some(ids[Next(|ids|, k)])
    {
      assert LiveAt(c.live, ids[k]);
      AdjacentIsNext(n, c, ids, k);
    }
    forall m | 0 <= m < n && c.live[m] ensures m in ids {
      assert LiveAt(c.live, m);
    }
    assert i in ids;
  }

  // ---------- When the repaired connections form a ring ----------

  /** The search of server `i` begins behind a live server. */
  ghost predicate PassesOver(live: seq<bool>, i: nat, offset: nat)
    requires i < |live|
  {
    exists e :: 1 <= e < Begin(|live|, offset) && live[At(|live|, i, e)]
  }

  /** A server that has lost its connection searches, beginning behind a live server. */
  ghost predicate Skips(n: nat, d: Cluster, i: nat)
    requires Sized(n, d) && i < n
  {
    d.live[i] && !Holds(n, d, i) && PassesOver(d.live, i, d.offset[i])
  }

  lemma FirstLiveAdjacentIff(live: seq<bool>, i: nat, begin: nat)
    requires i < |live| && 1 <= begin <= |live| && SomeOther(live, i)
    ensures var r := FirstLive(live, i, begin);
            (r.Some? && forall e :: 1 <= e < Hops(|live|, i, r.value) ==> !live[At(|live|, i, e)])
            <==> !(exists e :: 1 <= e < begin && live[At(|live|, i, e)])
  {
    var r := FirstLive(live, i, begin);
    if r.None? {
      var j :| 0 <= j < |live| && j != i && live[j];
      assert At(|live|, i, Hops(|live|, i, j)) == j;
    }
  }

  lemma SearchAdjacentIff(n: nat, d: Cluster, i: nat)
    requires Sized(n, d) && i < n && d.live[i] && !Holds(n, d, i) && SomeOther(d.live, i)
    ensures Adjacent(n, Repair(n, d), i) <==> !PassesOver(d.live, i, d.offset[i])
  {
    FirstLiveAdjacentIff(d.live, i, Begin(n, d.offset[i]));
    assert Repair(n, d).next[i] == FirstLive(d.live, i, Begin(n, d.offset[i]));
  }

  /** Who survives a round passed over nobody in it. */
  lemma SurvivorWasAdjacent(n: nat, k: nat, c: Cluster, r: Round, i: nat)
    requires Orderly(n, k, c) && r.primary < n && Elects(n, c, r) && i < n && c.live[i] && i != r.primary
    ensures Adjacent(n, c, i)
  {
    var q :| 0 <= q < |r.ids| && r.ids[q] == i;
    var w :| 0 <= w < |r.ids| && r.ids[w] == r.primary;
    RingIsAdjacent(n, k, c, r.ids, i);
  }

  /** Who keeps its connection after the round still passes over nobody. */
  lemma KeptAdjacent(n: nat, k: nat, d: Cluster, r: Round, e: Cluster, i: nat)
    requires Sized(n, d) && Orderly(n, k, Repair(n, d)) && RoundFrom(n, d, r, e)
    requires i < n && e.live[i] && Holds(n, e, i)
    ensures Adjacent(n, Repair(n, e), i)
  {
    var c := Repair(n, d);
    SurvivorWasAdjacent(n, k, c, r, i);
    assert Repair(n, e).next[i] == e.next[i] == c.next[i];
    assert forall m :: 0 <= m < n && e.live[m] ==> c.live[m];
  }

  /** The connections of the live servers form one cycle through all of them. */
  ghost predicate Ringed(n: nat, c: Cluster)
    requires Sized(n, c)
  {
    exists ids :: IsRing(n, c, ids)
  }

  /**
   When repair works. In every run, with any backups lost besides the primaries: as long as at least
   two servers are live, the repaired connections form one cycle through all live servers if and
   only if no server that has to search begins its search behind a live one.
   */
  lemma RingedIff(n: nat, ds: seq<Cluster>, rounds: seq<Round>, k: nat)
    requires 0 < n <= 256 && Run(n, ds, rounds) && k < |ds| && AtLeastTwo(ds[k].live)
    ensures Ringed(n, Repair(n, ds[k])) <==> forall i :: 0 <= i < n ==> !Skips(n, ds[k], i)
  {
    var c, d := Repair(n, ds[k]), ds[k];
    if Ringed(n, c) {
      RunOrderly(n, ds, rounds, k);
      RingSkipsNobody(n, k, d);
    }
    if forall i :: 0 <= i < n ==> !Skips(n, d, i) {
      forall i | 0 <= i < n && c.live[i] ensures Adjacent(n, c, i) {
        SkippingNobodyIsAdjacent(n, ds, rounds, k, i);
      }
      var i :| LiveAt(c.live, i);
      var ids := AdjacentIsRing(n, c, i);
    }
  }

  ghost predicate AtLeastTwo(live: seq<bool>) {
    (exists i :: LiveAt(live, i)) && forall i :: 0 <= i < |live| && live[i] ==> SomeOther(live, i)
  }

  lemma RingSkipsNobody(n: nat, k: nat, d: Cluster)
    requires Sized(n, d) && Orderly(n, k, Repair(n, d)) && Ringed(n, Repair(n, d)) && AtLeastTwo(d.live)
    ensures forall i :: 0 <= i < n ==> !Skips(n, d, i)
  {
    var c := Repair(n, d);
    var ids :| IsRing(n, c, ids);
    forall i | 0 <= i < n ensures !Skips(n, d, i) {
      if d.live[i] && !Holds(n, d, i) {
        ManyMembers(n, c, ids, i);
        RingIsAdjacent(n, k, c, ids, i);
        SearchAdjacentIff(n, d, i);
      }
    }
  }

  lemma SkippingNobodyIsAdjacent(n: nat, ds: seq<Cluster>, rounds: seq<Round>, k: nat, i: nat)
    requires Run(n, ds, rounds) && k < |ds|
    requires i < n && ds[k].live[i] && SomeOther(ds[k].live, i) && !Skips(n, ds[k], i)
    ensures Adjacent(n, Repair(n, ds[k]), i)
  {
    var d := ds[k];
    if !Holds(n, d, i) {
      SearchAdjacentIff(n, d, i);
    } else {
      assert k > 0;
      var j := k - 1;
      RunOrderly(n, ds, rounds, j);
      KeptAdjacent(n, j, ds[j], rounds[j], ds[j + 1], i);
    }
  }

  lemma ManyMembers(n: nat, c: Cluster, ids: seq<Id>, i: nat)
    requires Sized(n, c) && IsRing(n, c, ids) && i < n && c.live[i] && SomeOther(c.live, i)
    ensures |ids| > 1
  {
    var j :| 0 <= j < n && j != i && c.live[j];
    assert i in ids && j in ids;
  }

  // ---------- Who finds nobody ----------

  /** A search from `d` hops on, which does not begin beyond the lap, and when it finds nobody. */
  lemma SearchEmptyIff(live: seq<bool>, i: nat, d: nat)
    requires i < |live| && live[i] && 1 <= d && i + d <= |live|
    ensures FirstLive(live, i, d) == None <==> forall j :: 0 <= j < |live| && live[j] && j != i ==> i < j < i + d
  {
    var r := FirstLive(live, i, d);
    if r.None? {
      forall j | 0 <= j < |live| && live[j] && j != i ensures i < j < i + d {
        assert At(|live|, i, Hops(|live|, i, j)) == j;
      }
    }
  }

  /**
   Who takes itself for the only server. In every run, with any backups lost besides the primaries, a
   live server ends its repair without a connection, and so elects itself, if and only if it has to
   search and every other live server comes after it, before the place where its search begins.
   */
  lemma FindsNobodyIff(n: nat, ds: seq<Cluster>, rounds: seq<Round>, k: nat, i: nat)
    requires Run(n, ds, rounds) && k < |ds| && i < n && ds[k].live[i]
    ensures Repair(n, ds[k]).next[i] == None <==>
              !Holds(n, ds[k], i) && forall j :: 0 <= j < n && ds[k].live[j] && j != i ==> i < j < i + k + 1
  {
    RunOrderly(n, ds, rounds, k);
    assert Placed(n, k, Repair(n, ds[k]), i);
    BeginWithinLap(n, k + 1);
    SearchEmptyIff(ds[k].live, i, k + 1);
  }

  /** At most one live server takes itself for the only one. */
  lemma NotTwoFindNobody(n: nat, ds: seq<Cluster>, rounds: seq<Round>, k: nat, i: nat, j: nat)
    requires Run(n, ds, rounds) && k < |ds| && i < n && ds[k].live[i] && j < n && ds[k].live[j] && i != j
    ensures Repair(n, ds[k]).next[i].Some? || Repair(n, ds[k]).next[j].Some?
  {
    FindsNobodyIff(n, ds, rounds, k, i);
    FindsNobodyIff(n, ds, rounds, k, j);
  }

  // ---------- One server's main loop ----------

  /** What server `i` meets in the turn of its main loop that repairs `d`, and in which `p` is elected and lost. */
  ghost function TurnOf(n: nat, d: Cluster, p: Id, i: nat): (turn: Turn)
    requires Sized(n, d) && i < n
    ensures |turn.live| == n
  {
    Turn(Holds(n, d, i), d.live, 1, Success(p), LostConnectionToPrimary)
  }

  ghost function TurnsOf(n: nat, ds: seq<Cluster>, rounds: seq<Round>, i: nat, k: nat): (turns: seq<Turn>)
    requires |ds| == |rounds| + 1 && k <= |rounds| && i < n && forall j :: 0 <= j < |ds| ==> Sized(n, ds[j])
    ensures |turns| == k && forall j :: 0 <= j < k ==> |turns[j].live| == n && turns[j] == TurnOf(n, ds[j], rounds[j].primary, i)
  {
    seq(k, j requires 0 <= j < k => TurnOf(n, ds[j], rounds[j].primary, i))
  }

  /** The connection and the offset of server `i` in the cluster `d`, after `k` losses. */
  ghost predicate Holding(n: nat, d: Cluster, i: nat, k: nat, p: Progress) {
    Sized(n, d) && i < n && p.next == d.next[i] && p.offset == d.offset[i] == k + 1
  }

  /** A survivor's turn of the main loop: its repaired connection, the elected primary, and an offset that is one larger. */
  lemma SurvivorTurn(n: nat, d: Cluster, r: Round, e: Cluster, i: nat, k: nat, p: Progress)
    requires 0 < n <= 256 && Holding(n, d, i, k, p) && RoundFrom(n, d, r, e) && e.live[i]
    ensures var q := Turned(i, p, TurnOf(n, d, r.primary, i));
            d.live[i] && Holding(n, e, i, k + 1, q) && q.outcomes == p.outcomes + [Success(r.primary)]
  {
    SurvivorConnected(n, Repair(n, d), r, i);
  }

  /** Whoever is elected together with another live server was connected. */
  lemma SurvivorConnected(n: nat, c: Cluster, r: Round, i: nat)
    requires Sized(n, c) && r.primary < n && Elects(n, c, r) && i < n && c.live[i] && i != r.primary
    ensures c.next[i].Some?
  {
    assert i in r.ids;
  }

  lemma TurnsOfLast(n: nat, ds: seq<Cluster>, rounds: seq<Round>, i: nat, j: nat, p: Progress)
    requires |ds| == |rounds| + 1 && j < |rounds| && i < n <= 256 && forall m :: 0 <= m < |ds| ==> Sized(n, ds[m])
    ensures AfterTurns(i, p, TurnsOf(n, ds, rounds, i, j + 1))
         == Turned(i, AfterTurns(i, p, TurnsOf(n, ds, rounds, i, j)), TurnOf(n, ds[j], rounds[j].primary, i))
  {
    var turns := TurnsOf(n, ds, rounds, i, j + 1);
    assert turns[..j] == TurnsOf(n, ds, rounds, i, j);
  }

  lemma SurvivorWasLive(n: nat, d: Cluster, r: Round, e: Cluster, i: nat)
    requires Sized(n, d) && RoundFrom(n, d, r, e) && i < n && e.live[i]
    ensures d.live[i]
  {
  }

  /**
   The cluster is made of main loops: after the turns of `k` rounds a survivor's connection and
   offset are those that the cluster has for it, the offset is one more than the primaries lost, and
   its elections have yielded exactly the primaries of these rounds.
   */
  lemma {:induction false} SurvivorFollowsMainLoop(n: nat, ds: seq<Cluster>, rounds: seq<Round>, i: nat, k: nat, unset: LoopReply)
    requires 0 < n <= 256 && Run(n, ds, rounds) && k <= |rounds| && i < n && ds[k].live[i]
    ensures var p := AfterTurns(i, Progress(None, 1, unset, []), TurnsOf(n, ds, rounds, i, k));
            && Holding(n, ds[k], i, k, p)
            && |p.outcomes| == k && forall j :: 0 <= j < k ==> p.outcomes[j] == Success(rounds[j].primary)
    decreases k
  {
    if k > 0 {
      var j, start := k - 1, Progress(None, 1, unset, []);
      SurvivorWasLive(n, ds[j], rounds[j], ds[j + 1], i);
      SurvivorFollowsMainLoop(n, ds, rounds, i, j, unset);
      TurnsOfLast(n, ds, rounds, i, j, start);
      SurvivorTurn(n, ds[j], rounds[j], ds[j + 1], i, j, AfterTurns(i, start, TurnsOf(n, ds, rounds, i, j)));
    }
  }
}
