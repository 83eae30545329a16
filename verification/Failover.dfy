/**
 Runs of the whole cluster. When only primaries are lost, the ring is kept whole until a single
 server is left; with a lost backup the repair can leave a live server out, or leave a server that
 elects itself although another one, which is connected to it, is live.
 */
module Failover {
  import opened Wrappers
  import opened Ring
  import opened Election
  import opened ElectionMachine
  import opened ElectionProgress
  import opened ElectionCost
  import opened Server
  import opened Cluster

  ghost predicate OnlyPrimaries(rounds: seq<Round>) {
    forall k :: 0 <= k < |rounds| ==> rounds[k].gone == {}
  }

  /** Server `i` is one of the survivors `0 .. n-1-k` of `k` losses and connected to the next of them. */
  ghost predicate InPlace(n: nat, k: nat, c: Cluster, i: nat)
    requires k < n && i < n - k && Sized(n, c)
  {
    && c.live[i] && c.offset[i] == k + 1
    && c.next[i] == if i < n - 1 - k then Some(i + 1) else if k == n - 1 then None else Some(0)
  }

  /** After `k` losses the survivors `0 .. n-1-k` have offset `k + 1` and form the ring in this order. */
  ghost predicate Shape(n: nat, k: nat, c: Cluster)
    requires k < n
  {
    && Sized(n, c)
    && (forall i :: 0 <= i < n ==> c.live[i] == (i < n - k))
    && (forall i :: 0 <= i < n - k ==> InPlace(n, k, c, i))
  }

  lemma BootShape(n: nat)
    requires 0 < n
    ensures Shape(n, 0, Repair(n, Boot(n)))
  {
    var c := Boot(n);
    BeginWithinLap(n, 1);
    if n > 1 {
      forall i | 0 <= i < n ensures FirstLive(c.live, i, 1) == Some(Next(n, i)) {
        assert At(n, i, 1) == Next(n, i);
      }
    }
  }

  /** The survivor before the lost primary, and only this one, has to search, and finds server 0. */
  lemma LastSearches(n: nat, k: nat, live: seq<bool>)
    requires k + 1 < n == |live| && forall i :: 0 <= i < n ==> live[i] == (i < n - 1 - k)
    ensures FirstLive(live, n - 2 - k, Begin(n, k + 2)) == if k + 2 == n then None else Some(0)
  {
    BeginWithinLap(n, k + 2);
    if k + 2 < n {
      assert At(n, n - 2 - k, k + 2) == 0;
    }
  }

  lemma LoseInPlace(n: nat, k: nat, c: Cluster, i: nat)
    requires k + 1 < n && Shape(n, k, c) && i < n - 1 - k
    ensures InPlace(n, k + 1, Repair(n, Lose(n, c, {}, n - 1 - k)), i)
  {
    var d := Lose(n, c, {}, n - 1 - k);
    assert InPlace(n, k, c, i);
    if i < n - 2 - k {
      assert Holds(n, d, i);
    } else {
      assert !Holds(n, d, i);
      LastSearches(n, k, d.live);
    }
  }

  /** Losing the primary leaves one ring of one server less. */
  lemma LoseShape(n: nat, k: nat, c: Cluster)
    requires k + 1 < n && Shape(n, k, c)
    ensures Shape(n, k + 1, Repair(n, Lose(n, c, {}, n - 1 - k)))
  {
    var d, fewer := Repair(n, Lose(n, c, {}, n - 1 - k)), k + 1;
    forall i | 0 <= i < n - fewer ensures InPlace(n, fewer, d, i) {
      LoseInPlace(n, k, c, i);
    }
  }

  /** A run of that shape forms the ring 0, 1, ..., n-1-k. */
  lemma ShapeIsRing(n: nat, k: nat, c: Cluster)
    requires n <= 256 && k + 1 < n && Shape(n, k, c)
    ensures IsRing(n, c, Ascent(n - k))
  {
    var ids := Ascent(n - k);
    forall i | 0 <= i < |ids| ensures c.live[ids[i]] && c.next[ids[i]] == Some(ids[Next(|ids|, i)]) {
      assert InPlace(n, k, c, i);
    }
    forall i | 0 <= i < n && c.live[i] ensures i in ids {
      assert ids[i] == i;
    }
  }

  ghost function Ascent(n: nat): (ids: seq<Id>)
    requires n <= 256
    ensures |ids| == n && forall i :: 0 <= i < n ==> ids[i] == i
  {
    seq(n, i requires 0 <= i < n => i)
  }

  /** The largest survivor is elected, whatever the interleaving. */
  lemma EpochPrimary(n: nat, k: nat, c: Cluster, r: Round)
    requires k < n && Shape(n, k, c) && r.primary < n && Elects(n, c, r)
    ensures r.primary == n - 1 - k
  {
    LargestElected(n, c, r);
    assert c.live[n - 1 - k];
  }

  lemma NextShape(n: nat, k: nat, c: Cluster, e: Cluster)
    requires k < n && Shape(n, k, c) && e == Lose(n, c, {}, n - 1 - k) && exists i: nat :: LiveAt(e.live, i)
    ensures k + 1 < n && Shape(n, k + 1, Repair(n, e))
  {
    var i: nat :| LiveAt(e.live, i);
    assert c.live[i] && i != n - 1 - k;
    LoseShape(n, k, c);
  }

  lemma RoundsFollow(n: nat, ds: seq<Cluster>, rounds: seq<Round>, k: nat)
    requires Run(n, ds, rounds) && OnlyPrimaries(rounds) && k < |rounds|
    ensures rounds[k].primary < n && Elects(n, Repair(n, ds[k]), rounds[k])
    ensures LiveAt(ds[k].live, rounds[k].primary)
    ensures ds[k + 1] == Lose(n, Repair(n, ds[k]), {}, rounds[k].primary)
  {
    assert RoundFrom(n, ds[k], rounds[k], ds[k + 1]);
  }

  /**
   Whole failover runs. For every number of servers, every number of losses and every
   interleaving of every election: after `k` losses of the primary every survivor has offset
   `k + 1`, the repaired connections are exactly the ring 0, 1, ..., n-1-k and back to 0, the next
   primary is n-1-k, and a run has at most n rounds.
   */
  lemma {:induction false} FailoverKeepsShape(n: nat, ds: seq<Cluster>, rounds: seq<Round>, k: nat)
    requires 0 < n <= 256 && Run(n, ds, rounds) && OnlyPrimaries(rounds) && k < |rounds|
    ensures k < n && Shape(n, k, Repair(n, ds[k])) && rounds[k].primary == n - 1 - k
    decreases k, 1
  {
    if k == 0 {
      BootShape(n);
    } else {
      FailoverGoesOn(n, ds, rounds, k);
    }
    RoundsFollow(n, ds, rounds, k);
    EpochPrimary(n, k, Repair(n, ds[k]), rounds[k]);
  }

  lemma {:induction false} FailoverGoesOn(n: nat, ds: seq<Cluster>, rounds: seq<Round>, k: nat)
    requires 0 < n <= 256 && Run(n, ds, rounds) && OnlyPrimaries(rounds) && 0 < k < |rounds|
    ensures k < n && Shape(n, k, Repair(n, ds[k]))
    decreases k, 0
  {
    var j := k - 1;
    FailoverKeepsShape(n, ds, rounds, j);
    RoundsFollow(n, ds, rounds, j);
    RoundsFollow(n, ds, rounds, k);
    NextShape(n, j, Repair(n, ds[j]), ds[j + 1]);
  }

  /** The last survivor begins its search with itself, so that it tries nobody and elects itself. */
  lemma LastSurvivorAlone(n: nat, ds: seq<Cluster>, rounds: seq<Round>)
    requires 0 < n <= 256 && Run(n, ds, rounds) && OnlyPrimaries(rounds) && |rounds| == n
    ensures var c := Repair(n, ds[n - 1]);
            && Shape(n, n - 1, c) && c.live[0] && (0 + c.offset[0]) % n == 0
            && Begin(n, c.offset[0]) == n && Alone(n, c, 0) && rounds[n - 1].primary == 0
  {
    FailoverKeepsShape(n, ds, rounds, n - 1);
    assert InPlace(n, n - 1, Repair(n, ds[n - 1]), 0);
    BeginIndex(0, n, n);
    BeginWithinLap(n, n);
  }

  // ---------- Runs that go on ----------

  /** On every ring an election can be completed, and it elects the largest server. */
  lemma RingElects(n: nat, c: Cluster, ids: seq<Id>, m: Id, gone: set<nat>) returns (r: Round)
    requires Sized(n, c) && IsRing(n, c, ids) && m < n && m in ids && m !in gone && forall k :: 0 <= k < |ids| ==> ids[k] <= m
    ensures r.ids == ids && r.primary == m && r.gone == gone && Elects(n, c, r)
  {
    var starters := seq(|ids|, _ => true);
    var top := TopExists(ids);
    InitInv(ids, starters, top);
    var schedule := RunCompletes(ids, starters, Init(starters), top);
    assert starters[0];
    RestMeansElected(ids, starters, schedule);
    var t := Final(ids, Init(starters), schedule);
    assert t.phase[0].Returned? && IsMax(ids, t.phase[0].id);
    var k :| 0 <= k < |ids| && ids[k] == m;
    r := Round(ids, schedule, m, gone);
  }

  lemma RunBegins(n: nat)
    ensures Run(n, [Boot(n)], [])
  {
  }

  /** A run goes on from every cluster that can elect a primary. */
  lemma RunGoesOn(n: nat, ds: seq<Cluster>, rounds: seq<Round>, r: Round, e: Cluster)
    requires Run(n, ds, rounds) && RoundFrom(n, ds[|rounds|], r, e)
    ensures Run(n, ds + [e], rounds + [r])
  {
    var ds2, rounds2 := ds + [e], rounds + [r];
    forall k | 0 <= k < |rounds2| ensures RoundFrom(n, ds2[k], rounds2[k], ds2[k + 1]) {
      if k < |rounds| {
        assert RoundFrom(n, ds[k], rounds[k], ds[k + 1]);
      }
    }
  }

  /** From the ring of `k` losses on, the next primary is elected and lost, together with any backups. */
  lemma ShapeGoesOn(n: nat, ds: seq<Cluster>, rounds: seq<Round>, gone: set<nat>) returns (r: Round)
    requires n <= 256 && Run(n, ds, rounds) && |rounds| + 1 < n && Shape(n, |rounds|, Repair(n, ds[|rounds|]))
    requires n - 1 - |rounds| !in gone
    ensures r.primary == n - 1 - |rounds| && r.gone == gone
    ensures Run(n, ds + [Lose(n, Repair(n, ds[|rounds|]), gone, r.primary)], rounds + [r])
  {
    var k := |rounds|;
    var c := Repair(n, ds[k]);
    ShapeIsRing(n, k, c);
    assert Ascent(n - k)[n - 1 - k] == n - 1 - k;
    r := RingElects(n, c, Ascent(n - k), n - 1 - k, gone);
    RunGoesOn(n, ds, rounds, r, Lose(n, c, gone, r.primary));
  }

  /** Six servers after the loss of 5 and then of 4, and of the backups in `gone` before the second. */
  ghost function SixServers(gone: set<nat>): (d: Cluster)
    ensures Sized(6, d)
  {
    Lose(6, Repair(6, Lose(6, Repair(6, Boot(6)), {}, 5)), gone, 4)
  }

  lemma FirstLossRun() returns (r: Round)
    ensures r.primary == 5 && r.gone == {}
    ensures Run(6, [Boot(6), Lose(6, Repair(6, Boot(6)), {}, 5)], [r])
  {
    BootShape(6);
    RunBegins(6);
    r := ShapeGoesOn(6, [Boot(6)], [], {});
    var d := Lose(6, Repair(6, Boot(6)), {}, 5);
    assert [Boot(6)] + [d] == [Boot(6), d] && [] + [r] == [r];
  }

  lemma SixServersRun(gone: set<nat>) returns (ds: seq<Cluster>, rounds: seq<Round>)
    requires 4 !in gone
    ensures Run(6, ds, rounds) && |ds| == 3 && ds[2] == SixServers(gone)
    ensures rounds[0].primary == 5 && rounds[1].primary == 4 && rounds[0].gone == {} && rounds[1].gone == gone
  {
    var d := Lose(6, Repair(6, Boot(6)), {}, 5);
    var r0 := FirstLossRun();
    BootShape(6);
    LoseShape(6, 0, Repair(6, Boot(6)));
    var r1 := ShapeGoesOn(6, [Boot(6), d], [r0], gone);
    ds, rounds := [Boot(6), d] + [SixServers(gone)], [r0] + [r1];
  }

  /** The survivors still have the connections of the ring 0, ..., 4. */
  lemma SixServersKnown(gone: set<nat>)
    ensures var d := SixServers(gone);
            forall i :: 0 <= i < 6 ==>
              && d.live[i] == (i < 4 && i !in gone)
              && (d.live[i] ==> d.offset[i] == 3 && d.next[i] == Some(i + 1))
  {
    var c0 := Repair(6, Boot(6));
    BootShape(6);
    LoseShape(6, 0, c0);
    var c1 := Repair(6, Lose(6, c0, {}, 5));
    forall i | 0 <= i < 4 ensures c1.live[i] && c1.offset[i] == 2 && c1.next[i] == Some(i + 1) {
      assert InPlace(6, 1, c1, i);
    }
  }

  lemma SearchOfSkipped(live: seq<bool>)
    requires |live| == 6 && live[0] && !live[1] && live[2] && live[3] && !live[4] && !live[5]
    ensures FirstLive(live, 0, Begin(6, 3)) == Some(3) && FirstLive(live, 3, Begin(6, 3)) == Some(0)
  {
    BeginWithinLap(6, 3);
    assert At(6, 0, 3) == 3 && At(6, 3, 3) == 0;
  }

  lemma SkippedServer()
    ensures var c := Repair(6, SixServers({1}));
            && c.live[2] && c.next[0] == Some(3) && c.next[2] == Some(3) && c.next[3] == Some(0)
            && forall i :: 0 <= i < 6 ==> c.next[i] != Some(2)
  {
    SixServersKnown({1});
    var d := SixServers({1});
    SearchOfSkipped(d.live);
    assert !Holds(6, d, 0) && Holds(6, d, 2) && !Holds(6, d, 3);
    assert d.next[0] == Some(1) && d.next[2] == Some(3) && d.next[3] == Some(4);
  }

  /**
   The offset counts lost primaries, not lost backups. Of six servers the primaries 5 and 4 are lost
   and, before 4, the backup 1. Then server 0 begins its search behind server 2, which is live and
   becomes nobody's neighbour, so that the connections form no ring.
   */
  lemma LostBackupBreaksRing() returns (ds: seq<Cluster>, rounds: seq<Round>)
    ensures Run(6, ds, rounds) && |ds| == 3 && rounds[1].gone == {1}
    ensures var c := Repair(6, ds[2]);
            && c.live[2] && (forall i :: 0 <= i < 6 ==> c.next[i] != Some(2))
            && Skips(6, ds[2], 0) && !Ringed(6, c)
  {
    ds, rounds := SixServersRun({1});
    SkippedServer();
    var c := Repair(6, ds[2]);
    if ids :| IsRing(6, c, ids) {
      var p := RingPredecessor(6, c, ids, 2);
    }
    SixServersKnown({1});
    BeginWithinLap(6, 3);
    assert At(6, 0, 2) == 2;
  }

  /** On a ring every live server is somebody's neighbour. */
  lemma RingPredecessor(n: nat, c: Cluster, ids: seq<Id>, i: nat) returns (p: nat)
    requires Sized(n, c) && IsRing(n, c, ids) && i < n && c.live[i]
    ensures p < n && c.next[p] == Some(i)
  {
    var q :| 0 <= q < |ids| && ids[q] == i;
    var k := if q == 0 then |ids| - 1 else q - 1;
    assert Next(|ids|, k) == q;
    p := ids[k];
  }

  /**
   With the backups 1 and 3 lost before 4, server 0 finds nobody, since the only other live server
   comes before the place where its search begins, and elects itself; server 2 is connected to it.
   */
  lemma LostBackupsSplit() returns (ds: seq<Cluster>, rounds: seq<Round>)
    ensures Run(6, ds, rounds) && |ds| == 3 && rounds[1].gone == {1, 3}
    ensures var c := Repair(6, ds[2]); c.live[0] && c.live[2] && c.next[0] == None && c.next[2] == Some(0)
  {
    ds, rounds := SixServersRun({1, 3});
    SplitServers();
    FindsNobodyIff(6, ds, rounds, 2, 0);
  }

  lemma SplitServers()
    ensures var d := SixServers({1, 3});
            && d.live[0] && !Holds(6, d, 0) && d.live[2] && !Holds(6, d, 2) && Repair(6, d).next[2] == Some(0)
            && forall j :: 0 <= j < 6 && d.live[j] && j != 0 ==> j == 2
  {
    SixServersKnown({1, 3});
    var d := SixServers({1, 3});
    assert d.next[0] == Some(1) && d.next[2] == Some(3);
    SearchOfSecond(d.live);
  }

  lemma SearchOfSecond(live: seq<bool>)
    requires |live| == 6 && live[0] && !live[5]
    ensures FirstLive(live, 2, Begin(6, 3)) == Some(0)
  {
    BeginWithinLap(6, 3);
    assert At(6, 2, 3) == 5 && At(6, 2, 4) == 0;
    assert FirstLive(live, 2, 4) == Some(0);
  }
}
