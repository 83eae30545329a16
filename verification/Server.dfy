/**
 How a server finds the next server of the ring, the ring that results, and the server's
 main loop of elections.
 */
module Server {
  import opened Wrappers
  import opened Ring
  import opened Election

  /** The first live server at `d` or more hops after `i`, before `i` itself is reached again. */
  ghost function FirstLive(live: seq<bool>, i: nat, d: nat): (r: Option<nat>)
    requires i < |live| && 1 <= d
    ensures r.Some? ==> r.value < |live| && r.value != i && live[r.value] && d <= Hops(|live|, i, r.value)
    ensures r.Some? ==> forall e :: d <= e < Hops(|live|, i, r.value) ==> !live[At(|live|, i, e)]
    ensures r.None? ==> forall e :: d <= e < |live| ==> !live[At(|live|, i, e)]
    decreases |live| - d
  {
    if d >= |live| then None
    else if live[At(|live|, i, d)] then Some(At(|live|, i, d))
    else FirstLive(live, i, d + 1)
  }

  /** Where the search begins: a whole number of laps leaves nothing to try. */
  ghost function Begin(n: nat, offset: nat): (d: nat)
    requires n > 0
    ensures 1 <= d <= n
  {
    if offset % n == 0 then n else offset % n
  }

  lemma ModAdd(i: nat, d: nat, n: nat)
    requires i < n && d <= n
    ensures (i + d) % n == At(n, i, d) % n == At(n, i, d)
  {
    if i + d >= n {
      ModLap(i + d - n, 1, n);
    }
  }

  lemma {:induction false} ModLap(x: nat, laps: nat, n: nat)
    requires n > 0
    ensures (x + laps * n) % n == x % n
    decreases laps
  {
    if laps > 0 {
      ModLap(x + n, laps - 1, n);
      assert (x + n) + (laps - 1) * n == x + laps * n;
      var q, r := x / n, x % n;
      assert x + n == (q + 1) * n + r;
      DivModUnique(q + 1, r, n);
    }
  }

  lemma DivModUnique(q: int, r: nat, n: nat)
    requires r < n
    ensures (q * n + r) % n == r
  {
    var p, s := (q * n + r) / n, (q * n + r) % n;
    assert (q - p) * n == s - r && (p - q) * n == r - s;
    if q > p {
      MulAtLeast(q - p, n);
    } else if p > q {
      MulAtLeast(p - q, n);
    }
  }

  lemma MulAtLeast(d: int, n: nat)
    requires d >= 1
    ensures d * n >= n
  {
    assert (d - 1) * n >= 0;
  }

  lemma BeginIndex(i: nat, offset: nat, n: nat)
    requires i < n
    ensures (i + offset) % n == At(n, i, Begin(n, offset))
    ensures (i + offset) % n == i <==> Begin(n, offset) == n
  {
    var r := offset % n;
    ModLap(i + r, offset / n, n);
    assert (offset / n) * n + r == offset;
    ModAdd(i, r, n);
  }

  /** The servers met from `begin` hops on, and before `end` hops, on the way round from `i`. */
  ghost function Tried(n: nat, i: nat, begin: nat, end: nat): (tried: seq<nat>)
    requires i < n && 1 <= begin <= end <= n
    ensures |tried| == end - begin && i !in tried
    ensures forall k :: 0 <= k < |tried| ==> tried[k] == At(n, i, begin + k)
  {
    if begin == end then [] else Tried(n, i, begin, end - 1) + [At(n, i, end - 1)]
  }

  datatype LoopReply = LostConnectionToPrimary | Shutdown

  /** The surroundings of one turn of the main loop. */
  datatype Turn = Turn(
    nextAlive: bool,                // whether the connection to the next server, if there is one, still holds
    live: seq<bool>,                // which servers accept a connection
    window: nat,                    // how often a connection to one server is tried
    election: Result<Id, Error>,    // what an election on the ring yields
    reply: LoopReply)               // how the role that follows it ends

  /** What one turn did: the outcome of the election. */
  type Outcome = Result<Id, Error>

  class Server {
    const index: nat
    const count: nat
    var next: Option<nat>    // the server that the ring connection leads to
    var offset: nat

    predicate Valid()
      reads this
    {
      index < count <= 256
    }

    constructor (index: nat, count: nat)
      requires index < count <= 256
      ensures Valid() && this.index == index && this.count == count
      ensures next == None && offset == 1
    {
      this.index, this.count := index, count;
      next, offset := None, 1;
    }

    /** The index at which the search begins. */
    method FirstIndex(start: nat) returns (i: nat)
      requires Valid()
      ensures i == At(count, index, Begin(count, start))
    {
      i := (index + start) % count;
      BeginIndex(index, start, count);
    }

    method IncNext(i: nat) returns (j: nat)
      requires Valid() && i < count
      ensures j == Next(count, i)
    {
      j := (i + 1) % count;
      ModAdd(i, 1, count);
    }

    /**
     Tries one server after the other, each of them `window` times, until one accepts. The
     servers tried are `tried`, in this order.
     */
    method ConnectNext(start: nat, live: seq<bool>, window: nat) returns (connected: bool, ghost tried: seq<nat>)
      requires Valid() && |live| == count && window > 0
      modifies `next
      ensures old(next).Some? ==> !connected && next == old(next) && tried == []
      ensures old(next).None? ==>
                && next == FirstLive(live, index, Begin(count, start))
                && connected == next.Some?
                && index !in tried && |tried| < count && Begin(count, start) + |tried| <= count
                && (forall k :: 0 <= k < |tried| ==> tried[k] == At(count, index, Begin(count, start) + k))
                && (connected ==> tried != [] && next == Some(tried[|tried| - 1]))
                && (!connected ==> Begin(count, start) + |tried| == count)
    {
      ghost var begin := Begin(count, start);
      ghost var d := begin;
      ghost var searching := next.None?;
      var nextI := FirstIndex(start);
      while nextI != index
        invariant begin <= d <= count && nextI == At(count, index, d)
        invariant next == old(next)
        invariant searching ==> FirstLive(live, index, begin) == FirstLive(live, index, d)
        decreases count - d
      {
        connected := TryServer(nextI, live, window);
        if connected {
          tried := Tried(count, index, begin, d + 1);
          return true, tried;
        }
        nextI := IncNext(nextI);
        d := d + 1;
      }
      tried := if searching then Tried(count, index, begin, d) else [];
      return false, tried;
    }

    /** Tries to connect to server `i` until it accepts or its time is up. */
    method TryServer(i: nat, live: seq<bool>, window: nat) returns (connected: bool)
      requires i < |live| && window > 0
      modifies `next
      ensures connected == (old(next).None? && live[i])
      ensures next == if connected then Some(i) else old(next)
    {
      var attempt := 0;
      while attempt < window && next.None?
        invariant attempt <= window && next == old(next)
        invariant attempt > 0 ==> !live[i]
        decreases window - attempt
      {
        if live[i] {
          next := Some(i);
          return true;
        }
        attempt := attempt + 1;
      }
      return false;
    }

    /** The connection to the next server is replaced by a fresh one. */
    method CreateNext()
      modifies `next
      ensures next == None
    {
      next := None;
    }

    /** One turn of the main loop; `last` is the reply of the turns before. */
    method TakeTurn(turn: Turn, last: LoopReply, ghost past: seq<Outcome>) returns (outcome: Outcome, reply: LoopReply)
      requires Valid() && |turn.live| == count && turn.window > 0
      modifies `next, `offset
      ensures old(next).Some? && turn.nextAlive ==> next == old(next)
      ensures old(next).None? || !turn.nextAlive ==> next == FirstLive(turn.live, index, Begin(count, old(offset)))
      ensures next.Some? ==> outcome == turn.election
      ensures next.None? ==> outcome == Success(index)
      ensures outcome.Failure? ==> reply == last && offset == old(offset)
      ensures outcome.Success? ==>
                reply == turn.reply && offset == old(offset) + if turn.reply.LostConnectionToPrimary? then 1 else 0
      ensures Progress(next, offset, reply, past + [outcome])
           == Turned(index, Progress(old(next), old(offset), last, past), turn)
    {
      var hasConnectionToNext := next.Some? && turn.nextAlive;
      if !hasConnectionToNext {
        CreateNext();
        ghost var tried;
        hasConnectionToNext, tried := ConnectNext(offset, turn.live, turn.window);
      }
      if hasConnectionToNext {
        outcome := turn.election;
      } else {
        outcome := Success(index);
      }
      reply := last;
      if outcome.Success? {
        reply := turn.reply;
        if reply.LostConnectionToPrimary? {
          offset := offset + 1;
        }
      }
    }

    /**
     The main loop, over the turns that the surroundings provide. It goes on after every turn whose
     election failed or whose role ended otherwise than with a shutdown, except that its condition
     reads `unset` as long as no election has succeeded.
     */
    method MainLoop(turns: seq<Turn>, unset: LoopReply) returns (outcomes: seq<Outcome>)
      requires Valid() && forall k :: 0 <= k < |turns| ==> |turns[k].live| == count && turns[k].window > 0
      requires turns != []
      modifies `next, `offset
      ensures 0 < |outcomes| <= |turns|
      ensures forall k :: 0 <= k < |outcomes| - 1 ==> !Ends(turns[k], outcomes[k])
      ensures |outcomes| < |turns| ==>
                var k := |outcomes| - 1;
                Ends(turns[k], outcomes[k]) || (k == 0 && outcomes[0].Failure? && unset == Shutdown)
      ensures |outcomes| > 1 && outcomes[0].Failure? ==> unset != Shutdown
      ensures var p := AfterTurns(index, Progress(old(next), old(offset), unset, []), turns[..|outcomes|]);
              outcomes == p.outcomes && next == p.next && offset == p.offset
    {
      outcomes := [];
      var reply := unset;
      var more := true;
      ghost var p0 := Progress(next, offset, unset, []);
      while more && |outcomes| < |turns|
        invariant |outcomes| <= |turns| && (outcomes == [] ==> more)
        invariant Progress(next, offset, reply, outcomes) == AfterTurns(index, p0, turns[..|outcomes|])
        invariant outcomes != [] ==> more == (reply != Shutdown)
        invariant Gone(turns, outcomes, unset, reply)
        decreases |turns| - |outcomes|
      {
        var k := |outcomes|;
        ghost var before := reply;
        OneMoreTurn(index, p0, turns, k);
        var outcome;
        outcome, reply := TakeTurn(turns[k], reply, outcomes);
        GoneOn(turns, outcomes, unset, before, outcome, reply);
        outcomes := outcomes + [outcome];
        more := reply != Shutdown;
      }
    }
  }

  /** What the loop has done so far: no turn but the last has ended it, and its reply is a shutdown only if the last one did, or none told. */
  ghost predicate Gone(turns: seq<Turn>, outcomes: seq<Outcome>, unset: LoopReply, reply: LoopReply) {
    && |outcomes| <= |turns|
    && (outcomes == [] ==> reply == unset)
    && (forall k :: 0 <= k < |outcomes| - 1 ==> !Ends(turns[k], outcomes[k]))
    && (outcomes != [] ==>
          var k := |outcomes| - 1;
          reply == Shutdown <==> Ends(turns[k], outcomes[k]) || (k == 0 && outcomes[0].Failure? && unset == Shutdown))
    && (|outcomes| > 1 && outcomes[0].Failure? ==> unset != Shutdown)
  }

  lemma GoneOn(turns: seq<Turn>, outcomes: seq<Outcome>, unset: LoopReply, before: LoopReply, outcome: Outcome, reply: LoopReply)
    requires |outcomes| < |turns| && Gone(turns, outcomes, unset, before) && (outcomes != [] ==> before != Shutdown)
    requires reply == if outcome.Success? then turns[|outcomes|].reply else before
    ensures Gone(turns, outcomes + [outcome], unset, reply)
  {
  }

  /** A turn that ends the main loop: its election succeeded and its role ended with a shutdown. */
  ghost predicate Ends(turn: Turn, outcome: Outcome) {
    outcome.Success? && turn.reply == Shutdown
  }

  /** The connection after a turn: the old one while it holds, otherwise the result of a search. */
  ghost function NextAfter(index: nat, next: Option<nat>, alive: bool, live: seq<bool>, offset: nat): Option<nat>
    requires index < |live|
  {
    if next.Some? && alive then next else FirstLive(live, index, Begin(|live|, offset))
  }

  /** What the main loop keeps from turn to turn, and the outcomes so far. */
  datatype Progress = Progress(next: Option<nat>, offset: nat, reply: LoopReply, outcomes: seq<Outcome>)

  ghost function Turned(index: nat, p: Progress, turn: Turn): Progress
    requires index < |turn.live| && index < 256
  {
    var next := NextAfter(index, p.next, turn.nextAlive, turn.live, p.offset);
    var outcome := if next.Some? then turn.election else Success(index);
    var lost := outcome.Success? && turn.reply.LostConnectionToPrimary?;
    Progress(next, if lost then p.offset + 1 else p.offset,
             if outcome.Success? then turn.reply else p.reply, p.outcomes + [outcome])
  }

  ghost function AfterTurns(index: nat, p: Progress, turns: seq<Turn>): Progress
    requires index < 256 && forall k :: 0 <= k < |turns| ==> index < |turns[k].live|
  {
    if turns == [] then p
    else Turned(index, AfterTurns(index, p, turns[..|turns| - 1]), turns[|turns| - 1])
  }

  lemma OneMoreTurn(index: nat, p: Progress, turns: seq<Turn>, k: nat)
    requires index < 256 && k < |turns| && forall j :: 0 <= j < |turns| ==> index < |turns[j].live|
    ensures AfterTurns(index, p, turns[..k + 1]) == Turned(index, AfterTurns(index, p, turns[..k]), turns[k])
  {
    assert turns[..k + 1][..k] == turns[..k];
  }

  /** How many primaries were lost after a successful election. */
  ghost function Losses(turns: seq<Turn>, outcomes: seq<Outcome>): nat
    requires |outcomes| == |turns|
  {
    if turns == [] then 0
    else
      var k := |turns| - 1;
      Losses(turns[..k], outcomes[..k]) +
      if outcomes[k].Success? && turns[k].reply.LostConnectionToPrimary? then 1 else 0
  }

  /**
   The offset counts the primaries lost so far: failed elections do not move it, and a server
   that is alone always elects itself, whatever it was told before.
   */
  lemma {:induction false} OffsetCountsLosses(index: nat, p: Progress, turns: seq<Turn>)
    requires index < 256 && (forall k :: 0 <= k < |turns| ==> index < |turns[k].live|) && p.outcomes == []
    ensures var t := AfterTurns(index, p, turns);
            && |t.outcomes| == |turns|
            && t.offset == p.offset + Losses(turns, t.outcomes)
            && (turns != [] && t.next == None ==> t.outcomes[|turns| - 1] == Success(index))
  {
    if turns != [] {
      var before := AfterTurns(index, p, turns[..|turns| - 1]);
      OffsetCountsLosses(index, p, turns[..|turns| - 1]);
      TurnCountsLoss(index, before, turns);
    }
  }

  /**
   Who is elected in a turn: while the server has a connection, whatever the election on the ring
   yields, be it a failure; without one, the server itself. A failed election leaves offset and reply.
   */
  lemma TurnElects(index: nat, p: Progress, turns: seq<Turn>, k: nat)
    requires index < 256 && (forall j :: 0 <= j < |turns| ==> index < |turns[j].live|) && p.outcomes == [] && k < |turns|
    ensures var before, after := AfterTurns(index, p, turns[..k]), AfterTurns(index, p, turns[..k + 1]);
            && |after.outcomes| == k + 1
            && (after.next.Some? ==> after.outcomes[k] == turns[k].election)
            && (after.next.None? ==> after.outcomes[k] == Success(index))
            && (after.next.Some? && turns[k].election.Failure? ==>
                  after.offset == before.offset && after.reply == before.reply)
    ensures |AfterTurns(index, p, turns).outcomes| == |turns|
    ensures AfterTurns(index, p, turns).outcomes[k] == AfterTurns(index, p, turns[..k + 1]).outcomes[k]
  {
    OneMoreTurn(index, p, turns, k);
    OffsetCountsLosses(index, p, turns[..k]);
    OutcomesStay(index, p, turns, k + 1);
  }

  /** What one turn yields does not change in later turns. */
  lemma {:induction false} OutcomesStay(index: nat, p: Progress, turns: seq<Turn>, k: nat)
    requires index < 256 && (forall j :: 0 <= j < |turns| ==> index < |turns[j].live|) && p.outcomes == [] && k <= |turns|
    ensures |AfterTurns(index, p, turns).outcomes| == |turns| && |AfterTurns(index, p, turns[..k]).outcomes| == k
    ensures AfterTurns(index, p, turns).outcomes[..k] == AfterTurns(index, p, turns[..k]).outcomes
  {
    if k == |turns| {
      OffsetCountsLosses(index, p, turns);
      assert turns[..k] == turns;
    } else {
      var n := |turns| - 1;
      OutcomesStay(index, p, turns[..n], k);
      assert turns[..n][..k] == turns[..k];
    }
  }

  lemma TurnCountsLoss(index: nat, before: Progress, turns: seq<Turn>)
    requires turns != [] && |before.outcomes| == |turns| - 1 && index < 256 && index < |turns[|turns| - 1].live|
    ensures var t := Turned(index, before, turns[|turns| - 1]);
            && |t.outcomes| == |turns|
            && t.offset - before.offset ==
                 Losses(turns, t.outcomes) - Losses(turns[..|turns| - 1], before.outcomes)
            && (t.next == None ==> t.outcomes[|turns| - 1] == Success(index))
  {
    var t := Turned(index, before, turns[|turns| - 1]);
    assert t.outcomes[..|turns| - 1] == before.outcomes;
  }

  // ---------- The ring ----------

  ghost predicate SomeOther(live: seq<bool>, i: nat) {
    exists j :: 0 <= j < |live| && j != i && live[j]
  }

  /** Whom a live server of a ring in formation connects to. */
  ghost function Successor(live: seq<bool>, i: nat): (j: nat)
    requires i < |live| && SomeOther(live, i)
    ensures j < |live| && j != i && live[j]
    ensures forall e :: 1 <= e < Hops(|live|, i, j) ==> !live[At(|live|, i, e)]
  {
    var j :| 0 <= j < |live| && j != i && live[j];
    assert At(|live|, i, Hops(|live|, i, j)) == j;
    FirstLive(live, i, 1).value
  }

  /** At least two servers are live. */
  ghost predicate Plural(live: seq<bool>) {
    forall i :: 0 <= i < |live| ==> SomeOther(live, i)
  }

  ghost function Walk(live: seq<bool>, i: nat, steps: nat): (j: nat)
    requires i < |live| && live[i] && Plural(live)
    ensures j < |live| && live[j]
    decreases steps
  {
    if steps == 0 then i else Walk(live, Successor(live, i), steps - 1)
  }

  lemma {:induction false} WalkExtend(live: seq<bool>, i: nat, steps: nat)
    requires i < |live| && live[i] && Plural(live)
    ensures Walk(live, i, steps + 1) == Successor(live, Walk(live, i, steps))
    decreases steps
  {
    if steps > 0 { WalkExtend(live, Successor(live, i), steps - 1); }
  }

  /** Following the connections from `i` leads to every live server `j`, within one lap. */
  lemma {:induction false} WalkReaches(live: seq<bool>, i: nat, j: nat) returns (steps: nat)
    requires i < |live| && live[i] && j < |live| && live[j] && Plural(live)
    ensures 1 <= steps <= Hops(|live|, i, j) && Walk(live, i, steps) == j
    decreases Hops(|live|, i, j)
  {
    var k := Successor(live, i);
    assert At(|live|, i, Hops(|live|, i, j)) == j;
    if k == j {
      steps := 1;
      assert Walk(live, j, 0) == j;
    } else {
      assert Hops(|live|, k, j) < Hops(|live|, i, j);
      var rest := WalkReaches(live, k, j);
      steps := rest + 1;
    }
  }

  lemma SuccessorInjective(live: seq<bool>, i: nat, j: nat)
    requires i < |live| && live[i] && j < |live| && live[j] && i != j && Plural(live)
    ensures Successor(live, i) != Successor(live, j)
  {
    assert At(|live|, i, Hops(|live|, i, j)) == j && At(|live|, j, Hops(|live|, j, i)) == i;
  }

  lemma SuccessorOnto(live: seq<bool>, j: nat) returns (i: nat)
    requires j < |live| && live[j] && Plural(live)
    ensures i < |live| && live[i] && Successor(live, i) == j
  {
    var steps := WalkReaches(live, j, j);
    WalkExtend(live, j, steps - 1);
    i := Walk(live, j, steps - 1);
  }

  ghost predicate LiveAt(live: seq<bool>, i: nat) {
    i < |live| && live[i]
  }

  /**
   Ring formation. When at least two servers are live, the connections they make are a
   bijection between them, no live server is passed over, and all of them lie on one cycle:
   for all live `i` and `j`, following the connections from `i` leads to `j`.
   */
  lemma RingForms(live: seq<bool>, i: nat, j: nat)
    requires Plural(live) && i < |live| && live[i] && j < |live| && live[j]
    ensures i != j ==> Successor(live, i) != Successor(live, j)
    ensures exists p: nat :: LiveAt(live, p) && Successor(live, p) == j
    ensures exists steps: nat :: 1 <= steps <= |live| && Walk(live, i, steps) == j
    ensures j != i ==> Hops(|live|, i, Successor(live, i)) <= Hops(|live|, i, j)
  {
    if i != j { SuccessorInjective(live, i, j); }
    var p := SuccessorOnto(live, j);
    assert LiveAt(live, p);
    var steps := WalkReaches(live, i, j);
    assert At(|live|, i, Hops(|live|, i, j)) == j;
  }
}
