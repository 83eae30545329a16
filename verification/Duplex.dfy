/**
 Two peers connected by a pair of stream buffers: what one of them sends is what the other one
 receives, and each of them waits only after it has sent everything it wrote. The actions are
 those that the methods of the buffer are proved to carry out, shared array included.
 */
module Duplex {
  import opened SocketStream

  datatype Side = Left | Right

  datatype Peers = Peers(left: Endpoint, right: Endpoint)

  type Script = seq<(Side, Action)>

  ghost function Of(p: Peers, side: Side): Endpoint {
    match side
    case Left => p.left
    case Right => p.right
  }

  /** What has just been sent arrives at the other side. */
  ghost function Deliver(before: Endpoint, after: Endpoint, peer: Endpoint): Endpoint {
    if |before.wire| <= |after.wire| then peer.(incoming := peer.incoming + after.wire[|before.wire|..]) else peer
  }

  ghost function Turn(p: Peers, side: Side, a: Action): Peers
    requires Possible(Of(p, side), a)
  {
    match side
    case Left =>
      var e := Act(p.left, a);
      Peers(e, Deliver(p.left, e, p.right))
    case Right =>
      var e := Act(p.right, a);
      Peers(Deliver(p.right, e, p.left), e)
  }

  ghost predicate Runs(p: Peers, script: Script)
    decreases |script|
  {
    script == [] ||
    (Possible(Of(p, script[0].0), script[0].1) && Runs(Turn(p, script[0].0, script[0].1), script[1..]))
  }

  ghost function Final(p: Peers, script: Script): Peers
    requires Runs(p, script)
    decreases |script|
  {
    if script == [] then p else Final(Turn(p, script[0].0, script[0].1), script[1..])
  }

  const FRESH: Endpoint := Endpoint([], [], 0, [], [], [], false)

  /** The side is within a read from its socket, and nothing has arrived. */
  ghost predicate Waits(e: Endpoint) {
    e.reading && e.incoming == []
  }

  /** The bytes that one side writes in the course of a script, in order. */
  ghost function PutsOf(script: Script, side: Side): seq<Byte>
    decreases |script|
  {
    if script == [] then []
    else
      var (who, a) := script[0];
      (if who == side && a.Put? then [a.c] else []) + PutsOf(script[1..], side)
  }

  // ---------- Waiting ----------

  /** As many bytes as one side has sent, the other side has read, has received or is going to receive. */
  ghost predicate Balanced(from: Endpoint, to: Endpoint) {
    |from.wire| == |to.consumed| + |to.Unread()|
  }

  /** Within a read from the socket both areas are empty. */
  ghost predicate Rested(e: Endpoint) {
    e.reading ==> e.put == [] && e.get == []
  }

  ghost predicate Steady(p: Peers) {
    Balanced(p.left, p.right) && Balanced(p.right, p.left) && Rested(p.left) && Rested(p.right)
  }

  lemma ActKeepsSteady(e: Endpoint, a: Action, peer: Endpoint)
    requires Possible(e, a) && Rested(e) && Rested(peer) && Balanced(e, peer) && Balanced(peer, e)
    ensures var f, g := Act(e, a), Deliver(e, Act(e, a), peer);
            Rested(f) && Rested(g) && Balanced(f, g) && Balanced(g, f)
  {
  }

  lemma TurnKeepsSteady(p: Peers, side: Side, a: Action)
    requires Steady(p) && Possible(Of(p, side), a)
    ensures Steady(Turn(p, side, a))
  {
    match side {
      case Left => ActKeepsSteady(p.left, a, p.right);
      case Right => ActKeepsSteady(p.right, a, p.left);
    }
  }

  lemma {:induction false} RunKeepsSteady(p: Peers, script: Script)
    requires Steady(p) && Runs(p, script)
    ensures Steady(Final(p, script))
    decreases |script|
  {
    if script != [] {
      TurnKeepsSteady(p, script[0].0, script[0].1);
      RunKeepsSteady(Turn(p, script[0].0, script[0].1), script[1..]);
    }
  }

  /** An action adds to what its side has written exactly the byte that it puts. */
  lemma ActWrites(e: Endpoint, a: Action)
    requires Possible(e, a) && Rested(e)
    ensures Act(e, a).Written() == e.Written() + if a.Put? then [a.c] else []
  {
    match a {
      case Put(c) => PuttedWritten(e, c);
      case Flush => FlushedWritten(e);
      case Get => GottenSame(e);
      case Refill => FlushedWritten(e);
      case Arrive(k) => FilledSame(e, k);
    }
  }

  /** The wire and the put area together hold exactly what the side has put, in order. */
  lemma {:induction false} WrittenIsPut(p: Peers, script: Script, side: Side)
    requires Steady(p) && Runs(p, script)
    ensures Of(Final(p, script), side).Written() == Of(p, side).Written() + PutsOf(script, side)
    decreases |script|
  {
    if script != [] {
      var (who, a) := script[0];
      var q := Turn(p, who, a);
      TurnKeepsSteady(p, who, a);
      ActWrites(Of(p, who), a);
      WrittenIsPut(q, script[1..], side);
      AppendAssociates(Of(p, side).Written(), if who == side && a.Put? then [a.c] else [], PutsOf(script[1..], side));
    }
  }

  lemma AllIsPut(script: Script, side: Side)
    requires Runs(Peers(FRESH, FRESH), script)
    ensures Of(Final(Peers(FRESH, FRESH), script), side).Written() == PutsOf(script, side)
  {
    WrittenIsPut(Peers(FRESH, FRESH), script, side);
    assert Of(Peers(FRESH, FRESH), side).Written() == [];
    assert [] + PutsOf(script, side) == PutsOf(script, side);
  }

  /**
   In every run, with bytes overwritten or not: a side that waits has sent everything that it put and
   has read as many bytes as the other side has sent; so when both wait, each of them has read as many
   bytes as the other one ever put, and no request is held back by a buffer.
   */
  lemma NobodyWaitsForUnsentBytes(script: Script)
    requires Runs(Peers(FRESH, FRESH), script)
    ensures var p := Final(Peers(FRESH, FRESH), script);
            && (Waits(p.left) ==> p.left.wire == PutsOf(script, Left) && |p.left.consumed| == |p.right.wire|)
            && (Waits(p.right) ==> p.right.wire == PutsOf(script, Right) && |p.right.consumed| == |p.left.wire|)
            && (Waits(p.left) && Waits(p.right) ==>
                  |p.right.consumed| == |PutsOf(script, Left)| && |p.left.consumed| == |PutsOf(script, Right)|)
  {
    RunKeepsSteady(Peers(FRESH, FRESH), script);
    AllIsPut(script, Left);
    AllIsPut(script, Right);
  }

  // ---------- Reading what was written ----------

  /** What one side has sent is what the other side has read, has received or is going to receive. */
  ghost predicate Conserved(from: Endpoint, to: Endpoint) {
    from.wire == to.consumed + to.Unread()
  }

  ghost predicate Linked(p: Peers) {
    Conserved(p.left, p.right) && Conserved(p.right, p.left)
  }

  /** A byte is put where nothing unread stands, as when nothing is unread at all, or where the same byte stands. */
  ghost predicate Harmless(e: Endpoint, a: Action) {
    a.Put? && e.Pending(|e.put|) ==> e.get[|e.put| - e.gpos] == a.c
  }

  /** An action of one side keeps what both sides have sent exactly when it is harmless. */
  lemma ActConservesIff(e: Endpoint, a: Action, peer: Endpoint)
    requires Possible(e, a) && Rested(e) && Conserved(e, peer) && Conserved(peer, e)
    ensures var f, g := Act(e, a), Deliver(e, Act(e, a), peer);
            Conserved(f, g) && Conserved(g, f) <==> Harmless(e, a)
  {
    var f := Act(e, a);
    assert f.wire == e.wire + f.wire[|e.wire|..];
    match a {
      case Put(c) =>
        PutConsumesIff(e, c);
      case Get =>
        assert e.get == [e.get[0]] + e.get[1..];
      case Arrive(k) =>
        assert e.incoming == e.incoming[..k] + e.incoming[k..];
      case _ =>
    }
  }

  lemma PutConsumesIff(e: Endpoint, c: Byte)
    ensures Putted(e, c).consumed + Putted(e, c).Unread() == e.consumed + e.Unread() <==> Harmless(e, Put(c))
  {
    var f, p := Putted(e, c), |e.put|;
    if e.Pending(p) {
      var x := p - e.gpos;
      assert (e.consumed + e.Unread())[|e.consumed| + x] == e.get[x];
      assert (f.consumed + f.Unread())[|e.consumed| + x] == c;
    }
  }

  /** At every moment of the run what was sent is what is read, in order. */
  ghost predicate AlwaysLinked(p: Peers, script: Script)
    requires Runs(p, script)
    decreases |script|
  {
    Linked(p) && (script == [] || AlwaysLinked(Turn(p, script[0].0, script[0].1), script[1..]))
  }

  ghost predicate Careful(p: Peers, script: Script)
    requires Runs(p, script)
    decreases |script|
  {
    script == [] ||
    (Harmless(Of(p, script[0].0), script[0].1) && Careful(Turn(p, script[0].0, script[0].1), script[1..]))
  }

  lemma {:induction false} LinkedIff(p: Peers, script: Script)
    requires Linked(p) && Rested(p.left) && Rested(p.right) && Runs(p, script)
    ensures AlwaysLinked(p, script) <==> Careful(p, script)
    ensures Careful(p, script) ==> Linked(Final(p, script))
    decreases |script|
  {
    if script != [] {
      var (side, a) := script[0];
      var q := Turn(p, side, a);
      match side {
        case Left => ActConservesIff(p.left, a, p.right);
        case Right => ActConservesIff(p.right, a, p.left);
      }
      if Linked(q) {
        LinkedIff(q, script[1..]);
      }
    }
  }

  /**
   Each side reads at every moment exactly what the other one has sent, in order, if and only if no
   byte is put where a different one is still unread. In such runs each side has read a beginning of
   the bytes that the other one put, and all of them when both sides wait.
   */
  lemma ReadsWhatWasWrittenIff(script: Script)
    requires Runs(Peers(FRESH, FRESH), script)
    ensures AlwaysLinked(Peers(FRESH, FRESH), script) <==> Careful(Peers(FRESH, FRESH), script)
    ensures var p := Final(Peers(FRESH, FRESH), script);
            Careful(Peers(FRESH, FRESH), script) ==>
              && p.right.consumed <= PutsOf(script, Left) && p.left.consumed <= PutsOf(script, Right)
              && (Waits(p.left) && Waits(p.right) ==>
                    p.right.consumed == PutsOf(script, Left) && p.left.consumed == PutsOf(script, Right))
  {
    LinkedIff(Peers(FRESH, FRESH), script);
    RunKeepsSteady(Peers(FRESH, FRESH), script);
    AllIsPut(script, Left);
    AllIsPut(script, Right);
  }

  lemma OneTurn(p: Peers, side: Side, a: Action, rest: Script)
    requires Possible(Of(p, side), a) && Runs(Turn(p, side, a), rest)
    ensures var script := [(side, a)] + rest;
            && Runs(p, script) && Final(p, script) == Final(Turn(p, side, a), rest)
            && (Careful(p, script) <==> Harmless(Of(p, side), a) && Careful(Turn(p, side, a), rest))
  {
    assert ([(side, a)] + rest)[1..] == rest;
  }

  /** The left side is about to write `b` while `a`, which the right side has sent, is unread. */
  ghost function Crossing(a: Byte): Peers {
    Peers(Endpoint([], [a], 0, [], [], [], false), Endpoint([], [], 0, [], [a], [], false))
  }

  lemma LeadsToCrossing(a: Byte, rest: Script)
    requires Runs(Crossing(a), rest)
    ensures var script := [(Right, Put(a))] + ([(Right, Flush)] + ([(Left, Refill)] + ([(Left, Arrive(1))] + rest)));
            var p := Peers(FRESH, FRESH);
            Runs(p, script) && Final(p, script) == Final(Crossing(a), rest) && (Careful(p, script) ==> Careful(Crossing(a), rest))
  {
    var p1 := Peers(FRESH, FRESH.(put := [a]));
    var p2 := Peers(FRESH.(incoming := [a]), FRESH.(wire := [a]));
    var p3 := Peers(FRESH.(incoming := [a], reading := true), FRESH.(wire := [a]));
    assert Turn(p3, Left, Arrive(1)) == Crossing(a);
    OneTurn(p3, Left, Arrive(1), rest);
    var s3 := [(Left, Arrive(1))] + rest;
    assert Turn(p2, Left, Refill) == p3;
    OneTurn(p2, Left, Refill, s3);
    var s2 := [(Left, Refill)] + s3;
    assert Turn(p1, Right, Flush) == p2;
    OneTurn(p1, Right, Flush, s2);
    assert Turn(Peers(FRESH, FRESH), Right, Put(a)) == p1;
    OneTurn(Peers(FRESH, FRESH), Right, Put(a), [(Right, Flush)] + s2);
  }

  /**
   The sides are not always careful: the right one sends `a`, and the left one, which has received
   but not read it, writes `b`; then the left one reads `b`.
   */
  lemma OwnByteIsRead(a: Byte, b: Byte) returns (script: Script)
    requires a != b
    ensures Runs(Peers(FRESH, FRESH), script) && !Careful(Peers(FRESH, FRESH), script)
    ensures var p := Final(Peers(FRESH, FRESH), script);
            PutsOf(script, Right) == [a] && PutsOf(script, Left) == [b] && p.left.consumed == [b]
  {
    var p := Crossing(a);
    var q := Peers(p.left.(put := [b], get := [b]), p.right);
    assert Turn(p, Left, Put(b)) == q;
    var r := Turn(q, Left, Get);
    OneTurn(q, Left, Get, []);
    OneTurn(p, Left, Put(b), [(Left, Get)] + []);
    var rest := [(Left, Put(b))] + ([(Left, Get)] + []);
    LeadsToCrossing(a, rest);
    script := [(Right, Put(a))] + ([(Right, Flush)] + ([(Left, Refill)] + ([(Left, Arrive(1))] + rest)));
    AllIsPut(script, Left);
    AllIsPut(script, Right);
  }
}
