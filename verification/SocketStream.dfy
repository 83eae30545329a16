/**
 The stream buffer over a socket. One array holds both the bytes received but not yet read
 (the get area) and the bytes written but not yet sent (the put area); the two overlap.
 */
module SocketStream {
  import opened Wrappers

  type Byte = x: int | 0 <= x < 256

  /** The size of the array, and the most a single read from the socket yields. */
  const PACKET_SIZE: nat := 65536

  /** What the operating system does with a write. */
  datatype WriteMode = Whole | Short(most: nat) | Fails

  /**
   A connected socket: `incoming` is what the peer sends before it goes away, so that reading
   when it is empty means end of stream, and `wire` is what has been sent to the peer.
   */
  class Socket {
    var incoming: seq<Byte>
    var wire: seq<Byte>
    var mode: WriteMode
    var broken: bool

    constructor (incoming: seq<Byte>)
      ensures this.incoming == incoming && wire == [] && mode == Whole && !broken
    {
      this.incoming, wire, mode, broken := incoming, [], Whole, false;
    }

    /** Reads between one byte and a full array, however many the operating system chooses. */
    method Read(buffer: array<Byte>) returns (k: int)
      requires buffer.Length >= PACKET_SIZE
      modifies `incoming, buffer
      ensures broken ==> k == -1 && incoming == old(incoming) && buffer[..] == old(buffer[..])
      ensures !broken && old(incoming) == [] ==> k == 0 && incoming == [] && buffer[..] == old(buffer[..])
      ensures !broken && old(incoming) != [] ==>
                && 1 <= k <= PACKET_SIZE && k <= |old(incoming)|
                && buffer[..k] == old(incoming)[..k] && buffer[k..] == old(buffer[k..])
                && incoming == old(incoming)[k..]
    {
      if broken {
        return -1;
      }
      if incoming == [] {
        return 0;
      }
      k :| 1 <= k <= PACKET_SIZE && k <= |incoming|;
      forall i | 0 <= i < k {
        buffer[i] := incoming[i];
      }
      incoming := incoming[k..];
    }

    method Write(data: seq<Byte>) returns (sent: int)
      modifies `wire
      ensures mode.Fails? ==> sent == -1 && wire == old(wire)
      ensures !mode.Fails? ==>
                && sent == (if mode.Short? && mode.most < |data| then mode.most else |data|)
                && wire == old(wire) + data[..sent]
    {
      match mode {
        case Fails =>
          sent := -1;
        case Whole =>
          sent := |data|;
          wire := wire + data[..sent];
        case Short(most) =>
          sent := if most < |data| then most else |data|;
          wire := wire + data[..sent];
      }
    }
  }

  /**
   One side of a connection as a pair of byte queues over one array: `put` stands at the beginning
   of the array, `get` from the slot `gpos` on. `reading` says that the side is within a read from
   its socket.
   */
  datatype Endpoint = Endpoint(put: seq<Byte>, get: seq<Byte>, gpos: nat, incoming: seq<Byte>, wire: seq<Byte>,
                               consumed: seq<Byte>, reading: bool) {
    ghost function Written(): seq<Byte> { wire + put }
    ghost function Unread(): seq<Byte> { get + incoming }

    /** Slot `i` of the array holds a byte that has been received and not been read. */
    ghost predicate Pending(i: nat) { gpos <= i < gpos + |get| }
  }

  /** A write to the socket, after which the put pointer moves back by what was sent. */
  ghost function Synced(e: Endpoint, mode: WriteMode): Endpoint {
    match mode
    case Whole => e.(put := [], wire := e.wire + e.put)
    case Fails => e
    case Short(most) =>
      var sent := if most < |e.put| then most else |e.put|;
      e.(put := e.put[..|e.put| - sent], wire := e.wire + e.put[..sent])
  }

  ghost function Flushed(e: Endpoint): Endpoint {
    Synced(e, Whole)
  }

  /** The byte is stored behind the put area, whatever stands there. */
  ghost function Putted(e: Endpoint, c: Byte): Endpoint {
    var p := |e.put|;
    var f := e.(put := e.put + [c], get := if e.Pending(p) then e.get[p - e.gpos := c] else e.get);
    if p < PACKET_SIZE then f else Flushed(f)
  }

  /** What is left of `a` when `b` is stored from its beginning on. */
  ghost function Overlaid(a: seq<Byte>, b: seq<Byte>): (r: seq<Byte>)
    ensures |r| == |a|
  {
    if |b| < |a| then b + a[|b|..] else b[..|a|]
  }

  /** `k` bytes arrive, at the beginning of the array, whatever stands there. */
  ghost function Filled(e: Endpoint, k: nat): Endpoint
    requires k <= |e.incoming|
  {
    e.(put := Overlaid(e.put, e.incoming[..k]), get := e.incoming[..k], gpos := 0, incoming := e.incoming[k..],
       reading := false)
  }

  ghost function Gotten(e: Endpoint): Endpoint
    requires e.get != []
  {
    e.(get := e.get[1..], gpos := e.gpos + 1, consumed := e.consumed + [e.get[0]])
  }

  /**
   What one side does. Reading when nothing that was received is left is two actions: `Refill`
   flushes and enters the read from the socket, `Arrive` ends it with `k` bytes.
   */
  datatype Action = Put(c: Byte) | Flush | Get | Refill | Arrive(k: nat)

  ghost predicate Possible(e: Endpoint, a: Action) {
    match a
    case Put(_) => !e.reading
    case Flush => !e.reading
    case Get => !e.reading && e.get != []
    case Refill => !e.reading && e.get == []
    case Arrive(k) => e.reading && 1 <= k <= |e.incoming| && k <= PACKET_SIZE
  }

  ghost function Act(e: Endpoint, a: Action): Endpoint
    requires Possible(e, a)
  {
    match a
    case Put(c) => Putted(e, c)
    case Flush => Flushed(e)
    case Get => Gotten(e)
    case Refill => Flushed(e).(reading := true)
    case Arrive(k) => Filled(e, k)
  }

  ghost function PuttedAll(e: Endpoint, data: seq<Byte>): Endpoint {
    if data == [] then e else Putted(PuttedAll(e, data[..|data| - 1]), data[|data| - 1])
  }

  // ---------- What has gone out ----------

  type PutArea = s: seq<Byte> | |s| <= PACKET_SIZE witness []

  /** What has been sent, and what is written but not sent. */
  datatype Outlet = Outlet(wire: seq<Byte>, put: PutArea)

  /** How much is left in the put area when `n` bytes are written behind `p` that are there already. */
  function Unsent(p: nat, n: nat): (left: nat)
    ensures left <= PACKET_SIZE && if p + n <= PACKET_SIZE then left == p + n else left + PACKET_SIZE < p + n
  {
    (p + n) % (PACKET_SIZE + 1)
  }

  /** Writing without a flush: what fits stays in the put area, and what does not pushes all before it out. */
  ghost function Appended(o: Outlet, data: seq<Byte>): Outlet {
    var all := o.put + data;
    var k := |all| - Unsent(|o.put|, |data|);
    Outlet(o.wire + all[..k], all[k..])
  }

  /** Whatever fits is not sent. */
  lemma AppendedFits(o: Outlet, data: seq<Byte>)
    requires |o.put| + |data| <= PACKET_SIZE
    ensures Appended(o, data) == Outlet(o.wire, o.put + data)
  {
    assert o.wire + [] == o.wire;
  }

  /** The put area takes 65536 bytes, and with one more everything is sent. */
  lemma AppendedRunsOver(o: Outlet, data: seq<Byte>)
    requires |o.put| + |data| <= 65537
    ensures Appended(o, data) == if |o.put| + |data| <= 65536 then Outlet(o.wire, o.put + data)
                                 else Outlet(o.wire + (o.put + data), [])
  {
    if |o.put| + |data| <= 65536 {
      AppendedFits(o, data);
    } else {
      assert (o.put + data)[..65537] == o.put + data;
    }
  }

  lemma TakeTwice(a: seq<Byte>, b: seq<Byte>, j: nat, k: nat)
    requires j <= |a| && j + k <= |a| + |b|
    ensures a[..j] + (a[j..] + b)[..k] == (a + b)[..j + k] && (a[j..] + b)[k..] == (a + b)[j + k..]
  {
  }

  lemma UnsentTwice(p: nat, m: nat, n: nat)
    ensures Unsent(Unsent(p, m), n) == Unsent(p, m + n)
  {
    var q := (p + m) / (PACKET_SIZE + 1);
    assert p + m == q * (PACKET_SIZE + 1) + Unsent(p, m);
    ModuloSkips(Unsent(p, m) + n, q);
  }

  lemma {:induction false} ModuloSkips(x: nat, q: nat)
    ensures (x + q * (PACKET_SIZE + 1)) % (PACKET_SIZE + 1) == x % (PACKET_SIZE + 1)
  {
    if q > 0 {
      ModuloSkips(x, q - 1);
      assert x + q * (PACKET_SIZE + 1) == x + (q - 1) * (PACKET_SIZE + 1) + (PACKET_SIZE + 1);
    }
  }

  lemma AppendedTwice(o: Outlet, a: seq<Byte>, b: seq<Byte>)
    ensures Appended(Appended(o, a), b) == Appended(o, a + b)
  {
    var all := o.put + a;
    var first := Appended(o, a);
    var j := |all| - |first.put|;
    var k := |first.put| + |b| - Unsent(|first.put|, |b|);
    UnsentTwice(|o.put|, |a|, |b|);
    AppendAssociates(o.put, a, b);
    TakeTwice(all, b, j, k);
    AppendAssociates(o.wire, all[..j], (all[j..] + b)[..k]);
  }

  /** It is what putting byte by byte comes to. */
  lemma {:induction false} PuttedAllLeaves(e: Endpoint, data: seq<Byte>)
    requires |e.put| <= PACKET_SIZE
    ensures var f := PuttedAll(e, data);
            |f.put| <= PACKET_SIZE && Outlet(f.wire, f.put) == Appended(Outlet(e.wire, e.put), data)
    decreases |data|
  {
    if data == [] {
      AppendedNothing(Outlet(e.wire, e.put));
    } else {
      var k := |data| - 1;
      PuttedAllLeaves(e, data[..k]);
      PuttedLeaves(PuttedAll(e, data[..k]), data[k]);
      AppendedLast(Outlet(e.wire, e.put), data);
    }
  }

  lemma AppendedNothing(o: Outlet)
    ensures Appended(o, []) == o
  {
    AppendedFits(o, []);
    assert o.put + [] == o.put;
  }

  lemma AppendedLast(o: Outlet, data: seq<Byte>)
    requires data != []
    ensures Appended(Appended(o, data[..|data| - 1]), [data[|data| - 1]]) == Appended(o, data)
  {
    AppendedTwice(o, data[..|data| - 1], [data[|data| - 1]]);
    assert data[..|data| - 1] + [data[|data| - 1]] == data;
  }

  lemma PuttedLeaves(e: Endpoint, c: Byte)
    requires |e.put| <= PACKET_SIZE
    ensures var f := Putted(e, c);
            |f.put| <= PACKET_SIZE && Outlet(f.wire, f.put) == Appended(Outlet(e.wire, e.put), [c])
  {
    assert e.wire + [] == e.wire;
    assert (e.put + [c])[..|e.put| + 1] == e.put + [c];
  }

  lemma AppendAssociates(a: seq<Byte>, b: seq<Byte>, c: seq<Byte>)
    ensures a + (b + c) == (a + b) + c
  {
  }

  lemma PuttedWritten(e: Endpoint, c: Byte)
    ensures Putted(e, c).Written() == e.Written() + [c]
    ensures !e.Pending(|e.put|) ==> Putted(e, c).Unread() == e.Unread()
  {
  }

  lemma FilledSame(e: Endpoint, k: nat)
    requires k <= |e.incoming| && e.get == [] && e.put == []
    ensures Filled(e, k).Written() == e.Written() && Filled(e, k).Unread() == e.Unread()
  {
  }

  lemma OverlaidPrefix(b: seq<Byte>, a: seq<Byte>, k: nat, p: nat)
    requires |a| == |b| && k <= |a| && p <= |a| && b[k..] == a[k..]
    ensures b[..p] == Overlaid(a[..p], b[..k])
  {
    assert b == b[..k] + a[k..];
  }

  lemma GottenSame(e: Endpoint)
    requires e.get != []
    ensures Gotten(e).Written() == e.Written() && e.Unread() == [e.get[0]] + Gotten(e).Unread()
  {
  }

  lemma FlushedWritten(e: Endpoint)
    ensures Flushed(e).Written() == e.Written() && Flushed(e).Unread() == e.Unread()
  {
  }

  /** Reading from the socket and then taking the first byte, as actions and in their effect on both queues. */
  lemma RefilledGotten(u: Endpoint, k: nat)
    requires !u.reading && u.get == [] && 1 <= k <= |u.incoming| && k <= PACKET_SIZE
    ensures Filled(Flushed(u), k) == Act(Act(u, Refill), Arrive(k))
    ensures var v := Gotten(Filled(Flushed(u), k));
            v.Written() == u.Written() && u.Unread() == [u.incoming[0]] + v.Unread()
  {
    FlushedWritten(u);
    FilledSame(Flushed(u), k);
    GottenSame(Filled(Flushed(u), k));
  }

  datatype Received = Char(c: Byte) | Eof | Throws

  class SocketBuffer {
    const socket: Socket
    const buffer: array<Byte>
    var gpos: nat           // the next byte to read
    var gend: nat           // the end of the get area
    var ppos: nat           // the end of the put area, which begins with the array
    ghost var consumed: seq<Byte>

    /** The array has one slot more than the put area is told of, for the byte that `Overflow` stores first. */
    ghost predicate Valid()
      reads this
    {
      buffer.Length == PACKET_SIZE + 1 && gpos <= gend <= PACKET_SIZE && ppos <= PACKET_SIZE + 1
    }

    /** As after construction and as long as the socket sends everything: the put area is not overfull. */
    ghost predicate Good()
      reads this, socket
    {
      Valid() && socket.mode.Whole? && ppos <= PACKET_SIZE
    }

    ghost function View(): Endpoint
      requires Valid()
      reads this, buffer, socket
    {
      Endpoint(buffer[..ppos], buffer[gpos..gend], gpos, socket.incoming, socket.wire, consumed, false)
    }

    ghost function Outgoing(): Outlet
      requires Good()
      reads this, buffer, socket
    {
      Outlet(socket.wire, buffer[..ppos])
    }

    constructor (socket: Socket)
      ensures Valid() && ppos <= PACKET_SIZE && fresh(buffer) && this.socket == socket
      ensures View() == Endpoint([], [], 0, socket.incoming, socket.wire, [], false)
    {
      this.socket := socket;
      buffer := new Byte[PACKET_SIZE + 1];
      gpos, gend, ppos, consumed := 0, 0, 0, [];
    }

    /**
     Sends the put area. After a short write the put pointer moves back by what was sent, but
     the bytes that are left are not moved to the front.
     */
    method Sync() returns (ok: bool)
      requires Valid()
      modifies `ppos, socket`wire
      ensures Valid() && ok == !socket.mode.Fails?
      ensures View() == Synced(old(View()), socket.mode)
      ensures socket.mode.Whole? ==> View() == Act(old(View()), Flush)
    {
      var sent := socket.Write(buffer[..ppos]);
      if sent == -1 {
        return false;
      }
      ppos := ppos - sent;
      return true;
    }

    /** Makes room in a full put area, with the byte that did not fit stored past its end first. */
    method Overflow(ch: Option<Byte>) returns (r: Option<Byte>)
      requires Valid() && ppos <= PACKET_SIZE
      modifies `ppos, buffer, socket`wire
      ensures Valid()
      ensures socket.mode.Fails? ==> r == None
      ensures !socket.mode.Fails? ==> r == ch
      ensures forall i :: 0 <= i <= PACKET_SIZE && (i != old(ppos) || ch.None?) ==> buffer[i] == old(buffer[i])
      ensures ch.Some? ==> buffer[old(ppos)] == ch.value
      ensures socket.mode.Whole? ==>
                ppos == 0 && socket.wire == old(View().Written()) + if ch.Some? then [ch.value] else []
    {
      if ch.Some? {
        buffer[ppos] := ch.value;
        ppos := ppos + 1;
      }
      ghost var full := buffer[..ppos];
      assert full == old(buffer[..ppos]) + if ch.Some? then [ch.value] else [];
      var ok := Sync();
      if !ok {
        return None;
      }
      return ch;
    }

    /**
     Writes one byte. A byte received but not yet read is lost when the put pointer is just there,
     unless it is the same byte.
     */
    method Sputc(c: Byte)
      requires Good()
      modifies `ppos, buffer, socket`wire
      ensures Good()
      ensures View() == Act(old(View()), Put(c))
      ensures View().Written() == old(View().Written()) + [c]
      ensures View().Unread() == old(View().Unread()) <==> !old(View()).Pending(old(ppos)) || old(buffer[ppos]) == c
    {
      ghost var v, p := View(), ppos;
      PuttedWritten(v, c);
      if ppos < PACKET_SIZE {
        buffer[ppos] := c;
        ppos := ppos + 1;
        assert buffer[..ppos] == v.put + [c];
      } else {
        var r := Overflow(Some(c));
        assert View().put == [];
      }
      if v.Pending(p) {
        assert buffer[gpos..gend] == v.get[p - gpos := c];
        assert View().Unread()[p - gpos] == c && v.Unread()[p - gpos] == old(buffer[ppos]);
        assert old(buffer[ppos]) == c ==> View().get == v.get;
      } else {
        assert buffer[gpos..gend] == v.get;
      }
    }

    /**
     The next byte, without taking it. When the socket is read, the put area has been written to
     the socket before, whose result is ignored; what is left in it is overwritten.
     */
    method Underflow() returns (r: Received)
      requires Valid()
      modifies this, buffer, socket`wire, socket`incoming
      ensures Valid() && consumed == old(consumed) && (old(Good()) ==> Good())
      ensures old(gpos) < old(gend) ==> View() == old(View()) && r == Char(View().get[0])
      ensures old(gpos) == old(gend) ==>
                var v := Synced(old(View()), socket.mode);
                && (socket.broken ==> r == Throws && View() == v)
                && (!socket.broken && old(socket.incoming) == [] ==> r == Eof && View() == v)
                && (!socket.broken && old(socket.incoming) != [] ==>
                      && 1 <= |View().get| <= |old(socket.incoming)| && |View().get| <= PACKET_SIZE
                      && View() == Filled(v, |View().get|) && r == Char(View().get[0]))
      ensures old(gpos) == old(gend) && socket.mode.Whole? ==>
                && View().put == [] && socket.wire == old(View().Written())
                && (r.Char? ==> View() == Act(Act(old(View()), Refill), Arrive(|View().get|)))
    {
      if gpos < gend {
        return Char(buffer[gpos]);
      }
      var ok := Sync();
      ghost var v, before := View(), buffer[..];
      assert v.put == before[..ppos];
      var received := socket.Read(buffer);
      if received == -1 {
        assert View() == v;
        return Throws;
      }
      if received == 0 {
        assert View() == v;
        return Eof;
      }
      gpos, gend := 0, received;
      OverlaidPrefix(buffer[..], before, received, ppos);
      assert buffer[..][..received] == v.incoming[..received] && buffer[..][..ppos] == buffer[..ppos];
      return Char(buffer[gpos]);
    }

    /** Takes the next byte. */
    method Sbumpc() returns (r: Received)
      requires Good()
      modifies this, buffer, socket`wire, socket`incoming
      ensures Good()
      ensures View().Written() == old(View().Written())
      ensures !r.Char? ==> View().Unread() == old(View().Unread()) && consumed == old(consumed)
      ensures r.Char? ==> old(View().Unread()) == [r.c] + View().Unread() && consumed == old(consumed) + [r.c]
      ensures r.Eof? <==> old(View().Unread()) == [] && !socket.broken
      ensures r.Throws? ==> socket.broken
      ensures old(View().get) != [] ==> View() == Act(old(View()), Get)
      ensures old(View().get) == [] ==> View().put == []
      ensures old(View().get) == [] && r.Char? ==>
                var k := |View().get| + 1;
                k <= PACKET_SIZE && View() == Act(Act(Act(old(View()), Refill), Arrive(k)), Get)
    {
      ghost var u := View();
      FlushedWritten(u);
      r := Underflow();
      if r.Char? {
        ghost var v := View();
        if u.get == [] {
          RefilledGotten(u, |v.get|);
        } else {
          GottenSame(v);
        }
        gpos := gpos + 1;
        consumed := consumed + [r.c];
        assert buffer[gpos..gend] == v.get[1..];
        assert View() == Gotten(v);
      }
    }

    /** Reads `n` bytes, or all that there are. */
    method Read(n: nat) returns (data: seq<Byte>)
      requires Good()
      modifies this, buffer, socket`wire, socket`incoming
      ensures Good()
      ensures View().Written() == old(View().Written()) && consumed == old(consumed) + data
      ensures old(View().Unread()) == data + View().Unread() && |data| <= n
      ensures |data| < n && !socket.broken ==> View().Unread() == []
    {
      data := [];
      ghost var written, unread, was := View().Written(), View().Unread(), consumed;
      ghost var rest := unread;
      while |data| < n
        invariant Good() && |data| <= n && rest == View().Unread() && written == View().Written()
        invariant consumed == was + data && unread == data + rest
        decreases n - |data|
      {
        var r := Sbumpc();
        if !r.Char? {
          return;
        }
        AppendAssociates(data, [r.c], View().Unread());
        AppendAssociates(was, data, [r.c]);
        data := data + [r.c];
        rest := View().Unread();
      }
    }

    /** Writes all of `data`. */
    method Write(data: seq<Byte>)
      requires Good()
      modifies `ppos, buffer, socket`wire
      ensures Good()
      ensures View() == PuttedAll(old(View()), data)
      ensures View().Written() == old(View().Written()) + data && Outgoing() == Appended(old(Outgoing()), data)
      ensures Spares(old(View()), |data|) ==> View().Unread() == old(View().Unread())
      ensures gpos == gend ==> View().Unread() == old(View().Unread())
    {
      ghost var v := View();
      for i := 0 to |data|
        invariant Good() && View() == PuttedAll(v, data[..i])
      {
        assert data[..i + 1][..i] == data[..i];
        Sputc(data[i]);
      }
      assert data[..|data|] == data;
      PuttedAllWritten(v, data);
      PuttedAllLeaves(v, data);
      if Spares(v, |data|) {
        SparedIsKept(v, data);
      }
    }
  }

  lemma {:induction false} PuttedAllWritten(e: Endpoint, data: seq<Byte>)
    ensures PuttedAll(e, data).Written() == e.Written() + data
    decreases |data|
  {
    if data != [] {
      var k := |data| - 1;
      PuttedAllWritten(e, data[..k]);
      PuttedWritten(PuttedAll(e, data[..k]), data[k]);
      AppendAssociates(e.Written(), data[..k], [data[k]]);
      assert data[..k] + [data[k]] == data;
    }
  }

  /** The slots that `n` puts go to, through the end of the array and from its beginning on, hold nothing unread. */
  ghost predicate Spares(e: Endpoint, n: nat) {
    || n == 0 || e.get == [] || |e.put| + n <= e.gpos
    || (e.gpos + |e.get| <= |e.put| && |e.put| + n <= PACKET_SIZE + 1 + e.gpos)
  }

  /** As the areas of a buffer are: each within the array. */
  ghost predicate Fits(e: Endpoint) {
    |e.put| <= PACKET_SIZE && e.gpos + |e.get| <= PACKET_SIZE
  }

  /** Where the put pointer is after less than a lap. */
  lemma {:induction false} PuttedAllMoves(e: Endpoint, data: seq<Byte>)
    requires Fits(e) && |data| <= PACKET_SIZE + 1
    ensures var f := PuttedAll(e, data);
            && Fits(f) && f.gpos == e.gpos && |f.get| == |e.get| && f.incoming == e.incoming
            && |f.put| == if |e.put| + |data| <= PACKET_SIZE then |e.put| + |data| else |e.put| + |data| - PACKET_SIZE - 1
    decreases |data|
  {
    if data != [] {
      PuttedAllMoves(e, data[..|data| - 1]);
    }
  }

  lemma {:induction false} SparedIsKept(e: Endpoint, data: seq<Byte>)
    requires Spares(e, |data|) && (e.get == [] || Fits(e))
    ensures PuttedAll(e, data).get == e.get && PuttedAll(e, data).incoming == e.incoming
    decreases |data|
  {
    if data != [] {
      var k := |data| - 1;
      SparedIsKept(e, data[..k]);
      if e.get != [] {
        PuttedAllMoves(e, data[..k]);
      }
    }
  }

  /** A byte that is once written over stays so while the same byte is written again and again. */
  lemma {:induction false} OverwrittenStays(e: Endpoint, c: Byte, m: nat, n: nat, x: nat)
    requires m <= n && x < |e.get| && |PuttedAll(e, seq(m, _ => c)).get| == |e.get|
    requires PuttedAll(e, seq(m, _ => c)).get[x] == c
    ensures |PuttedAll(e, seq(n, _ => c)).get| == |e.get| && PuttedAll(e, seq(n, _ => c)).get[x] == c
    decreases n
  {
    if m < n {
      OverwrittenStays(e, c, m, n - 1, x);
      var data := seq(n, _ => c);
      assert data[..n - 1] == seq(n - 1, _ => c);
    }
  }

  /** `n` puts can be harmful: there is a slot with an unread byte that one of the first of them goes to. */
  lemma SomeSlotIsHit(e: Endpoint, n: nat) returns (m: nat, x: nat)
    requires Fits(e) && !Spares(e, n)
    ensures m < n && m <= PACKET_SIZE && x < |e.get|
    ensures forall data: seq<Byte> | |data| == m :: |PuttedAll(e, data).put| == e.gpos + x
  {
    var p := |e.put|;
    m, x := if p < e.gpos then e.gpos - p else if p < e.gpos + |e.get| then 0 else PACKET_SIZE + 1 - p + e.gpos,
            if p < e.gpos || p >= e.gpos + |e.get| then 0 else p - e.gpos;
    forall data: seq<Byte> | |data| == m ensures |PuttedAll(e, data).put| == e.gpos + x {
      PuttedAllMoves(e, data);
    }
  }

  lemma UnsparedIsLost(e: Endpoint, n: nat) returns (data: seq<Byte>)
    requires Fits(e) && !Spares(e, n)
    ensures |data| == n && PuttedAll(e, data).Unread() != e.Unread()
  {
    var m, x := SomeSlotIsHit(e, n);
    var c: Byte := if e.get[x] == 0 then 1 else 0;
    var first := seq(m + 1, _ => c);
    assert first[..m] == seq(m, _ => c);
    PuttedAllMoves(e, first[..m]);
    assert Putted(PuttedAll(e, first[..m]), c).get[x] == c;
    OverwrittenStays(e, c, m + 1, n, x);
    data := seq(n, _ => c);
    assert PuttedAll(e, data).Unread()[x] == c && e.Unread()[x] != c;
  }

  /**
   Writing `n` bytes loses nothing unread, whatever the bytes are, exactly when the slots they go
   to hold nothing unread.
   */
  lemma WriteIsHarmlessIff(e: Endpoint, n: nat)
    requires Fits(e)
    ensures (forall data: seq<Byte> | |data| == n :: PuttedAll(e, data).Unread() == e.Unread()) <==> Spares(e, n)
  {
    if Spares(e, n) {
      forall data: seq<Byte> | |data| == n ensures PuttedAll(e, data).Unread() == e.Unread() {
        SparedIsKept(e, data);
      }
    } else {
      var data := UnsparedIsLost(e, n);
    }
  }

  /**
   What a short write leaves in the put area is the beginning of what was there instead of its end. For
   put areas of `n` bytes of which `most` at most are sent, a write keeps what was written, whatever the
   bytes are, exactly when everything or nothing is sent.
   */
  lemma ShortWriteIsHarmlessIff(e: Endpoint, n: nat, most: nat)
    ensures (forall put: seq<Byte> | |put| == n ::
               Synced(e.(put := put), Short(most)).Written() == e.(put := put).Written())
            <==> most == 0 || most >= n
  {
    if most == 0 || most >= n {
      forall put: seq<Byte> | |put| == n
        ensures Synced(e.(put := put), Short(most)).Written() == e.(put := put).Written()
      {
      }
    } else {
      var put: seq<Byte> := seq(n, i => if i == 0 then 1 else 0);
      var f := Synced(e.(put := put), Short(most));
      assert f.Written()[|e.wire| + most] == put[0];
      assert e.(put := put).Written()[|e.wire| + most] == put[most];
    }
  }
}
