/**
 The stream of operations from a primary to a backup or to another device: how operations are
 sent, how the receiver replays them, and what is left when the stream ends in the middle.
 */
module Replica {
  import opened Wrappers
  import opened SocketStream
  import opened Protocol

  datatype Op = Upload(path: Path, content: seq<Byte>) | Delete(path: Path)

  ghost function Encode(op: Op): seq<Byte> {
    match op
    case Upload(path, content) => CommandFrame(UPLOAD) + Frame(path) + Frame(content)
    case Delete(path) => CommandFrame(DELETE) + Frame(path)
  }

  /** Short messages byte by byte: commands by their number, and lengths of eight bytes with the lowest first. */
  lemma ShortMessages(path: Path, content: seq<Byte>)
    requires |path| < 256 && |content| < 256
    ensures Encode(Delete(path)) == [1, 4] + ([1, |path|, 0, 0, 0, 0, 0, 0, 0] + path)
    ensures Encode(Upload(path, content))
         == [1, 2] + ([1, |path|, 0, 0, 0, 0, 0, 0, 0] + path) + ([1, |content|, 0, 0, 0, 0, 0, 0, 0] + content)
    ensures CommandFrame(SUCCESS) == [1, 0] && CommandFrame(EXIT) == [1, 8]
  {
    ShortFrame(path);
    ShortFrame(content);
  }

  lemma ShortFrame(bs: seq<Byte>)
    requires |bs| < 256
    ensures Frame(bs) == [1, |bs|, 0, 0, 0, 0, 0, 0, 0] + bs
  {
    LittleShort(|bs|);
  }

  lemma LittleShort(n: nat)
    requires n < 256
    ensures Little(n, LENGTH) == [n, 0, 0, 0, 0, 0, 0, 0]
  {
    var l := Little(n / 256, 7);
    assert Little(0, 7) == [0] + Little(0, 6);
    assert Little(0, 6) == [0] + Little(0, 5);
    assert Little(0, 5) == [0] + Little(0, 4);
    assert Little(0, 4) == [0] + Little(0, 3);
    assert Little(0, 3) == [0] + Little(0, 2);
    assert Little(0, 2) == [0] + Little(0, 1);
    assert Little(0, 1) == [0] + Little(0, 0);
  }

  ghost function EncodeAll(ops: seq<Op>): seq<Byte> {
    if ops == [] then [] else Encode(ops[0]) + EncodeAll(ops[1..])
  }

  /** The effect of an operation on the files of its receiver. */
  ghost function Applied(files: Files, op: Op): Files {
    match op
    case Upload(path, content) => files[path := content]
    case Delete(path) => files - {path}
  }

  ghost function AppliedAll(files: Files, ops: seq<Op>): Files
    decreases |ops|
  {
    if ops == [] then files else AppliedAll(Applied(files, ops[0]), ops[1..])
  }

  lemma {:induction false} AppliedAllAppend(files: Files, ops: seq<Op>, op: Op)
    ensures AppliedAll(files, ops + [op]) == Applied(AppliedAll(files, ops), op)
    decreases |ops|
  {
    if ops == [] {
      assert ops + [op] == [op];
      assert AppliedAll(Applied(files, op), []) == Applied(files, op);
    } else {
      assert (ops + [op])[1..] == ops[1..] + [op];
      AppliedAllAppend(Applied(files, ops[0]), ops[1..], op);
    }
  }

  ghost predicate ValidOp(op: Op) {
    op.path != [] && Sendable(op.path) && (op.Upload? ==> Sendable(op.content))
  }

  ghost predicate ValidOps(ops: seq<Op>) {
    forall k :: 0 <= k < |ops| ==> ValidOp(ops[k])
  }

  // ---------- Sending ----------

  class Sender {
    const exchange: FileExchange

    ghost predicate Ready()
      reads this, exchange, exchange.stream, exchange.stream.socket
    {
      exchange.Ready() && exchange.stream.gpos == exchange.stream.gend
    }

    constructor (exchange: FileExchange)
      ensures this.exchange == exchange
    {
      this.exchange := exchange;
    }

    /**
     Sends the current content of `path`. When the file has disappeared, the command and the path
     have been written nevertheless, but nothing is flushed: they stay in the put area if they fit.
     */
    method Upload(path: Path) returns (ok: bool)
      requires Ready()
      modifies exchange`path, exchange.stream`ppos, exchange.stream.buffer, exchange.stream.socket`wire
      ensures Ready() && exchange.Unread() == old(exchange.Unread())
      ensures ok == (path in exchange.disk.files)
      ensures exchange.Written() == old(exchange.Written()) +
                if ok then Encode(Op.Upload(path, exchange.disk.files[path]))
                else Part(path)
      ensures exchange.stream.Outgoing()
           == if ok then Outlet(exchange.Written(), []) else Appended(old(exchange.stream.Outgoing()), Part(path))
      ensures !ok && old(exchange.stream.ppos) + |Part(path)| <= PACKET_SIZE ==>
                && exchange.stream.socket.wire == old(exchange.stream.socket.wire)
                && exchange.stream.Outgoing().put == old(exchange.stream.Outgoing().put) + Part(path)
    {
      ghost var w0, o0 := exchange.Written(), exchange.stream.Outgoing();
      AppendedTwice(o0, CommandFrame(UPLOAD), Frame(path));
      exchange.SendCommand(UPLOAD);
      exchange.SetPath(path);
      exchange.SendPath();
      ghost var w2 := exchange.Written();
      AppendAssociates(w0, CommandFrame(UPLOAD), Frame(path));
      ok := exchange.Send();
      if !ok {
        assert exchange.Written() == w2;
        if |o0.put| + |Part(path)| <= PACKET_SIZE {
          AppendedFits(o0, Part(path));
        }
        return false;
      }
      AppendAssociates(w0, CommandFrame(UPLOAD) + Frame(path), Frame(exchange.disk.files[path]));
      exchange.Flush();
    }

    method Delete(path: Path) returns (ok: bool)
      requires Ready()
      modifies exchange`path, exchange.stream`ppos, exchange.stream.buffer, exchange.stream.socket`wire
      ensures Ready() && ok && exchange.Unread() == old(exchange.Unread())
      ensures exchange.Written() == old(exchange.Written()) + Encode(Op.Delete(path))
      ensures exchange.stream.Outgoing() == Outlet(exchange.Written(), [])
    {
      AppendAssociates(exchange.Written(), CommandFrame(DELETE), Frame(path));
      exchange.SendCommand(DELETE);
      exchange.SetPath(path);
      exchange.SendPath();
      exchange.Flush();
      return true;
    }
  }

  // ---------- Replaying ----------

  datatype MainLoopReply = LostConnectionToPrimary | NeverReturns

  datatype Replayed = Replayed(files: Files, path: Path, reply: MainLoopReply)

  /** An upload message after its command: its path and then its file, whether or not the path arrived. */
  datatype Stored = Stored(outcome: Outcome, files: Files, path: Path, rest: seq<Byte>)

  ghost function StoredFrom(files: Files, path: Path, u: seq<Byte>): (s: Stored)
    ensures |s.rest| <= |u|
  {
    var p := PathFrom(path, u);
    var f := FileFrom(files, p.path, p.rest);
    Stored(f.outcome, f.files, p.path, f.rest)
  }

  /**
   The receiving loop, as a function of the bytes that arrive before the stream ends. The path
   is kept from one message to the next.
   */
  ghost function Replay(files: Files, path: Path, u: seq<Byte>): Replayed
    decreases |u|
  {
    if |u| < 2 then Replayed(files, path, LostConnectionToPrimary)
    else if u[1] == UPLOAD then
      var f := StoredFrom(files, path, u[2..]);
      if f.outcome.Stalled? then Replayed(f.files, f.path, NeverReturns)
      else Replay(f.files, f.path, f.rest)
    else if u[1] == DELETE then
      var p := PathFrom(path, u[2..]);
      Replay(files - {p.path}, p.path, p.rest)
    else
      Replay(files, path, u[2..])
  }

  class Backup {
    const exchange: FileExchange

    constructor (exchange: FileExchange)
      ensures this.exchange == exchange
    {
      this.exchange := exchange;
    }

    /** Handles one upload message after its command. */
    method Store() returns (outcome: Outcome)
      requires exchange.Ready()
      modifies exchange`path, exchange.disk, exchange.stream, exchange.stream.buffer
      modifies exchange.stream.socket`wire, exchange.stream.socket`incoming
      ensures exchange.Ready() && exchange.Written() == old(exchange.Written())
      ensures Stored(outcome, exchange.disk.files, exchange.path, exchange.Unread())
           == StoredFrom(old(exchange.disk.files), old(exchange.path), old(exchange.Unread()))
    {
      var ok := exchange.ReceivePath();
      outcome := exchange.Receive();
    }

    /** Handles one delete message after its command. */
    method Remove()
      requires exchange.Ready()
      modifies exchange`path, exchange.disk, exchange.stream, exchange.stream.buffer
      modifies exchange.stream.socket`wire, exchange.stream.socket`incoming
      ensures exchange.Ready() && exchange.Written() == old(exchange.Written())
      ensures PathReceipt(PathFrom(old(exchange.path), old(exchange.Unread())).ok, exchange.path, exchange.Unread())
           == PathFrom(old(exchange.path), old(exchange.Unread()))
      ensures exchange.disk.files == old(exchange.disk.files) - {exchange.path}
    {
      var ok := exchange.ReceivePath();
      if exchange.path in exchange.disk.files {
        exchange.disk.files := exchange.disk.files - {exchange.path};
      } else {
        assert exchange.disk.files == exchange.disk.files - {exchange.path};
      }
    }

    /** Replays what the primary sends until the connection is lost. */
    method MainLoop() returns (reply: MainLoopReply)
      requires exchange.Ready()
      modifies exchange`path, exchange.disk, exchange.stream, exchange.stream.buffer
      modifies exchange.stream.socket`wire, exchange.stream.socket`incoming
      ensures exchange.Ready() && exchange.Written() == old(exchange.Written())
      ensures Replayed(exchange.disk.files, exchange.path, reply)
           == Replay(old(exchange.disk.files), old(exchange.path), old(exchange.Unread()))
    {
      ghost var goal := Replay(exchange.disk.files, exchange.path, exchange.Unread());
      while true
        invariant exchange.Ready() && exchange.Written() == old(exchange.Written())
        invariant goal == Replay(exchange.disk.files, exchange.path, exchange.Unread())
        decreases |exchange.Unread()|
      {
        var command := exchange.ReceiveCommand();
        if command.None? {
          return LostConnectionToPrimary;
        }
        if command.value == UPLOAD {
          var outcome := Store();
          if outcome.Stalled? {
            return NeverReturns;
          }
        } else if command.value == DELETE {
          Remove();
        }
      }
    }
  }

  /** The path that the receiver holds after some operations. */
  ghost function LastPath(path: Path, ops: seq<Op>): Path {
    if ops == [] then path else ops[|ops| - 1].path
  }

  lemma ReplayUpload(files: Files, path: Path, u: seq<Byte>, p: Path, r: seq<Byte>, content: seq<Byte>, rest: seq<Byte>)
    requires |u| >= 2 && u[1] == UPLOAD && p != []
    requires Unframed(u[2..]) == Some((p, r)) && Unframed(r) == Some((content, rest))
    ensures Replay(files, path, u) == Replay(files[p := content], p, rest)
  {
  }

  lemma ReplayDelete(files: Files, path: Path, u: seq<Byte>, p: Path, rest: seq<Byte>)
    requires |u| >= 2 && u[1] == DELETE && Unframed(u[2..]) == Some((p, rest))
    ensures Replay(files, path, u) == Replay(files - {p}, p, rest)
  {
  }

  /** One whole message is replayed as one operation, whatever follows it. */
  lemma ReplayOne(files: Files, path: Path, op: Op, rest: seq<Byte>)
    requires ValidOp(op)
    ensures Replay(files, path, Encode(op) + rest) == Replay(Applied(files, op), op.path, rest)
  {
    match op {
      case Upload(p, content) =>
        var tail := Frame(content) + rest;
        var u := CommandFrame(UPLOAD) + Frame(p) + tail;
        assert u == Encode(op) + rest;
        CommandThenPath(UPLOAD, p, tail);
        UnframedFrame(content, rest);
        ReplayUpload(files, path, u, p, tail, content, rest);
      case Delete(p) =>
        CommandThenPath(DELETE, p, rest);
        ReplayDelete(files, path, Encode(op) + rest, p, rest);
    }
  }

  lemma {:induction false} ReplayMany(files: Files, path: Path, ops: seq<Op>, rest: seq<Byte>)
    requires ValidOps(ops)
    ensures Replay(files, path, EncodeAll(ops) + rest) == Replay(AppliedAll(files, ops), LastPath(path, ops), rest)
    decreases |ops|
  {
    if ops == [] {
      assert EncodeAll(ops) + rest == rest;
    } else {
      assert EncodeAll(ops) + rest == Encode(ops[0]) + (EncodeAll(ops[1..]) + rest);
      ReplayOne(files, path, ops[0], EncodeAll(ops[1..]) + rest);
      ReplayMany(Applied(files, ops[0]), ops[0].path, ops[1..], rest);
    }
  }

  /** Any other command is skipped, wherever it stands between the messages. */
  lemma ReplaySkips(files: Files, path: Path, ops: seq<Op>, c: Byte, rest: seq<Byte>)
    requires ValidOps(ops) && c != UPLOAD && c != DELETE
    ensures Replay(files, path, EncodeAll(ops) + (CommandFrame(c) + rest)) == Replay(files, path, EncodeAll(ops) + rest)
  {
    ReplayMany(files, path, ops, CommandFrame(c) + rest);
    ReplayMany(files, path, ops, rest);
    assert (CommandFrame(c) + rest)[2..] == rest;
  }

  /** Round trip: replaying the messages of any operations applies exactly these, in their order. */
  lemma ReplayUndoesEncode(files: Files, path: Path, ops: seq<Op>)
    requires ValidOps(ops)
    ensures Replay(files, path, EncodeAll(ops))
         == Replayed(AppliedAll(files, ops), LastPath(path, ops), LostConnectionToPrimary)
  {
    ReplayMany(files, path, ops, []);
    assert EncodeAll(ops) + [] == EncodeAll(ops);
  }

  // ---------- A stream that ends in the middle ----------

  /** How many whole messages the first `k` bytes hold, and how many bytes of the next one. */
  ghost function Cut(ops: seq<Op>, k: nat): (r: (nat, nat))
    requires k <= |EncodeAll(ops)|
    ensures r.0 <= |ops|
    ensures r.0 == |ops| ==> r.1 == 0
    ensures r.0 < |ops| ==> r.1 < |Encode(ops[r.0])|
  {
    if ops == [] || k < |Encode(ops[0])| then (0, k)
    else
      var r := Cut(ops[1..], k - |Encode(ops[0])|);
      (r.0 + 1, r.1)
  }

  /** The first `r.1` bytes of message `r.0`. */
  ghost function NextPart(ops: seq<Op>, r: (nat, nat)): seq<Byte> {
    if r.0 < |ops| && r.1 <= |Encode(ops[r.0])| then Encode(ops[r.0])[..r.1] else []
  }

  lemma {:induction false} CutSplits(ops: seq<Op>, k: nat)
    requires k <= |EncodeAll(ops)|
    ensures EncodeAll(ops)[..k] == EncodeAll(ops[..Cut(ops, k).0]) + NextPart(ops, Cut(ops, k))
    decreases |ops|
  {
    if ops != [] {
      var e := Encode(ops[0]);
      TakeConcat(e, EncodeAll(ops[1..]), k);
      if k < |e| {
        assert [] + e[..k] == e[..k];
      } else {
        CutSplits(ops[1..], k - |e|);
        CutLater(ops, Cut(ops[1..], k - |e|));
      }
    }
  }

  lemma CutLater(ops: seq<Op>, r: (nat, nat))
    requires ops != [] && r.0 <= |ops| - 1
    ensures EncodeAll(ops[..r.0 + 1]) + NextPart(ops, (r.0 + 1, r.1))
         == Encode(ops[0]) + (EncodeAll(ops[1..][..r.0]) + NextPart(ops[1..], r))
  {
    NextPartLater(ops, r);
    EncodeAllFirst(ops, r.0 + 1);
    AppendAssociates(Encode(ops[0]), EncodeAll(ops[1..][..r.0]), NextPart(ops[1..], r));
  }

  lemma NextPartLater(ops: seq<Op>, r: (nat, nat))
    requires ops != []
    ensures NextPart(ops[1..], r) == NextPart(ops, (r.0 + 1, r.1))
  {
    var later := ops[1..];
    if r.0 < |later| {
      var op := later[r.0];
      assert op == ops[r.0 + 1];
    }
  }

  lemma EncodeAllFirst(ops: seq<Op>, j: nat)
    requires 1 <= j <= |ops|
    ensures EncodeAll(ops[..j]) == Encode(ops[0]) + EncodeAll(ops[1..][..j - 1])
  {
    assert ops[..j][1..] == ops[1..][..j - 1];
  }

  /**
   The receiver after the first `t` bytes of one message, with the path left from the message
   before. Below two bytes nothing is known yet. From then on until its own path is complete, the
   message takes effect on the previous path: an upload empties this file, a deletion removes it.
   With the path complete the file is emptied, and then filled with what there is of its content.
   */
  ghost function Torn(files: Files, path: Path, op: Op, t: nat): Replayed
    requires t < |Encode(op)|
  {
    if t < 2 then Replayed(files, path, LostConnectionToPrimary)
    else if t < 2 + |Frame(op.path)| then
      match op
      case Upload(_, _) => Replayed(if path == [] then files else files[path := []], path, LostConnectionToPrimary)
      case Delete(_) => Replayed(files - {path}, path, LostConnectionToPrimary)
    else
      var got := t - 2 - |Frame(op.path)|;
      if got < HEADER then Replayed(files[op.path := []], op.path, LostConnectionToPrimary)
      else Replayed(files[op.path := op.content[..got - HEADER]], op.path, NeverReturns)
  }

  lemma TornPath(files: Files, path: Path, op: Op, t: nat)
    requires ValidOp(op) && 2 <= t < |Encode(op)| && t < 2 + |Frame(op.path)|
    ensures Replay(files, path, Encode(op)[..t]) == Torn(files, path, op, t)
  {
    var c := if op.Upload? then UPLOAD else DELETE;
    var tail := if op.Upload? then Frame(op.content) else [];
    CutAfterCommand(c, op.path, tail, t);
    FrameCut(op.path, t - 2);
    var u := CommandFrame(c) + Frame(op.path)[..t - 2];
    assert Encode(op) == CommandFrame(c) + Frame(op.path) + tail;
    assert PathFrom(path, u[2..]) == PathReceipt(false, path, []);
    match op {
      case Upload(_, _) => ReplayUploadCut(files, path, u);
      case Delete(_) => ReplayDeleteCut(files, path, u);
    }
  }

  lemma CutAfterCommand(c: Byte, p: Path, tail: seq<Byte>, t: nat)
    requires 2 <= t < 2 + |Frame(p)|
    ensures (CommandFrame(c) + Frame(p) + tail)[..t] == CommandFrame(c) + Frame(p)[..t - 2]
    ensures (CommandFrame(c) + Frame(p)[..t - 2])[2..] == Frame(p)[..t - 2]
  {
  }

  lemma ReplayUploadCut(files: Files, path: Path, u: seq<Byte>)
    requires |u| >= 2 && u[1] == UPLOAD && PathFrom(path, u[2..]) == PathReceipt(false, path, [])
    ensures Replay(files, path, u)
         == Replayed(if path == [] then files else files[path := []], path, LostConnectionToPrimary)
  {
    var s := StoredFrom(files, path, u[2..]);
    assert s == Stored(Refused, if path == [] then files else files[path := []], path, []);
  }

  lemma ReplayDeleteCut(files: Files, path: Path, u: seq<Byte>)
    requires |u| >= 2 && u[1] == DELETE && PathFrom(path, u[2..]) == PathReceipt(false, path, [])
    ensures Replay(files, path, u) == Replayed(files - {path}, path, LostConnectionToPrimary)
  {
  }

  lemma TornContent(files: Files, path: Path, op: Op, t: nat)
    requires ValidOp(op) && op.Upload? && 2 + |Frame(op.path)| <= t < |Encode(op)|
    ensures Replay(files, path, Encode(op)[..t]) == Torn(files, path, op, t)
  {
    var got := t - 2 - |Frame(op.path)|;
    var cut := Frame(op.content)[..got];
    var u := CommandFrame(UPLOAD) + Frame(op.path) + cut;
    TakeConcat(CommandFrame(UPLOAD) + Frame(op.path), Frame(op.content), t);
    assert u == Encode(op)[..t];
    CommandThenPath(UPLOAD, op.path, cut);
    CutFile(files, op.path, op.content, got);
    assert PathFrom(path, u[2..]) == PathReceipt(true, op.path, cut);
  }

  lemma ReplayTorn(files: Files, path: Path, op: Op, t: nat)
    requires ValidOp(op) && t < |Encode(op)|
    ensures Replay(files, path, Encode(op)[..t]) == Torn(files, path, op, t)
  {
    if t < 2 {
    } else if t < 2 + |Frame(op.path)| {
      TornPath(files, path, op, t);
    } else {
      TornContent(files, path, op, t);
    }
  }

  /**
   A stream that ends anywhere is replayed as the whole messages it holds, in their order, and
   the effect of the beginning of one more message.
   */
  lemma ReplayCut(files: Files, path: Path, ops: seq<Op>, k: nat)
    requires ValidOps(ops) && k <= |EncodeAll(ops)|
    ensures var r := Cut(ops, k);
            var j, t := r.0, r.1;
            var end := Replay(files, path, EncodeAll(ops)[..k]);
            && (j == |ops| ==> end == Replayed(AppliedAll(files, ops), LastPath(path, ops), LostConnectionToPrimary))
            && (j < |ops| ==> end == Torn(AppliedAll(files, ops[..j]), LastPath(path, ops[..j]), ops[j], t))
  {
    var (j, t) := Cut(ops, k);
    CutSplits(ops, k);
    var tail := if j < |ops| then Encode(ops[j])[..t] else [];
    ReplayMany(files, path, ops[..j], tail);
    if j < |ops| {
      ReplayTorn(AppliedAll(files, ops[..j]), LastPath(path, ops[..j]), ops[j], t);
    } else {
      assert ops[..j] == ops;
    }
  }

  /** The file that the first `t` bytes of `op` touch looks already the way they leave it. */
  ghost predicate LooksUntouched(files: Files, last: Path, op: Op, t: nat)
    requires t < |Encode(op)|
  {
    if t < 2 then true
    else if t < 2 + |Frame(op.path)| then
      if op.Upload? then last == [] || (last in files && files[last] == []) else last !in files
    else
      var got := t - 2 - |Frame(op.path)|;
      op.path in files && files[op.path] == if got < HEADER then [] else op.content[..got - HEADER]
  }

  /**
   The first `t` bytes of `op` do already what the whole of it does: they fall on the file that
   `op` is about, and this file is removed or has no content.
   */
  ghost predicate LooksDone(last: Path, op: Op, t: nat)
    requires t < |Encode(op)|
  {
    t >= 2 && (t < 2 + |Frame(op.path)| ==> last == op.path) &&
    (op.Upload? ==> op.content == [] && t < 2 + |Frame(op.path)| + HEADER)
  }

  lemma TornIsUntouchedIff(files: Files, last: Path, op: Op, t: nat)
    requires t < |Encode(op)|
    ensures Torn(files, last, op, t).files == files <==> LooksUntouched(files, last, op, t)
  {
    SameAfterUpdateIff(files, last, []);
    SameAfterRemovalIff(files, last);
    if t >= 2 + |Frame(op.path)| {
      SameAfterUpdateIff(files, op.path, Torn(files, last, op, t).files[op.path]);
    }
  }

  lemma TornIsDoneIff(files: Files, last: Path, op: Op, t: nat)
    requires ValidOp(op) && t < |Encode(op)| && !LooksUntouched(files, last, op, t)
    ensures Torn(files, last, op, t).files == Applied(files, op) <==> LooksDone(last, op, t)
  {
    var torn, done := Torn(files, last, op, t).files, Applied(files, op);
    if op.Upload? {
      assert done[op.path] == op.content;
      if t < 2 + |Frame(op.path)| {
        assert torn == files[last := []];
        if last != op.path {
          assert torn[last] == [] && (last in done <==> last in files) && (last in files ==> done[last] == files[last]);
        } else {
          assert torn[op.path] == [];
        }
      } else {
        assert torn[op.path] == op.content[..|torn[op.path]|];
      }
    } else {
      assert last in files && last !in torn;
    }
  }

  /** `end` are the files before or the files after `op` exactly in the cases in which its beginning looks like that. */
  ghost predicate CleanExactly(end: Files, before: Files, after: Files, last: Path, op: Op, t: nat)
    requires t < |Encode(op)|
  {
    && (end == before <==> LooksUntouched(before, last, op, t))
    && (end == before || end == after <==> LooksUntouched(before, last, op, t) || LooksDone(last, op, t))
  }

  lemma TornIsCleanIff(end: Files, before: Files, after: Files, last: Path, op: Op, t: nat)
    requires ValidOp(op) && t < |Encode(op)| && end == Torn(before, last, op, t).files && after == Applied(before, op)
    ensures CleanExactly(end, before, after, last, op, t)
  {
    TornIsUntouchedIff(before, last, op, t);
    if !LooksUntouched(before, last, op, t) {
      TornIsDoneIff(before, last, op, t);
    }
  }

  lemma AppliedUpTo(files: Files, ops: seq<Op>, j: nat)
    requires j < |ops|
    ensures AppliedAll(files, ops[..j + 1]) == Applied(AppliedAll(files, ops[..j]), ops[j])
  {
    assert ops[..j + 1] == ops[..j] + [ops[j]];
    AppliedAllAppend(files, ops[..j], ops[j]);
  }

  /**
   When the files of the receiver are those of whole operations although the stream ended in the
   middle of one: those of the operations before it, exactly if not even its command has arrived
   or the file which its beginning touches happens to look already the way it is left; or those of
   the operations up to and with it, exactly if otherwise its beginning falls on its own file and
   this file is removed or has no content.
   */
  lemma CutIsCleanIff(files: Files, path: Path, ops: seq<Op>, k: nat)
    requires ValidOps(ops) && k <= |EncodeAll(ops)| && Cut(ops, k).0 < |ops|
    ensures var r := Cut(ops, k);
            CleanExactly(Replay(files, path, EncodeAll(ops)[..k]).files, AppliedAll(files, ops[..r.0]),
                         AppliedAll(files, ops[..r.0 + 1]), LastPath(path, ops[..r.0]), ops[r.0], r.1)
  {
    var r := Cut(ops, k);
    CutEnd(files, path, ops, k);
    AppliedUpTo(files, ops, r.0);
    TornIsCleanIff(Replay(files, path, EncodeAll(ops)[..k]).files, AppliedAll(files, ops[..r.0]),
                   AppliedAll(files, ops[..r.0 + 1]), LastPath(path, ops[..r.0]), ops[r.0], r.1);
  }

  lemma CutEnd(files: Files, path: Path, ops: seq<Op>, k: nat)
    requires ValidOps(ops) && k <= |EncodeAll(ops)| && Cut(ops, k).0 < |ops|
    ensures var r := Cut(ops, k);
            && ValidOp(ops[r.0]) && r.1 < |Encode(ops[r.0])|
            && Replay(files, path, EncodeAll(ops)[..k]).files
                 == Torn(AppliedAll(files, ops[..r.0]), LastPath(path, ops[..r.0]), ops[r.0], r.1).files
  {
    ReplayCut(files, path, ops, k);
  }

  lemma SameAfterUpdateIff(files: Files, path: Path, content: seq<Byte>)
    ensures files[path := content] == files <==> path in files && files[path] == content
  {
    assert files[path := content][path] == content;
  }

  lemma SameAfterRemovalIff(files: Files, path: Path)
    ensures files - {path} == files <==> path !in files
  {
  }

  /**
   The receiver waits for ever, instead of reporting the loss of its primary, exactly when the
   stream ends within the content of a file.
   */
  lemma CutStallsIff(files: Files, path: Path, ops: seq<Op>, k: nat)
    requires ValidOps(ops) && k <= |EncodeAll(ops)|
    ensures var r := Cut(ops, k);
            var j, t := r.0, r.1;
            (Replay(files, path, EncodeAll(ops)[..k]).reply == NeverReturns) <==>
            (j < |ops| && ops[j].Upload? && t >= 2 + |Frame(ops[j].path)| + HEADER)
  {
    ReplayCut(files, path, ops, k);
  }

  // ---------- A message that is broken off in the middle of the stream ----------

  /** What is written of an upload whose file is gone. */
  ghost function Part(path: Path): seq<Byte> {
    CommandFrame(UPLOAD) + Frame(path)
  }

  /** Fewer bytes follow the broken message than what is taken for the length of its file, and the length itself. */
  ghost predicate Chokes(rest: seq<Byte>) {
    |rest| < HEADER || |rest| < HEADER + Number(rest[1..HEADER])
  }

  /**
   What follows a broken message is taken for the file of that message: its first bytes for the
   length, and as many of the others as this length says for the content.
   */
  lemma ReplayPart(files: Files, path: Path, p: Path, rest: seq<Byte>)
    requires p != [] && Sendable(p)
    ensures var end := Replay(files, path, Part(p) + rest);
            if |rest| < HEADER then end == Replayed(files[p := []], p, LostConnectionToPrimary)
            else
              var size := Number(rest[1..HEADER]);
              if |rest| < HEADER + size then end == Replayed(files[p := rest[HEADER..]], p, NeverReturns)
              else end == Replay(files[p := rest[HEADER..HEADER + size]], p, rest[HEADER + size..])
  {
    var u := CommandFrame(UPLOAD) + Frame(p) + rest;
    CommandThenPath(UPLOAD, p, rest);
    assert PathFrom(path, u[2..]) == PathReceipt(true, p, rest);
  }

  /**
   A stream with a broken message in it, which further messages follow: the whole messages before it
   are replayed, its file is filled with what follows the misread length, and the receiver hangs if
   there is such a length.
   */
  lemma ReplayBroken(files: Files, path: Path, ops: seq<Op>, p: Path, rest: seq<Byte>)
    requires ValidOps(ops) && p != [] && Sendable(p) && Chokes(rest)
    ensures Replay(files, path, EncodeAll(ops) + (Part(p) + rest)) ==
              if |rest| < HEADER then Replayed(AppliedAll(files, ops)[p := []], p, LostConnectionToPrimary)
              else Replayed(AppliedAll(files, ops)[p := rest[HEADER..]], p, NeverReturns)
  {
    ReplayMany(files, path, ops, Part(p) + rest);
    ReplayPart(AppliedAll(files, ops), LastPath(path, ops), p, rest);
  }

  lemma {:induction false} LittlePrefix(n: nat, width: nat, shorter: nat)
    requires shorter <= width
    ensures Little(n, width)[..shorter] == Little(n, shorter)
  {
    if shorter > 0 {
      LittlePrefix(n / 256, width - 1, shorter - 1);
    }
  }

  /** The next message after a broken one: its command, a flag and the length of its path are read as a length. */
  lemma MisreadLength(c: Byte, p: Path, tail: seq<Byte>)
    requires |p| < Power256(LENGTH - 2)
    ensures var rest := CommandFrame(c) + Frame(p) + tail;
            |rest| >= HEADER && Number(rest[1..HEADER]) == c + 256 * (FLAG + 256 * |p|)
  {
    var rest := CommandFrame(c) + Frame(p) + tail;
    var six := Little(|p|, LENGTH)[..LENGTH - 2];
    LittlePrefix(|p|, LENGTH, LENGTH - 2);
    NumberLittle(|p|, LENGTH - 2);
    assert rest[1..HEADER] == [c] + ([FLAG] + six);
    assert ([FLAG] + six)[1..] == six && ([c] + ([FLAG] + six))[1..] == [FLAG] + six;
  }

  /** So a broken message chokes as long as no more than this length follows. */
  lemma ShortRestChokes(op: Op, tail: seq<Byte>)
    requires op.path != [] && |op.path| < Power256(LENGTH - 2) && |Encode(op) + tail| <= 65536 * |op.path|
    ensures Chokes(Encode(op) + tail)
  {
    match op {
      case Upload(p, content) =>
        AppendAssociates(CommandFrame(UPLOAD) + Frame(p), Frame(content), tail);
        MisreadLength(UPLOAD, p, Frame(content) + tail);
      case Delete(p) =>
        MisreadLength(DELETE, p, tail);
    }
  }
}
