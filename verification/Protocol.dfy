/**
 Commands, paths and files on a stream: the messages, and the loops that send a file in
 packets and receive it again. The serialisation library is represented by a small codec: every
 message begins with a flag byte, and lengths take eight bytes, the lowest first.
 */
module Protocol {
  import opened Wrappers
  import opened SocketStream

  type Path = seq<Byte>
  type Files = map<Path, seq<Byte>>

  const FLAG: Byte := 1
  const LENGTH: nat := 8
  const HEADER: nat := 1 + LENGTH

  const SUCCESS: Byte := 0
  const UPLOAD: Byte := 2
  const DELETE: Byte := 4
  const EXIT: Byte := 8

  // ---------- The codec ----------

  function Little(n: nat, width: nat): (bs: seq<Byte>)
    ensures |bs| == width
  {
    if width == 0 then [] else [n % 256] + Little(n / 256, width - 1)
  }

  function Number(bs: seq<Byte>): nat {
    if bs == [] then 0 else bs[0] + 256 * Number(bs[1..])
  }

  ghost function Power256(e: nat): (p: nat)
    ensures p > 0
  {
    if e == 0 then 1 else 256 * Power256(e - 1)
  }

  /** Lengths have to fit their eight bytes. */
  ghost predicate Sendable(bs: seq<Byte>) {
    |bs| < Power256(LENGTH)
  }

  lemma {:induction false} NumberLittle(n: nat, width: nat)
    requires n < Power256(width)
    ensures Number(Little(n, width)) == n
  {
    if width > 0 {
      NumberLittle(n / 256, width - 1);
      assert Little(n, width)[1..] == Little(n / 256, width - 1);
    }
  }

  function Frame(bs: seq<Byte>): seq<Byte> {
    [FLAG] + Little(|bs|, LENGTH) + bs
  }

  function CommandFrame(c: Byte): seq<Byte> {
    [FLAG, c]
  }

  /** A length-prefixed text at the front of `u`, if it is there as a whole, and what follows it. */
  ghost function Unframed(u: seq<Byte>): Option<(seq<Byte>, seq<Byte>)> {
    if |u| < HEADER then None
    else
      var size := Number(u[1..HEADER]);
      if |u| - HEADER < size then None else Some((u[HEADER..HEADER + size], u[HEADER + size..]))
  }

  /** Frames delimit themselves, whatever follows them. */
  lemma UnframedFrame(bs: seq<Byte>, rest: seq<Byte>)
    requires Sendable(bs)
    ensures Unframed(Frame(bs) + rest) == Some((bs, rest))
  {
    var u := Frame(bs) + rest;
    NumberLittle(|bs|, LENGTH);
    assert u[1..HEADER] == Little(|bs|, LENGTH);
    assert u[HEADER..HEADER + |bs|] == bs;
    assert u[HEADER + |bs|..] == rest;
  }

  lemma FrameParts(bs: seq<Byte>, t: nat)
    requires HEADER <= t <= |Frame(bs)|
    ensures Frame(bs)[..t] == ([FLAG] + Little(|bs|, LENGTH)) + bs[..t - HEADER]
  {
  }

  /** No proper beginning of a frame is a frame. */
  lemma FrameCut(bs: seq<Byte>, t: nat)
    requires Sendable(bs) && t < |Frame(bs)|
    ensures Unframed(Frame(bs)[..t]) == None
    ensures t >= HEADER ==> Number(Frame(bs)[..t][1..HEADER]) == |bs| && Frame(bs)[..t][HEADER..] == bs[..t - HEADER]
  {
    if t >= HEADER {
      FrameParts(bs, t);
      NumberLittle(|bs|, LENGTH);
      var size, part := Little(|bs|, LENGTH), bs[..t - HEADER];
      assert (([FLAG] + size) + part)[1..HEADER] == size;
      assert (([FLAG] + size) + part)[HEADER..] == part;
    }
  }

  /** A command, the frame of a path and what follows them. */
  lemma CommandThenPath(c: Byte, p: Path, tail: seq<Byte>)
    requires Sendable(p)
    ensures var u := CommandFrame(c) + Frame(p) + tail;
            && |u| == 2 + |Frame(p)| + |tail| && u[1] == c && u[2..] == Frame(p) + tail
            && Unframed(u[2..]) == Some((p, tail))
  {
    var u := CommandFrame(c) + Frame(p) + tail;
    assert u[2..] == Frame(p) + tail;
    UnframedFrame(p, tail);
  }

  lemma TakeConcat(e: seq<Byte>, es: seq<Byte>, k: nat)
    requires k <= |e| + |es|
    ensures (e + es)[..k] == if k < |e| then e[..k] else e + es[..k - |e|]
  {
  }

  // ---------- Receiving, as functions of the bytes that arrive ----------

  /** What is left of the stream, and whether all that was expected has arrived. */
  datatype PathReceipt = PathReceipt(ok: bool, path: Path, rest: seq<Byte>)

  ghost function PathFrom(path: Path, u: seq<Byte>): PathReceipt {
    match Unframed(u)
    case Some((p, rest)) => PathReceipt(true, p, rest)
    case None => PathReceipt(false, path, [])
  }

  /**
   `Stalled`: the stream has ended before the announced number of bytes, and the receiving loop
   goes on reading nothing for ever.
   */
  datatype Outcome = Complete | Refused | Stalled

  datatype FileReceipt = FileReceipt(outcome: Outcome, files: Files, rest: seq<Byte>)

  ghost function FileFrom(files: Files, path: Path, u: seq<Byte>): FileReceipt {
    if path == [] then FileReceipt(Refused, files, u)
    else if |u| < HEADER then FileReceipt(Refused, files[path := []], [])
    else
      match Unframed(u)
      case Some((content, rest)) => FileReceipt(Complete, files[path := content], rest)
      case None => FileReceipt(Stalled, files[path := u[HEADER..]], [])
  }

  /**
   File round trip: what a file's frame brings to the receiver is exactly the content of the file,
   whatever was there before, and nothing that follows the frame is touched.
   */
  lemma FileRoundTrip(files: Files, path: Path, content: seq<Byte>, rest: seq<Byte>)
    requires path != [] && Sendable(content)
    ensures FileFrom(files, path, Frame(content) + rest) == FileReceipt(Complete, files[path := content], rest)
    ensures forall t :: 0 <= t < |Frame(content)| ==> FileFrom(files, path, Frame(content)[..t]).outcome != Complete
  {
    UnframedFrame(content, rest);
    forall t | 0 <= t < |Frame(content)|
      ensures FileFrom(files, path, Frame(content)[..t]).outcome != Complete
    {
      FrameCut(content, t);
    }
  }

  /** What the beginning of a file's frame brings, before its end and before the end of its header. */
  lemma CutFile(files: Files, path: Path, content: seq<Byte>, got: nat)
    requires Sendable(content) && path != [] && got < |Frame(content)|
    ensures FileFrom(files, path, Frame(content)[..got])
         == if got < HEADER then FileReceipt(Refused, files[path := []], [])
            else FileReceipt(Stalled, files[path := content[..got - HEADER]], [])
  {
    FrameCut(content, got);
  }

  lemma WholeContent(u: seq<Byte>, content: seq<Byte>, rest: seq<Byte>)
    requires |u| >= HEADER && u[HEADER..] == content + rest && |content| == Number(u[1..HEADER])
    ensures Unframed(u) == Some((content, rest))
  {
    assert u[HEADER..HEADER + |content|] == content;
    assert u[HEADER + |content|..] == u[HEADER..][|content|..] == rest;
  }

  lemma ShortContent(u: seq<Byte>, content: seq<Byte>, rest: seq<Byte>)
    requires |u| >= HEADER && u[HEADER..] == content + rest && rest == [] && |content| < Number(u[1..HEADER])
    ensures Unframed(u) == None && content == u[HEADER..]
  {
  }

  // ---------- The exchange ----------

  /** The files below the working directory. A file opens for writing under every non-empty path. */
  class FileSystem {
    var files: Files

    constructor (files: Files)
      ensures this.files == files
    {
      this.files := files;
    }
  }

  /** What reading a file from `position` on yields: a full packet, or the shorter rest. */
  function Packet(content: seq<Byte>, position: nat): (packet: seq<Byte>)
    requires position <= |content|
    ensures position + |packet| <= |content| && content[..position + |packet|] == content[..position] + packet
    ensures if |packet| < PACKET_SIZE then position + |packet| == |content| else |packet| == PACKET_SIZE
  {
    if |content| - position < PACKET_SIZE then content[position..] else content[position..position + PACKET_SIZE]
  }

  class FileExchange {
    const stream: SocketBuffer
    const disk: FileSystem
    var path: Path

    /** The stream works. What is unread is safe from writes while everything received has been read. */
    ghost predicate Ready()
      reads this, stream, stream.socket
    {
      stream.Good() && !stream.socket.broken
    }

    ghost function Unread(): seq<Byte>
      requires Ready()
      reads this, stream, stream.socket, stream.buffer
    {
      stream.View().Unread()
    }

    ghost function Written(): seq<Byte>
      requires Ready()
      reads this, stream, stream.socket, stream.buffer
    {
      stream.View().Written()
    }

    constructor (stream: SocketBuffer, disk: FileSystem)
      ensures this.stream == stream && this.disk == disk && path == []
    {
      this.stream, this.disk, path := stream, disk, [];
    }

    method SetPath(path: Path)
      modifies `path
      ensures this.path == path
    {
      this.path := path;
    }

    method Flush()
      requires Ready()
      modifies stream`ppos, stream.socket`wire
      ensures Ready() && Written() == old(Written()) && Unread() == old(Unread())
      ensures stream.Outgoing() == Outlet(Written(), [])
      ensures stream.gpos == old(stream.gpos) && stream.gend == old(stream.gend)
    {
      FlushedWritten(stream.View());
      var ok := stream.Sync();
    }

    method SendCommand(command: Byte)
      requires Ready()
      modifies stream`ppos, stream.buffer, stream.socket`wire
      ensures Ready() && Written() == old(Written()) + CommandFrame(command)
      ensures stream.Outgoing() == Appended(old(stream.Outgoing()), CommandFrame(command))
      ensures stream.gpos == stream.gend ==> Unread() == old(Unread())
    {
      stream.Write(CommandFrame(command));
    }

    /** `None`: the stream has ended before the command. */
    method ReceiveCommand() returns (command: Option<Byte>)
      requires Ready()
      modifies stream, stream.buffer, stream.socket`wire, stream.socket`incoming
      ensures Ready() && Written() == old(Written())
      ensures |old(Unread())| < 2 ==> command == None && Unread() == []
      ensures |old(Unread())| >= 2 ==> command == Some(old(Unread())[1]) && Unread() == old(Unread())[2..]
    {
      var flag := stream.Read(1);
      if |flag| < 1 {
        return None;
      }
      var code := stream.Read(1);
      if |code| < 1 {
        return None;
      }
      return Some(code[0]);
    }

    /** The length of the message to come, if all of its header arrives. */
    method ReceiveSize() returns (size: Option<nat>)
      requires Ready()
      modifies stream, stream.buffer, stream.socket`wire, stream.socket`incoming
      ensures Ready() && Written() == old(Written())
      ensures |old(Unread())| < HEADER ==> size == None && Unread() == []
      ensures |old(Unread())| >= HEADER ==>
                size == Some(Number(old(Unread())[1..HEADER])) && Unread() == old(Unread())[HEADER..]
    {
      ghost var u := Unread();
      var flag := stream.Read(1);
      if |flag| < 1 {
        return None;
      }
      ghost var v := Unread();
      assert v == u[1..];
      var bytes := stream.Read(LENGTH);
      if |bytes| < LENGTH {
        return None;
      }
      assert bytes == v[..LENGTH] == u[1..HEADER];
      assert Unread() == v[LENGTH..] == u[HEADER..];
      return Some(Number(bytes));
    }

    method SendPath()
      requires Ready()
      modifies stream`ppos, stream.buffer, stream.socket`wire
      ensures Ready() && Written() == old(Written()) + Frame(path)
      ensures stream.Outgoing() == Appended(old(stream.Outgoing()), Frame(path))
      ensures stream.gpos == stream.gend ==> Unread() == old(Unread())
    {
      stream.Write(Frame(path));
    }

    /** Leaves the previous path in place when the new one does not arrive as a whole. */
    method ReceivePath() returns (ok: bool)
      requires Ready()
      modifies `path, stream, stream.buffer, stream.socket`wire, stream.socket`incoming
      ensures Ready() && Written() == old(Written())
      ensures PathReceipt(ok, path, Unread()) == PathFrom(old(path), old(Unread()))
    {
      ghost var u := Unread();
      var size := ReceiveSize();
      if size.None? {
        return false;
      }
      ghost var v := Unread();
      var text := stream.Read(size.value);
      assert v == text + Unread();
      if |text| < size.value {
        return false;
      }
      assert text == u[HEADER..HEADER + size.value];
      assert Unread() == u[HEADER + size.value..];
      SetPath(text);
      return true;
    }

    /**
     Sends the file at `path`: its size, and then its content packet by packet until a packet
     comes out short, which may be an empty one.
     */
    method Send() returns (ok: bool)
      requires Ready()
      modifies stream`ppos, stream.buffer, stream.socket`wire
      ensures Ready() && (stream.gpos == stream.gend ==> Unread() == old(Unread()))
      ensures ok == (path in disk.files)
      ensures Written() == old(Written()) + if ok then Frame(disk.files[path]) else []
      ensures stream.Outgoing() == if ok then Appended(old(stream.Outgoing()), Frame(disk.files[path])) else old(stream.Outgoing())
    {
      if path !in disk.files {
        return false;
      }
      var content := disk.files[path];
      ghost var head := [FLAG] + Little(|content|, LENGTH);
      stream.Write([FLAG] + Little(|content|, LENGTH));
      SendContent(content);
      AppendAssociates(old(Written()), head, content);
      AppendedTwice(old(stream.Outgoing()), head, content);
      return true;
    }

    /** Sends `content` in packets. */
    method SendContent(content: seq<Byte>)
      requires Ready()
      modifies stream`ppos, stream.buffer, stream.socket`wire
      ensures Ready() && Written() == old(Written()) + content
      ensures stream.Outgoing() == Appended(old(stream.Outgoing()), content)
      ensures stream.gpos == stream.gend ==> Unread() == old(Unread())
    {
      ghost var written, unread, done, out := Written(), Unread(), [], stream.Outgoing();
      AppendedNothing(out);
      var position: nat, eof := 0, false;
      while !eof
        invariant Ready() && (stream.gpos == stream.gend ==> Unread() == unread)
        invariant Written() == written + done && stream.Outgoing() == Appended(out, done)
        invariant position <= |content| && done == content[..position] && (eof ==> position == |content|)
        decreases !eof, |content| - position
      {
        var packet := Packet(content, position);
        eof := |packet| < PACKET_SIZE;
        stream.Write(packet);
        AppendAssociates(written, done, packet);
        AppendedTwice(out, done, packet);
        done := done + packet;
        position := position + |packet|;
      }
      assert done == content;
    }

    /**
     Receives the file at `path`, which is emptied before anything is known about its new
     content, in packets of whatever size the stream yields.
     */
    method Receive() returns (outcome: Outcome)
      requires Ready()
      modifies disk, stream, stream.buffer, stream.socket`wire, stream.socket`incoming
      ensures Ready() && Written() == old(Written())
      ensures FileReceipt(outcome, disk.files, Unread()) == FileFrom(old(disk.files), path, old(Unread()))
      ensures path == [] ==> outcome == Refused && disk.files == old(disk.files) && Unread() == old(Unread())
    {
      ghost var u := Unread();
      if path == [] {
        return Refused;
      }
      disk.files := disk.files[path := []];
      var size := ReceiveSize();
      if size.None? {
        return Refused;
      }
      var complete := ReceiveContent(size.value);
      if complete {
        WholeContent(u, disk.files[path], Unread());
        return Complete;
      }
      ShortContent(u, disk.files[path], Unread());
      return Stalled;
    }

    /** Appends `size` bytes to the file at `path`, or all there are, in packets. */
    method ReceiveContent(size: nat) returns (complete: bool)
      requires Ready() && path in disk.files && disk.files[path] == []
      modifies disk, stream, stream.buffer, stream.socket`wire, stream.socket`incoming
      ensures Ready() && Written() == old(Written())
      ensures path in disk.files && disk.files == old(disk.files)[path := disk.files[path]]
      ensures old(Unread()) == disk.files[path] + Unread()
      ensures if complete then |disk.files[path]| == size else |disk.files[path]| < size && Unread() == []
    {
      var remaining: nat := size;
      ghost var u, files, content, rest := Unread(), disk.files, [], Unread();
      while remaining != 0
        invariant Ready() && Written() == old(Written()) && rest == Unread()
        invariant disk.files == files[path := content]
        invariant u == content + rest && |content| + remaining == size
        decreases remaining
      {
        var wanted: nat := if remaining < PACKET_SIZE then remaining else PACKET_SIZE;
        var packet := stream.Read(wanted);
        rest := Unread();
        if packet == [] {
          return false;
        }
        AppendAssociates(content, packet, rest);
        content := content + packet;
        disk.files := disk.files[path := disk.files[path] + packet];
        remaining := remaining - |packet|;
      }
      return true;
    }
  }
}
