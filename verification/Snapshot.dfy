/**
 A device that connects receives all files of its user before anything else: the server lists
 the directory and sends it file by file, and the client starts from an empty directory.
 */
module Snapshot {
  import opened Wrappers
  import opened SocketStream
  import opened Protocol

  /** What the server sends for the listed names, and whether it gets to the end of the list. */
  ghost function Sent(files: Files, names: seq<Path>): (r: (bool, seq<Byte>))
    ensures r.0 <==> forall k :: 0 <= k < |names| ==> names[k] in files
  {
    if names == [] then (true, CommandFrame(EXIT))
    else
      var head := CommandFrame(SUCCESS) + Frame(names[0]);
      if names[0] !in files then (false, head)
      else
        var r := Sent(files, names[1..]);
        (r.0, (head + Frame(files[names[0]])) + r.1)
  }

  class ClientHandler {
    const exchange: FileExchange

    ghost predicate Ready()
      reads this, exchange, exchange.stream, exchange.stream.socket
    {
      exchange.Ready() && exchange.stream.gpos == exchange.stream.gend
    }

    constructor (exchange: FileExchange)
      ensures this.exchange == exchange
    {
      this.exchange := exchange;
    }

    /** Sends one listed file; of one that is gone only the command and the path are written. */
    method SendOne(name: Path) returns (ok: bool)
      requires Ready()
      modifies exchange`path, exchange.stream`ppos, exchange.stream.buffer, exchange.stream.socket`wire
      ensures Ready() && exchange.Unread() == old(exchange.Unread()) && ok == (name in exchange.disk.files)
      ensures var message := CommandFrame(SUCCESS) + Frame(name) + if ok then Frame(exchange.disk.files[name]) else [];
              && exchange.Written() == old(exchange.Written()) + message
              && exchange.stream.Outgoing() == Appended(old(exchange.stream.Outgoing()), message)
    {
      ghost var w0, o0 := exchange.Written(), exchange.stream.Outgoing();
      ghost var head := CommandFrame(SUCCESS) + Frame(name);
      AppendAssociates(w0, CommandFrame(SUCCESS), Frame(name));
      AppendedTwice(o0, CommandFrame(SUCCESS), Frame(name));
      exchange.SendCommand(SUCCESS);
      exchange.SetPath(name);
      exchange.SendPath();
      ok := exchange.Send();
      if ok {
        AppendAssociates(w0, head, Frame(exchange.disk.files[name]));
        AppendedTwice(o0, head, Frame(exchange.disk.files[name]));
      } else {
        assert head + [] == head;
      }
    }

    /** Sends the files called `names`, the directory as it was listed. Nothing is flushed. */
    method GetSyncDir(names: seq<Path>) returns (ok: bool)
      requires Ready()
      modifies exchange`path, exchange.stream`ppos, exchange.stream.buffer, exchange.stream.socket`wire
      ensures Ready() && exchange.Unread() == old(exchange.Unread())
      ensures ok == Sent(exchange.disk.files, names).0
      ensures exchange.Written() == old(exchange.Written()) + Sent(exchange.disk.files, names).1
      ensures exchange.stream.Outgoing() == Appended(old(exchange.stream.Outgoing()), Sent(exchange.disk.files, names).1)
    {
      ghost var files, w0, o0, done := exchange.disk.files, exchange.Written(), exchange.stream.Outgoing(), [];
      AppendedNothing(o0);
      SentBegins(files, names);
      for i := 0 to |names|
        invariant Ready() && exchange.Unread() == old(exchange.Unread())
        invariant exchange.Written() == w0 + done && exchange.stream.Outgoing() == Appended(o0, done)
        invariant SentSoFar(files, names, i, done)
      {
        SentOneMore(files, names, i, done);
        ghost var message := CommandFrame(SUCCESS) + Frame(names[i]) + if names[i] in files then Frame(files[names[i]]) else [];
        AppendAssociates(w0, done, message);
        AppendedTwice(o0, done, message);
        ok := SendOne(names[i]);
        done := done + message;
        if !ok {
          return false;
        }
      }
      SentAll(files, names, done);
      AppendAssociates(w0, done, CommandFrame(EXIT));
      AppendedTwice(o0, done, CommandFrame(EXIT));
      exchange.SendCommand(EXIT);
      return true;
    }
  }

  /** `done` is what is sent of the first `i` names, which are all there. */
  ghost predicate SentSoFar(files: Files, names: seq<Path>, i: nat, done: seq<Byte>)
    requires i <= |names|
  {
    Sent(files, names) == (Sent(files, names[i..]).0, done + Sent(files, names[i..]).1)
  }

  lemma SentBegins(files: Files, names: seq<Path>)
    ensures SentSoFar(files, names, 0, [])
  {
    assert names[0..] == names && [] + Sent(files, names).1 == Sent(files, names).1;
  }

  lemma SentOneMore(files: Files, names: seq<Path>, i: nat, done: seq<Byte>)
    requires i < |names| && SentSoFar(files, names, i, done)
    ensures var message := CommandFrame(SUCCESS) + Frame(names[i]) + if names[i] in files then Frame(files[names[i]]) else [];
            if names[i] in files then SentSoFar(files, names, i + 1, done + message)
            else Sent(files, names) == (false, done + message)
  {
    assert names[i..][1..] == names[i + 1..];
    SentFirst(files, names[i..]);
    if names[i] in files {
      AppendAssociates(done, CommandFrame(SUCCESS) + Frame(names[i]) + Frame(files[names[i]]), Sent(files, names[i + 1..]).1);
    } else {
      assert CommandFrame(SUCCESS) + Frame(names[i]) + [] == CommandFrame(SUCCESS) + Frame(names[i]);
    }
  }

  lemma SentAll(files: Files, names: seq<Path>, done: seq<Byte>)
    requires SentSoFar(files, names, |names|, done)
    ensures Sent(files, names) == (true, done + CommandFrame(EXIT))
  {
    assert names[|names|..] == [];
  }

  datatype Synced = Synced(ok: bool, stalled: bool, files: Files, path: Path, rest: seq<Byte>)

  /** The client's loop, as a function of the bytes that arrive. */
  ghost function Sync(files: Files, path: Path, u: seq<Byte>): Synced
    decreases |u|
  {
    if |u| < 2 then Synced(false, false, files, path, [])
    else if u[1] == SUCCESS then
      var p := PathFrom(path, u[2..]);
      if !p.ok then Synced(false, false, files, path, [])
      else
        var f := FileFrom(files, p.path, p.rest);
        match f.outcome
        case Complete => Sync(f.files, p.path, f.rest)
        case Refused => Synced(false, false, f.files, p.path, f.rest)
        case Stalled => Synced(false, true, f.files, p.path, f.rest)
    else Synced(u[1] == EXIT, false, files, path, u[2..])
  }

  /** One file arrives after its command: the loop goes on exactly if all of it does. */
  lemma SyncNext(files: Files, path: Path, u: seq<Byte>, p: PathReceipt, f: FileReceipt)
    requires |u| >= 2 && u[1] == SUCCESS && p == PathFrom(path, u[2..]) && f == FileFrom(files, p.path, p.rest)
    ensures Sync(files, path, u) ==
              if !p.ok then Synced(false, false, files, path, [])
              else if f.outcome == Complete then Sync(f.files, p.path, f.rest)
              else Synced(false, f.outcome.Stalled?, f.files, p.path, f.rest)
  {
  }

  class Client {
    const exchange: FileExchange

    constructor (exchange: FileExchange)
      ensures this.exchange == exchange
    {
      this.exchange := exchange;
    }

    /** Receives one file after its command, if all of it arrives. */
    method ReceiveOne() returns (received: bool, outcome: Outcome)
      requires exchange.Ready()
      modifies exchange`path, exchange.disk, exchange.stream, exchange.stream.buffer
      modifies exchange.stream.socket`wire, exchange.stream.socket`incoming
      ensures exchange.Ready() && exchange.Written() == old(exchange.Written())
      ensures var p := PathFrom(old(exchange.path), old(exchange.Unread()));
              && received == p.ok && exchange.path == p.path
              && (!received ==> exchange.disk.files == old(exchange.disk.files) && exchange.Unread() == [])
              && (received ==>
                    FileReceipt(outcome, exchange.disk.files, exchange.Unread())
                    == FileFrom(old(exchange.disk.files), p.path, p.rest))
    {
      received := exchange.ReceivePath();
      if !received {
        return false, Refused;
      }
      outcome := exchange.Receive();
    }

    /** Makes the local directory a copy of the server's. */
    method GetSyncDir() returns (ok: bool, stalled: bool)
      requires exchange.Ready()
      modifies exchange`path, exchange.disk, exchange.stream, exchange.stream.buffer
      modifies exchange.stream.socket`wire, exchange.stream.socket`incoming
      ensures exchange.Ready() && exchange.Written() == old(exchange.Written())
      ensures Synced(ok, stalled, exchange.disk.files, exchange.path, exchange.Unread())
           == Sync(map[], old(exchange.path), old(exchange.Unread()))
    {
      exchange.disk.files := map[];
      ghost var goal := Sync(map[], exchange.path, exchange.Unread());
      while true
        invariant exchange.Ready() && exchange.Written() == old(exchange.Written())
        invariant goal == Sync(exchange.disk.files, exchange.path, exchange.Unread())
        decreases |exchange.Unread()|
      {
        ghost var files, path, u := exchange.disk.files, exchange.path, exchange.Unread();
        var command := exchange.ReceiveCommand();
        if command == Some(SUCCESS) {
          ghost var p := PathFrom(path, u[2..]);
          SyncNext(files, path, u, p, FileFrom(files, p.path, p.rest));
          var received, outcome := ReceiveOne();
          if !received {
            return false, false;
          }
          if outcome != Complete {
            return false, outcome.Stalled?;
          }
        } else if command == Some(EXIT) {
          return true, false;
        } else {
          return false, false;
        }
      }
    }
  }

  ghost predicate SendableFiles(files: Files) {
    forall p :: p in files ==> p != [] && Sendable(p) && Sendable(files[p])
  }

  lemma SyncFile(files: Files, path: Path, u: seq<Byte>, p: Path, r: seq<Byte>, content: seq<Byte>, rest: seq<Byte>)
    requires |u| >= 2 && u[1] == SUCCESS && p != []
    requires Unframed(u[2..]) == Some((p, r)) && Unframed(r) == Some((content, rest))
    ensures Sync(files, path, u) == Sync(files[p := content], p, rest)
  {
  }

  lemma SyncOne(files: Files, path: Path, p: Path, content: seq<Byte>, rest: seq<Byte>)
    requires p != [] && Sendable(p) && Sendable(content)
    ensures Sync(files, path, CommandFrame(SUCCESS) + Frame(p) + Frame(content) + rest) == Sync(files[p := content], p, rest)
  {
    var tail := Frame(content) + rest;
    CommandThenPath(SUCCESS, p, tail);
    UnframedFrame(content, rest);
    AppendAssociates(CommandFrame(SUCCESS) + Frame(p), Frame(content), rest);
    SyncFile(files, path, CommandFrame(SUCCESS) + Frame(p) + tail, p, tail, content, rest);
  }

  ghost function Picked(files: Files, names: seq<Path>): Files {
    map p | p in files && p in names :: files[p]
  }

  lemma {:induction false} SyncMany(files: Files, names: seq<Path>, local: Files, path: Path, rest: seq<Byte>)
    requires SendableFiles(files) && forall k :: 0 <= k < |names| ==> names[k] in files
    ensures var s := Sync(local, path, Sent(files, names).1 + rest);
            && s.ok && !s.stalled && s.rest == rest
            && s.files == local + Picked(files, names)
    decreases |names|
  {
    if names == [] {
      assert (CommandFrame(EXIT) + rest)[2..] == rest;
      assert Picked(files, names) == map[];
    } else {
      var p, r := names[0], Sent(files, names[1..]).1;
      SyncOne(local, path, p, files[p], r + rest);
      AppendAssociates(CommandFrame(SUCCESS) + Frame(p) + Frame(files[p]), r, rest);
      SyncMany(files, names[1..], local[p := files[p]], p, rest);
      OverlayOne(files, names, local);
    }
  }

  lemma OverlayOne(files: Files, names: seq<Path>, local: Files)
    requires names != [] && forall k :: 0 <= k < |names| ==> names[k] in files
    ensures local + Picked(files, names) == local[names[0] := files[names[0]]] + Picked(files, names[1..])
  {
    assert forall q :: q in names <==> q == names[0] || q in names[1..];
  }

  /**
   Snapshot round trip. Whatever the client had, and in whatever order the server lists its
   directory, the client ends with exactly the files of the server, and the loop stops right
   after the closing message, leaving what follows on the stream.
   */
  lemma SnapshotRoundTrip(files: Files, names: seq<Path>, path: Path, rest: seq<Byte>)
    requires SendableFiles(files) && forall p :: p in names <==> p in files
    ensures Sent(files, names).0
    ensures var s := Sync(map[], path, Sent(files, names).1 + rest);
            s.ok && !s.stalled && s.files == files && s.rest == rest
  {
    SyncMany(files, names, map[], path, rest);
    assert Picked(files, names) == files;
  }

  /** A command and a path with nothing after them: the file is emptied, and no content comes. */
  lemma SyncCutShort(files: Files, path: Path, p: Path)
    requires p != [] && Sendable(p)
    ensures Sync(files, path, CommandFrame(SUCCESS) + Frame(p)) == Synced(false, false, files[p := []], p, [])
  {
    CommandThenPath(SUCCESS, p, []);
    assert CommandFrame(SUCCESS) + Frame(p) + [] == CommandFrame(SUCCESS) + Frame(p);
  }

  lemma SentFirst(files: Files, names: seq<Path>)
    requires names != []
    ensures names[0] !in files ==> Sent(files, names) == (false, CommandFrame(SUCCESS) + Frame(names[0]))
    ensures names[0] in files ==>
              var rest := Sent(files, names[1..]);
              && Sent(files, names).0 == rest.0
              && Sent(files, names).1 == CommandFrame(SUCCESS) + Frame(names[0]) + Frame(files[names[0]]) + rest.1
  {
  }

  lemma PickedFirst(files: Files, names: seq<Path>, k: nat, local: Files)
    requires 0 < k <= |names| && forall i :: 0 <= i < k ==> names[i] in files
    ensures local + Picked(files, names[..k]) == local[names[0] := files[names[0]]] + Picked(files, names[1..][..k - 1])
  {
    assert names[..k][1..] == names[1..][..k - 1];
    OverlayOne(files, names[..k], local);
  }

  /**
   A listed file that is gone when its turn comes: the server stops there without the closing
   message, and the client has the files before it and an empty file in its place.
   */
  lemma {:induction false} SnapshotBrokenOff(files: Files, names: seq<Path>, k: nat, local: Files, path: Path)
    requires SendableFiles(files) && k < |names| && forall i :: 0 <= i < k ==> names[i] in files
    requires names[k] !in files && names[k] != [] && Sendable(names[k])
    ensures !Sent(files, names).0
    ensures Sync(local, path, Sent(files, names).1)
         == Synced(false, false, (local + Picked(files, names[..k]))[names[k] := []], names[k], [])
    decreases k
  {
    SentFirst(files, names);
    if k == 0 {
      SyncCutShort(local, path, names[0]);
      assert local + Picked(files, names[..0]) == local;
    } else {
      PickedFirst(files, names, k, local);
      SyncOne(local, path, names[0], files[names[0]], Sent(files, names[1..]).1);
      SnapshotBrokenOff(files, names[1..], k - 1, local[names[0] := files[names[0]]], names[0]);
    }
  }

  // ---------- A snapshot that ends in the middle ----------

  /** The content of a listed file, which is empty if it is gone. */
  ghost function ContentOf(files: Files, name: Path): seq<Byte> {
    if name in files then files[name] else []
  }

  /** The length of the message of one file. */
  ghost function MessageSize(files: Files, name: Path): nat {
    2 + |Frame(name)| + |Frame(ContentOf(files, name))|
  }

  /** How many whole files the first `k` bytes bring, and how many bytes they hold of the next message. */
  ghost function Cut(files: Files, names: seq<Path>, k: nat): (r: (nat, nat))
    requires k <= |Sent(files, names).1|
    ensures r.0 <= |names| && forall i :: 0 <= i < r.0 ==> names[i] in files
    ensures r.0 < |names| ==> r.1 < MessageSize(files, names[r.0])
  {
    if names == [] || names[0] !in files then (0, k)
    else
      var size := MessageSize(files, names[0]);
      if k < size then (0, k)
      else
        var r := Cut(files, names[1..], k - size);
        (r.0 + 1, r.1)
  }

  /**
   The client after the first `t` bytes of the message of one file. Until the path is complete nothing
   has happened; then the file is emptied, and filled with what there is of its content, on whose rest
   the client waits for ever.
   */
  ghost function TornSync(files: Files, path: Path, name: Path, content: seq<Byte>, t: nat): Synced
    requires t < 2 + |Frame(name)| + |Frame(content)|
  {
    if t < 2 + |Frame(name)| then Synced(false, false, files, path, [])
    else
      var got := t - 2 - |Frame(name)|;
      if got < HEADER then Synced(false, false, files[name := []], name, [])
      else Synced(false, true, files[name := content[..got - HEADER]], name, [])
  }

  lemma SyncTornPath(files: Files, path: Path, name: Path, content: seq<Byte>, t: nat)
    requires Sendable(name) && t < 2 + |Frame(name)|
    ensures Sync(files, path, (CommandFrame(SUCCESS) + Frame(name) + Frame(content))[..t])
         == Synced(false, false, files, path, [])
  {
    if t >= 2 {
      FrameCut(name, t - 2);
      var u := (CommandFrame(SUCCESS) + Frame(name) + Frame(content))[..t];
      assert u[2..] == Frame(name)[..t - 2];
      assert PathFrom(path, u[2..]) == PathReceipt(false, path, []);
    }
  }

  lemma SyncTornFile(files: Files, path: Path, name: Path, content: seq<Byte>, t: nat)
    requires name != [] && Sendable(name) && Sendable(content)
    requires 2 + |Frame(name)| <= t < 2 + |Frame(name)| + |Frame(content)|
    ensures Sync(files, path, (CommandFrame(SUCCESS) + Frame(name) + Frame(content))[..t])
         == TornSync(files, path, name, content, t)
  {
    var got := t - 2 - |Frame(name)|;
    var cut := Frame(content)[..got];
    TakeConcat(CommandFrame(SUCCESS) + Frame(name), Frame(content), t);
    CommandThenPath(SUCCESS, name, cut);
    CutFile(files, name, content, got);
    var u := CommandFrame(SUCCESS) + Frame(name) + cut;
    assert PathFrom(path, u[2..]) == PathReceipt(true, name, cut);
  }

  /** The client after the first `k` bytes of a snapshot. */
  ghost function CutSync(files: Files, names: seq<Path>, local: Files, path: Path, k: nat): Synced
    requires k <= |Sent(files, names).1|
  {
    SyncAfter(files, names, local, path, Cut(files, names, k).0, Cut(files, names, k).1)
  }

  /** The client after `j` whole files and `t` bytes of the next message. */
  ghost function SyncAfter(files: Files, names: seq<Path>, local: Files, path: Path, j: nat, t: nat): Synced
    requires j <= |names| && (j < |names| ==> t < MessageSize(files, names[j]))
  {
    var have, last := local + Picked(files, names[..j]), if j == 0 then path else names[j - 1];
    if j == |names| then Synced(false, false, have, last, [])
    else TornSync(have, last, names[j], ContentOf(files, names[j]), t)
  }

  ghost predicate SendableNames(names: seq<Path>) {
    forall i :: 0 <= i < |names| ==> names[i] != [] && Sendable(names[i])
  }

  /** Before the first whole file there is nothing but its beginning. */
  lemma CutAtFirst(files: Files, names: seq<Path>, local: Files, path: Path, k: nat)
    requires names != [] && k <= |Sent(files, names).1| && Cut(files, names, k).0 == 0
    ensures Cut(files, names, k).1 == k && CutSync(files, names, local, path, k)
         == TornSync(local, path, names[0], ContentOf(files, names[0]), k)
  {
    assert names[..0] == [] && local + Picked(files, []) == local;
  }

  lemma CutNext(files: Files, names: seq<Path>, k: nat)
    requires names != [] && names[0] in files
    requires MessageSize(files, names[0]) <= k <= |Sent(files, names).1|
    ensures var k1 := k - MessageSize(files, names[0]);
            && k1 <= |Sent(files, names[1..]).1|
            && Cut(files, names, k) == (Cut(files, names[1..], k1).0 + 1, Cut(files, names[1..], k1).1)
  {
    SentFirst(files, names);
  }

  /** After the first file the cut is one of the rest. */
  lemma CutLater(files: Files, names: seq<Path>, local: Files, path: Path, k: nat)
    requires names != [] && names[0] in files
    requires MessageSize(files, names[0]) <= k <= |Sent(files, names).1|
    ensures var k1 := k - MessageSize(files, names[0]);
            && k1 <= |Sent(files, names[1..]).1|
            && CutSync(files, names, local, path, k)
                 == CutSync(files, names[1..], local[names[0] := files[names[0]]], names[0], k1)
  {
    CutNext(files, names, k);
    var k1, r := k - MessageSize(files, names[0]), Cut(files, names, k);
    var head := local[names[0] := files[names[0]]];
    SyncAfterLater(files, names, local, path, r.0 - 1, r.1);
    assert CutSync(files, names[1..], head, names[0], k1) == SyncAfter(files, names[1..], head, names[0], r.0 - 1, r.1);
  }

  lemma SyncAfterLater(files: Files, names: seq<Path>, local: Files, path: Path, j: nat, t: nat)
    requires names != [] && j < |names| && forall i :: 0 <= i <= j ==> names[i] in files
    requires j + 1 < |names| ==> t < MessageSize(files, names[j + 1])
    ensures SyncAfter(files, names, local, path, j + 1, t)
         == SyncAfter(files, names[1..], local[names[0] := files[names[0]]], names[0], j, t)
  {
    PickedFirst(files, names, j + 1, local);
  }

  /** Of a file that is gone there is a beginning at most. */
  lemma SyncMissing(files: Files, path: Path, name: Path, t: nat)
    requires name != [] && Sendable(name) && t <= 2 + |Frame(name)|
    ensures Sync(files, path, (CommandFrame(SUCCESS) + Frame(name))[..t]) == TornSync(files, path, name, [], t)
  {
    var u := CommandFrame(SUCCESS) + Frame(name);
    if t == |u| {
      SyncCutShort(files, path, name);
      assert u[..t] == u;
    } else {
      SyncTornPath(files, path, name, [], t);
      assert (u + Frame([]))[..t] == u[..t];
    }
  }

  lemma SyncTornFirst(files: Files, names: seq<Path>, local: Files, path: Path, k: nat)
    requires names != [] && names[0] in files && names[0] != [] && Sendable(names[0]) && Sendable(files[names[0]])
    requires k < MessageSize(files, names[0]) && k <= |Sent(files, names).1|
    ensures Sync(local, path, Sent(files, names).1[..k]) == CutSync(files, names, local, path, k)
  {
    var name, content := names[0], files[names[0]];
    SentFirst(files, names);
    TakeConcat(CommandFrame(SUCCESS) + Frame(name) + Frame(content), Sent(files, names[1..]).1, k);
    CutAtFirst(files, names, local, path, k);
    if k < 2 + |Frame(name)| {
      SyncTornPath(local, path, name, content, k);
    } else {
      SyncTornFile(local, path, name, content, k);
    }
  }

  lemma SyncWholeFirst(files: Files, names: seq<Path>, local: Files, path: Path, k: nat)
    requires names != [] && names[0] in files && names[0] != [] && Sendable(names[0]) && Sendable(files[names[0]])
    requires MessageSize(files, names[0]) <= k <= |Sent(files, names).1|
    ensures var k1 := k - MessageSize(files, names[0]);
            && k1 <= |Sent(files, names[1..]).1|
            && Sync(local, path, Sent(files, names).1[..k])
                 == Sync(local[names[0] := files[names[0]]], names[0], Sent(files, names[1..]).1[..k1])
  {
    var name, content, rest := names[0], files[names[0]], Sent(files, names[1..]).1;
    SentFirst(files, names);
    TakeConcat(CommandFrame(SUCCESS) + Frame(name) + Frame(content), rest, k);
    SyncOne(local, path, name, content, rest[..k - MessageSize(files, name)]);
  }

  /**
   A snapshot that ends anywhere before its closing message, because the connection is lost or because
   a listed file is gone: the client reports a failure, or waits for ever if the end is within the
   content of a file. It has the whole files that have arrived and what there is of one more.
   */
  lemma {:induction false} SnapshotCut(files: Files, names: seq<Path>, local: Files, path: Path, k: nat)
    requires SendableFiles(files) && SendableNames(names) && k <= |Sent(files, names).1|
    requires Sent(files, names).0 ==> k < |Sent(files, names).1|
    ensures Sync(local, path, Sent(files, names).1[..k]) == CutSync(files, names, local, path, k)
    decreases |names|
  {
    if names == [] {
      assert local + Picked(files, []) == local;
    } else {
      var name := names[0];
      SentFirst(files, names);
      if name !in files {
        SyncMissing(local, path, name, k);
        CutAtFirst(files, names, local, path, k);
      } else if k < MessageSize(files, name) {
        SyncTornFirst(files, names, local, path, k);
      } else {
        var k1 := k - MessageSize(files, name);
        CutLater(files, names, local, path, k);
        SnapshotCut(files, names[1..], local[name := files[name]], name, k1);
        SyncWholeFirst(files, names, local, path, k);
      }
    }
  }

  /** The snapshot is taken for whole exactly if all of it has arrived. */
  lemma SnapshotWholeIff(files: Files, names: seq<Path>, path: Path, k: nat)
    requires SendableFiles(files) && (forall p :: p in names <==> p in files) && k <= |Sent(files, names).1|
    ensures Sync(map[], path, Sent(files, names).1[..k]).ok <==> k == |Sent(files, names).1|
  {
    if k < |Sent(files, names).1| {
      SnapshotCut(files, names, map[], path, k);
    } else {
      SnapshotRoundTrip(files, names, path, []);
      assert Sent(files, names).1[..k] == Sent(files, names).1 + [];
    }
  }

  /** The messages of the files, without the closing one. */
  ghost function FileMessages(files: Files, names: seq<Path>): seq<Byte>
    requires forall i :: 0 <= i < |names| ==> names[i] in files
  {
    if names == [] then []
    else CommandFrame(SUCCESS) + Frame(names[0]) + Frame(files[names[0]]) + FileMessages(files, names[1..])
  }

  lemma SyncFirst(files: Files, names: seq<Path>, local: Files, path: Path, tail: seq<Byte>)
    requires SendableFiles(files) && names != [] && forall i :: 0 <= i < |names| ==> names[i] in files
    ensures Sync(local, path, FileMessages(files, names) + tail)
         == Sync(local[names[0] := files[names[0]]], names[0], FileMessages(files, names[1..]) + tail)
  {
    var name, content := names[0], files[names[0]];
    AppendAssociates(CommandFrame(SUCCESS) + Frame(name) + Frame(content), FileMessages(files, names[1..]), tail);
    SyncOne(local, path, name, content, FileMessages(files, names[1..]) + tail);
  }

  lemma {:induction false} SyncFiles(files: Files, names: seq<Path>, local: Files, path: Path, tail: seq<Byte>)
    requires SendableFiles(files) && forall i :: 0 <= i < |names| ==> names[i] in files
    ensures Sync(local, path, FileMessages(files, names) + tail)
         == Sync(local + Picked(files, names), if names == [] then path else names[|names| - 1], tail)
    decreases |names|
  {
    if names == [] {
      assert [] + tail == tail && local + Picked(files, []) == local;
    } else {
      SyncFirst(files, names, local, path, tail);
      SyncFiles(files, names[1..], local[names[0] := files[names[0]]], names[0], tail);
      OverlayOne(files, names, local);
    }
  }

  /** Any command but the one for a file ends the loop after the files, and only the closing one with success. */
  lemma ClosedIff(files: Files, names: seq<Path>, local: Files, path: Path, c: Byte, rest: seq<Byte>)
    requires SendableFiles(files) && (forall i :: 0 <= i < |names| ==> names[i] in files) && c != SUCCESS
    ensures Sync(local, path, FileMessages(files, names) + (CommandFrame(c) + rest))
         == Synced(c == EXIT, false, local + Picked(files, names), if names == [] then path else names[|names| - 1], rest)
  {
    SyncFiles(files, names, local, path, CommandFrame(c) + rest);
    assert (CommandFrame(c) + rest)[2..] == rest;
  }
}
