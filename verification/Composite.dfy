/**
 The devices of one user and the backups, as the primary keeps them: devices join and leave the
 list, and every change is sent to all of them but the device that it came from. For each stream
 the bytes sent on it so far are kept, and what waits in its put area.
 */
module Composite {
  import opened Wrappers
  import opened SocketStream
  import opened Protocol
  import opened Replica
  import Snapshot
  import Replication

  /** A connected device: what it is sent on joining, and the stream of changes from other devices. */
  datatype Device = Device(id: nat, payload: seq<Byte>, sync: Outlet)

  datatype EmplaceError = FullList

  const DEVICE_LIMIT: nat := 2

  /** What is written of a change, and whether it is whole, and then flushed: the file may be gone by now. */
  datatype Writing = Writing(whole: bool, bytes: seq<Byte>)

  ghost function Change(files: Files, job: Replication.Job): Writing {
    match job
    case Uploading(path) =>
      if path in files then Writing(true, Encode(Upload(path, files[path]))) else Writing(false, Part(path))
    case Deleting(path) => Writing(true, Encode(Delete(path)))
  }

  /** A stream on which a message has been written: one that is not whole stays in the put area if it fits. */
  ghost function After(stream: Outlet, message: Writing): Outlet {
    if message.whole then Outlet(stream.wire + stream.put + message.bytes, []) else Appended(stream, message.bytes)
  }

  /** The devices after the first `n` of them have been sent `message`, except the origin. */
  ghost function DevicesSent(list: seq<Device>, origin: nat, n: nat, message: Writing): (sent: seq<Device>)
    ensures |sent| == |list|
  {
    seq(|list|, i requires 0 <= i < |list| =>
      if i < n && list[i].id != origin then list[i].(sync := After(list[i].sync, message)) else list[i])
  }

  ghost function BackupsSent(backups: seq<Outlet>, n: nat, message: Writing): (sent: seq<Outlet>)
    ensures |sent| == |backups|
  {
    seq(|backups|, i requires 0 <= i < |backups| => if i < n then After(backups[i], message) else backups[i])
  }

  lemma DevicesSentNone(list: seq<Device>, origin: nat, message: Writing)
    ensures DevicesSent(list, origin, 0, message) == list
  {
  }

  lemma DevicesSentOne(list: seq<Device>, origin: nat, i: nat, message: Writing)
    requires i < |list|
    ensures var sent := DevicesSent(list, origin, i, message);
            && sent[i] == list[i]
            && DevicesSent(list, origin, i + 1, message) ==
                 if list[i].id != origin then sent[i := list[i].(sync := After(list[i].sync, message))] else sent
  {
  }

  lemma BackupsSentNone(backups: seq<Outlet>, message: Writing)
    ensures BackupsSent(backups, 0, message) == backups
  {
  }

  lemma BackupsSentOne(backups: seq<Outlet>, i: nat, message: Writing)
    requires i < |backups|
    ensures var sent := BackupsSent(backups, i, message);
            sent[i] == backups[i] && BackupsSent(backups, i + 1, message) == sent[i := After(backups[i], message)]
  {
  }

  /** The first device other than the origin, or the length of the list. */
  ghost function FirstOther(list: seq<Device>, origin: nat): (i: nat)
    ensures i <= |list| && (i < |list| ==> list[i].id != origin)
    ensures forall k :: 0 <= k < i ==> list[k].id == origin
  {
    if list == [] then 0 else if list[0].id != origin then 0 else 1 + FirstOther(list[1..], origin)
  }

  /** What a broadcast leaves behind, and whether it got to its end. */
  datatype Broadcast = Broadcast(ok: bool, list: seq<Device>, backups: seq<Outlet>)

  /**
   The devices come first, then the backups. When the file to send is gone, the first receiver is
   sent the beginning of a message and nobody else is told.
   */
  ghost function Broadcasted(files: Files, job: Replication.Job, origin: nat, list: seq<Device>, backups: seq<Outlet>): Broadcast {
    var message := Change(files, job);
    var first := FirstOther(list, origin);
    if message.whole then
      Broadcast(true, DevicesSent(list, origin, |list|, message), BackupsSent(backups, |backups|, message))
    else if first < |list| then
      Broadcast(false, DevicesSent(list, origin, first + 1, message), backups)
    else
      Broadcast(backups == [], DevicesSent(list, origin, |list|, message), BackupsSent(backups, 1, message))
  }

  ghost function Without(list: seq<Device>, id: nat): seq<Device> {
    if list == [] then []
    else if list[|list| - 1].id == id then Without(list[..|list| - 1], id)
    else Without(list[..|list| - 1], id) + [list[|list| - 1]]
  }

  lemma {:induction false} WithoutIff(list: seq<Device>, id: nat, d: Device)
    ensures d in Without(list, id) <==> d in list && d.id != id
  {
    if list != [] {
      var k := |list| - 1;
      WithoutIff(list[..k], id, d);
      assert list == list[..k] + [list[k]];
    }
  }

  lemma NothingBefore(bytes: seq<Byte>)
    ensures [] + bytes == bytes
  {
  }

  /** A stream on which and in whose put area there are already the given bytes. */
  method Resumed(outlet: Outlet) returns (stream: SocketBuffer)
    ensures fresh(stream) && fresh(stream.buffer) && fresh(stream.socket)
    ensures stream.Good() && !stream.socket.broken && stream.gpos == stream.gend && stream.Outgoing() == outlet
  {
    var socket := new Socket([]);
    socket.wire := outlet.wire;
    stream := new SocketBuffer(socket);
    forall i | 0 <= i < |outlet.put| {
      stream.buffer[i] := outlet.put[i];
    }
    stream.ppos := |outlet.put|;
    assert stream.buffer[..stream.ppos] == outlet.put;
  }

  method Exchange(disk: FileSystem, outlet: Outlet) returns (exchange: FileExchange)
    ensures fresh(exchange) && fresh(exchange.stream) && fresh(exchange.stream.buffer) && fresh(exchange.stream.socket)
    ensures exchange.disk == disk && exchange.Ready() && exchange.stream.gpos == exchange.stream.gend
    ensures exchange.stream.Outgoing() == outlet
  {
    var stream := Resumed(outlet);
    exchange := new FileExchange(stream, disk);
  }

  class ClientComposite {
    const disk: FileSystem
    var list: seq<Device>
    var backups: seq<Outlet>

    constructor (disk: FileSystem, backups: seq<Outlet>)
      ensures this.disk == disk && list == [] && this.backups == backups
    {
      this.disk, list, this.backups := disk, [], backups;
    }

    /** At most two devices are connected, each under its own id. */
    ghost predicate Valid()
      reads this
    {
      |list| <= DEVICE_LIMIT && forall i, j :: 0 <= i < j < |list| ==> list[i].id != list[j].id
    }

    /** Sends the directory on a new stream, which is flushed when the device's handler begins to read from it. */
    method SendDirectory(names: seq<Path>) returns (payload: seq<Byte>)
      ensures payload == Snapshot.Sent(disk.files, names).1
    {
      var exchange := Exchange(disk, Outlet([], []));
      var handler := new Snapshot.ClientHandler(exchange);
      assert exchange.Written() == [];
      var ok := handler.GetSyncDir(names);
      exchange.Flush();
      NothingBefore(Snapshot.Sent(disk.files, names).1);
      payload := exchange.stream.socket.wire;
    }

    /** A new device is sent the directory, listed as `names`, and is put at the end of the list. */
    method Emplace(id: nat, names: seq<Path>) returns (r: Result<nat, EmplaceError>)
      requires Valid() && forall i :: 0 <= i < |list| ==> list[i].id != id
      modifies `list
      ensures Valid()
      ensures |old(list)| >= DEVICE_LIMIT ==> r == Failure(FullList) && list == old(list)
      ensures |old(list)| < DEVICE_LIMIT ==>
                r == Success(id) && list == old(list) + [Device(id, Snapshot.Sent(disk.files, names).1, Outlet([], []))]
    {
      if |list| >= DEVICE_LIMIT {
        return Failure(FullList);
      }
      var payload := SendDirectory(names);
      list := list + [Device(id, payload, Outlet([], []))];
      return Success(id);
    }

    method Remove(id: nat)
      requires Valid()
      modifies `list
      ensures Valid() && list == Without(old(list), id)
    {
      var kept: seq<Device> := [];
      for i := 0 to |list|
        invariant list == old(list) && kept == Without(list[..i], id)
        invariant |kept| <= i
        invariant forall j, k :: 0 <= j < k < |kept| ==> kept[j].id != kept[k].id
      {
        assert list[..i + 1][..i] == list[..i];
        if list[i].id != id {
          forall j | 0 <= j < |kept| ensures kept[j].id != list[i].id {
            WithoutIff(list[..i], id, kept[j]);
          }
          kept := kept + [list[i]];
        }
      }
      assert list[..|list|] == list;
      list := kept;
    }

    /** Writes one change to the stream of one receiver, which is flushed only if all of the change is written. */
    method Send(job: Replication.Job, stream: Outlet) returns (ok: bool, sent: Outlet)
      ensures ok == Change(disk.files, job).whole && sent == After(stream, Change(disk.files, job))
    {
      var exchange := Exchange(disk, stream);
      var sender := new Sender(exchange);
      match job {
        case Uploading(path) => ok := sender.Upload(path);
        case Deleting(path) => ok := sender.Delete(path);
      }
      sent := Outlet(exchange.stream.socket.wire, exchange.stream.buffer[..exchange.stream.ppos]);
    }

    /** Tells the devices, up to the first one for which sending fails. */
    method TellDevices(job: Replication.Job, origin: nat) returns (ok: bool)
      modifies `list
      ensures var c := Change(disk.files, job);
              var first := FirstOther(old(list), origin);
              && ok == (c.whole || first == |old(list)|)
              && list == DevicesSent(old(list), origin, if ok then |old(list)| else first + 1, c)
    {
      ghost var l0, c, first := list, Change(disk.files, job), FirstOther(list, origin);
      DevicesSentNone(l0, origin, c);
      for i := 0 to |list|
        invariant list == DevicesSent(l0, origin, i, c)
        invariant !c.whole ==> i <= first
      {
        DevicesSentOne(l0, origin, i, c);
        if list[i].id != origin {
          var sent;
          ok, sent := Send(job, list[i].sync);
          list := list[i := list[i].(sync := sent)];
          if !ok {
            return false;
          }
        }
      }
      return true;
    }

    /** Tells the backups, up to the first one for which sending fails. */
    method TellBackups(job: Replication.Job) returns (ok: bool)
      modifies `backups
      ensures var c := Change(disk.files, job);
              && ok == (c.whole || old(backups) == [])
              && backups == BackupsSent(old(backups), if ok then |old(backups)| else 1, c)
    {
      ghost var b0, c := backups, Change(disk.files, job);
      BackupsSentNone(b0, c);
      for i := 0 to |backups|
        invariant backups == BackupsSent(b0, i, c)
        invariant !c.whole ==> i == 0
      {
        BackupsSentOne(b0, i, c);
        var sent;
        ok, sent := Send(job, backups[i]);
        backups := backups[i := sent];
        if !ok {
          return false;
        }
      }
      return true;
    }

    /** Tells every device but the origin and then every backup of a change. */
    method BroadcastCommand(job: Replication.Job, origin: nat) returns (ok: bool)
      modifies this
      ensures Broadcast(ok, list, backups) == Broadcasted(disk.files, job, origin, old(list), old(backups))
    {
      ok := TellDevices(job, origin);
      if !ok {
        return false;
      }
      ghost var b0 := backups;
      ok := TellBackups(job);
      if b0 == [] {
        assert BackupsSent(b0, 0, Change(disk.files, job)) == BackupsSent(b0, 1, Change(disk.files, job));
      }
    }

    /** A device uploads a file: it is stored, and if all of it has arrived everyone else is told. */
    method Upload(origin: nat, fe: FileExchange) returns (ok: bool, stalled: bool)
      requires fe.disk == disk && fe.Ready()
      modifies this, disk, fe`path, fe.stream, fe.stream.buffer, fe.stream.socket`wire, fe.stream.socket`incoming
      ensures fe.Ready()
      ensures var p := PathFrom(old(fe.path), old(fe.Unread()));
              fe.path == p.path &&
              if !p.ok then
                !ok && !stalled && disk.files == old(disk.files) && list == old(list) && backups == old(backups)
              else
                var f := FileFrom(old(disk.files), p.path, p.rest);
                && disk.files == f.files && stalled == f.outcome.Stalled?
                && Broadcast(ok, list, backups) ==
                     if f.outcome == Complete then
                       Broadcasted(f.files, Replication.Uploading(p.path), origin, old(list), old(backups))
                     else Broadcast(false, old(list), old(backups))
    {
      var received := fe.ReceivePath();
      if !received {
        return false, false;
      }
      var outcome := fe.Receive();
      if outcome != Complete {
        return false, outcome.Stalled?;
      }
      ok := BroadcastCommand(Replication.Uploading(fe.path), origin);
      stalled := false;
    }

    /** A device deletes a file. One that does not exist is not announced. */
    method Delete(origin: nat, fe: FileExchange) returns (ok: bool)
      requires fe.disk == disk && fe.Ready()
      modifies this, disk, fe`path, fe.stream, fe.stream.buffer, fe.stream.socket`wire, fe.stream.socket`incoming
      ensures fe.Ready()
      ensures var p := PathFrom(old(fe.path), old(fe.Unread()));
              fe.path == p.path &&
              if p.ok && p.path in old(disk.files) then
                && disk.files == old(disk.files) - {p.path}
                && Broadcast(ok, list, backups) ==
                     Broadcasted(disk.files, Replication.Deleting(p.path), origin, old(list), old(backups))
              else
                !ok && disk.files == old(disk.files) && list == old(list) && backups == old(backups)
    {
      var received := fe.ReceivePath();
      if !received {
        return false;
      }
      if fe.path !in disk.files {
        return false;
      }
      disk.files := disk.files - {fe.path};
      ok := BroadcastCommand(Replication.Deleting(fe.path), origin);
    }

    /**
     A change that the device's watch has noticed. Nothing is checked: if the path does not arrive,
     the change falls on the path of the message before, and the broadcast is made in any case.
     */
    method SyncFromClient(origin: nat, csfe: FileExchange, upload: bool) returns (ok: bool, stalled: bool)
      requires csfe.disk == disk && csfe.Ready()
      modifies this, disk, csfe`path, csfe.stream, csfe.stream.buffer
      modifies csfe.stream.socket`wire, csfe.stream.socket`incoming
      ensures csfe.Ready()
      ensures upload ==>
                var f := StoredFrom(old(disk.files), old(csfe.path), old(csfe.Unread()));
                && disk.files == f.files && csfe.path == f.path && stalled == f.outcome.Stalled?
                && Broadcast(ok, list, backups) ==
                     if stalled then Broadcast(false, old(list), old(backups))
                     else Broadcasted(f.files, Replication.Uploading(f.path), origin, old(list), old(backups))
      ensures !upload ==>
                var p := PathFrom(old(csfe.path), old(csfe.Unread()));
                && disk.files == old(disk.files) - {p.path} && csfe.path == p.path && !stalled
                && Broadcast(ok, list, backups) ==
                     Broadcasted(disk.files, Replication.Deleting(p.path), origin, old(list), old(backups))
    {
      var received := csfe.ReceivePath();
      stalled := false;
      if upload {
        var outcome := csfe.Receive();
        if outcome.Stalled? {
          return false, true;
        }
        ok := BroadcastCommand(Replication.Uploading(csfe.path), origin);
      } else {
        disk.files := disk.files - {csfe.path};
        ok := BroadcastCommand(Replication.Deleting(csfe.path), origin);
      }
    }
  }

  /** Two devices are taken on, and a third one is not. */
  method ThreeJoin(disk: FileSystem, backups: seq<Outlet>, ids: (nat, nat, nat), names: seq<Path>)
    returns (composite: ClientComposite, first: Result<nat, EmplaceError>, second: Result<nat, EmplaceError>,
             third: Result<nat, EmplaceError>)
    requires ids.0 != ids.1 && ids.1 != ids.2 && ids.0 != ids.2
    ensures first == Success(ids.0) && second == Success(ids.1) && third == Failure(FullList)
    ensures |composite.list| == 2 && composite.list[0].id == ids.0 && composite.list[1].id == ids.1
  {
    composite := new ClientComposite(disk, backups);
    first := composite.Emplace(ids.0, names);
    second := composite.Emplace(ids.1, names);
    third := composite.Emplace(ids.2, names);
  }
}
