/**
 The composite carries out the replication protocol: the bytes on its streams are those of the
 operations that the protocol's receivers were told of, and every operation of the composite takes
 the protocol's steps.
 */
module CompositeView {
  import opened Wrappers
  import opened SocketStream
  import opened Protocol
  import opened Replica
  import opened Replication
  import opened Composite
  import opened Joining
  import Snapshot

  /** The messages of a snapshot. One that was broken off ends with the path whose file did not come. */
  ghost function SnapshotBytes(ops: seq<Op>, whole: bool): seq<Byte> {
    if ops == [] then CommandFrame(EXIT)
    else
      var head := CommandFrame(SUCCESS) + Frame(ops[0].path);
      if |ops| == 1 && !whole then head
      else (head + if ops[0].Upload? then Frame(ops[0].content) else []) + SnapshotBytes(ops[1..], whole)
  }

  /**
   What has been sent is what the receiver was told after its snapshot, and nothing waits in the put
   area; or the stream is torn, and what was told before is followed by so much of the broken message and
   what comes after it as the protocol says is sent, with the rest of it in the put area. What comes on
   the stream of a device that waits for its snapshot is never read.
   */
  ghost predicate Carries(out: Outlet, x: Receiver) {
    && x.snapshot <= |x.told|
    && match x.stream
       case Open => out == Outlet(EncodeAll(x.told[x.snapshot..]), [])
       case Torn(at, _, _, sent) =>
         && x.snapshot <= at <= |x.told| && sent <= |x.stream.Tail()|
         && out.wire == EncodeAll(x.told[x.snapshot..at]) + x.stream.Tail()[..sent]
         && out.put == x.stream.Tail()[sent..]
       case Halted => true
       case Gone => false
  }

  ghost predicate CarriesDevice(d: Device, x: Receiver) {
    && x.device == Some(d.id) && Carries(d.sync, x)
    && d.payload == SnapshotBytes(x.told[..x.snapshot], !x.stream.Halted?)
  }

  ghost predicate CarriesBackup(out: Outlet, x: Receiver) {
    x.device == None && Carries(out, x)
  }

  /** Which receiver each listed device and each backup is. */
  datatype Places = Places(devices: seq<nat>, backups: seq<nat>)

  ghost predicate DevicesCarry(at: seq<nat>, list: seq<Device>, rs: seq<Receiver>) {
    && |at| == |list|
    && (forall i :: 0 <= i < |list| ==> at[i] < |rs| && CarriesDevice(list[i], rs[at[i]]))
    && (forall i, j :: 0 <= i < j < |list| ==> list[i].id != list[j].id)
  }

  ghost predicate BackupsCarry(at: seq<nat>, backups: seq<Outlet>, rs: seq<Receiver>) {
    && |at| == |backups|
    && (forall i :: 0 <= i < |backups| ==> at[i] < |rs| && CarriesBackup(backups[i], rs[at[i]]))
    && (forall i, j :: 0 <= i < j < |backups| ==> at[i] != at[j])
  }

  ghost predicate Covers(at: Places, rs: seq<Receiver>) {
    forall r :: 0 <= r < |rs| && !rs[r].stream.Gone? ==> r in at.devices || r in at.backups
  }

  /** The composite's list and backups are the receivers of the protocol that are there, one for one. */
  ghost predicate Represents(at: Places, list: seq<Device>, backups: seq<Outlet>, s: State) {
    && DevicesCarry(at.devices, list, s.receivers)
    && BackupsCarry(at.backups, backups, s.receivers)
    && Covers(at, s.receivers)
  }

  lemma {:induction false} EncodeAllAppend(ops: seq<Op>, op: Op)
    ensures EncodeAll(ops + [op]) == EncodeAll(ops) + Encode(op)
  {
    if ops == [] {
      assert ops + [op] == [op];
      assert EncodeAll([op]) == Encode(op) + EncodeAll([]);
    } else {
      assert (ops + [op])[1..] == ops[1..] + [op];
      EncodeAllAppend(ops[1..], op);
      AppendAssociates(Encode(ops[0]), EncodeAll(ops[1..]), Encode(op));
    }
  }

  // ---------- Broadcasts ----------

  /** A whole message, after which the stream is flushed. */
  ghost function Whole(op: Op): Writing {
    Writing(true, Encode(op))
  }

  lemma CarriesToldOpen(out: Outlet, x: Receiver, op: Op)
    requires Carries(out, x) && x.stream.Open?
    ensures Carries(After(out, Whole(op)), Told(x, op))
  {
    assert Told(x, op).told[x.snapshot..] == x.told[x.snapshot..] + [op];
    EncodeAllAppend(x.told[x.snapshot..], op);
    assert out.wire + [] == out.wire;
  }

  lemma CarriesToldTorn(out: Outlet, x: Receiver, op: Op)
    requires Carries(out, x) && x.stream.Torn?
    ensures Carries(After(out, Whole(op)), Told(x, op))
  {
    var y := Told(x, op);
    var Torn(at, path, rest, sent) := x.stream;
    var before, tail := EncodeAll(x.told[x.snapshot..at]), x.stream.Tail();
    assert y.told[x.snapshot..at] == x.told[x.snapshot..at];
    AppendAssociates(Part(path), rest, Encode(op));
    FlushedTail(before, tail, sent, Encode(op));
  }

  lemma FlushedTail(before: seq<Byte>, tail: seq<Byte>, sent: nat, more: seq<Byte>)
    requires sent <= |tail|
    ensures ((before + tail[..sent]) + tail[sent..]) + more == before + (tail + more)[..|tail| + |more|]
    ensures (tail + more)[|tail| + |more|..] == []
  {
    assert tail[..sent] + tail[sent..] == tail;
  }

  lemma CarriesTold(out: Outlet, x: Receiver, op: Op)
    requires Carries(out, x)
    ensures Carries(After(out, Whole(op)), Told(x, op))
    ensures Told(x, op).told[..x.snapshot] == x.told[..x.snapshot]
  {
    if x.stream.Open? {
      CarriesToldOpen(out, x, op);
    } else if x.stream.Torn? {
      CarriesToldTorn(out, x, op);
    }
  }

  lemma TellingDevice(d: Device, x: Receiver, op: Op)
    requires CarriesDevice(d, x)
    ensures CarriesDevice(d.(sync := After(d.sync, Whole(op))), Told(x, op))
  {
    CarriesTold(d.sync, x, op);
  }

  lemma TellingDevices(at: seq<nat>, list: seq<Device>, s: State, origin: nat, op: Op)
    requires DevicesCarry(at, list, s.receivers)
    ensures DevicesCarry(at, DevicesSent(list, origin, |list|, Whole(op)), ToldAll(s.receivers, Targets(s, origin), op))
  {
    var rs, ds := ToldAll(s.receivers, Targets(s, origin), op), DevicesSent(list, origin, |list|, Whole(op));
    forall i | 0 <= i < |list| ensures CarriesDevice(ds[i], rs[at[i]]) {
      assert CarriesDevice(list[i], s.receivers[at[i]]);
      if list[i].id != origin {
        TellingDevice(list[i], s.receivers[at[i]], op);
      }
    }
  }

  lemma TellingBackups(at: seq<nat>, backups: seq<Outlet>, s: State, origin: nat, op: Op)
    requires BackupsCarry(at, backups, s.receivers)
    ensures BackupsCarry(at, BackupsSent(backups, |backups|, Whole(op)), ToldAll(s.receivers, Targets(s, origin), op))
  {
    var rs, bs := ToldAll(s.receivers, Targets(s, origin), op), BackupsSent(backups, |backups|, Whole(op));
    forall i | 0 <= i < |backups| ensures CarriesBackup(bs[i], rs[at[i]]) {
      assert CarriesBackup(backups[i], s.receivers[at[i]]);
      CarriesTold(backups[i], s.receivers[at[i]], op);
    }
  }

  lemma TellingRepresents(at: Places, list: seq<Device>, backups: seq<Outlet>, s: State, origin: nat, op: Op)
    requires Represents(at, list, backups, s)
    ensures var t := s.(receivers := ToldAll(s.receivers, Targets(s, origin), op));
            Represents(at, DevicesSent(list, origin, |list|, Whole(op)), BackupsSent(backups, |backups|, Whole(op)), t)
  {
    TellingDevices(at.devices, list, s, origin, op);
    TellingBackups(at.backups, backups, s, origin, op);
  }

  /** The representation does not depend on the files, the handlers, the lock and the history. */
  lemma SameReceivers(at: Places, list: seq<Device>, backups: seq<Outlet>, s: State, t: State)
    requires Represents(at, list, backups, s) && t.receivers == s.receivers
    ensures Represents(at, list, backups, t)
  {
  }

  /** A broadcast of a file that can be sent is a broadcast of the protocol. */
  lemma BroadcastRefines(at: Places, list: seq<Device>, backups: seq<Outlet>, s: State, h: nat, order: seq<nat>)
    requires Represents(at, list, backups, s) && Enabled(s, Begin(h)) && CanSend(s.files, s.handlers[h].progress.job)
    requires DistinctTargets(order, Targets(s, s.handlers[h].origin))
    ensures var schedule := [Begin(h)] + Tells(h, order);
            var b := Broadcasted(s.files, s.handlers[h].progress.job, s.handlers[h].origin, list, backups);
            && Runs(s, schedule) && b.ok && Represents(at, b.list, b.backups, Final(s, schedule))
            && Final(s, schedule).files == s.files && Final(s, schedule).handlers == Advance(s, h, Ready).handlers
  {
    var job, origin := s.handlers[h].progress.job, s.handlers[h].origin;
    var op := Message(s.files, job);
    BroadcastTellsAll(s, h, order);
    TellingRepresents(at, list, backups, s, origin, op);
    var t := Final(s, [Begin(h)] + Tells(h, order));
    SameReceivers(at, DevicesSent(list, origin, |list|, Whole(op)), BackupsSent(backups, |backups|, Whole(op)),
                  s.(receivers := ToldAll(s.receivers, Targets(s, origin), op)), t);
  }

  /** The receiver that a broadcast turns to first, if there is one. */
  ghost function FirstTarget(at: Places, list: seq<Device>, backups: seq<Outlet>, origin: nat): (r: Option<nat>)
    requires |at.devices| == |list| && |at.backups| == |backups|
  {
    var first := FirstOther(list, origin);
    if first < |list| then Some(at.devices[first]) else if backups != [] then Some(at.backups[0]) else None
  }

  /** Only the beginning of a message, after which the stream is not flushed. */
  ghost function Begun(path: Path): Writing {
    Writing(false, Part(path))
  }

  lemma CarriesTornFirst(out: Outlet, x: Receiver, path: Path)
    requires Carries(out, x) && x.stream.Open?
    ensures Carries(After(out, Begun(path)), Tear(x, path))
  {
    assert x.told[x.snapshot..|x.told|] == x.told[x.snapshot..];
    assert [] + Part(path) == Part(path) + [] == Part(path);
  }

  lemma CarriesTornAgain(out: Outlet, x: Receiver, path: Path)
    requires Carries(out, x) && x.stream.Torn?
    ensures Carries(After(out, Begun(path)), Tear(x, path))
  {
    var Torn(at, first, rest, sent) := x.stream;
    var before, tail := EncodeAll(x.told[x.snapshot..at]), x.stream.Tail();
    var k := |out.put| + |Part(path)| - Unsent(|out.put|, |Part(path)|);
    assert |out.put| == x.stream.Kept() == |tail| - sent;
    AppendAssociates(Part(first), rest, Part(path));
    assert Tear(x, path).stream.Tail() == tail + Part(path);
    TakeTwice(tail, Part(path), sent, k);
    AppendAssociates(before, tail[..sent], (tail[sent..] + Part(path))[..k]);
  }

  lemma CarriesTorn(out: Outlet, x: Receiver, path: Path)
    requires Carries(out, x)
    ensures Carries(After(out, Begun(path)), Tear(x, path))
  {
    if x.stream.Open? {
      CarriesTornFirst(out, x, path);
    } else if x.stream.Torn? {
      CarriesTornAgain(out, x, path);
    }
  }

  lemma TearDevice(at: Places, list: seq<Device>, backups: seq<Outlet>, s: State, k: nat, path: Path)
    requires Represents(at, list, backups, s) && k < |list|
    ensures var r := at.devices[k];
            Represents(at, list[k := list[k].(sync := After(list[k].sync, Begun(path)))], backups,
                       s.(receivers := s.receivers[r := Tear(s.receivers[r], path)]))
  {
    var r := at.devices[k];
    var rs := s.receivers[r := Tear(s.receivers[r], path)];
    var ds := list[k := list[k].(sync := After(list[k].sync, Begun(path)))];
    CarriesTorn(list[k].sync, s.receivers[r], path);
    assert CarriesDevice(ds[k], rs[r]);
    forall i | 0 <= i < |list| && i != k ensures rs[at.devices[i]] == s.receivers[at.devices[i]] {
      assert CarriesDevice(list[i], s.receivers[at.devices[i]]) && CarriesDevice(list[k], s.receivers[r]);
      assert list[i].id != list[k].id;
    }
    assert DevicesCarry(at.devices, ds, rs);
    assert CarriesDevice(list[k], s.receivers[r]);
  }

  lemma TearBackup(at: Places, list: seq<Device>, backups: seq<Outlet>, s: State, path: Path)
    requires Represents(at, list, backups, s) && backups != []
    ensures var r := at.backups[0];
            Represents(at, list, backups[0 := After(backups[0], Begun(path))], s.(receivers := s.receivers[r := Tear(s.receivers[r], path)]))
  {
    var r := at.backups[0];
    var rs := s.receivers[r := Tear(s.receivers[r], path)];
    CarriesTorn(backups[0], s.receivers[r], path);
    assert CarriesBackup(backups[0], s.receivers[r]);
    assert BackupsCarry(at.backups, backups[0 := After(backups[0], Begun(path))], rs);
    forall i | 0 <= i < |list| ensures rs[at.devices[i]] == s.receivers[at.devices[i]] {
      assert CarriesDevice(list[i], s.receivers[at.devices[i]]);
    }
  }

  lemma FirstSent(list: seq<Device>, origin: nat, part: Writing)
    ensures var k := FirstOther(list, origin);
            if k < |list| then DevicesSent(list, origin, k + 1, part) == list[k := list[k].(sync := After(list[k].sync, part))]
            else DevicesSent(list, origin, |list|, part) == list
  {
  }

  /** The receiver that is told first gets the beginning of a message, and nobody else anything. */
  lemma TearingRepresents(at: Places, list: seq<Device>, backups: seq<Outlet>, s: State, path: Path, origin: nat)
    requires Represents(at, list, backups, s) && FirstTarget(at, list, backups, origin).Some? && path !in s.files
    ensures var r := FirstTarget(at, list, backups, origin).value;
            var b := Broadcasted(s.files, Uploading(path), origin, list, backups);
            && r in Targets(s, origin) && !b.ok
            && Represents(at, b.list, b.backups, s.(receivers := s.receivers[r := Tear(s.receivers[r], path)]))
  {
    var part, k := Begun(path), FirstOther(list, origin);
    FirstSent(list, origin, part);
    if k < |list| {
      assert CarriesDevice(list[k], s.receivers[at.devices[k]]);
      TearDevice(at, list, backups, s, k, path);
    } else {
      assert CarriesBackup(backups[0], s.receivers[at.backups[0]]);
      TearBackup(at, list, backups, s, path);
      assert BackupsSent(backups, 1, part) == backups[0 := After(backups[0], Begun(path))];
    }
  }

  /** With nobody to tell, a broadcast reaches its end at once. */
  lemma NobodyToTell(at: Places, list: seq<Device>, backups: seq<Outlet>, s: State, path: Path, origin: nat)
    requires Represents(at, list, backups, s) && FirstTarget(at, list, backups, origin).None? && path !in s.files
    ensures Targets(s, origin) == {}
    ensures Broadcasted(s.files, Uploading(path), origin, list, backups) == Broadcast(true, list, backups)
  {
    FirstSent(list, origin, Begun(path));
    forall x | 0 <= x < |s.receivers| && !s.receivers[x].stream.Gone? ensures s.receivers[x].device == Some(origin) {
      assert x in at.devices;
      var i :| 0 <= i < |list| && at.devices[i] == x;
      assert CarriesDevice(list[i], s.receivers[x]);
    }
  }

  /**
   A broadcast of a file that is gone: if there is anybody to tell, it ends with the first one, and
   otherwise it is a broadcast to nobody.
   */
  lemma FailedBroadcastRefines(at: Places, list: seq<Device>, backups: seq<Outlet>, s: State, h: nat)
    requires Represents(at, list, backups, s) && Enabled(s, Begin(h)) && !CanSend(s.files, s.handlers[h].progress.job)
    ensures var origin := s.handlers[h].origin;
            var b := Broadcasted(s.files, s.handlers[h].progress.job, origin, list, backups);
            var r := FirstTarget(at, list, backups, origin);
            var schedule := [Begin(h), if r.Some? then TellFail(h, r.value) else End(h)];
            && Runs(s, schedule) && (b.ok <==> r.None?) && Represents(at, b.list, b.backups, Final(s, schedule))
            && Final(s, schedule).files == s.files && Final(s, schedule).handlers == Advance(s, h, Ready).handlers
  {
    var path, origin := s.handlers[h].progress.job.path, s.handlers[h].origin;
    var r := FirstTarget(at, list, backups, origin);
    var step := if r.Some? then TellFail(h, r.value) else End(h);
    if r.Some? {
      TearingRepresents(at, list, backups, s, path, origin);
    } else {
      NobodyToTell(at, list, backups, s, path, origin);
    }
    TwoSteps(s, Begin(h), step);
    var u := if r.Some? then s.(receivers := s.receivers[r.value := Tear(s.receivers[r.value], path)]) else s;
    var b := Broadcasted(s.files, s.handlers[h].progress.job, origin, list, backups);
    SameReceivers(at, b.list, b.backups, u, Apply(Apply(s, Begin(h)), step));
  }

  /**
   An upload that arrives as a whole is a storing step and a broadcast: it leaves the files and the
   streams that the protocol has after them.
   */
  lemma UploadRefines(at: Places, list: seq<Device>, backups: seq<Outlet>, s: State,
                      h: nat, path: Path, content: seq<Byte>, order: seq<nat>)
    requires Represents(at, list, backups, s) && s.lock.Free? && Enabled(s, Store(h, path, content))
    requires DistinctTargets(order, Targets(s, s.handlers[h].origin))
    ensures var schedule := [Store(h, path, content)] + ([Begin(h)] + Tells(h, order));
            var b := Broadcasted(s.files[path := content], Uploading(path), s.handlers[h].origin, list, backups);
            && Runs(s, schedule) && b.ok && Represents(at, b.list, b.backups, Final(s, schedule))
            && Final(s, schedule).files == s.files[path := content]
  {
    var t := Apply(s, Store(h, path, content));
    SameReceivers(at, list, backups, s, t);
    assert Targets(t, s.handlers[h].origin) == Targets(s, s.handlers[h].origin);
    BroadcastRefines(at, list, backups, t, h, order);
    OneStep(s, Store(h, path, content), [Begin(h)] + Tells(h, order));
  }

  /** A deletion is a removing step and a broadcast. */
  lemma DeleteRefines(at: Places, list: seq<Device>, backups: seq<Outlet>, s: State, h: nat, path: Path, order: seq<nat>)
    requires Represents(at, list, backups, s) && s.lock.Free? && Enabled(s, Erase(h, path))
    requires DistinctTargets(order, Targets(s, s.handlers[h].origin))
    ensures var schedule := [Erase(h, path)] + ([Begin(h)] + Tells(h, order));
            var b := Broadcasted(s.files - {path}, Deleting(path), s.handlers[h].origin, list, backups);
            && Runs(s, schedule) && b.ok && Represents(at, b.list, b.backups, Final(s, schedule))
            && Final(s, schedule).files == s.files - {path}
  {
    var t := Apply(s, Erase(h, path));
    SameReceivers(at, list, backups, s, t);
    assert Targets(t, s.handlers[h].origin) == Targets(s, s.handlers[h].origin);
    BroadcastRefines(at, list, backups, t, h, order);
    OneStep(s, Erase(h, path), [Begin(h)] + Tells(h, order));
  }

  // ---------- Joining and leaving ----------

  /** The steps that send a listing, up to the first file that is missing. */
  ghost function Sends(files: Files, names: seq<Path>): seq<Step> {
    if names == [] then [JoinEnd]
    else if names[0] in files then [JoinSend(names[0])] + Sends(files, names[1..])
    else [JoinFail(names[0])]
  }

  /** What the device is told by them. */
  ghost function Listed(files: Files, names: seq<Path>): seq<Op> {
    if names == [] then []
    else if names[0] in files then [Upload(names[0], files[names[0]])] + Listed(files, names[1..])
    else [Upload(names[0], [])]
  }

  lemma {:induction false} ListedBytes(files: Files, names: seq<Path>)
    ensures SnapshotBytes(Listed(files, names), Snapshot.Sent(files, names).0) == Snapshot.Sent(files, names).1
    ensures !Snapshot.Sent(files, names).0 ==> Listed(files, names) != []
  {
    if names != [] {
      Snapshot.SentFirst(files, names);
      if names[0] in files {
        ListedBytes(files, names[1..]);
      }
    }
  }

  ghost predicate ListsAll(names: seq<Path>, left: set<Path>) {
    && (forall i, j :: 0 <= i < j < |names| ==> names[i] != names[j])
    && (forall p :: p in left <==> p in names)
  }

  /** The receiver that a device has become when the listing has been sent. */
  ghost function Joined(x: Receiver, files: Files, names: seq<Path>): Receiver {
    var told := x.told + Listed(files, names);
    x.(told := told, snapshot := |told|, stream := if Snapshot.Sent(files, names).0 then x.stream else Halted)
  }

  lemma SendFirst(s: State, names: seq<Path>)
    requires s.lock.Joining? && s.lock.newcomer.stream.Open? && ListsAll(names, s.lock.left)
    requires names != [] && names[0] in s.files
    ensures var t := Apply(s, JoinSend(names[0]));
            && t.lock.Joining? && t.lock.newcomer.stream.Open? && ListsAll(names[1..], t.lock.left) && t.files == s.files
            && Joined(t.lock.newcomer, s.files, names[1..]) == Joined(s.lock.newcomer, s.files, names)
  {
    var x, op := s.lock.newcomer, Upload(names[0], s.files[names[0]]);
    assert names == [names[0]] + names[1..];
    Snapshot.SentFirst(s.files, names);
    assert (x.told + [op]) + Listed(s.files, names[1..]) == x.told + ([op] + Listed(s.files, names[1..]));
  }

  lemma {:induction false} SendsJoin(s: State, names: seq<Path>)
    requires s.lock.Joining? && s.lock.newcomer.stream.Open? && ListsAll(names, s.lock.left)
    ensures Runs(s, Sends(s.files, names))
    ensures Final(s, Sends(s.files, names)) == s.(receivers := s.receivers + [Joined(s.lock.newcomer, s.files, names)], lock := Free)
    decreases |names|
  {
    if names == [] {
      assert s.lock.newcomer.told + [] == s.lock.newcomer.told;
      OneStep(s, JoinEnd, []);
    } else if names[0] in s.files {
      SendFirst(s, names);
      SendsJoin(Apply(s, JoinSend(names[0])), names[1..]);
      OneStep(s, JoinSend(names[0]), Sends(s.files, names[1..]));
    } else {
      Snapshot.SentFirst(s.files, names);
      OneStep(s, JoinFail(names[0]), []);
      assert [JoinFail(names[0])] + [] == [JoinFail(names[0])];
    }
  }

  /** One more receiver, which a device that is put at the end of the list stands for. */
  lemma OneMore(at: Places, list: seq<Device>, backups: seq<Outlet>, s: State, d: Device, x: Receiver)
    requires Represents(at, list, backups, s) && CarriesDevice(d, x) && forall i :: 0 <= i < |list| ==> list[i].id != d.id
    ensures Represents(Places(at.devices + [|s.receivers|], at.backups), list + [d], backups,
                       s.(receivers := s.receivers + [x]))
  {
    var rs, at2, list2 := s.receivers + [x], at.devices + [|s.receivers|], list + [d];
    forall i | 0 <= i < |list2| ensures at2[i] < |rs| && CarriesDevice(list2[i], rs[at2[i]]) {
      if i < |list| {
        assert CarriesDevice(list[i], s.receivers[at.devices[i]]);
      }
    }
    forall i | 0 <= i < |backups| ensures CarriesBackup(backups[i], rs[at.backups[i]]) {
      assert CarriesBackup(backups[i], s.receivers[at.backups[i]]);
    }
    forall r | 0 <= r < |rs| && !rs[r].stream.Gone? ensures r in at2 || r in at.backups {
      if r < |s.receivers| {
        assert rs[r] == s.receivers[r];
      } else {
        assert at2[|list|] == r;
      }
    }
  }

  lemma JoinedCarries(x: Receiver, id: nat, files: Files, names: seq<Path>)
    requires x == Receiver(Some(id), map[], [], 0, 0, Open)
    ensures CarriesDevice(Device(id, Snapshot.Sent(files, names).1, Outlet([], [])), Joined(x, files, names))
  {
    ListedBytes(files, names);
    var told := Joined(x, files, names).told;
    assert told == Listed(files, names) && told[..|told|] == told && told[|told|..] == [];
  }

  /**
   A device that is put on the list, whatever has become of the listed files since they were
   listed, is a receiver that has joined with the snapshot it was sent.
   */
  lemma EmplaceRefines(at: Places, list: seq<Device>, backups: seq<Outlet>, s: State, id: nat, names: seq<Path>)
    requires Represents(at, list, backups, s) && forall i :: 0 <= i < |list| ==> list[i].id != id
    requires s.lock.Joining? && s.lock.newcomer == Receiver(Some(id), map[], [], 0, 0, Open)
    requires ListsAll(names, s.lock.left)
    ensures var schedule := Sends(s.files, names);
            && Runs(s, schedule) && Final(s, schedule).lock.Free? && Final(s, schedule).files == s.files
            && Represents(Places(at.devices + [|s.receivers|], at.backups),
                          list + [Device(id, Snapshot.Sent(s.files, names).1, Outlet([], []))], backups, Final(s, schedule))
  {
    SendsJoin(s, names);
    var t, x := Final(s, Sends(s.files, names)), Joined(s.lock.newcomer, s.files, names);
    var d := Device(id, Snapshot.Sent(s.files, names).1, Outlet([], []));
    JoinedCarries(s.lock.newcomer, id, s.files, names);
    OneMore(at, list, backups, s, d, x);
    SameReceivers(Places(at.devices + [|s.receivers|], at.backups), list + [d], backups,
                  s.(receivers := s.receivers + [x]), t);
  }

  lemma {:induction false} WithoutNone(list: seq<Device>, id: nat)
    requires forall i :: 0 <= i < |list| ==> list[i].id != id
    ensures Without(list, id) == list
  {
    if list != [] {
      WithoutNone(list[..|list| - 1], id);
    }
  }

  /** All elements but the one at `k`. */
  ghost function DropAt<T>(xs: seq<T>, k: nat): (ys: seq<T>)
    requires k < |xs|
    ensures |ys| == |xs| - 1 && forall i :: 0 <= i < |ys| ==> ys[i] == xs[if i < k then i else i + 1]
  {
    xs[..k] + xs[k + 1..]
  }

  lemma {:induction false} WithoutOne(list: seq<Device>, k: nat)
    requires k < |list| && forall i, j :: 0 <= i < j < |list| ==> list[i].id != list[j].id
    ensures Without(list, list[k].id) == DropAt(list, k)
    decreases |list|
  {
    var n := |list| - 1;
    if k == n {
      WithoutNone(list[..n], list[k].id);
      assert DropAt(list, n) == list[..n];
    } else {
      WithoutOne(list[..n], k);
      assert DropAt(list, k) == DropAt(list[..n], k) + [list[n]];
    }
  }

  lemma OtherDeviceStays(at: seq<nat>, list: seq<Device>, rs: seq<Receiver>, k: nat, j: nat)
    requires DevicesCarry(at, list, rs) && k < |list| && j < |list| && j != k
    ensures at[j] < |rs| && at[j] != at[k] && CarriesDevice(list[j], rs[at[j]])
  {
    assert CarriesDevice(list[j], rs[at[j]]) && CarriesDevice(list[k], rs[at[k]]);
    assert list[j].id != list[k].id;
  }

  lemma LeaveDevices(at: seq<nat>, list: seq<Device>, rs: seq<Receiver>, k: nat)
    requires DevicesCarry(at, list, rs) && k < |list|
    ensures DevicesCarry(DropAt(at, k), DropAt(list, k), rs[at[k] := rs[at[k]].(stream := Gone)])
  {
    var at2, list2, qs := DropAt(at, k), DropAt(list, k), rs[at[k] := rs[at[k]].(stream := Gone)];
    forall i | 0 <= i < |list2| ensures at2[i] < |qs| && CarriesDevice(list2[i], qs[at2[i]]) {
      OtherDeviceStays(at, list, rs, k, if i < k then i else i + 1);
    }
  }

  lemma LeaveCovers(at: Places, rs: seq<Receiver>, k: nat)
    requires Covers(at, rs) && k < |at.devices| && at.devices[k] < |rs|
    ensures Covers(Places(DropAt(at.devices, k), at.backups), rs[at.devices[k] := rs[at.devices[k]].(stream := Gone)])
  {
    forall r | r in at.devices && r != at.devices[k] ensures r in DropAt(at.devices, k) {
      var i :| 0 <= i < |at.devices| && at.devices[i] == r;
      assert DropAt(at.devices, k)[if i < k then i else i - 1] == r;
    }
  }

  /** A device that is taken off the list leaves the protocol. */
  lemma RemoveRefines(at: Places, list: seq<Device>, backups: seq<Outlet>, s: State, k: nat)
    requires Represents(at, list, backups, s) && s.lock.Free? && k < |list|
    ensures Enabled(s, Leave(at.devices[k])) && Apply(s, Leave(at.devices[k])).files == s.files
    ensures Represents(Places(DropAt(at.devices, k), at.backups), Without(list, list[k].id), backups,
                       Apply(s, Leave(at.devices[k])))
  {
    WithoutOne(list, k);
    assert CarriesDevice(list[k], s.receivers[at.devices[k]]);
    LeaveDevices(at.devices, list, s.receivers, k);
    LeaveCovers(at, s.receivers, k);
    var rs := Apply(s, Leave(at.devices[k])).receivers;
    forall i | 0 <= i < |backups| ensures CarriesBackup(backups[i], rs[at.backups[i]]) {
      assert CarriesBackup(backups[i], s.receivers[at.backups[i]]);
    }
  }

  // ---------- Receivers that replay, and joins between which files change ----------

  /** The streams carry what was told, however much of it has been replayed. */
  lemma ReceiveRepresents(at: Places, list: seq<Device>, backups: seq<Outlet>, s: State, r: nat)
    requires Represents(at, list, backups, s) && Enabled(s, Receive(r))
    ensures Represents(at, list, backups, Apply(s, Receive(r)))
  {
    var t := Apply(s, Receive(r));
    forall i | 0 <= i < |list| ensures CarriesDevice(list[i], t.receivers[at.devices[i]]) {
      assert CarriesDevice(list[i], s.receivers[at.devices[i]]);
    }
    forall i | 0 <= i < |backups| ensures CarriesBackup(backups[i], t.receivers[at.backups[i]]) {
      assert CarriesBackup(backups[i], s.receivers[at.backups[i]]);
    }
  }

  /** The snapshot messages of some files, without the closing one. */
  ghost function Messages(ops: seq<Op>): seq<Byte> {
    if ops == [] then []
    else
      var last := ops[|ops| - 1];
      Messages(ops[..|ops| - 1])
      + (CommandFrame(SUCCESS) + Frame(last.path) + if last.Upload? then Frame(last.content) else [])
  }

  lemma {:induction false} SnapshotOfMessages(ops: seq<Op>, more: seq<Op>, whole: bool)
    requires more == [] ==> whole
    ensures SnapshotBytes(ops + more, whole) == Messages(ops) + SnapshotBytes(more, whole)
    decreases |ops|
  {
    if ops == [] {
      assert ops + more == more && [] + SnapshotBytes(more, whole) == SnapshotBytes(more, whole);
    } else {
      var k := |ops| - 1;
      var op := ops[k];
      assert ops + more == ops[..k] + ([op] + more) && ([op] + more)[1..] == more;
      SnapshotOfMessages(ops[..k], [op] + more, whole);
      AppendAssociates(Messages(ops[..k]), CommandFrame(SUCCESS) + Frame(op.path) + if op.Upload? then Frame(op.content) else [],
                       SnapshotBytes(more, whole));
    }
  }

  /** A device is joining, and `bytes` are what it has been sent so far. */
  ghost predicate Sending(id: nat, bytes: seq<Byte>, s: State) {
    && s.lock.Joining? && s.lock.newcomer.device == Some(id) && s.lock.newcomer.stream.Open?
    && bytes == Messages(s.lock.newcomer.told)
  }

  /** What is sent to the joining device in one step. */
  ghost function SentIn(s: State, step: Step): seq<Byte>
    requires Enabled(s, step)
  {
    match step
    case JoinSend(path) => CommandFrame(SUCCESS) + Frame(path) + Frame(s.files[path])
    case JoinEnd => CommandFrame(EXIT)
    case JoinFail(path) => CommandFrame(SUCCESS) + Frame(path)
    case _ => []
  }

  /** A listed file is sent. */
  lemma JoinGetsFile(s: State, id: nat, bytes: seq<Byte>, path: Path)
    requires Sending(id, bytes, s) && Enabled(s, JoinSend(path))
    ensures Sending(id, bytes + SentIn(s, JoinSend(path)), Apply(s, JoinSend(path)))
  {
    var told, op := s.lock.newcomer.told, Upload(path, s.files[path]);
    assert (told + [op])[..|told|] == told;
  }

  /** A file is stored or removed, a receiver replays, or a listed file is sent: the join goes on. */
  lemma JoinGoesOn(at: Places, list: seq<Device>, backups: seq<Outlet>, s: State, id: nat, bytes: seq<Byte>, step: Step)
    requires Represents(at, list, backups, s) && LockOk(s) && Sending(id, bytes, s) && Enabled(s, step)
    requires !step.JoinEnd? && !step.JoinFail?
    ensures var t := Apply(s, step);
            Represents(at, list, backups, t) && Sending(id, bytes + SentIn(s, step), t) && |t.receivers| == |s.receivers|
  {
    if step.Receive? {
      assert bytes + [] == bytes;
      ReceiveRepresents(at, list, backups, s, step.r);
    } else if step.JoinSend? {
      JoinGetsFile(s, id, bytes, step.path);
      SameReceivers(at, list, backups, s, Apply(s, step));
    } else {
      assert bytes + [] == bytes;
      SameReceivers(at, list, backups, s, Apply(s, step));
    }
  }

  /** The join ends, with the closing message or without it. */
  lemma JoinEnds(at: Places, list: seq<Device>, backups: seq<Outlet>, s: State, id: nat, bytes: seq<Byte>, step: Step)
    requires Represents(at, list, backups, s) && Sending(id, bytes, s) && Enabled(s, step) && (step.JoinEnd? || step.JoinFail?)
    requires forall i :: 0 <= i < |list| ==> list[i].id != id
    ensures Represents(Places(at.devices + [|s.receivers|], at.backups),
                       list + [Device(id, bytes + SentIn(s, step), Outlet([], []))], backups, Apply(s, step))
  {
    var x := s.lock.newcomer;
    var more := if step.JoinEnd? then [] else [Upload(step.path, [])];
    var told := x.told + more;
    var y := x.(told := told, snapshot := |told|, stream := if step.JoinEnd? then Open else Halted);
    SnapshotOfMessages(x.told, more, step.JoinEnd?);
    assert told[..|told|] == told && told[|told|..] == [];
    var d := Device(id, bytes + SentIn(s, step), Outlet([], []));
    assert x.told + [] == x.told;
    assert CarriesDevice(d, y);
    OneMore(at, list, backups, s, d, y);
    SameReceivers(Places(at.devices + [|s.receivers|], at.backups), list + [d], backups,
                  s.(receivers := s.receivers + [y]), Apply(s, step));
  }

  ghost function SentBy(s: State, schedule: seq<Step>): seq<Byte>
    requires Runs(s, schedule)
    decreases |schedule|
  {
    if schedule == [] then [] else SentIn(s, schedule[0]) + SentBy(Apply(s, schedule[0]), schedule[1..])
  }

  /**
   A join between whose steps handlers change files and receivers replay: whatever happens in between,
   the device is put on the list with the bytes that were sent to it step by step, and is the receiver
   that the protocol has for it.
   */
  lemma {:induction false} JoinRefines(at: Places, list: seq<Device>, backups: seq<Outlet>, s: State, schedule: seq<Step>,
                                       id: nat, bytes: seq<Byte>)
    requires Inv(s) && Represents(at, list, backups, s) && Sending(id, bytes, s)
    requires Runs(s, schedule) && UntilJoined(schedule) && forall i :: 0 <= i < |list| ==> list[i].id != id
    ensures Represents(Places(at.devices + [|s.receivers|], at.backups),
                       list + [Device(id, bytes + SentBy(s, schedule), Outlet([], []))], backups, Final(s, schedule))
    decreases |schedule|
  {
    var step := schedule[0];
    var t := Apply(s, step);
    if |schedule| == 1 {
      JoinEnds(at, list, backups, s, id, bytes, step);
      assert SentBy(s, schedule) == SentIn(s, step) + [];
      assert Final(s, schedule) == t;
    } else {
      JoinGoesOn(at, list, backups, s, id, bytes, step);
      StepKeepsInv(s, step);
      JoinRefines(at, list, backups, t, schedule[1..], id, bytes + SentIn(s, step));
      AppendAssociates(bytes, SentIn(s, step), SentBy(t, schedule[1..]));
    }
  }
}
