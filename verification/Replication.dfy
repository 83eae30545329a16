/**
 One user's files on the primary, changed by several handler threads, and their copies on the
 backups and on the user's devices. A handler first changes the primary's files and then, while
 it holds the lock, tells every receiver except the device it serves. A device joins under the
 same lock: the directory is listed, every listed file is sent with the content it has by then,
 and only then is the device told of further changes.
 */
module Replication {
  import SocketStream
  import opened Wrappers
  import opened Protocol
  import opened Replica

  datatype Job = Uploading(path: Path) | Deleting(path: Path)

  datatype Progress = Ready | Waiting(job: Job) | Telling(job: Job, todo: set<nat>)

  /** A thread that serves the device `origin`. */
  datatype Handler = Handler(origin: nat, progress: Progress)

  /**
   Whether a receiver can replay what it is told. A device whose snapshot was broken off never
   gets beyond it. A stream is torn when, after `at` operations, only the beginning of an upload of
   `path` was written. It is not flushed: of this beginning and the bytes `rest` that were written
   after it, the first `sent` have been sent, and the others are in the put area of the stream. A
   device that has left is told nothing more.
   */
  datatype Stream = Open | Halted | Torn(at: nat, path: Path, rest: seq<SocketStream.Byte>, sent: nat) | Gone {
    /** What was written from the broken message on. */
    ghost function Tail(): seq<SocketStream.Byte>
      requires Torn?
    {
      Part(path) + rest
    }

    /** How much of it is in the put area. */
    ghost function Kept(): nat
      requires Torn?
    {
      if sent <= |Tail()| then |Tail()| - sent else 0
    }
  }

  /**
   A backup (`device == None`) or a device. `told` are all operations it was ever told of, the
   first `snapshot` of them when it joined; it has replayed the first `seen`.
   */
  datatype Receiver = Receiver(
    device: Option<nat>, files: Files, told: seq<Op>, seen: nat, snapshot: nat, stream: Stream)
  {
    /** The operations on their way. */
    ghost function Link(): seq<Op> {
      if seen <= |told| then told[seen..] else []
    }

    /** How many operations it is going to replay as they were meant. */
    ghost function Limit(): nat {
      match stream
      case Open => |told|
      case Halted => snapshot
      case Torn(at, _, _, _) => at
      case Gone => 0
    }
  }

  datatype Lock = Free | Held(h: nat) | Joining(newcomer: Receiver, left: set<Path>)

  /** `acted` and `log` record history: the devices that changed something, and the changes. */
  datatype State = State(
    files: Files,
    handlers: seq<Handler>,
    receivers: seq<Receiver>,
    lock: Lock,
    acted: set<nat>,
    log: seq<Op>)

  datatype Step =
    | Store(h: nat, path: Path, content: seq<SocketStream.Byte>)   // a file is received
    | Erase(h: nat, path: Path)                                    // a file is removed
    | Begin(h: nat)                                                // the broadcast takes the lock
    | Tell(h: nat, r: nat)                                         // one receiver is told
    | TellFail(h: nat, r: nat)                                     // the file to send is gone: the broadcast ends
    | End(h: nat)                                                  // the broadcast releases the lock
    | Receive(r: nat)                                              // a receiver replays one operation
    | JoinBegin(device: nat)                                       // the directory is listed for a new device
    | JoinSend(path: Path)                                         // one listed file is sent
    | JoinEnd                                                      // the device is put on the list
    | JoinFail(path: Path)                                         // the listed file is gone: the device is listed as it is
    | Leave(r: nat)                                                // a device is taken off the list

  ghost predicate On(p: Progress, path: Path) {
    !p.Ready? && p.job.path == path
  }

  /** The handler is about to tell receiver `r`. */
  ghost predicate AboutToTell(s: State, h: nat, r: nat) {
    && h < |s.handlers| && r < |s.receivers|
    && s.handlers[h].progress.Telling? && r in s.handlers[h].progress.todo
  }

  ghost predicate Enabled(s: State, step: Step) {
    match step
    case Store(h, path, content) =>
      h < |s.handlers| && s.handlers[h].progress.Ready? && ValidOp(Upload(path, content))
    case Erase(h, path) =>
      h < |s.handlers| && s.handlers[h].progress.Ready? && ValidOp(Delete(path))
    case Begin(h) => h < |s.handlers| && s.handlers[h].progress.Waiting? && s.lock.Free?
    case Tell(h, r) => AboutToTell(s, h, r) && CanSend(s.files, s.handlers[h].progress.job)
    case TellFail(h, r) => AboutToTell(s, h, r) && !CanSend(s.files, s.handlers[h].progress.job)
    case End(h) =>
      h < |s.handlers| && s.handlers[h].progress.Telling? && s.handlers[h].progress.todo == {}
    case Receive(r) => r < |s.receivers| && s.receivers[r].seen < |s.receivers[r].told| && s.receivers[r].seen < s.receivers[r].Limit()
    case JoinBegin(_) => s.lock.Free?
    case JoinSend(path) => s.lock.Joining? && path in s.lock.left && path in s.files
    case JoinEnd => s.lock.Joining? && s.lock.left == {}
    case JoinFail(path) => s.lock.Joining? && path in s.lock.left && path !in s.files
    case Leave(r) => s.lock.Free? && r < |s.receivers| && s.receivers[r].device.Some?
  }

  ghost function Advance(s: State, h: nat, p: Progress): State
    requires h < |s.handlers|
  {
    s.(handlers := s.handlers[h := s.handlers[h].(progress := p)])
  }

  /** A file that is to be sent is read when it is sent. */
  ghost predicate CanSend(files: Files, job: Job) {
    job.Uploading? ==> job.path in files
  }

  /** What a receiver is told of a job. */
  ghost function Message(files: Files, job: Job): Op
    requires CanSend(files, job)
  {
    match job
    case Uploading(path) => Upload(path, files[path])
    case Deleting(path) => Delete(path)
  }

  /** All receivers that are there, but the device of the handler itself. */
  ghost function Targets(s: State, origin: nat): set<nat> {
    set r: nat | r < |s.receivers| && s.receivers[r].device != Some(origin) && !s.receivers[r].stream.Gone?
  }

  /** A message is written and flushed, and with it all that waits. */
  ghost function Told(r: Receiver, op: Op): Receiver {
    r.(told := r.told + [op],
       stream := match r.stream
                 case Torn(at, path, rest, _) =>
                   Torn(at, path, rest + Encode(op), |r.stream.Tail()| + |Encode(op)|)
                 case _ => r.stream)
  }

  /** The beginning of an upload of `path` is written and not flushed. */
  ghost function Tear(r: Receiver, path: Path): Receiver {
    match r.stream
    case Open => r.(stream := Torn(|r.told|, path, [], |Part(path)| - SocketStream.Unsent(0, |Part(path)|)))
    case Torn(at, first, rest, sent) =>
      var n, kept := |Part(path)|, r.stream.Kept();
      r.(stream := Torn(at, first, rest + Part(path), |r.stream.Tail()| + n - SocketStream.Unsent(kept, n)))
    case _ => r
  }

  ghost function Apply(s: State, step: Step): State
    requires Enabled(s, step)
  {
    match step
    case Store(h, path, content) =>
      Advance(s, h, Waiting(Uploading(path))).(
        files := s.files[path := content], acted := s.acted + {s.handlers[h].origin},
        log := s.log + [Upload(path, content)])
    case Erase(h, path) =>
      Advance(s, h, Waiting(Deleting(path))).(
        files := s.files - {path}, acted := s.acted + {s.handlers[h].origin},
        log := s.log + [Delete(path)])
    case Begin(h) =>
      Advance(s, h, Telling(s.handlers[h].progress.job, Targets(s, s.handlers[h].origin))).(lock := Held(h))
    case Tell(h, r) =>
      var p := s.handlers[h].progress;
      Advance(s, h, Telling(p.job, p.todo - {r})).(
        receivers := s.receivers[r := Told(s.receivers[r], Message(s.files, p.job))])
    case TellFail(h, r) =>
      Advance(s, h, Ready).(
        receivers := s.receivers[r := Tear(s.receivers[r], s.handlers[h].progress.job.path)], lock := Free)
    case End(h) => Advance(s, h, Ready).(lock := Free)
    case Receive(r) =>
      var x := s.receivers[r];
      s.(receivers := s.receivers[r := x.(files := Applied(x.files, x.told[x.seen]), seen := x.seen + 1)])
    case JoinBegin(device) => s.(lock := Joining(Receiver(Some(device), map[], [], 0, 0, Open), s.files.Keys))
    case JoinSend(path) =>
      s.(lock := Joining(Told(s.lock.newcomer, Upload(path, s.files[path])), s.lock.left - {path}))
    case JoinEnd =>
      s.(receivers := s.receivers + [s.lock.newcomer.(snapshot := |s.lock.newcomer.told|)], lock := Free)
    case JoinFail(path) =>
      s.(receivers := s.receivers + [BrokenOff(s.lock.newcomer, path)], lock := Free)
    case Leave(r) => s.(receivers := s.receivers[r := s.receivers[r].(stream := Gone)])
  }

  /**
   A device that waits for the content of `path`, which does not come: it has emptied the file
   and gets no further. It is listed all the same.
   */
  ghost function BrokenOff(x: Receiver, path: Path): Receiver {
    Told(x, Upload(path, [])).(snapshot := |x.told| + 1, stream := Halted)
  }

  /** At first nothing is going on, and every backup has the files of the primary. */
  ghost predicate Initial(s: State) {
    && (forall h :: 0 <= h < |s.handlers| ==> s.handlers[h].progress.Ready?)
    && (forall r :: 0 <= r < |s.receivers| ==> s.receivers[r] == Receiver(None, s.files, [], 0, 0, Open))
    && s.lock.Free? && s.acted == {} && s.log == []
    && (forall p :: p in s.files ==> ValidOp(Upload(p, s.files[p])))
  }

  ghost predicate Runs(s: State, schedule: seq<Step>)
    decreases |schedule|
  {
    schedule == [] || (Enabled(s, schedule[0]) && Runs(Apply(s, schedule[0]), schedule[1..]))
  }

  ghost function Final(s: State, schedule: seq<Step>): State
    requires Runs(s, schedule)
    decreases |schedule|
  {
    if schedule == [] then s else Final(Apply(s, schedule[0]), schedule[1..])
  }

  // ---------- The invariant of all runs ----------

  /** What a receiver will have once it has replayed everything on its way to it. */
  ghost function Drained(r: Receiver): Files {
    AppliedAll(r.files, r.Link())
  }

  ghost predicate AgreeOn(a: Files, b: Files, path: Path) {
    (path in a <==> path in b) && (path in a ==> a[path] == b[path])
  }

  /** The last that was told about `path` is that it is gone. */
  ghost predicate LastIsDelete(told: seq<Op>, path: Path) {
    told != [] &&
    var last := told[|told| - 1];
    if last.path == path then last.Delete? else LastIsDelete(told[..|told| - 1], path)
  }

  /** The receiver agrees with the primary on `path`, or lacks the file because it was told last that it is gone. */
  ghost predicate Right(files: Files, x: Receiver, path: Path) {
    AgreeOn(files, Drained(x), path) || (path in files && path !in Drained(x) && LastIsDelete(x.told, path))
  }

  /** The handler has still to tell receiver `r` that `path` was stored, or that it was removed. */
  ghost predicate Owes(p: Progress, r: nat, path: Path, stored: bool) {
    On(p, path) && p.job.Uploading? == stored && (p.Telling? ==> r in p.todo)
  }

  /** Some handler has still to tell receiver `r` of `path` as it is now. */
  ghost predicate SomeoneOwes(s: State, r: nat, path: Path) {
    exists h :: 0 <= h < |s.handlers| && Owes(s.handlers[h].progress, r, path, path in s.files)
  }

  /** A backup, or a device that is there with its whole snapshot and has not changed anything itself. */
  ghost predicate Follows(s: State, x: Receiver) {
    x.device.None? || (x.device.value !in s.acted && !x.stream.Halted? && !x.stream.Gone?)
  }

  ghost predicate LockOk(s: State) {
    forall h :: 0 <= h < |s.handlers| ==>
      && (s.handlers[h].progress.Telling? <==> s.lock == Held(h))
      && (s.handlers[h].progress.Telling? ==> forall r :: r in s.handlers[h].progress.todo ==> r < |s.receivers|)
  }

  ghost predicate JobsOk(s: State) {
    forall h :: 0 <= h < |s.handlers| && !s.handlers[h].progress.Ready? ==>
      s.handlers[h].origin in s.acted && ValidOp(Delete(s.handlers[h].progress.job.path))
  }

  /** The operations told can be encoded, and after a deletion the file is not there. */
  ghost predicate ToldOk(x: Receiver) {
    && x.seen <= |x.told| && ValidOps(x.told) && StreamOk(x)
    && forall path :: LastIsDelete(x.told, path) ==> path !in Drained(x)
  }

  /**
   Backups stay. Until anything of a broken message is sent nothing more is told, and when it is, the put
   area has run over or has been flushed.
   */
  ghost predicate StreamOk(x: Receiver) {
    match x.stream
    case Open => true
    case Torn(at, path, rest, sent) =>
      && x.seen <= at <= |x.told| && ValidOp(Delete(path))
      && sent <= |x.stream.Tail()| <= sent + SocketStream.PACKET_SIZE
      && (sent == 0 ==> at == |x.told|)
      && (sent == 0 || sent >= |Part(path)| || sent > SocketStream.PACKET_SIZE)
    case _ => x.device.Some?
  }

  ghost predicate FilesOk(s: State) {
    && (forall p :: p in s.files ==> ValidOp(Upload(p, s.files[p])))
    && (forall r :: 0 <= r < |s.receivers| ==> ToldOk(s.receivers[r]))
    && (s.lock.Joining? ==> ToldOk(s.lock.newcomer) && s.lock.newcomer.stream.Open?
                            && s.lock.newcomer.device.Some? && forall p :: p in s.lock.left ==> ValidOp(Delete(p)))
  }

  ghost predicate ReceiverOk(s: State, r: nat)
    requires r < |s.receivers|
  {
    Follows(s, s.receivers[r]) ==> forall path :: Right(s.files, s.receivers[r], path) || SomeoneOwes(s, r, path)
  }

  ghost predicate NewcomerOk(s: State) {
    s.lock.Joining? && Follows(s, s.lock.newcomer) ==>
      forall path ::
        AgreeOn(s.files, Drained(s.lock.newcomer), path) || path in s.lock.left || SomeoneOwes(s, |s.receivers|, path)
  }

  ghost predicate Inv(s: State) {
    && LockOk(s) && JobsOk(s) && FilesOk(s) && NewcomerOk(s)
    && forall r :: 0 <= r < |s.receivers| ==> ReceiverOk(s, r)
  }

  lemma DrainedTold(x: Receiver, op: Op)
    requires x.seen <= |x.told|
    ensures Drained(Told(x, op)) == Applied(Drained(x), op)
  {
    assert Told(x, op).Link() == x.Link() + [op];
    assert Told(x, op).files == x.files;
    AppliedAllAppend(x.files, x.Link(), op);
  }

  lemma LastIsDeleteTold(told: seq<Op>, op: Op, path: Path)
    ensures LastIsDelete(told + [op], path) <==> if op.path == path then op.Delete? else LastIsDelete(told, path)
  {
    assert (told + [op])[..|told|] == told;
  }

  /** Telling keeps the history in order. */
  lemma ToldKeepsOk(x: Receiver, op: Op)
    requires ToldOk(x) && ValidOp(op)
    ensures ToldOk(Told(x, op))
    ensures forall path :: LastIsDelete(Told(x, op).told, path)
                           <==> if op.path == path then op.Delete? else LastIsDelete(x.told, path)
  {
    DrainedTold(x, op);
    forall path ensures LastIsDelete(x.told + [op], path)
                        <==> if op.path == path then op.Delete? else LastIsDelete(x.told, path) {
      LastIsDeleteTold(x.told, op, path);
    }
  }

  lemma OwesWitness(s: State, r: nat, path: Path, h: nat)
    requires h < |s.handlers| && Owes(s.handlers[h].progress, r, path, path in s.files)
    ensures SomeoneOwes(s, r, path)
  {
  }

  /** Storing or erasing leaves every receiver right about all other paths, and owed about this one. */
  lemma ChangeKeepsInv(s: State, step: Step)
    requires Inv(s) && Enabled(s, step) && (step.Store? || step.Erase?)
    ensures Inv(Apply(s, step))
  {
    var t := Apply(s, step);
    var h, path := step.h, step.path;
    assert forall p :: p != path ==> (p in t.files <==> p in s.files) && (p in s.files ==> t.files[p] == s.files[p]);
    forall r: nat, p | SomeoneOwes(s, r, p) || p == path ensures SomeoneOwes(t, r, p) {
      if p == path {
        OwesWitness(t, r, p, h);
      } else {
        var k :| 0 <= k < |s.handlers| && Owes(s.handlers[k].progress, r, p, p in s.files);
        OwesWitness(t, r, p, k);
      }
    }
    forall r | 0 <= r < |t.receivers| ensures ReceiverOk(t, r) {
      assert ReceiverOk(s, r);
    }
  }

  /** A step that leaves the files alone, and with them the debts to one receiver about one path. */
  lemma DebtStays(s: State, t: State, r: nat, path: Path)
    requires SomeoneOwes(s, r, path) && (path in s.files <==> path in t.files) && |t.handlers| == |s.handlers|
    requires forall h :: 0 <= h < |s.handlers| && Owes(s.handlers[h].progress, r, path, path in s.files) ==>
               Owes(t.handlers[h].progress, r, path, path in s.files)
    ensures SomeoneOwes(t, r, path)
  {
    var k :| 0 <= k < |s.handlers| && Owes(s.handlers[k].progress, r, path, path in s.files);
    OwesWitness(t, r, path, k);
  }

  lemma BeginKeepsInv(s: State, h: nat)
    requires Inv(s) && Enabled(s, Begin(h))
    ensures Inv(Apply(s, Begin(h)))
  {
    var t := Apply(s, Begin(h));
    forall r | 0 <= r < |t.receivers| ensures ReceiverOk(t, r) {
      assert ReceiverOk(s, r);
      forall p | Follows(t, t.receivers[r]) && SomeoneOwes(s, r, p) ensures SomeoneOwes(t, r, p) {
        DebtStays(s, t, r, p);
      }
    }
  }

  lemma TellKeepsInv(s: State, h: nat, r: nat)
    requires Inv(s) && Enabled(s, Tell(h, r))
    ensures Inv(Apply(s, Tell(h, r)))
  {
    var t := Apply(s, Tell(h, r));
    var job := s.handlers[h].progress.job;
    var op := Message(s.files, job);
    DrainedTold(s.receivers[r], op);
    ToldKeepsOk(s.receivers[r], op);
    forall i | 0 <= i < |t.receivers| ensures ReceiverOk(t, i) {
      assert ReceiverOk(s, i);
      forall p | SomeoneOwes(s, i, p) && (i != r || p != job.path) ensures SomeoneOwes(t, i, p) {
        DebtStays(s, t, i, p);
      }
      if i == r {
        forall p | p != job.path && Right(s.files, s.receivers[r], p) ensures Right(t.files, t.receivers[r], p) {
        }
        assert Right(t.files, t.receivers[r], job.path);
      }
    }
  }

  /** Writing `n` more bytes sends nothing, or more than the put area holds. */
  lemma SentGrows(total: nat, sent: nat, n: nat)
    requires sent <= total <= sent + SocketStream.PACKET_SIZE
    ensures var more := total + n - SocketStream.Unsent(total - sent, n);
            && sent <= more <= total + n <= more + SocketStream.PACKET_SIZE
            && (more == sent || more > SocketStream.PACKET_SIZE)
  {
  }

  /** What is not flushed comes out only by filling the put area. */
  lemma TearAgain(x: Receiver, path: Path)
    requires StreamOk(x) && x.stream.Torn?
    ensures StreamOk(Tear(x, path))
  {
    var y, n := Tear(x, path), |Part(path)|;
    SentGrows(|x.stream.Tail()|, x.stream.sent, n);
    AppendedLength(Part(x.stream.path), x.stream.rest, Part(path));
    assert y.stream.path == x.stream.path && y.stream.at == x.stream.at && |y.stream.Tail()| == |x.stream.Tail()| + n;
  }

  lemma AppendedLength(a: seq<SocketStream.Byte>, b: seq<SocketStream.Byte>, c: seq<SocketStream.Byte>)
    ensures |a + (b + c)| == |a + b| + |c|
  {
  }

  lemma TearStream(x: Receiver, path: Path)
    requires StreamOk(x) && x.seen <= |x.told| && ValidOp(Delete(path))
    ensures StreamOk(Tear(x, path))
  {
    if x.stream.Torn? {
      TearAgain(x, path);
    } else if x.stream.Open? {
      SentGrows(0, 0, |Part(path)|);
    }
  }

  lemma TearKeepsOk(x: Receiver, path: Path)
    requires ToldOk(x) && ValidOp(Delete(path))
    ensures ToldOk(Tear(x, path)) && Drained(Tear(x, path)) == Drained(x)
    ensures Tear(x, path).told == x.told && Tear(x, path).device == x.device
  {
    TearStream(x, path);
    assert Tear(x, path).files == x.files && Tear(x, path).Link() == x.Link();
  }

  /** A broadcast that ends because its file is gone leaves nobody wrong: who removed the file tells of it. */
  lemma TellFailKeepsInv(s: State, h: nat, r: nat)
    requires Inv(s) && Enabled(s, TellFail(h, r))
    ensures Inv(Apply(s, TellFail(h, r)))
  {
    var t := Apply(s, TellFail(h, r));
    forall i | 0 <= i < |t.receivers| ensures ReceiverOk(t, i) && ToldOk(t.receivers[i]) {
      assert ReceiverOk(s, i) && ToldOk(s.receivers[i]);
      forall p | SomeoneOwes(s, i, p) ensures SomeoneOwes(t, i, p) {
        DebtStays(s, t, i, p);
      }
      TearKeepsOk(s.receivers[i], s.handlers[h].progress.job.path);
    }
  }

  lemma EndKeepsInv(s: State, h: nat)
    requires Inv(s) && Enabled(s, End(h))
    ensures Inv(Apply(s, End(h)))
  {
    var t := Apply(s, End(h));
    forall i | 0 <= i < |t.receivers| ensures ReceiverOk(t, i) {
      assert ReceiverOk(s, i);
      forall p | SomeoneOwes(s, i, p) ensures SomeoneOwes(t, i, p) {
        DebtStays(s, t, i, p);
      }
    }
  }

  /** Steps that do not touch the handlers and the files leave everyone owing what they owed. */
  lemma SameHandlersOwe(s: State, t: State)
    requires t.handlers == s.handlers && t.files == s.files
    ensures forall r: nat, p :: SomeoneOwes(s, r, p) <==> SomeoneOwes(t, r, p)
  {
  }

  lemma ReceiveKeepsDrained(x: Receiver)
    requires x.seen < |x.told|
    ensures Drained(x.(files := Applied(x.files, x.told[x.seen]), seen := x.seen + 1)) == Drained(x)
  {
    assert x.told[x.seen..][1..] == x.told[x.seen + 1..];
  }

  lemma ReceiveKeepsInv(s: State, r: nat)
    requires Inv(s) && Enabled(s, Receive(r))
    ensures Inv(Apply(s, Receive(r)))
  {
    var t := Apply(s, Receive(r));
    SameHandlersOwe(s, t);
    ReceiveKeepsDrained(s.receivers[r]);
    forall i | 0 <= i < |t.receivers| ensures ReceiverOk(t, i) && ToldOk(t.receivers[i]) {
      assert ReceiverOk(s, i) && ToldOk(s.receivers[i]);
    }
  }

  lemma LeaveKeepsInv(s: State, r: nat)
    requires Inv(s) && Enabled(s, Leave(r))
    ensures Inv(Apply(s, Leave(r)))
  {
    var t := Apply(s, Leave(r));
    SameHandlersOwe(s, t);
    forall i | 0 <= i < |t.receivers| ensures ReceiverOk(t, i) && ToldOk(t.receivers[i]) {
      assert ReceiverOk(s, i) && ToldOk(s.receivers[i]);
      assert Drained(t.receivers[i]) == Drained(s.receivers[i]);
    }
  }

  lemma JoinSendKeepsInv(s: State, path: Path)
    requires Inv(s) && Enabled(s, JoinSend(path))
    ensures Inv(Apply(s, JoinSend(path)))
  {
    var t, op := Apply(s, JoinSend(path)), Upload(path, s.files[path]);
    SameHandlersOwe(s, t);
    DrainedTold(s.lock.newcomer, op);
    ToldKeepsOk(s.lock.newcomer, op);
    forall i | 0 <= i < |t.receivers| ensures ReceiverOk(t, i) {
      assert ReceiverOk(s, i);
    }
  }

  lemma JoinEndKeepsInv(s: State, step: Step)
    requires Inv(s) && Enabled(s, step) && (step.JoinEnd? || step.JoinFail?)
    ensures Inv(Apply(s, step))
  {
    var t := Apply(s, step);
    SameHandlersOwe(s, t);
    if step.JoinFail? {
      ToldKeepsOk(s.lock.newcomer, Upload(step.path, []));
    }
    forall i | 0 <= i < |t.receivers| ensures ReceiverOk(t, i) && ToldOk(t.receivers[i]) {
      if i < |s.receivers| {
        assert ReceiverOk(s, i) && ToldOk(s.receivers[i]);
      } else {
        var x := if step.JoinFail? then Told(s.lock.newcomer, Upload(step.path, [])) else s.lock.newcomer;
        assert Drained(t.receivers[i]) == Drained(x);
      }
    }
  }

  lemma JoinKeepsInv(s: State, step: Step)
    requires Inv(s) && Enabled(s, step) && (step.JoinBegin? || step.JoinSend? || step.JoinEnd? || step.JoinFail?)
    ensures Inv(Apply(s, step))
  {
    match step {
      case JoinSend(path) => JoinSendKeepsInv(s, path);
      case JoinBegin(_) =>
        var t := Apply(s, step);
        SameHandlersOwe(s, t);
        forall i | 0 <= i < |t.receivers| ensures ReceiverOk(t, i) {
          assert ReceiverOk(s, i);
        }
      case _ => JoinEndKeepsInv(s, step);
    }
  }

  lemma StepKeepsInv(s: State, step: Step)
    requires Inv(s) && Enabled(s, step)
    ensures Inv(Apply(s, step))
  {
    match step {
      case Store(_, _, _) => ChangeKeepsInv(s, step);
      case Erase(_, _) => ChangeKeepsInv(s, step);
      case Begin(h) => BeginKeepsInv(s, h);
      case Tell(h, r) => TellKeepsInv(s, h, r);
      case TellFail(h, r) => TellFailKeepsInv(s, h, r);
      case End(h) => EndKeepsInv(s, h);
      case Receive(r) => ReceiveKeepsInv(s, r);
      case Leave(r) => LeaveKeepsInv(s, r);
      case _ => JoinKeepsInv(s, step);
    }
  }

  lemma InitialInv(s: State)
    requires Initial(s)
    ensures Inv(s)
  {
  }

  lemma {:induction false} RunKeepsInv(s: State, schedule: seq<Step>)
    requires Inv(s) && Runs(s, schedule)
    ensures Inv(Final(s, schedule))
    decreases |schedule|
  {
    if schedule != [] {
      StepKeepsInv(s, schedule[0]);
      RunKeepsInv(Apply(s, schedule[0]), schedule[1..]);
    }
  }

  // ---------- Convergence ----------

  /** No handler is between its change and the end of its broadcast. */
  ghost predicate Settled(s: State) {
    forall h :: 0 <= h < |s.handlers| ==> s.handlers[h].progress.Ready?
  }

  /** The bytes on their way to a receiver: of the broken messages of a torn stream what has been sent. */
  ghost function Ahead(x: Receiver): seq<SocketStream.Byte> {
    match x.stream
    case Torn(at, _, _, sent) =>
      EncodeAll(if x.seen <= at <= |x.told| then x.told[x.seen..at] else [])
      + if sent <= |x.stream.Tail()| then x.stream.Tail()[..sent] else []
    case _ => EncodeAll(x.Link())
  }

  /**
   A message that is broken off adds nothing to the bytes on their way exactly as long as the put area
   holds it: the receiver does not see it before the next message that is flushed.
   */
  lemma TearIsSilentIff(x: Receiver, path: Path)
    requires ToldOk(x) && (x.stream.Open? || x.stream.Torn?)
    ensures Ahead(Tear(x, path)) == Ahead(x) <==>
              (if x.stream.Torn? then x.stream.Kept() else 0) + |Part(path)| <= SocketStream.PACKET_SIZE
  {
    var y, kept := Tear(x, path), if x.stream.Torn? then x.stream.Kept() else 0;
    if x.stream.Open? {
      assert x.told[x.seen..|x.told|] == x.Link();
      assert Ahead(y) == EncodeAll(x.Link()) + y.stream.Tail()[..y.stream.sent];
      SentGrows(0, 0, |Part(path)|);
    } else {
      assert y.stream.Tail() == x.stream.Tail() + Part(path);
      SentGrows(|x.stream.Tail()|, x.stream.sent, |Part(path)|);
      assert x.stream.Tail()[..x.stream.sent] == y.stream.Tail()[..x.stream.sent];
    }
  }

  /** What the receiving loop makes of the bytes on their way to it. */
  ghost function FilesAfterReplay(x: Receiver, path: Path): Files {
    Replay(x.files, path, Ahead(x)).files
  }

  /** Something of a broken message has been sent. */
  ghost predicate Broken(x: Receiver) {
    x.stream.Torn? && x.stream.sent > 0
  }

  /** All of the broken message has been sent, and less has followed it than the length misread there. */
  ghost predicate ChokedBy(x: Receiver, rest: seq<SocketStream.Byte>) {
    && x.stream.Torn? && |Part(x.stream.path)| <= x.stream.sent <= |x.stream.Tail()|
    && rest == x.stream.rest[..x.stream.sent - |Part(x.stream.path)|] && Chokes(rest)
  }

  ghost predicate Choked(x: Receiver) {
    exists rest :: ChokedBy(x, rest)
  }

  lemma DrainedByReplay(x: Receiver, path: Path)
    requires ToldOk(x) && !Broken(x)
    ensures FilesAfterReplay(x, path) == Drained(x)
    ensures x.seen == |x.told| ==> x.files == Drained(x)
  {
    ReplayUndoesEncode(x.files, path, x.Link());
    if x.stream.Torn? {
      assert x.told[x.seen..x.stream.at] == x.Link();
      assert EncodeAll(x.Link()) + [] == EncodeAll(x.Link());
    }
  }

  lemma BrokenByReplay(x: Receiver, path: Path, rest: seq<SocketStream.Byte>)
    requires ToldOk(x) && ChokedBy(x, rest)
    ensures FilesAfterReplay(x, path) == AppliedAll(x.files, x.told[x.seen..x.stream.at])[
              x.stream.path := if |rest| < HEADER then [] else rest[HEADER..]]
  {
    var Torn(at, broken, all, sent) := x.stream;
    ReplayBroken(x.files, path, x.told[x.seen..at], broken, rest);
    assert (Part(broken) + all)[..sent] == Part(broken) + rest;
  }

  /** The broken message has been sent as a whole once anything of it has, unless the path alone fills the put area. */
  lemma BrokenIsWhole(x: Receiver)
    requires ToldOk(x) && Broken(x) && |Part(x.stream.path)| <= SocketStream.PACKET_SIZE + 1
    ensures |Part(x.stream.path)| <= x.stream.sent
  {
  }

  /** No file that the primary has was reported gone last. */
  ghost predicate NoFalseDeletion(files: Files, x: Receiver) {
    forall p :: p in files ==> !LastIsDelete(x.told, p)
  }

  lemma SettledIff(s: State, r: nat)
    requires Inv(s) && Settled(s) && r < |s.receivers| && Follows(s, s.receivers[r])
    ensures var x, d := s.receivers[r], Drained(s.receivers[r]);
            && (forall p :: p in d ==> p in s.files && d[p] == s.files[p])
            && (d == s.files <==> NoFalseDeletion(s.files, x))
  {
    var x, d := s.receivers[r], Drained(s.receivers[r]);
    assert ReceiverOk(s, r) && ToldOk(x);
    assert forall p :: !SomeoneOwes(s, r, p);
    forall p | p in d ensures p in s.files && d[p] == s.files[p] {
      assert Right(s.files, x, p);
    }
    if NoFalseDeletion(s.files, x) {
      forall p ensures (p in s.files <==> p in d) && (p in d ==> d[p] == s.files[p]) {
        assert Right(s.files, x, p);
      }
      assert d.Keys == s.files.Keys;
    }
  }

  // ---------- Torn streams ----------

  /**
   The file of a broken message was gone when the stream was torn: if it is there again, then
   somebody is still to tell of it, or more has followed the broken message than the file holds.
   */
  ghost predicate Outgrown(s: State, r: nat)
    requires r < |s.receivers|
  {
    var x := s.receivers[r];
    Follows(s, x) && x.stream.Torn? && x.stream.path in s.files ==>
      SomeoneOwes(s, r, x.stream.path) || x.stream.sent > |Part(x.stream.path)| + HEADER + |s.files[x.stream.path]|
  }

  ghost predicate TornInv(s: State) {
    && (forall r :: 0 <= r < |s.receivers| ==> Outgrown(s, r))
    && (s.lock.Joining? ==> s.lock.newcomer.stream.Open?)
  }

  lemma TornChange(s: State, step: Step)
    requires Inv(s) && TornInv(s) && Enabled(s, step) && (step.Store? || step.Erase?)
    ensures TornInv(Apply(s, step))
  {
    var t := Apply(s, step);
    forall r | 0 <= r < |t.receivers| ensures Outgrown(t, r) {
      assert Outgrown(s, r);
      var x := s.receivers[r];
      if x.stream.Torn? {
        if x.stream.path == step.path {
          OwesWitness(t, r, step.path, step.h);
        } else if SomeoneOwes(s, r, x.stream.path) {
          DebtStays(s, t, r, x.stream.path);
        }
      }
    }
  }

  lemma TornTell(s: State, h: nat, r: nat)
    requires Inv(s) && TornInv(s) && Enabled(s, Tell(h, r))
    ensures TornInv(Apply(s, Tell(h, r)))
  {
    var t := Apply(s, Tell(h, r));
    var job := s.handlers[h].progress.job;
    forall i | 0 <= i < |t.receivers| ensures Outgrown(t, i) {
      assert Outgrown(s, i);
      var x := s.receivers[i];
      if i == r && x.stream.Torn? && job == Uploading(x.stream.path) {
        assert |Encode(Message(s.files, job))| > HEADER + |s.files[x.stream.path]|;
      } else if x.stream.Torn? && x.stream.path in s.files && SomeoneOwes(s, i, x.stream.path) {
        DebtStays(s, t, i, x.stream.path);
      }
    }
  }

  lemma TornFail(s: State, h: nat, r: nat)
    requires Inv(s) && TornInv(s) && Enabled(s, TellFail(h, r))
    ensures TornInv(Apply(s, TellFail(h, r)))
  {
    var t := Apply(s, TellFail(h, r));
    forall i | 0 <= i < |t.receivers| ensures Outgrown(t, i) {
      assert Outgrown(s, i);
      var x := s.receivers[i];
      if x.stream.Torn? && SomeoneOwes(s, i, x.stream.path) {
        DebtStays(s, t, i, x.stream.path);
      }
    }
  }

  lemma TornOther(s: State, step: Step)
    requires Inv(s) && TornInv(s) && Enabled(s, step) && !step.Store? && !step.Erase? && !step.Tell? && !step.TellFail?
    ensures TornInv(Apply(s, step))
  {
    var t := Apply(s, step);
    forall i | 0 <= i < |t.receivers| ensures Outgrown(t, i) {
      if i < |s.receivers| {
        assert Outgrown(s, i);
        var x := s.receivers[i];
        if x.stream.Torn? && Follows(t, t.receivers[i]) && SomeoneOwes(s, i, x.stream.path) {
          DebtStays(s, t, i, x.stream.path);
        }
      }
    }
  }

  lemma {:induction false} RunKeepsTornInv(s: State, schedule: seq<Step>)
    requires Inv(s) && TornInv(s) && Runs(s, schedule)
    ensures TornInv(Final(s, schedule))
    decreases |schedule|
  {
    if schedule != [] {
      var step := schedule[0];
      StepKeepsInv(s, step);
      match step {
        case Store(_, _, _) => TornChange(s, step);
        case Erase(_, _) => TornChange(s, step);
        case Tell(h, r) => TornTell(s, h, r);
        case TellFail(h, r) => TornFail(s, h, r);
        case _ => TornOther(s, step);
      }
      RunKeepsTornInv(Apply(s, step), schedule[1..]);
    }
  }

  /** What follows a broken message is never the content of its file. */
  lemma BrokenNeverAgrees(s: State, r: nat, path: Path)
    requires Inv(s) && TornInv(s) && Settled(s) && r < |s.receivers| && Follows(s, s.receivers[r])
    requires Broken(s.receivers[r]) && Choked(s.receivers[r])
    ensures FilesAfterReplay(s.receivers[r], path) != s.files
  {
    var x := s.receivers[r];
    assert ToldOk(x) && Outgrown(s, r);
    var rest :| ChokedBy(x, rest);
    BrokenByReplay(x, path, rest);
    assert !SomeoneOwes(s, r, x.stream.path);
    assert FilesAfterReplay(x, path)[x.stream.path] == if |rest| < HEADER then [] else rest[HEADER..];
  }

  /**
   Convergence, exactly. In every run of any number of handlers, in any interleaving, with devices
   joining and leaving at any time: whenever no handler is in the middle of an operation, the bytes
   on their way to a backup, or to a device that changes nothing itself, replayed by its receiving
   loop, give exactly the files of the primary if and only if nothing of a broken message has been sent to it,
   and the last that it was told about a file of the primary is never its deletion. Without a broken
   message they give files of the primary only, with their contents. A broken message that has begun to
   be sent is assumed to be there as a whole, as it is unless its path alone fills the put area
   (`BrokenIsWhole`), and to choke: fewer bytes have followed it than the length that is misread from
   them, which is more than 65536 for each byte of the path that comes next (`MisreadLength`).
   */
  lemma ConvergesIff(s: State, schedule: seq<Step>, r: nat, path: Path)
    requires Initial(s) && Runs(s, schedule)
    requires var t := Final(s, schedule);
             Settled(t) && r < |t.receivers| && Follows(t, t.receivers[r])
             && (Broken(t.receivers[r]) ==> Choked(t.receivers[r]))
    ensures var t := Final(s, schedule);
            var x := t.receivers[r];
            var end := FilesAfterReplay(x, path);
            && (end == t.files <==> !Broken(x) && NoFalseDeletion(t.files, x))
            && (!Broken(x) ==> forall p :: p in end ==> p in t.files && end[p] == t.files[p])
            && (!Broken(x) && x.seen == |x.told| ==> x.files == end)
  {
    InitialInv(s);
    RunKeepsInv(s, schedule);
    RunKeepsTornInv(s, schedule);
    var t := Final(s, schedule);
    if Broken(t.receivers[r]) {
      BrokenNeverAgrees(t, r, path);
    } else {
      SettledIff(t, r);
      DrainedByReplay(t.receivers[r], path);
    }
  }

  // ---------- One broadcast ----------

  ghost function Tells(h: nat, order: seq<nat>): seq<Step> {
    if order == [] then [End(h)] else [Tell(h, order[0])] + Tells(h, order[1..])
  }

  ghost function ToldAll(rs: seq<Receiver>, who: set<nat>, op: Op): (ts: seq<Receiver>)
    ensures |ts| == |rs|
  {
    seq(|rs|, r requires 0 <= r < |rs| => if r in who then Told(rs[r], op) else rs[r])
  }

  ghost predicate DistinctTargets(order: seq<nat>, todo: set<nat>) {
    && (forall i, j :: 0 <= i < j < |order| ==> order[i] != order[j])
    && (forall r :: r in todo <==> r in order)
  }

  lemma {:induction false} TellsTellAll(s: State, h: nat, order: seq<nat>)
    requires h < |s.handlers| && s.handlers[h].progress.Telling?
    requires var p := s.handlers[h].progress;
             && DistinctTargets(order, p.todo) && (forall r :: r in p.todo ==> r < |s.receivers|)
             && (p.job.Uploading? ==> p.job.path in s.files)
    ensures Runs(s, Tells(h, order))
    ensures var p := s.handlers[h].progress;
            Final(s, Tells(h, order)) ==
              Advance(s, h, Ready).(receivers := ToldAll(s.receivers, p.todo, Message(s.files, p.job)), lock := Free)
    decreases |order|
  {
    var p := s.handlers[h].progress;
    var op := Message(s.files, p.job);
    if order == [] {
      assert p.todo == {};
      assert ToldAll(s.receivers, p.todo, op) == s.receivers;
      assert Final(s, [End(h)]) == Apply(s, End(h));
    } else {
      var r := order[0];
      assert r in p.todo;
      var t := Apply(s, Tell(h, r));
      assert forall i :: i in order[1..] <==> i in order && i != r by {
        assert order == [r] + order[1..];
      }
      TellsTellAll(t, h, order[1..]);
      assert ToldAll(t.receivers, p.todo - {r}, op) == ToldAll(s.receivers, p.todo, op);
      assert Tells(h, order)[1..] == Tells(h, order[1..]);
    }
  }

  /**
   A broadcast that nobody interrupts tells every receiver but the handler's own device exactly
   once, in whatever order the lists are walked.
   */
  lemma BroadcastTellsAll(s: State, h: nat, order: seq<nat>)
    requires Enabled(s, Begin(h)) && DistinctTargets(order, Targets(s, s.handlers[h].origin))
    requires s.handlers[h].progress.job.Uploading? ==> s.handlers[h].progress.job.path in s.files
    ensures var schedule := [Begin(h)] + Tells(h, order);
            && Runs(s, schedule)
            && Final(s, schedule) == Advance(s, h, Ready).(
                 receivers := ToldAll(s.receivers, Targets(s, s.handlers[h].origin),
                                      Message(s.files, s.handlers[h].progress.job)))
  {
    var schedule := [Begin(h)] + Tells(h, order);
    TellsTellAll(Apply(s, Begin(h)), h, order);
    assert schedule[1..] == Tells(h, order);
  }

  lemma {:induction false} RunsInTurn(s: State, first: seq<Step>, second: seq<Step>)
    requires Runs(s, first) && Runs(Final(s, first), second)
    ensures Runs(s, first + second) && Final(s, first + second) == Final(Final(s, first), second)
    decreases |first|
  {
    if first == [] {
      assert first + second == second;
    } else {
      assert (first + second)[1..] == first[1..] + second;
      RunsInTurn(Apply(s, first[0]), first[1..], second);
    }
  }

  lemma TwoSteps(s: State, a: Step, b: Step)
    requires Enabled(s, a) && Enabled(Apply(s, a), b)
    ensures Runs(s, [a, b]) && Final(s, [a, b]) == Apply(Apply(s, a), b)
  {
    assert [a, b][1..] == [b] && [b][1..] == [];
    assert Final(Apply(s, a), [b]) == Apply(Apply(s, a), b);
  }

  lemma OneStep(s: State, a: Step, rest: seq<Step>)
    requires Enabled(s, a) && Runs(Apply(s, a), rest)
    ensures Runs(s, [a] + rest) && Final(s, [a] + rest) == Final(Apply(s, a), rest)
  {
    assert ([a] + rest)[1..] == rest;
  }
}
