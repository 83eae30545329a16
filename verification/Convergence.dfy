/**
 When the receivers get exactly the primary's files: if deletions are told in time, hence if the
 handlers do not get in each other's way, hence with uploads alone and with a single handler; and
 a run of two handlers in which a backup does not.
 */
module Convergence {
  import SocketStream
  import opened Wrappers
  import opened Protocol
  import opened Replica
  import opened Replication

  /**
   A handler looks before it tells: of a deletion only while the file is not there, of an upload only
   while it is.
   */
  ghost predicate Timely(s: State, step: Step) {
    (step.Tell? || step.TellFail?) && AboutToTell(s, step.h, step.r) ==>
      var job := s.handlers[step.h].progress.job;
      job.Uploading? <==> job.path in s.files
  }

  /** A receiver that has been told agrees on the file, unless it was told of a deletion while the file is there. */
  lemma ToldAgreesIff(s: State, h: nat, r: nat)
    requires Inv(s) && Enabled(s, Tell(h, r))
    ensures var t, path := Apply(s, Tell(h, r)), s.handlers[h].progress.job.path;
            AgreeOn(t.files, Drained(t.receivers[r]), path) <==> Timely(s, Tell(h, r))
  {
    assert ToldOk(s.receivers[r]);
    DrainedTold(s.receivers[r], Message(s.files, s.handlers[h].progress.job));
  }

  ghost predicate AllTimely(s: State, schedule: seq<Step>)
    requires Runs(s, schedule)
    decreases |schedule|
  {
    schedule == [] || (Timely(s, schedule[0]) && AllTimely(Apply(s, schedule[0]), schedule[1..]))
  }

  /** No stream is torn, and whoever was told last that a file is gone, which is there, is owed a message about it. */
  ghost predicate TimelyInv(s: State) {
    && (forall r :: 0 <= r < |s.receivers| ==> !s.receivers[r].stream.Torn?)
    && (forall r, p :: 0 <= r < |s.receivers| && Follows(s, s.receivers[r]) && p in s.files ==>
          LastIsDelete(s.receivers[r].told, p) ==> SomeoneOwes(s, r, p))
    && (s.lock.Joining? ==> forall p :: !LastIsDelete(s.lock.newcomer.told, p))
  }

  lemma TimelyTell(s: State, step: Step)
    requires Inv(s) && TimelyInv(s) && Enabled(s, step) && Timely(s, step) && step.Tell?
    ensures TimelyInv(Apply(s, step))
  {
    var t := Apply(s, step);
    var job := s.handlers[step.h].progress.job;
    ToldKeepsOk(s.receivers[step.r], Message(s.files, job));
    forall r, p | 0 <= r < |t.receivers| && Follows(t, t.receivers[r]) && p in t.files
                  && LastIsDelete(t.receivers[r].told, p)
      ensures SomeoneOwes(t, r, p)
    {
      assert r != step.r || p != job.path;
      DebtStays(s, t, r, p);
    }
  }

  lemma TimelyJoin(s: State, step: Step)
    requires Inv(s) && TimelyInv(s) && Enabled(s, step)
    requires step.JoinBegin? || step.JoinSend? || step.JoinEnd? || step.JoinFail?
    ensures TimelyInv(Apply(s, step))
  {
    SameHandlersOwe(s, Apply(s, step));
    if step.JoinSend? {
      ToldKeepsOk(s.lock.newcomer, Upload(step.path, s.files[step.path]));
    }
  }

  lemma TimelyChange(s: State, step: Step)
    requires Inv(s) && TimelyInv(s) && Enabled(s, step) && (step.Store? || step.Erase?)
    ensures TimelyInv(Apply(s, step))
  {
    var t := Apply(s, step);
    forall r, p | 0 <= r < |t.receivers| && Follows(t, t.receivers[r]) && p in t.files
                  && LastIsDelete(t.receivers[r].told, p)
      ensures SomeoneOwes(t, r, p)
    {
      if step.path == p {
        OwesWitness(t, r, p, step.h);
      } else {
        DebtStays(s, t, r, p);
      }
    }
  }

  lemma TimelyOther(s: State, step: Step)
    requires Inv(s) && TimelyInv(s) && Enabled(s, step)
    requires step.Begin? || step.End? || step.Receive? || step.Leave?
    ensures TimelyInv(Apply(s, step))
  {
    var t := Apply(s, step);
    forall r, p | 0 <= r < |t.receivers| && Follows(t, t.receivers[r]) && p in t.files
                  && LastIsDelete(t.receivers[r].told, p)
      ensures SomeoneOwes(t, r, p)
    {
      assert t.receivers[r].told == s.receivers[r].told;
      DebtStays(s, t, r, p);
    }
  }

  lemma {:induction false} RunKeepsTimelyInv(s: State, schedule: seq<Step>)
    requires Inv(s) && TimelyInv(s) && Runs(s, schedule) && AllTimely(s, schedule)
    ensures TimelyInv(Final(s, schedule))
    decreases |schedule|
  {
    if schedule != [] {
      var step := schedule[0];
      StepKeepsInv(s, step);
      match step {
        case Store(_, _, _) => TimelyChange(s, step);
        case Erase(_, _) => TimelyChange(s, step);
        case Tell(_, _) => TimelyTell(s, step);
        case TellFail(_, _) => assert false;
        case JoinBegin(_) => TimelyJoin(s, step);
        case JoinSend(_) => TimelyJoin(s, step);
        case JoinEnd => TimelyJoin(s, step);
        case JoinFail(_) => TimelyJoin(s, step);
        case _ => TimelyOther(s, step);
      }
      RunKeepsTimelyInv(Apply(s, step), schedule[1..]);
    }
  }

  /**
   If every handler looks before it tells, every backup gets exactly the primary's files, and so does
   every device that has its whole snapshot and changes nothing itself.
   */
  lemma TimelyConverges(s: State, schedule: seq<Step>, r: nat, path: Path)
    requires Initial(s) && Runs(s, schedule) && AllTimely(s, schedule)
    requires var t := Final(s, schedule);
             Settled(t) && r < |t.receivers| && Follows(t, t.receivers[r])
    ensures var t := Final(s, schedule); FilesAfterReplay(t.receivers[r], path) == t.files
  {
    InitialInv(s);
    RunKeepsTimelyInv(s, schedule);
    TimelyAtRest(Final(s, schedule), r);
    ConvergesIff(s, schedule, r, path);
  }

  lemma TimelyAtRest(t: State, r: nat)
    requires TimelyInv(t) && Settled(t) && r < |t.receivers| && Follows(t, t.receivers[r])
    ensures !Broken(t.receivers[r]) && NoFalseDeletion(t.files, t.receivers[r])
  {
    assert forall p :: !SomeoneOwes(t, r, p);
  }

  // ---------- Order between handlers ----------

  /**
   When a change does not get in the way of another one: a file is removed only while nobody else
   is still to tell of it, and stored only while nobody else is still to tell of its removal.
   */
  ghost predicate Orderly(s: State, step: Step) {
    match step
    case Store(h, path, _) =>
      forall k :: 0 <= k < |s.handlers| && k != h ==> !(On(s.handlers[k].progress, path) && s.handlers[k].progress.job.Deleting?)
    case Erase(h, path) =>
      forall k :: 0 <= k < |s.handlers| && k != h ==> !On(s.handlers[k].progress, path)
    case _ => true
  }

  ghost predicate AllOrderly(s: State, schedule: seq<Step>)
    requires Runs(s, schedule)
    decreases |schedule|
  {
    schedule == [] || (Orderly(s, schedule[0]) && AllOrderly(Apply(s, schedule[0]), schedule[1..]))
  }

  /** A file to tell of is there, and a removed one is not. */
  ghost predicate JobsHold(s: State) {
    forall h :: 0 <= h < |s.handlers| && !s.handlers[h].progress.Ready? ==>
      (s.handlers[h].progress.job.Uploading? <==> s.handlers[h].progress.job.path in s.files)
  }

  lemma OrderlyKeepsJobs(s: State, step: Step)
    requires JobsHold(s) && Enabled(s, step) && Orderly(s, step)
    ensures JobsHold(Apply(s, step)) && Timely(s, step) && !step.TellFail?
  {
  }

  lemma {:induction false} OrderlyIsTimely(s: State, schedule: seq<Step>)
    requires JobsHold(s) && Runs(s, schedule) && AllOrderly(s, schedule)
    ensures AllTimely(s, schedule) && JobsHold(Final(s, schedule))
    decreases |schedule|
  {
    if schedule != [] {
      OrderlyKeepsJobs(s, schedule[0]);
      OrderlyIsTimely(Apply(s, schedule[0]), schedule[1..]);
    }
  }

  /** In orderly runs receivers converge, and no broadcast fails for a missing file. */
  lemma OrderlyConverges(s: State, schedule: seq<Step>, r: nat, path: Path)
    requires Initial(s) && Runs(s, schedule) && AllOrderly(s, schedule)
    ensures var t := Final(s, schedule);
            && (forall h, i :: AboutToTell(t, h, i) ==> Enabled(t, Tell(h, i)))
            && (Settled(t) && r < |t.receivers| && Follows(t, t.receivers[r]) ==>
                  FilesAfterReplay(t.receivers[r], path) == t.files)
  {
    OrderlyIsTimely(s, schedule);
    var t := Final(s, schedule);
    if Settled(t) && r < |t.receivers| && Follows(t, t.receivers[r]) {
      TimelyConverges(s, schedule, r, path);
    }
  }

  /** Nothing is ever removed. */
  ghost predicate OnlyStores(schedule: seq<Step>) {
    forall k :: 0 <= k < |schedule| ==> !schedule[k].Erase?
  }

  /** Nothing was removed so far: there is no deletion to tell of, and every stream is whole. */
  ghost predicate Growing(s: State) {
    && (forall h :: 0 <= h < |s.handlers| && !s.handlers[h].progress.Ready? ==>
          s.handlers[h].progress.job.Uploading? && s.handlers[h].progress.job.path in s.files)
    && (s.lock.Joining? ==> s.lock.left <= s.files.Keys && s.lock.newcomer.stream.Open?)
    && (forall r :: 0 <= r < |s.receivers| ==> s.receivers[r].stream.Open? || s.receivers[r].stream.Gone?)
  }

  lemma GrowingStep(s: State, step: Step)
    requires Growing(s) && Enabled(s, step) && !step.Erase?
    ensures Growing(Apply(s, step)) && Orderly(s, step)
  {
  }

  lemma {:induction false} OnlyStoresOrderly(s: State, schedule: seq<Step>)
    requires Growing(s) && Runs(s, schedule) && OnlyStores(schedule)
    ensures AllOrderly(s, schedule) && Growing(Final(s, schedule))
    decreases |schedule|
  {
    if schedule != [] {
      assert !schedule[0].Erase?;
      GrowingStep(s, schedule[0]);
      OnlyStoresOrderly(Apply(s, schedule[0]), schedule[1..]);
    }
  }

  /**
   Uploads alone converge whatever their interleaving: even when several handlers store the same
   file at once and their broadcasts come in another order, since each of them sends the content
   that the file has by then. No stream is torn and every join succeeds.
   */
  lemma UploadsConverge(s: State, schedule: seq<Step>, r: nat, path: Path)
    requires Initial(s) && Runs(s, schedule) && OnlyStores(schedule)
    requires var t := Final(s, schedule); Settled(t) && r < |t.receivers| && !t.receivers[r].stream.Gone?
    requires var t := Final(s, schedule); t.receivers[r].device.Some? ==> t.receivers[r].device.value !in t.acted
    ensures var t := Final(s, schedule); t.receivers[r].stream.Open? && FilesAfterReplay(t.receivers[r], path) == t.files
  {
    OnlyStoresOrderly(s, schedule);
    OrderlyConverges(s, schedule, r, path);
  }

  lemma {:induction false} OneHandlerOrderly(s: State, schedule: seq<Step>)
    requires |s.handlers| == 1 && Runs(s, schedule)
    ensures AllOrderly(s, schedule)
    decreases |schedule|
  {
    if schedule != [] {
      OneHandlerOrderly(Apply(s, schedule[0]), schedule[1..]);
    }
  }

  /**
   A device that joins anywhere between the changes and broadcasts of one handler misses nothing,
   unless its own snapshot is broken off.
   */
  lemma OneHandlerConverges(s: State, schedule: seq<Step>, r: nat, path: Path)
    requires Initial(s) && |s.handlers| == 1 && Runs(s, schedule)
    requires var t := Final(s, schedule);
             Settled(t) && r < |t.receivers| && Follows(t, t.receivers[r])
    ensures var t := Final(s, schedule); FilesAfterReplay(t.receivers[r], path) == t.files
  {
    OneHandlerOrderly(s, schedule);
    OrderlyConverges(s, schedule, r, path);
  }

  // ---------- A torn stream ----------

  /** Two handlers and one backup, which had nothing at first and has replayed nothing yet. */
  ghost function Tearing(files: Files, p0: Progress, p1: Progress, told: seq<Op>, stream: Stream, log: seq<Op>): State {
    State(files, [Handler(1, p0), Handler(2, p1)], [Receiver(None, map[], told, 0, 0, stream)], Free, {1, 2}, log)
  }

  /** The beginning of the message is in the put area, unless that has run over. */
  ghost function TornFirst(p: Path): Stream {
    Torn(0, p, [], |Part(p)| - SocketStream.Unsent(0, |Part(p)|))
  }

  /** It has been sent with what follows it. */
  ghost function TornThen(p: Path, rest: seq<SocketStream.Byte>): Stream {
    Torn(0, p, rest, |Part(p)| + |rest|)
  }

  lemma TearingChanges(p: Path) returns (s: State)
    requires ValidOp(Upload(p, []))
    ensures Initial(s) && |s.receivers| == 1 && |s.handlers| == 2
    ensures Runs(s, [Store(0, p, []), Erase(1, p)])
    ensures Final(s, [Store(0, p, []), Erase(1, p)])
         == Tearing(map[], Waiting(Uploading(p)), Waiting(Deleting(p)), [], Open, [Upload(p, []), Delete(p)])
  {
    s := State(map[], [Handler(1, Ready), Handler(2, Ready)], [Receiver(None, map[], [], 0, 0, Open)], Free, {}, []);
    TwoSteps(s, Store(0, p, []), Erase(1, p));
    var t := Apply(Apply(s, Store(0, p, [])), Erase(1, p));
    assert t.files == map[] && t.acted == {1, 2} && t.log == [Upload(p, []), Delete(p)];
  }

  /** The upload is told of when the file is gone. */
  lemma TearingFails(p: Path, log: seq<Op>)
    ensures var s := Tearing(map[], Waiting(Uploading(p)), Waiting(Deleting(p)), [], Open, log);
            && Runs(s, [Begin(0), TellFail(0, 0)])
            && Final(s, [Begin(0), TellFail(0, 0)])
                 == Tearing(map[], Ready, Waiting(Deleting(p)), [], TornFirst(p), log)
  {
    var s := Tearing(map[], Waiting(Uploading(p)), Waiting(Deleting(p)), [], Open, log);
    assert Targets(s, 1) == {0};
    TwoSteps(s, Begin(0), TellFail(0, 0));
    var t := Tearing(map[], Ready, Waiting(Deleting(p)), [], TornFirst(p), log);
    assert Apply(Apply(s, Begin(0)), TellFail(0, 0)).handlers == t.handlers;
  }

  /** A broadcast of handler `h` to the backup with the torn stream. */
  lemma TearingBroadcast(s: State, h: nat, op: Op, t: State)
    requires |s.handlers| == 2 && h < 2 && |s.receivers| == 1 && s.receivers[0].device == None && !s.receivers[0].stream.Gone?
    requires Enabled(s, Begin(h)) && CanSend(s.files, s.handlers[h].progress.job)
    requires op == Message(s.files, s.handlers[h].progress.job)
    requires t == Advance(s, h, Ready).(receivers := [Told(s.receivers[0], op)])
    ensures Runs(s, [Begin(h)] + Tells(h, [0])) && Final(s, [Begin(h)] + Tells(h, [0])) == t
  {
    assert Targets(s, s.handlers[h].origin) == {0};
    BroadcastTellsAll(s, h, [0]);
    assert ToldAll(s.receivers, {0}, op) == [Told(s.receivers[0], op)];
  }

  lemma TearingDeletes(p: Path, log: seq<Op>)
    ensures var s := Tearing(map[], Ready, Waiting(Deleting(p)), [], TornFirst(p), log);
            var schedule := [Begin(1)] + Tells(1, [0]);
            && Runs(s, schedule)
            && Final(s, schedule) == Tearing(map[], Ready, Ready, [Delete(p)], TornThen(p, Encode(Delete(p))), log)
  {
    var s := Tearing(map[], Ready, Waiting(Deleting(p)), [], TornFirst(p), log);
    var t := Tearing(map[], Ready, Ready, [Delete(p)], TornThen(p, Encode(Delete(p))), log);
    assert [] + Encode(Delete(p)) == Encode(Delete(p)) && [] + [Delete(p)] == [Delete(p)];
    assert Advance(s, 1, Ready).handlers == t.handlers;
    TearingBroadcast(s, 1, Delete(p), t);
  }

  lemma TearingStores(p: Path, q: Path, log: seq<Op>)
    requires ValidOp(Upload(q, []))
    ensures var s := Tearing(map[], Ready, Ready, [Delete(p)], TornThen(p, Encode(Delete(p))), log);
            && Enabled(s, Store(0, q, []))
            && Apply(s, Store(0, q, [])) == Tearing(map[q := []], Waiting(Uploading(q)), Ready, [Delete(p)],
                                                    TornThen(p, Encode(Delete(p))), log + [Upload(q, [])])
  {
    var s := Tearing(map[], Ready, Ready, [Delete(p)], TornThen(p, Encode(Delete(p))), log);
    assert Apply(s, Store(0, q, [])).acted == {1, 2};
  }

  lemma TearingUploads(p: Path, q: Path, log: seq<Op>)
    ensures var s := Tearing(map[q := []], Waiting(Uploading(q)), Ready, [Delete(p)], TornThen(p, Encode(Delete(p))), log);
            var schedule := [Begin(0)] + Tells(0, [0]);
            && Runs(s, schedule)
            && Final(s, schedule) == Tearing(map[q := []], Ready, Ready, [Delete(p), Upload(q, [])],
                                             TornThen(p, Encode(Delete(p)) + Encode(Upload(q, []))), log)
  {
    var s := Tearing(map[q := []], Waiting(Uploading(q)), Ready, [Delete(p)], TornThen(p, Encode(Delete(p))), log);
    var t := Tearing(map[q := []], Ready, Ready, [Delete(p), Upload(q, [])],
                     TornThen(p, Encode(Delete(p)) + Encode(Upload(q, []))), log);
    assert [Delete(p)] + [Upload(q, [])] == [Delete(p), Upload(q, [])];
    assert Advance(s, 0, Ready).handlers == t.handlers;
    TearingBroadcast(s, 0, Upload(q, []), t);
  }

  /** Of a deletion a handler tells only while the file is not there. */
  ghost predicate DeletionsInTime(s: State, schedule: seq<Step>)
    requires Runs(s, schedule)
    decreases |schedule|
  {
    schedule == [] ||
    ((schedule[0].Tell? && s.handlers[schedule[0].h].progress.job.Deleting? ==> Timely(s, schedule[0]))
     && DeletionsInTime(Apply(s, schedule[0]), schedule[1..]))
  }

  /** While `p` stays away and only its deletion is told, deletions are told in time. */
  lemma {:induction false} AbsentInTime(s: State, schedule: seq<Step>, p: Path)
    requires Runs(s, schedule) && p !in s.files
    requires forall h :: 0 <= h < |s.handlers| && !s.handlers[h].progress.Ready? && s.handlers[h].progress.job.Deleting? ==>
               s.handlers[h].progress.job.path == p
    requires forall k :: 0 <= k < |schedule| ==> !schedule[k].Erase? && !(schedule[k].Store? && schedule[k].path == p)
    ensures DeletionsInTime(s, schedule)
    decreases |schedule|
  {
    if schedule != [] {
      assert !schedule[0].Erase? && !(schedule[0].Store? && schedule[0].path == p);
      assert forall k :: 0 <= k < |schedule| - 1 ==> schedule[1..][k] == schedule[k + 1];
      AbsentInTime(Apply(s, schedule[0]), schedule[1..], p);
    }
  }

  lemma TearingRun(p: Path, q: Path) returns (s: State, schedule: seq<Step>)
    requires ValidOp(Upload(p, [])) && ValidOp(Upload(q, [])) && p != q
    ensures Initial(s) && |s.receivers| == 1 && |s.handlers| == 2 && Runs(s, schedule) && DeletionsInTime(s, schedule)
    ensures Final(s, schedule) == Tearing(map[q := []], Ready, Ready, [Delete(p), Upload(q, [])],
              TornThen(p, Encode(Delete(p)) + Encode(Upload(q, []))), [Upload(p, []), Delete(p)] + [Upload(q, [])])
  {
    s := TearingChanges(p);
    var log := [Upload(p, []), Delete(p)];
    var changes, fail := [Store(0, p, []), Erase(1, p)], [Begin(0), TellFail(0, 0)];
    var down, store := [Begin(1)] + Tells(1, [0]), [Store(0, q, [])] + ([Begin(0)] + Tells(0, [0]));
    TearingFails(p, log);
    TearingDeletes(p, log);
    TearingStores(p, q, log);
    TearingUploads(p, q, log + [Upload(q, [])]);
    OneStep(Tearing(map[], Ready, Ready, [Delete(p)], TornThen(p, Encode(Delete(p))), log), Store(0, q, []),
            [Begin(0)] + Tells(0, [0]));
    RunsInTurn(Tearing(map[], Ready, Waiting(Deleting(p)), [], TornFirst(p), log), down, store);
    RunsInTurn(Final(s, changes), fail, down + store);
    RunsInTurn(s, changes, fail + (down + store));
    schedule := changes + (fail + (down + store));
    TearingLater(p, q);
    TearingInTime(s, fail + (down + store), p);
  }

  lemma FirstInTime(s: State, step: Step, later: seq<Step>)
    requires Runs(s, [step] + later) && !step.Tell?
    ensures Runs(Apply(s, step), later)
    ensures DeletionsInTime(Apply(s, step), later) ==> DeletionsInTime(s, [step] + later)
  {
    assert ([step] + later)[1..] == later;
  }

  lemma TwoInTime(s: State, a: Step, b: Step, later: seq<Step>)
    requires Runs(s, [a, b] + later) && !a.Tell? && !b.Tell?
    ensures Enabled(s, a) && Enabled(Apply(s, a), b) && Runs(Apply(Apply(s, a), b), later)
    ensures DeletionsInTime(Apply(Apply(s, a), b), later) ==> DeletionsInTime(s, [a, b] + later)
  {
    assert [a, b] + later == [a] + ([b] + later);
    FirstInTime(s, a, [b] + later);
    assert Enabled(Apply(s, a), ([b] + later)[0]);
    FirstInTime(Apply(s, a), b, later);
  }

  lemma TearingInTime(s: State, later: seq<Step>, p: Path)
    requires Runs(s, [Store(0, p, []), Erase(1, p)] + later) && |s.handlers| == 2
    requires forall h :: 0 <= h < 2 ==> s.handlers[h].progress.Ready?
    requires forall k :: 0 <= k < |later| ==> !later[k].Erase? && !(later[k].Store? && later[k].path == p)
    ensures DeletionsInTime(s, [Store(0, p, []), Erase(1, p)] + later)
  {
    TwoInTime(s, Store(0, p, []), Erase(1, p), later);
    ErasedInTime(Apply(s, Store(0, p, [])), 1, p, later);
  }

  lemma ErasedInTime(t: State, h: nat, p: Path, later: seq<Step>)
    requires Enabled(t, Erase(h, p)) && Runs(Apply(t, Erase(h, p)), later)
    requires forall k :: 0 <= k < |t.handlers| && !t.handlers[k].progress.Ready? ==> t.handlers[k].progress.job.Uploading?
    requires forall k :: 0 <= k < |later| ==> !later[k].Erase? && !(later[k].Store? && later[k].path == p)
    ensures DeletionsInTime(Apply(t, Erase(h, p)), later)
  {
    AbsentInTime(Apply(t, Erase(h, p)), later, p);
  }

  lemma TearingLater(p: Path, q: Path)
    requires p != q
    ensures var later := [Begin(0), TellFail(0, 0)]
                         + (([Begin(1)] + Tells(1, [0])) + ([Store(0, q, [])] + ([Begin(0)] + Tells(0, [0]))));
            forall k :: 0 <= k < |later| ==> !later[k].Erase? && !(later[k].Store? && later[k].path == p)
  {
    assert Tells(1, [0]) == [Tell(1, 0), End(1)] && Tells(0, [0]) == [Tell(0, 0), End(0)];
  }

  lemma TornLeaves(x: Receiver, p: Path, rest: seq<SocketStream.Byte>, path: Path)
    requires ToldOk(x) && x.files == map[] && x.seen == 0 && x.stream == TornThen(p, rest) && Chokes(rest)
    ensures FilesAfterReplay(x, path).Keys == {p}
  {
    assert rest[..|rest|] == rest;
    BrokenByReplay(x, path, rest);
  }

  /**
   Telling deletions in time is not enough. Handler 0 stores `p`, handler 1 removes it before handler 0
   tells of it, so that the broadcast breaks off, and then tells of the removal; handler 0 stores `q`
   and tells of it. No deletion was ever told of a file that was there. The backup takes what follows
   the broken message for the content of `p`, and lacks `q` for good.
   */
  lemma TornDiverges(p: Path, q: Path) returns (s: State, schedule: seq<Step>)
    requires ValidOp(Upload(p, [])) && ValidOp(Upload(q, [])) && p != q
    requires |p| < Power256(LENGTH - 2) && |Encode(Delete(p)) + Encode(Upload(q, []))| <= 65536 * |p|
    ensures Initial(s) && Runs(s, schedule) && DeletionsInTime(s, schedule)
    ensures var t := Final(s, schedule);
            && Settled(t) && |t.receivers| == 1 && t.receivers[0].device == None && NoFalseDeletion(t.files, t.receivers[0])
            && forall path :: var end := FilesAfterReplay(t.receivers[0], path);
                 q in t.files && q !in end && p in end && p !in t.files
  {
    s, schedule := TearingRun(p, q);
    var t := Final(s, schedule);
    var x := t.receivers[0];
    ShortRestChokes(Delete(p), Encode(Upload(q, [])));
    InitialInv(s);
    RunKeepsInv(s, schedule);
    assert ToldOk(x);
    LastIsDeleteTold([Delete(p)], Upload(q, []), q);
    assert x.told == [Delete(p)] + [Upload(q, [])];
    forall path ensures FilesAfterReplay(x, path).Keys == {p} {
      TornLeaves(x, p, x.stream.rest, path);
    }
  }

  // ---------- Overlapping broadcasts ----------

  /** Two handlers and one backup, with one file that the primary has and the backup had at first. */
  ghost function Overlapping(path: Path, content: seq<SocketStream.Byte>, p0: Progress, p1: Progress, told: seq<Op>): State {
    State(map[path := content], [Handler(1, p0), Handler(2, p1)],
          [Receiver(None, map[path := content], told, 0, 0, Open)], Free, {1, 2}, [Delete(path), Upload(path, content)])
  }

  lemma OverlapFirstBroadcast(path: Path, content: seq<SocketStream.Byte>)
    ensures var s := Overlapping(path, content, Waiting(Deleting(path)), Waiting(Uploading(path)), []);
            var schedule := [Begin(1)] + Tells(1, [0]);
            Runs(s, schedule) && Final(s, schedule) ==
              Overlapping(path, content, Waiting(Deleting(path)), Ready, [Upload(path, content)])
  {
    var s := Overlapping(path, content, Waiting(Deleting(path)), Waiting(Uploading(path)), []);
    assert Targets(s, 2) == {0};
    BroadcastTellsAll(s, 1, [0]);
    var t := Overlapping(path, content, Waiting(Deleting(path)), Ready, [Upload(path, content)]);
    assert s.receivers[0].told + [Upload(path, content)] == t.receivers[0].told;
    assert ToldAll(s.receivers, {0}, Upload(path, content)) == t.receivers;
    assert Advance(s, 1, Ready).handlers == t.handlers;
  }

  lemma OverlapSecondBroadcast(path: Path, content: seq<SocketStream.Byte>)
    ensures var s := Overlapping(path, content, Waiting(Deleting(path)), Ready, [Upload(path, content)]);
            var schedule := [Begin(0)] + Tells(0, [0]);
            Runs(s, schedule) && Final(s, schedule) ==
              Overlapping(path, content, Ready, Ready, [Upload(path, content), Delete(path)])
  {
    var s := Overlapping(path, content, Waiting(Deleting(path)), Ready, [Upload(path, content)]);
    assert Targets(s, 1) == {0};
    BroadcastTellsAll(s, 0, [0]);
    var t := Overlapping(path, content, Ready, Ready, [Upload(path, content), Delete(path)]);
    assert s.receivers[0].told + [Delete(path)] == t.receivers[0].told;
    assert ToldAll(s.receivers, {0}, Delete(path)) == t.receivers;
    assert Advance(s, 0, Ready).handlers == t.handlers;
  }

  lemma OverlapReplay(path: Path, content: seq<SocketStream.Byte>)
    ensures var s := Overlapping(path, content, Ready, Ready, [Upload(path, content), Delete(path)]);
            var schedule := [Receive(0), Receive(0)];
            && Runs(s, schedule)
            && var t := Final(s, schedule);
               && Settled(t) && |t.receivers| == 1 && Follows(t, t.receivers[0]) && t.receivers[0].seen == |t.receivers[0].told|
               && path in t.files && path !in t.receivers[0].files && LastIsDelete(t.receivers[0].told, path)
  {
    var s := Overlapping(path, content, Ready, Ready, [Upload(path, content), Delete(path)]);
    var t := Apply(s, Receive(0));
    assert [Receive(0), Receive(0)][1..] == [Receive(0)];
    assert Runs(t, [Receive(0)]) && Final(t, [Receive(0)]) == Apply(t, Receive(0));
  }

  lemma OverlapChanges(path: Path, content: seq<SocketStream.Byte>) returns (s: State, changes: seq<Step>)
    requires ValidOp(Upload(path, content))
    ensures Initial(s) && Runs(s, changes) && !AllOrderly(s, changes) && |changes| == 2
    ensures Final(s, changes) == Overlapping(path, content, Waiting(Deleting(path)), Waiting(Uploading(path)), [])
  {
    s := State(map[path := content], [Handler(1, Ready), Handler(2, Ready)],
               [Receiver(None, map[path := content], [], 0, 0, Open)], Free, {}, []);
    changes := [Erase(0, path), Store(1, path, content)];
    var t := Apply(s, changes[0]);
    assert changes[1..] == [changes[1]];
    assert On(t.handlers[0].progress, path);
    assert !Orderly(t, changes[1]);
    assert Final(t, changes[1..]) == Apply(t, changes[1]);
    assert Apply(t, changes[1]).acted == {1, 2};
  }

  lemma {:induction false} DisorderStays(s: State, first: seq<Step>, second: seq<Step>)
    requires Runs(s, first) && Runs(s, first + second) && !AllOrderly(s, first)
    ensures !AllOrderly(s, first + second)
    decreases |first|
  {
    assert (first + second)[1..] == first[1..] + second;
    if Orderly(s, first[0]) {
      DisorderStays(Apply(s, first[0]), first[1..], second);
    }
  }

  /**
   Without order the copies may differ for good. Handler 0 removes a file and handler 1 stores it
   again before the removal has been broadcast; when the broadcasts come in the other order, the
   primary ends with the file and the backup without it.
   */
  lemma OverlapDiverges(path: Path, content: seq<SocketStream.Byte>) returns (s: State, schedule: seq<Step>)
    requires ValidOp(Upload(path, content))
    ensures Initial(s) && Runs(s, schedule) && !AllOrderly(s, schedule)
    ensures var t := Final(s, schedule);
            && Settled(t) && |t.receivers| == 1 && Follows(t, t.receivers[0]) && t.receivers[0].seen == |t.receivers[0].told|
            && path in t.files && path !in t.receivers[0].files && LastIsDelete(t.receivers[0].told, path)
  {
    var changes;
    s, changes := OverlapChanges(path, content);
    var up, down, replay := [Begin(1)] + Tells(1, [0]), [Begin(0)] + Tells(0, [0]), [Receive(0), Receive(0)];
    OverlapFirstBroadcast(path, content);
    OverlapSecondBroadcast(path, content);
    OverlapReplay(path, content);
    RunsInTurn(Overlapping(path, content, Waiting(Deleting(path)), Ready, [Upload(path, content)]), down, replay);
    RunsInTurn(Final(s, changes), up, down + replay);
    RunsInTurn(s, changes, up + (down + replay));
    schedule := changes + (up + (down + replay));
    DisorderStays(s, changes, up + (down + replay));
  }
}
