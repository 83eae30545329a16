/**
 With serialised operations the primary's changes are a log, and every backup replays it from its
 beginning, whichever handlers make the changes.
 */
module ReplicationLog {
  import opened Protocol
  import opened Replica
  import opened Replication

  /** A file is stored or removed only while no handler is in the middle of an operation. */
  ghost predicate Serial(s: State, step: Step) {
    step.Store? || step.Erase? ==> Settled(s)
  }

  ghost predicate AllSerial(s: State, schedule: seq<Step>)
    requires Runs(s, schedule)
    decreases |schedule|
  {
    schedule == [] || (Serial(s, schedule[0]) && AllSerial(Apply(s, schedule[0]), schedule[1..]))
  }

  /** The handler has still to tell receiver `r`. */
  ghost predicate Behind(p: Progress, r: nat) {
    p.Waiting? || (p.Telling? && r in p.todo)
  }

  ghost predicate SomeoneBehind(s: State, r: nat) {
    exists h :: 0 <= h < |s.handlers| && Behind(s.handlers[h].progress, r)
  }

  /** How much of the log is on its way to receiver `r` or has been replayed by it. */
  ghost function Announced(s: State, r: nat): (k: nat)
    ensures k <= |s.log|
  {
    if SomeoneBehind(s, r) && s.log != [] then |s.log| - 1 else |s.log|
  }

  /** A backup has replayed some operations from the beginning of the log, and the next ones are on their way. */
  ghost predicate FollowsLog(base: Files, s: State, r: nat)
    requires r < |s.receivers|
  {
    var x := s.receivers[r];
    && x.stream.Open? && x.seen <= Announced(s, r)
    && x.told == s.log[..Announced(s, r)]
    && x.files == AppliedAll(base, s.log[..x.seen])
  }

  /** The handler is busy with the last operation of the log. */
  ghost predicate OnLast(s: State, h: nat)
    requires h < |s.handlers| && !s.handlers[h].progress.Ready?
  {
    var job := s.handlers[h].progress.job;
    && s.log != [] && s.log[|s.log| - 1].path == job.path && (s.log[|s.log| - 1].Upload? <==> job.Uploading?)
    && (s.handlers[h].progress.Telling? ==> s.lock == Held(h))
  }

  ghost predicate LogInv(base: Files, s: State) {
    && s.files == AppliedAll(base, s.log)
    && (forall h :: 0 <= h < |s.handlers| && !s.handlers[h].progress.Ready? ==> OnLast(s, h))
    && (forall h, k :: 0 <= h < k < |s.handlers| ==> s.handlers[h].progress.Ready? || s.handlers[k].progress.Ready?)
    && (s.lock.Joining? ==> s.lock.newcomer.device.Some?)
    && (forall r :: 0 <= r < |s.receivers| && s.receivers[r].device.None? ==> FollowsLog(base, s, r))
  }

  lemma LogChange(base: Files, s: State, step: Step)
    requires LogInv(base, s) && Enabled(s, step) && Serial(s, step) && (step.Store? || step.Erase?)
    ensures LogInv(base, Apply(s, step))
  {
    var t := Apply(s, step);
    AppliedAllAppend(base, s.log, t.log[|s.log|]);
    forall r | 0 <= r < |t.receivers| && t.receivers[r].device.None? ensures FollowsLog(base, t, r) {
      assert FollowsLog(base, s, r);
      assert Behind(t.handlers[step.h].progress, r) && !SomeoneBehind(s, r);
      assert t.log[..|s.log|] == s.log[..|s.log|] && t.log[..s.receivers[r].seen] == s.log[..s.receivers[r].seen];
    }
  }

  /** What is told is the last operation of the log. */
  lemma LastMessage(base: Files, s: State, h: nat)
    requires LogInv(base, s) && h < |s.handlers| && !s.handlers[h].progress.Ready?
    ensures var job := s.handlers[h].progress.job; CanSend(s.files, job) && Message(s.files, job) == s.log[|s.log| - 1]
  {
    assert OnLast(s, h);
    var k := |s.log| - 1;
    assert s.log == s.log[..k] + [s.log[k]];
    AppliedAllAppend(base, s.log[..k], s.log[k]);
  }

  lemma LogTell(base: Files, s: State, h: nat, r: nat)
    requires LogInv(base, s) && Enabled(s, Tell(h, r))
    ensures LogInv(base, Apply(s, Tell(h, r)))
  {
    var t, k := Apply(s, Tell(h, r)), |s.log| - 1;
    LastMessage(base, s, h);
    forall i | 0 <= i < |t.receivers| && t.receivers[i].device.None? ensures FollowsLog(base, t, i) {
      assert FollowsLog(base, s, i);
      if i == r {
        assert Behind(s.handlers[h].progress, r) && !SomeoneBehind(t, r);
        assert s.log[..k] + [s.log[k]] == s.log[..k + 1];
      } else {
        SameBehind(s, t, i);
      }
    }
  }

  lemma SameBehind(s: State, t: State, r: nat)
    requires |t.handlers| == |s.handlers|
    requires forall h :: 0 <= h < |s.handlers| ==> Behind(t.handlers[h].progress, r) == Behind(s.handlers[h].progress, r)
    ensures SomeoneBehind(t, r) == SomeoneBehind(s, r)
  {
    if SomeoneBehind(s, r) {
      var h :| 0 <= h < |s.handlers| && Behind(s.handlers[h].progress, r);
      assert Behind(t.handlers[h].progress, r);
    }
  }

  lemma LogReceive(base: Files, s: State, r: nat)
    requires LogInv(base, s) && Enabled(s, Receive(r))
    ensures LogInv(base, Apply(s, Receive(r)))
  {
    var t := Apply(s, Receive(r));
    forall i | 0 <= i < |t.receivers| && t.receivers[i].device.None? ensures FollowsLog(base, t, i) {
      assert FollowsLog(base, s, i);
      SameBehind(s, t, i);
      if i == r {
        AppliedUpTo(base, s.log, s.receivers[i].seen);
      }
    }
  }

  lemma LogOther(base: Files, s: State, step: Step)
    requires LogInv(base, s) && Enabled(s, step)
    requires !(step.Store? || step.Erase? || step.Tell? || step.Receive?)
    ensures LogInv(base, Apply(s, step))
  {
    var t := Apply(s, step);
    if step.TellFail? {
      LastMessage(base, s, step.h);
    }
    forall i | 0 <= i < |t.receivers| && t.receivers[i].device.None? ensures FollowsLog(base, t, i) {
      assert FollowsLog(base, s, i);
      SameBehind(s, t, i);
    }
  }

  lemma {:induction false} LogRun(base: Files, s: State, schedule: seq<Step>)
    requires LogInv(base, s) && Runs(s, schedule) && AllSerial(s, schedule)
    ensures LogInv(base, Final(s, schedule))
    decreases |schedule|
  {
    if schedule != [] {
      var step := schedule[0];
      match step {
        case Store(_, _, _) => LogChange(base, s, step);
        case Erase(_, _) => LogChange(base, s, step);
        case Tell(h, r) => LogTell(base, s, h, r);
        case Receive(r) => LogReceive(base, s, r);
        case _ => LogOther(base, s, step);
      }
      LogRun(base, Apply(s, step), schedule[1..]);
    }
  }

  lemma {:induction false} AppliedInTurn(files: Files, first: seq<Op>, second: seq<Op>)
    ensures AppliedAll(files, first + second) == AppliedAll(AppliedAll(files, first), second)
    decreases |first|
  {
    if first == [] {
      assert first + second == second;
    } else {
      assert (first + second)[1..] == first[1..] + second;
      AppliedInTurn(Applied(files, first[0]), first[1..], second);
    }
  }

  /** What is on its way brings a receiver to all that it was told. */
  lemma DrainedIsAll(base: Files, x: Receiver)
    requires x.seen <= |x.told| && x.files == AppliedAll(base, x.told[..x.seen])
    ensures Drained(x) == AppliedAll(base, x.told)
  {
    AppliedInTurn(base, x.told[..x.seen], x.told[x.seen..]);
    assert x.told[..x.seen] + x.told[x.seen..] == x.told;
  }

  /**
   Replay of the log. When the operations of any number of handlers are serialised, at every moment
   the primary's files are its log replayed, every backup's files are a beginning of the log replayed,
   and the bytes on their way to the backup are the next stretch of the log, up to the last operation
   at most; replayed as well they give the files that the log has up to there, and exactly the
   primary's files when no operation is under way.
   */
  lemma BackupsReplayTheLog(s: State, schedule: seq<Step>, r: nat, path: Path)
    requires Initial(s) && Runs(s, schedule) && AllSerial(s, schedule)
    requires r < |Final(s, schedule).receivers| && Final(s, schedule).receivers[r].device.None?
    ensures var t := Final(s, schedule);
            var x := t.receivers[r];
            && t.files == AppliedAll(s.files, t.log)
            && x.seen <= |x.told| <= |t.log| <= |x.told| + 1
            && x.told == t.log[..|x.told|]
            && x.files == AppliedAll(s.files, t.log[..x.seen])
            && FilesAfterReplay(x, path) == AppliedAll(s.files, x.told)
            && (Settled(t) ==> FilesAfterReplay(x, path) == t.files)
  {
    LogRun(s.files, s, schedule);
    var t := Final(s, schedule);
    assert ToldOk(t.receivers[r]) by {
      InitialInv(s);
      RunKeepsInv(s, schedule);
    }
    assert FollowsLog(s.files, t, r);
    var x := t.receivers[r];
    assert x.told[..x.seen] == t.log[..x.seen];
    DrainedIsAll(s.files, x);
    DrainedByReplay(x, path);
    assert Settled(t) ==> !SomeoneBehind(t, r);
    assert t.log[..|t.log|] == t.log;
  }

  lemma {:induction false} OneHandlerSerial(s: State, schedule: seq<Step>)
    requires |s.handlers| == 1 && Runs(s, schedule)
    ensures AllSerial(s, schedule)
    decreases |schedule|
  {
    if schedule != [] {
      OneHandlerSerial(Apply(s, schedule[0]), schedule[1..]);
    }
  }
}
