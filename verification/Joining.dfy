/**
 Devices whose snapshot is broken off, since a listed file is removed before it is sent.
 */
module Joining {
  import opened Protocol
  import opened Replica
  import opened Replication

  /** The files listed and not yet sent are there. */
  ghost predicate ListedAreThere(s: State) {
    s.lock.Joining? ==> s.lock.left <= s.files.Keys
  }

  /** While all listed files are there, a step leaves one missing exactly if it removes one of them. */
  lemma ListedGoMissingIff(s: State, step: Step)
    requires Enabled(s, step) && ListedAreThere(s)
    ensures !step.JoinFail?
    ensures !ListedAreThere(Apply(s, step)) <==> step.Erase? && s.lock.Joining? && step.path in s.lock.left
  {
    if step.Erase? && s.lock.Joining? && step.path in s.lock.left {
      assert step.path !in Apply(s, step).files;
    }
  }

  /** The steps of a join and of whatever happens in between, up to the one that ends it. */
  ghost predicate UntilJoined(schedule: seq<Step>)
    decreases |schedule|
  {
    && schedule != []
    && var ends := schedule[0].JoinEnd? || schedule[0].JoinFail?;
       if |schedule| == 1 then ends else !ends && UntilJoined(schedule[1..])
  }

  /** No file is removed that is listed and not sent yet. */
  ghost predicate AllSpared(s: State, schedule: seq<Step>)
    requires Runs(s, schedule)
    decreases |schedule|
  {
    schedule == [] ||
    (!(schedule[0].Erase? && s.lock.Joining? && schedule[0].path in s.lock.left)
     && AllSpared(Apply(s, schedule[0]), schedule[1..]))
  }

  /** If no listed file is removed before it is sent, no join fails. */
  lemma {:induction false} SparedJoinsSucceed(s: State, schedule: seq<Step>)
    requires ListedAreThere(s) && Runs(s, schedule) && AllSpared(s, schedule)
    ensures ListedAreThere(Final(s, schedule)) && forall k :: 0 <= k < |schedule| ==> !schedule[k].JoinFail?
    decreases |schedule|
  {
    if schedule != [] {
      ListedGoMissingIff(s, schedule[0]);
      SparedJoinsSucceed(Apply(s, schedule[0]), schedule[1..]);
      forall k | 0 <= k < |schedule| ensures !schedule[k].JoinFail? {
        if k > 0 { assert schedule[k] == schedule[1..][k - 1]; }
      }
    }
  }

  /** If a listed file is gone and is not stored again, the join fails, whatever else happens. */
  lemma {:induction false} MissingJoinFails(s: State, schedule: seq<Step>, path: Path)
    requires Inv(s) && s.lock.Joining? && path in s.lock.left && path !in s.files
    requires Runs(s, schedule) && UntilJoined(schedule)
    requires forall k :: 0 <= k < |schedule| ==> !(schedule[k].Store? && schedule[k].path == path)
    ensures schedule[|schedule| - 1].JoinFail?
    decreases |schedule|
  {
    if |schedule| > 1 {
      StepKeepsInv(s, schedule[0]);
      assert forall k :: 0 <= k < |schedule| - 1 ==> schedule[1..][k] == schedule[k + 1];
      MissingJoinFails(Apply(s, schedule[0]), schedule[1..], path);
    }
  }

  /** The device has replayed a beginning of its snapshot: uploads, of which the last one is empty when it was broken off. */
  ghost predicate SnapshotOk(x: Receiver) {
    && x.seen <= |x.told| && x.snapshot <= |x.told|
    && (forall k :: 0 <= k < x.snapshot ==> x.told[k].Upload?)
    && (x.device.Some? ==> x.files == AppliedAll(map[], x.told[..x.seen]))
    && (x.stream.Halted? ==>
          x.device.Some? && x.seen <= x.snapshot && x.snapshot > 0 && x.told[x.snapshot - 1].content == [])
  }

  ghost predicate SnapshotsOk(s: State) {
    && (forall r :: 0 <= r < |s.receivers| ==> SnapshotOk(s.receivers[r]))
    && (s.lock.Joining? ==>
          var x := s.lock.newcomer;
          && x.device.Some? && x.seen == 0 && x.files == map[] && x.stream.Open?
          && forall k :: 0 <= k < |x.told| ==> x.told[k].Upload?)
  }

  lemma SnapshotReceive(x: Receiver)
    requires SnapshotOk(x) && x.seen < |x.told| && x.seen < x.Limit()
    ensures SnapshotOk(x.(files := Applied(x.files, x.told[x.seen]), seen := x.seen + 1))
  {
    AppliedUpTo(map[], x.told, x.seen);
  }

  lemma SnapshotTold(x: Receiver, op: Op)
    requires SnapshotOk(x)
    ensures SnapshotOk(Told(x, op))
  {
    assert Told(x, op).told[..x.seen] == x.told[..x.seen];
  }

  lemma StepKeepsSnapshots(s: State, step: Step)
    requires SnapshotsOk(s) && Enabled(s, step)
    ensures SnapshotsOk(Apply(s, step))
  {
    var t := Apply(s, step);
    forall r | 0 <= r < |t.receivers| ensures SnapshotOk(t.receivers[r]) {
      if r < |s.receivers| {
        assert SnapshotOk(s.receivers[r]);
        if step.Receive? && step.r == r {
          SnapshotReceive(s.receivers[r]);
        } else if step.Tell? && step.r == r {
          SnapshotTold(s.receivers[r], Message(s.files, s.handlers[step.h].progress.job));
        }
      }
    }
  }

  lemma {:induction false} RunKeepsSnapshots(s: State, schedule: seq<Step>)
    requires SnapshotsOk(s) && Runs(s, schedule)
    ensures SnapshotsOk(Final(s, schedule))
    decreases |schedule|
  {
    if schedule != [] {
      StepKeepsSnapshots(s, schedule[0]);
      RunKeepsSnapshots(Apply(s, schedule[0]), schedule[1..]);
    }
  }

  /** What a device whose snapshot was broken off has once it has replayed all of it stays for ever. */
  lemma {:induction false} HaltedStays(s: State, schedule: seq<Step>, r: nat)
    requires Runs(s, schedule) && r < |s.receivers|
    requires var x := s.receivers[r]; x.stream.Gone? || (x.stream.Halted? && x.seen == x.snapshot)
    ensures var t := Final(s, schedule);
            r < |t.receivers| && t.receivers[r].files == s.receivers[r].files
    decreases |schedule|
  {
    if schedule != [] {
      HaltedStays(Apply(s, schedule[0]), schedule[1..], r);
    }
  }

  /**
   A device whose snapshot was broken off because a listed file was removed ends, for ever, with
   the files that were sent before and that file emptied, whatever it is told later.
   */
  lemma BrokenSnapshotIsFinal(s: State, first: seq<Step>, second: seq<Step>, r: nat)
    requires Initial(s) && Runs(s, first) && Runs(Final(s, first), second)
    requires r < |Final(s, first).receivers|
    requires var x := Final(s, first).receivers[r]; x.stream.Halted? && x.seen == x.snapshot
    ensures var x, u := Final(s, first).receivers[r], Final(Final(s, first), second);
            && r < |u.receivers| && 0 < x.snapshot <= |x.told|
            && var sent := x.told[..x.snapshot - 1];
            && (forall k :: 0 <= k < |sent| ==> sent[k].Upload?)
            && u.receivers[r].files == AppliedAll(map[], sent)[x.told[x.snapshot - 1].path := []]
  {
    RunKeepsSnapshots(s, first);
    var t := Final(s, first);
    var x := t.receivers[r];
    assert SnapshotOk(x);
    HaltedStays(t, second, r);
    AppliedUpTo(map[], x.told, x.snapshot - 1);
  }
}
