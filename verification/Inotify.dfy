/**
 The client's watch on its directory: a buffer of variable-length events is parsed into actions,
 which wait in a list until they are sent to the server.
 */
module Inotify {
  import opened Wrappers
  import opened SocketStream
  import opened Protocol

  datatype Command = Uploaded | Deleted

  datatype Action = Action(command: Command, path: seq<Byte>)

  const EVENT_SIZE: nat := 16

  const IN_CLOSE_WRITE: nat := 0x8
  const IN_MOVED_FROM: nat := 0x40
  const IN_MOVED_TO: nat := 0x80
  const IN_DELETE: nat := 0x200
  const IN_ISDIR: nat := 0x40000000

  predicate Has(mask: nat, bit: nat)
    requires bit > 0
  {
    (mask / bit) % 2 == 1
  }

  /** What an event with a name means for the server, if anything. */
  function Meaning(mask: nat): Option<Command> {
    if Has(mask, IN_CLOSE_WRITE) || Has(mask, IN_MOVED_TO) then
      if Has(mask, IN_ISDIR) then None else Some(Uploaded)
    else if Has(mask, IN_DELETE) || Has(mask, IN_MOVED_FROM) then
      if Has(mask, IN_ISDIR) then None else Some(Deleted)
    else None
  }

  /** The text before the first zero byte. */
  function Text(bs: seq<Byte>): seq<Byte> {
    if bs == [] || bs[0] == 0 then [] else [bs[0]] + Text(bs[1..])
  }

  /**
   One event as the kernel delivers it. The name, which is empty for the directory itself, is
   followed by `padding` zero bytes that count as part of it.
   */
  datatype Event = Event(watch: seq<Byte>, mask: nat, cookie: seq<Byte>, name: seq<Byte>, padding: nat)

  ghost predicate ValidEvent(e: Event) {
    && |e.watch| == |e.cookie| == 4
    && e.mask < Power256(4) && |e.name| + e.padding < Power256(4)
    && 0 !in e.name && (e.name != [] ==> e.padding > 0)
  }

  ghost function Zeros(n: nat): (zs: seq<Byte>)
    ensures |zs| == n && forall i :: 0 <= i < n ==> zs[i] == 0
  {
    seq(n, _ => 0)
  }

  ghost function Raw(e: Event): seq<Byte>
    requires ValidEvent(e)
  {
    (e.watch + Little(e.mask, 4) + e.cookie + Little(|e.name| + e.padding, 4)) + (e.name + Zeros(e.padding))
  }

  ghost predicate ValidEvents(es: seq<Event>) {
    forall k :: 0 <= k < |es| ==> ValidEvent(es[k])
  }

  ghost function RawAll(es: seq<Event>): seq<Byte>
    requires ValidEvents(es)
  {
    if es == [] then [] else Raw(es[0]) + RawAll(es[1..])
  }

  ghost function ActionOf(e: Event): seq<Action> {
    if |e.name| + e.padding == 0 || Meaning(e.mask).None? then [] else [Action(Meaning(e.mask).value, e.name)]
  }

  ghost function Actions(es: seq<Event>): seq<Action> {
    if es == [] then [] else ActionOf(es[0]) + Actions(es[1..])
  }

  lemma {:induction false} TextOfPadded(name: seq<Byte>, padding: nat)
    requires 0 !in name && (name != [] ==> padding > 0)
    ensures Text(name + Zeros(padding)) == name
  {
    if name != [] {
      assert (name + Zeros(padding))[1..] == name[1..] + Zeros(padding);
      TextOfPadded(name[1..], padding);
    }
  }

  /** The fields of the event at the front of a buffer, where the parser looks for them. */
  lemma FrontFields(e: Event, rest: seq<Byte>)
    requires ValidEvent(e)
    ensures var u := Raw(e) + rest;
            var size := |e.name| + e.padding;
            && |Raw(e)| == EVENT_SIZE + size
            && Number(u[4..8]) == e.mask && Number(u[12..EVENT_SIZE]) == size
            && u[EVENT_SIZE..EVENT_SIZE + size] == e.name + Zeros(e.padding)
  {
    var u := Raw(e) + rest;
    var size := |e.name| + e.padding;
    NumberLittle(e.mask, 4);
    NumberLittle(size, 4);
    assert u[4..8] == Little(e.mask, 4);
    assert u[12..EVENT_SIZE] == Little(size, 4);
  }

  lemma ActionsAssociate(a: seq<Action>, b: seq<Action>, c: seq<Action>)
    ensures (a + b) + c == a + (b + c)
  {
  }

  lemma SliceOfSlice(s: seq<Byte>, i: nat, length: nat, a: nat, b: nat)
    requires a <= b && i + b <= length <= |s|
    ensures s[i..length][a..b] == s[i + a..i + b]
  {
    forall k | 0 <= k < b - a ensures s[i..length][a..b][k] == s[i + a..i + b][k] {
      assert s[i..length][a + k] == s[i + a + k];
    }
  }

  class Inotify {
    var vector: seq<Action>
    var paused: bool

    constructor ()
      ensures vector == [] && !paused
    {
      vector, paused := [], false;
    }

    method Pause()
      modifies `paused
      ensures paused
    {
      paused := true;
    }

    method Resume()
      modifies `paused
      ensures !paused
    {
      paused := false;
    }

    /**
     Handles one read of `length` bytes, which the kernel fills with the whole events `events`.
     What is read while the watch is paused is dropped.
     */
    method Handle(buffer: array<Byte>, length: nat, ghost events: seq<Event>)
      requires length <= buffer.Length
      requires ValidEvents(events) && buffer[..length] == RawAll(events)
      modifies `vector
      ensures vector == old(vector) + if paused then [] else Actions(events)
    {
      if paused {
        return;
      }
      var i: nat := 0;
      ghost var left := events;
      while i < length
        invariant i <= length && ValidEvents(left) && buffer[i..length] == RawAll(left)
        invariant vector + Actions(left) == old(vector) + Actions(events)
        decreases length - i
      {
        ghost var e, before, u := left[0], vector, buffer[i..length];
        var size := Parse(buffer, i, length, e, RawAll(left[1..]));
        ActionsAssociate(before, ActionOf(e), Actions(left[1..]));
        i := i + EVENT_SIZE + size;
        left := left[1..];
        assert buffer[i..length] == u[EVENT_SIZE + size..];
      }
    }

    /** Parses the event at `i`, and yields the length of its name. */
    method Parse(buffer: array<Byte>, i: nat, length: nat, ghost e: Event, ghost rest: seq<Byte>) returns (size: nat)
      requires i <= length <= buffer.Length && ValidEvent(e) && buffer[i..length] == Raw(e) + rest
      modifies `vector
      ensures size == |e.name| + e.padding && i + EVENT_SIZE + size <= length
      ensures vector == old(vector) + ActionOf(e)
    {
      FrontFields(e, rest);
      TextOfPadded(e.name, e.padding);
      ghost var size0 := |e.name| + e.padding;
      ghost var u := buffer[i..length];
      assert |u| == length - i == EVENT_SIZE + size0 + |rest|;
      SliceOfSlice(buffer[..], i, length, 4, 8);
      SliceOfSlice(buffer[..], i, length, 12, EVENT_SIZE);
      SliceOfSlice(buffer[..], i, length, EVENT_SIZE, EVENT_SIZE + size0);
      var mask := Number(buffer[i + 4..i + 8]);
      size := Number(buffer[i + 12..i + EVENT_SIZE]);
      if size != 0 {
        Note(mask, buffer[i + EVENT_SIZE..i + EVENT_SIZE + size]);
      }
    }

    /** Appends the action that an event with this mask and name stands for. */
    method Note(mask: nat, name: seq<Byte>)
      modifies `vector
      ensures vector == old(vector) + if Meaning(mask).None? then [] else [Action(Meaning(mask).value, Text(name))]
    {
      if Has(mask, IN_CLOSE_WRITE) || Has(mask, IN_MOVED_TO) {
        if !Has(mask, IN_ISDIR) {
          vector := vector + [Action(Uploaded, Text(name))];
        }
      } else if Has(mask, IN_DELETE) || Has(mask, IN_MOVED_FROM) {
        if !Has(mask, IN_ISDIR) {
          vector := vector + [Action(Deleted, Text(name))];
        }
      }
    }

    /** Hands over everything that waits, and forgets it. */
    method Drain() returns (actions: seq<Action>)
      modifies `vector
      ensures actions == old(vector) && vector == []
    {
      actions := [];
      for i := 0 to |vector|
        invariant vector == old(vector) && actions == vector[..i]
      {
        actions := actions + [vector[i]];
      }
      vector := [];
    }
  }

  lemma {:induction false} ActionsConcat(a: seq<Event>, b: seq<Event>)
    ensures Actions(a + b) == Actions(a) + Actions(b)
  {
    if a == [] {
      assert a + b == b;
    } else {
      assert (a + b)[1..] == a[1..] + b;
      ActionsConcat(a[1..], b);
      ActionsAssociate(ActionOf(a[0]), Actions(a[1..]), Actions(b));
    }
  }

  // ---------- What the actions say about the directory ----------

  /** What happens to an entry of the directory, or to the directory itself if the name is empty. */
  datatype Change = Saved(name: seq<Byte>, dir: bool) | MovedIn(name: seq<Byte>, dir: bool)
                  | Removed(name: seq<Byte>, dir: bool) | MovedOut(name: seq<Byte>, dir: bool)
                  | Modified(name: seq<Byte>, dir: bool)
  {
    /** A file is there now, or is gone; one that is modified is saved later. */
    ghost predicate Counts() { !dir && !Modified? }
    ghost predicate Brings() { Saved? || MovedIn? }
  }

  /** The mask of the event that the kernel reports for a change. */
  function MaskOf(c: Change): nat {
    (match c
     case Saved(_, _) => 0x8
     case MovedIn(_, _) => 0x80
     case Removed(_, _) => 0x200
     case MovedOut(_, _) => 0x40
     case Modified(_, _) => 0x2) + if c.dir then 0x40000000 else 0
  }

  /** The events report the changes one by one. */
  ghost predicate Reports(es: seq<Event>, cs: seq<Change>) {
    && |es| == |cs| && ValidEvents(es)
    && (forall k :: 0 <= k < |es| ==> es[k].mask == MaskOf(cs[k]) && es[k].name == cs[k].name)
    && (forall k :: 0 <= k < |es| && cs[k].name == [] ==> es[k].padding == 0)
  }

  /** The files that have come into the directory and are there after the changes. */
  ghost function There(cs: seq<Change>): set<seq<Byte>> {
    if cs == [] then {}
    else
      var before, last := There(cs[..|cs| - 1]), cs[|cs| - 1];
      if !last.Counts() then before
      else if last.Brings() then before + {last.name}
      else before - {last.name}
  }

  /** Some change was made to the file `name`. */
  ghost predicate Touched(cs: seq<Change>, name: seq<Byte>) {
    exists k :: 0 <= k < |cs| && cs[k].Counts() && cs[k].name == name
  }

  /** The last action for `name`, if there is one. */
  ghost function LastFor(actions: seq<Action>, name: seq<Byte>): Option<Command> {
    if actions == [] then None
    else
      var last := actions[|actions| - 1];
      if last.path == name then Some(last.command) else LastFor(actions[..|actions| - 1], name)
  }

  /** Directories, the watched directory itself, and modifications yield no action; files one each, with their name. */
  lemma ActionOfChange(e: Event, c: Change)
    requires ValidEvent(e) && e.mask == MaskOf(c) && e.name == c.name && (c.name == [] ==> e.padding == 0)
    ensures !c.Counts() || c.name == [] ==> ActionOf(e) == []
    ensures c.Counts() && c.name != [] ==>
              ActionOf(e) == [Action(if c.Brings() then Uploaded else Deleted, c.name)]
  {
    assert !Has(0x40, 0x8) && !Has(0x40, 0x80) && !Has(0x200, 0x8) && !Has(0x200, 0x80);
    assert !Has(0x40000040, 0x8) && !Has(0x40000040, 0x80) && !Has(0x40000200, 0x8) && !Has(0x40000200, 0x80);
  }

  lemma LastForAppend(actions: seq<Action>, a: Action, name: seq<Byte>)
    ensures LastFor(actions + [a], name) == if a.path == name then Some(a.command) else LastFor(actions, name)
  {
    assert (actions + [a])[..|actions|] == actions;
  }

  lemma {:induction false} ActionsLast(es: seq<Event>)
    requires es != []
    ensures Actions(es) == Actions(es[..|es| - 1]) + ActionOf(es[|es| - 1])
  {
    var k := |es| - 1;
    assert es == es[..k] + [es[k]];
    ActionsConcat(es[..k], [es[k]]);
    assert Actions([es[k]]) == ActionOf(es[k]) + Actions([]) == ActionOf(es[k]);
  }

  /**
   The last action for a file says whether it is there: after any history of changes to files and to
   directories, for every file that it touches, the last of the actions that its events yield is an
   upload exactly if the file is there at the end, and a deletion exactly if it is not; what the
   history does not touch, as directories, has no action. Modifications count when the file is saved.
   */
  lemma {:induction false} LastActionTells(es: seq<Event>, cs: seq<Change>, name: seq<Byte>)
    requires Reports(es, cs) && name != []
    ensures Touched(cs, name) ==> LastFor(Actions(es), name) == Some(if name in There(cs) then Uploaded else Deleted)
    ensures !Touched(cs, name) ==> LastFor(Actions(es), name) == None && name !in There(cs)
    decreases |es|
  {
    if es != [] {
      var k := |es| - 1;
      LastActionTells(es[..k], cs[..k], name);
      ActionsLast(es);
      assert ValidEvent(es[k]);
      LastOfChange(Actions(es[..k]), es[k], cs[k], name);
      TouchedLast(cs, name);
    }
  }

  /** One more change decides about the file that it is made to, and about no other. */
  lemma LastOfChange(actions: seq<Action>, e: Event, c: Change, name: seq<Byte>)
    requires ValidEvent(e) && e.mask == MaskOf(c) && e.name == c.name && (c.name == [] ==> e.padding == 0) && name != []
    ensures LastFor(actions + ActionOf(e), name) ==
              if c.Counts() && c.name == name then Some(if c.Brings() then Uploaded else Deleted)
              else LastFor(actions, name)
  {
    ActionOfChange(e, c);
    if ActionOf(e) != [] {
      LastForAppend(actions, ActionOf(e)[0], name);
    } else {
      assert actions + [] == actions;
    }
  }

  lemma TouchedLast(cs: seq<Change>, name: seq<Byte>)
    requires cs != []
    ensures var k := |cs| - 1; Touched(cs, name) <==> Touched(cs[..k], name) || (cs[k].Counts() && cs[k].name == name)
  {
    var k := |cs| - 1;
    if Touched(cs[..k], name) {
      var j :| 0 <= j < k && cs[..k][j].Counts() && cs[..k][j].name == name;
      assert cs[j].name == name;
    }
    if Touched(cs, name) {
      var j :| 0 <= j < |cs| && cs[j].Counts() && cs[j].name == name;
      assert j < k ==> cs[..k][j] == cs[j];
    }
  }

  /** What a watch that is not paused has noted after reading the events of a history. */
  method Watched(inotify: Inotify, buffer: array<Byte>, length: nat, ghost events: seq<Event>, ghost changes: seq<Change>)
    requires length <= buffer.Length && Reports(events, changes) && buffer[..length] == RawAll(events)
    requires !inotify.paused && inotify.vector == []
    modifies inotify
    ensures forall name | name != [] && Touched(changes, name) ::
              LastFor(inotify.vector, name) == Some(if name in There(changes) then Uploaded else Deleted)
    ensures forall name | name != [] && !Touched(changes, name) :: LastFor(inotify.vector, name) == None
  {
    inotify.Handle(buffer, length, events);
    assert inotify.vector == Actions(events);
    forall name | name != []
      ensures Touched(changes, name) ==>
                LastFor(inotify.vector, name) == Some(if name in There(changes) then Uploaded else Deleted)
      ensures !Touched(changes, name) ==> LastFor(inotify.vector, name) == None
    {
      LastActionTells(events, changes, name);
    }
  }

  // ---------- Producer and consumer ----------

  /**
   The threads exclude each other: one reads events, one sends what waits, and one pauses the watch
   while it changes the directory itself, and resumes it.
   */
  datatype Step = Batch(events: seq<Event>) | Stop | Continue | Send

  datatype Watch = Watch(paused: bool, vector: seq<Action>, sent: seq<Action>)

  ghost function Stepped(w: Watch, step: Step): Watch {
    match step
    case Batch(events) => w.(vector := w.vector + if w.paused then [] else Actions(events))
    case Stop => w.(paused := true)
    case Continue => w.(paused := false)
    case Send => w.(vector := [], sent := w.sent + w.vector)
  }

  /** What the methods of the watch do is what the steps say. */
  method Carry(inotify: Inotify, step: Step, buffer: array<Byte>, length: nat, ghost sent: seq<Action>)
    returns (actions: seq<Action>)
    requires step.Batch? ==> length <= buffer.Length && ValidEvents(step.events) && buffer[..length] == RawAll(step.events)
    modifies inotify
    ensures Watch(inotify.paused, inotify.vector, sent + actions)
         == Stepped(Watch(old(inotify.paused), old(inotify.vector), sent), step)
  {
    actions := [];
    match step {
      case Batch(events) => inotify.Handle(buffer, length, events);
      case Stop => inotify.Pause();
      case Continue => inotify.Resume();
      case Send => actions := inotify.Drain();
    }
  }

  ghost function Ran(w: Watch, steps: seq<Step>): Watch
    decreases |steps|
  {
    if steps == [] then w else Ran(Stepped(w, steps[0]), steps[1..])
  }

  /** The watch is paused by the last pause that no resumption follows. */
  ghost predicate PausedAfter(steps: seq<Step>) {
    steps != [] &&
    var k := |steps| - 1;
    if steps[k].Stop? then true else if steps[k].Continue? then false else PausedAfter(steps[..k])
  }

  /** All events that were read while the watch was not paused. */
  ghost function Noticed(steps: seq<Step>): seq<Event> {
    if steps == [] then []
    else
      var k := |steps| - 1;
      Noticed(steps[..k]) + if steps[k].Batch? && !PausedAfter(steps[..k]) then steps[k].events else []
  }

  lemma {:induction false} RanLast(w: Watch, steps: seq<Step>)
    requires steps != []
    ensures Ran(w, steps) == Stepped(Ran(w, steps[..|steps| - 1]), steps[|steps| - 1])
    decreases |steps|
  {
    if |steps| > 1 {
      var k := |steps| - 1;
      RanLast(Stepped(w, steps[0]), steps[1..]);
      assert steps[1..][..k - 1] == steps[..k][1..];
    }
  }

  /** Every change that is read while the watch is not paused is sent exactly once and in order, or still waits. */
  lemma {:induction false} NoticedOnce(steps: seq<Step>)
    ensures var w := Ran(Watch(false, [], []), steps);
            w.paused == PausedAfter(steps) && w.sent + w.vector == Actions(Noticed(steps))
    decreases |steps|
  {
    if steps != [] {
      var pre, last := steps[..|steps| - 1], steps[|steps| - 1];
      NoticedOnce(pre);
      RanLast(Watch(false, [], []), steps);
      var v := Ran(Watch(false, [], []), pre);
      if last.Batch? && !v.paused {
        ActionsConcat(Noticed(pre), last.events);
        ActionsAssociate(v.sent, v.vector, Actions(last.events));
      } else {
        assert Noticed(steps) == Noticed(pre) && v.vector + [] == v.vector;
      }
    }
  }
}
