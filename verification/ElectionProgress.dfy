/**
 What an election does while no connection breaks: it cannot get stuck, it declares one
 winner, and when the winner returns, which it does last, nothing is left on the ring.
 */
module ElectionProgress {
  import opened Ring
  import opened Election
  import opened ElectionMachine

  /** The steps of an election whose connections hold. */
  predicate Regular(step: Step) {
    step.Start? || step.Reply?
  }

  ghost predicate AllRegular(schedule: seq<Step>) {
    forall k :: 0 <= k < |schedule| ==> Regular(schedule[k])
  }

  /** No server can move. */
  ghost predicate Stuck(n: nat, s: State)
    requires ValidSize(n, s)
  {
    forall step :: Regular(step) ==> !Enabled(n, s, step)
  }

  /** The server `m` has the largest id. */
  ghost predicate Top(ids: seq<Id>, m: nat) {
    m < |ids| && IsMax(ids, ids[m])
  }

  /** Some Underway message for the id `x` or a larger one is on its way. */
  ghost predicate Carried(s: State, x: Id) {
    exists i, q :: 0 <= i < |s.chan| && 0 <= q < |s.chan[i]| && s.chan[i][q].Underway? && s.chan[i][q].id >= x
  }

  /** Server `i` has nothing to read and nothing to start. */
  ghost predicate Quiet(s: State, i: nat)
    requires i < |s.chan| == |s.phase|
  {
    s.chan[i] == [] && s.phase[i].Running?
  }

  /** All servers strictly between `m` and the place `d` hops after it are quiet. */
  ghost predicate QuietBehind(ids: seq<Id>, s: State, m: nat, d: nat)
    requires ValidSize(|ids|, s) && m < |ids| && d <= |ids|
  {
    forall e :: 1 <= e < d ==> Quiet(s, At(|ids|, m, e))
  }

  ghost predicate OnTheWay(s: State, m: Message, i: nat, q: nat) {
    i < |s.chan| && q < |s.chan[i]| && s.chan[i][q] == m
  }

  /** Behind the message of the largest id the ring is silent: it also is the last one of its channel. */
  ghost predicate Silent(ids: seq<Id>, s: State, m: nat)
    requires ValidSize(|ids|, s) && m < |ids|
  {
    forall i: nat, q: nat :: OnTheWay(s, Underway(ids[m]), i, q) ==>
      q == |s.chan[i]| - 1 && QuietBehind(ids, s, m, Hops(|ids|, m, i))
  }

  /** Phases, flags and counts agree before a winner is declared. */
  ghost predicate Roster(starters: seq<bool>, s: State)
    requires ValidSize(|starters|, s)
  {
    forall i :: 0 <= i < |starters| ==>
      && (s.phase[i].Idle? || s.phase[i].Running?)
      && s.launched[i] == (if s.started[i] then 1 else 0)
      && (starters[i] && !s.phase[i].Idle? ==> s.started[i])
      && (s.phase[i].Idle? ==> starters[i] && !s.started[i])
  }

  /** Only ids of servers that took part are on the ring. */
  ghost predicate FromStarted(ids: seq<Id>, s: State)
    requires ValidSize(|ids|, s)
  {
    forall i, q :: 0 <= i < |ids| && 0 <= q < |s.chan[i]| ==>
      s.chan[i][q].Underway? && s.chan[i][q].id in ids && s.started[Position(ids, s.chan[i][q].id)]
  }

  /** The id of every server that took part, or a larger one, is on the ring. */
  ghost predicate AllCarried(ids: seq<Id>, s: State)
    requires ValidSize(|ids|, s)
  {
    forall i :: 0 <= i < |ids| && s.started[i] ==> Carried(s, ids[i])
  }

  /** No winner has been declared yet. */
  ghost predicate Open(ids: seq<Id>, starters: seq<bool>, s: State, m: nat)
    requires ValidSize(|ids|, s) && |starters| == |ids| && m < |ids|
  {
    && s.declared == 0
    && Roster(starters, s)
    && FromStarted(ids, s)
    && AllCarried(ids, s)
    && Silent(ids, s, m)
  }

  /** The announcement is the only message, `d` hops from the winner `m`; those it has passed have returned. */
  ghost predicate Announcing(ids: seq<Id>, s: State, m: nat, d: nat)
    requires ValidSize(|ids|, s) && m < |ids| && 1 <= d <= |ids|
  {
    var n := |ids|;
    && (forall i :: 0 <= i < n ==> s.chan[i] == if i == At(n, m, d) then [Elected(ids[m])] else [])
    && (forall e :: 1 <= e <= n ==>
          s.phase[At(n, m, e)] == if e < d then Returned(ids[m]) else Running)
  }

  /** Everyone has returned the largest id and every channel is empty. */
  ghost predicate Over(ids: seq<Id>, s: State, m: nat)
    requires ValidSize(|ids|, s) && m < |ids|
  {
    forall i :: 0 <= i < |ids| ==> s.chan[i] == [] && s.phase[i] == Returned(ids[m])
  }

  /** The winner has been declared. */
  ghost predicate Closed(ids: seq<Id>, s: State, m: nat)
    requires ValidSize(|ids|, s) && m < |ids|
  {
    s.declared == 1 && ((exists d :: 1 <= d <= |ids| && Announcing(ids, s, m, d)) || Over(ids, s, m))
  }

  ghost predicate LaunchedOnce(starters: seq<bool>, s: State)
    requires ValidSize(|starters|, s)
  {
    forall i :: 0 <= i < |starters| ==> s.launched[i] <= 1 && (starters[i] && !s.phase[i].Idle? ==> s.launched[i] == 1)
  }

  ghost predicate AllUp(s: State) {
    forall i :: 0 <= i < |s.up| ==> s.up[i]
  }

  ghost predicate Inv(ids: seq<Id>, starters: seq<bool>, s: State, m: nat)
    requires |starters| == |ids|
  {
    && Top(ids, m) && Safe(ids, s)
    && AllUp(s)
    && LaunchedOnce(starters, s)
    && (Open(ids, starters, s, m) || Closed(ids, s, m))
  }

  lemma AtHops(n: nat, m: nat, i: nat)
    requires m < n && i < n
    ensures At(n, m, Hops(n, m, i)) == i
    ensures forall e :: 1 <= e <= n ==> Hops(n, m, At(n, m, e)) == e
  {
  }

  ghost function Take(s: State, i: nat): State
    requires i < |s.chan| && s.chan[i] != []
  {
    s.(chan := s.chan[i := s.chan[i][1..]])
  }

  ghost function Post(s: State, i: nat, x: Message): State
    requires i < |s.chan|
  {
    s.(chan := s.chan[i := s.chan[i] + [x]])
  }

  lemma SilentTake(ids: seq<Id>, s: State, m: nat, i: nat)
    requires m < |ids| && i < |ids| && ValidSize(|ids|, s) && Silent(ids, s, m) && s.chan[i] != []
    ensures Silent(ids, Take(s, i), m)
  {
    var t := Take(s, i);
    forall c: nat, q: nat | OnTheWay(t, Underway(ids[m]), c, q)
      ensures q == |t.chan[c]| - 1 && QuietBehind(ids, t, m, Hops(|ids|, m, c))
    {
      assert OnTheWay(s, Underway(ids[m]), c, if c == i then q + 1 else q);
    }
  }

  lemma SilentPost(ids: seq<Id>, s: State, m: nat, i: nat, x: Message)
    requires m < |ids| && i < |ids| && ValidSize(|ids|, s) && Silent(ids, s, m)
    requires x == Underway(ids[m]) ==> QuietBehind(ids, s, m, Hops(|ids|, m, Next(|ids|, i)))
    requires forall c: nat, q: nat :: OnTheWay(s, Underway(ids[m]), c, q) ==>
               x != Underway(ids[m]) && i != m && Hops(|ids|, m, i) >= Hops(|ids|, m, c)
    ensures Silent(ids, Post(s, Next(|ids|, i), x), m)
  {
    var n := |ids|;
    var k := Next(n, i);
    var t := Post(s, k, x);
    HopsNext(n, m, i);
    forall c: nat, q: nat | OnTheWay(t, Underway(ids[m]), c, q)
      ensures q == |t.chan[c]| - 1 && QuietBehind(ids, t, m, Hops(n, m, c))
    {
      AtHops(n, m, c);
      AtHops(n, m, k);
      if c != k || q < |s.chan[k]| {
        assert OnTheWay(s, Underway(ids[m]), c, q);
        assert QuietBehind(ids, s, m, Hops(n, m, c));
      }
    }
  }

  /** Whoever can read or start is not behind the message of the largest id. */
  lemma NotBehind(ids: seq<Id>, s: State, m: nat, i: nat, c: nat, q: nat)
    requires m < |ids| && i < |ids| && ValidSize(|ids|, s) && Silent(ids, s, m) && !Quiet(s, i)
    requires OnTheWay(s, Underway(ids[m]), c, q)
    ensures i == m || Hops(|ids|, m, i) >= Hops(|ids|, m, c)
  {
    AtHops(|ids|, m, i);
    assert QuietBehind(ids, s, m, Hops(|ids|, m, c));
  }

  lemma CarriedWitness(s: State, x: Id, i: nat, q: nat)
    requires i < |s.chan| && q < |s.chan[i]| && s.chan[i][q].Underway? && s.chan[i][q].id >= x
    ensures Carried(s, x)
  {
  }

  lemma CarriedPost(s: State, x: Id, i: nat, m: Message)
    requires i < |s.chan| && Carried(s, x)
    ensures Carried(Post(s, i, m), x)
  {
    var c, q :| 0 <= c < |s.chan| && 0 <= q < |s.chan[c]| && s.chan[c][q].Underway? && s.chan[c][q].id >= x;
    CarriedWitness(Post(s, i, m), x, c, q);
  }

  /** Taking a message off the ring leaves every larger id carried. */
  lemma CarriedTake(s: State, x: Id, i: nat)
    requires i < |s.chan| && s.chan[i] != [] && Carried(s, x)
    ensures Carried(Take(s, i), x) || (s.chan[i][0].Underway? && s.chan[i][0].id >= x)
  {
    var c, q :| 0 <= c < |s.chan| && 0 <= q < |s.chan[c]| && s.chan[c][q].Underway? && s.chan[c][q].id >= x;
    if c != i {
      CarriedWitness(Take(s, i), x, c, q);
    } else if q > 0 {
      assert s.chan[i][q] == s.chan[i][1..][q - 1];
      CarriedWitness(Take(s, i), x, c, q - 1);
    }
  }

  lemma CarriedFrame(s: State, t: State, x: Id)
    requires t.chan == s.chan && Carried(s, x)
    ensures Carried(t, x)
  {
    var c, q :| 0 <= c < |s.chan| && 0 <= q < |s.chan[c]| && s.chan[c][q].Underway? && s.chan[c][q].id >= x;
    CarriedWitness(t, x, c, q);
  }

  /** Silence depends on the channels only, as long as nobody stops running. */
  lemma SilentFrame(ids: seq<Id>, s: State, t: State, m: nat)
    requires m < |ids| && ValidSize(|ids|, s) && ValidSize(|ids|, t) && Silent(ids, s, m)
    requires t.chan == s.chan && forall i :: 0 <= i < |ids| && s.phase[i].Running? ==> t.phase[i].Running?
    ensures Silent(ids, t, m)
  {
    forall c: nat, q: nat | OnTheWay(t, Underway(ids[m]), c, q)
      ensures q == |t.chan[c]| - 1 && QuietBehind(ids, t, m, Hops(|ids|, m, c))
    {
      assert OnTheWay(s, Underway(ids[m]), c, q);
    }
  }

  lemma FromStartedPost(ids: seq<Id>, s: State, k: nat, x: Message)
    requires k < |ids| && ValidSize(|ids|, s) && FromStarted(ids, s)
    requires x.Underway? && x.id in ids && s.started[Position(ids, x.id)]
    ensures FromStarted(ids, Post(s, k, x))
  {
  }

  lemma AllCarriedPost(ids: seq<Id>, s: State, k: nat, x: Message)
    requires k < |ids| && ValidSize(|ids|, s) && x.Underway?
    requires forall j :: 0 <= j < |ids| && s.started[j] ==> Carried(s, ids[j]) || ids[j] <= x.id
    ensures AllCarried(ids, Post(s, k, x))
  {
    var t := Post(s, k, x);
    forall j | 0 <= j < |ids| && t.started[j] ensures Carried(t, ids[j]) {
      if Carried(s, ids[j]) {
        CarriedPost(s, ids[j], k, x);
      } else {
        CarriedWitness(t, ids[j], k, |t.chan[k]| - 1);
      }
    }
  }

  lemma OpenFrame(ids: seq<Id>, starters: seq<bool>, s: State, t: State, m: nat)
    requires |starters| == |ids| && m < |ids| && ValidSize(|ids|, s) && Open(ids, starters, s, m)
    requires t == s.(sent := t.sent)
    ensures Open(ids, starters, t, m)
  {
    SilentFrame(ids, s, t, m);
    forall j | 0 <= j < |ids| && t.started[j] ensures Carried(t, ids[j]) {
      CarriedFrame(s, t, ids[j]);
    }
  }

  /** A message posted by a server that could move keeps an open election open. */
  lemma PostOpen(ids: seq<Id>, starters: seq<bool>, s: State, t: State, m: nat, i: nat, x: Message)
    requires Distinct(ids) && |starters| == |ids| && m < |ids| && i < |ids| && x.Underway? && x.id in ids
    requires ValidSize(|ids|, s) && s.declared == 0 && Roster(starters, s) && FromStarted(ids, s) && Silent(ids, s, m)
    requires s.started[Position(ids, x.id)]
    requires forall j :: 0 <= j < |ids| && s.started[j] ==> Carried(s, ids[j]) || ids[j] <= x.id
    requires x == Underway(ids[m]) ==> QuietBehind(ids, s, m, Hops(|ids|, m, Next(|ids|, i)))
    requires forall c: nat, q: nat :: OnTheWay(s, Underway(ids[m]), c, q) ==>
               x != Underway(ids[m]) && i != m && Hops(|ids|, m, i) >= Hops(|ids|, m, c)
    requires t == Post(s, Next(|ids|, i), x).(sent := t.sent)
    ensures Open(ids, starters, t, m)
  {
    var k := Next(|ids|, i);
    SilentPost(ids, s, m, i, x);
    FromStartedPost(ids, s, k, x);
    AllCarriedPost(ids, s, k, x);
    OpenFrame(ids, starters, Post(s, k, x), t, m);
  }

  lemma NoTopBeforeStart(ids: seq<Id>, s: State, m: nat)
    requires Distinct(ids) && m < |ids| && ValidSize(|ids|, s) && FromStarted(ids, s) && !s.started[m]
    ensures forall c: nat, q: nat :: !OnTheWay(s, Underway(ids[m]), c, q)
  {
    PositionUnique(ids, m);
  }

  /** The state in which server `i` has just taken part, before its message is posted. */
  ghost function Joined(s: State, i: nat): State
    requires i < |s.started| == |s.phase| == |s.launched|
  {
    s.(started := s.started[i := true], phase := s.phase[i := Running], launched := s.launched[i := s.launched[i] + 1])
  }

  lemma LaunchOpen(ids: seq<Id>, starters: seq<bool>, s: State, t: State, m: nat, i: nat)
    requires Distinct(ids) && |starters| == |ids| && m < |ids| && i < |ids| && ValidSize(|ids|, s)
    requires s.declared == 0 && Roster(starters, s) && FromStarted(ids, s) && Silent(ids, s, m) && !s.started[i]
    requires forall j :: 0 <= j < |ids| && s.started[j] ==> Carried(s, ids[j]) || ids[j] <= ids[i]
    requires forall c: nat, q: nat :: OnTheWay(s, Underway(ids[m]), c, q) ==>
               i != m && Hops(|ids|, m, i) >= Hops(|ids|, m, c)
    requires t == Post(Joined(s, i), Next(|ids|, i), Underway(ids[i])).(sent := t.sent)
    ensures Open(ids, starters, t, m)
  {
    var s1 := Joined(s, i);
    PositionUnique(ids, i);
    SilentFrame(ids, s, s1, m);
    forall j | 0 <= j < |ids| && s1.started[j] ensures Carried(s1, ids[j]) || ids[j] <= ids[i] {
      if Carried(s, ids[j]) { CarriedFrame(s, s1, ids[j]); }
    }
    HopsNext(|ids|, m, i);
    forall c: nat, q: nat | OnTheWay(s1, Underway(ids[m]), c, q)
      ensures i != m && Hops(|ids|, m, i) >= Hops(|ids|, m, c)
    {
      assert OnTheWay(s, Underway(ids[m]), c, q);
    }
    JoinedRoster(ids, starters, s, i);
    PostOpen(ids, starters, s1, t, m, i, Underway(ids[i]));
  }

  lemma JoinedRoster(ids: seq<Id>, starters: seq<bool>, s: State, i: nat)
    requires |starters| == |ids| && i < |ids| && ValidSize(|ids|, s)
    requires Roster(starters, s) && FromStarted(ids, s) && !s.started[i]
    ensures Roster(starters, Joined(s, i)) && FromStarted(ids, Joined(s, i))
  {
  }

  lemma StartKeepsOpen(ids: seq<Id>, starters: seq<bool>, s: State, m: nat, i: nat)
    requires Distinct(ids) && |starters| == |ids| && m < |ids| && ValidSize(|ids|, s) && AllUp(s)
    requires Open(ids, starters, s, m) && Enabled(|ids|, s, Start(i))
    ensures Open(ids, starters, Apply(ids, s, Start(i)), m)
  {
    var n := |ids|;
    forall c: nat, q: nat | OnTheWay(s, Underway(ids[m]), c, q)
      ensures i != m && Hops(n, m, i) >= Hops(n, m, c)
    {
      NotBehind(ids, s, m, i, c, q);
      if i == m { NoTopBeforeStart(ids, s, m); }
    }
    LaunchOpen(ids, starters, s, Apply(ids, s, Start(i)), m, i);
  }

  /** Reading a message while the election is open, up to what is then posted. */
  lemma TakeOpen(ids: seq<Id>, starters: seq<bool>, s: State, m: nat, i: nat)
    requires |starters| == |ids| && m < |ids| && OpenBefore(ids, starters, s, m, i)
    ensures var t := Take(s, i);
            && Roster(starters, t) && FromStarted(ids, t) && Silent(ids, t, m)
            && (forall j :: 0 <= j < |ids| && t.started[j] ==> Carried(t, ids[j]) || ids[j] <= s.chan[i][0].id)
  {
    var t := Take(s, i);
    SilentTake(ids, s, m, i);
    forall c, q | 0 <= c < |ids| && 0 <= q < |t.chan[c]|
      ensures t.chan[c][q].Underway? && t.chan[c][q].id in ids && t.started[Position(ids, t.chan[c][q].id)]
    {
      assert t.chan[c][q] == s.chan[c][if c == i then q + 1 else q];
    }
    forall j | 0 <= j < |ids| && t.started[j] ensures Carried(t, ids[j]) || ids[j] <= s.chan[i][0].id {
      CarriedTake(s, ids[j], i);
    }
  }

  /** The election is open and server `i` has a message to read. */
  ghost predicate OpenBefore(ids: seq<Id>, starters: seq<bool>, s: State, m: nat, i: nat)
    requires |starters| == |ids| && m < |ids|
  {
    ValidSize(|ids|, s) && Open(ids, starters, s, m) && Enabled(|ids|, s, Reply(i))
  }

  /** What reading one Underway message does to the whole ring while its connections hold. */
  lemma ReplyEffect(ids: seq<Id>, s: State, i: nat)
    requires ValidSize(|ids|, s) && AllUp(s) && Enabled(|ids|, s, Reply(i)) && s.chan[i][0].Underway?
    ensures var x := s.chan[i][0];
            var k := Next(|ids|, i);
            var t := Apply(ids, s, Reply(i));
            && (x.id < ids[i] && s.started[i] ==> t == Take(s, i))
            && (x.id < ids[i] && !s.started[i] ==>
                  t == Post(Joined(Take(s, i), i), k, Underway(ids[i])).(sent := s.sent + 1))
            && (x.id == ids[i] ==> t == Post(Take(s, i), k, Elected(x.id)).(sent := s.sent + 1, declared := s.declared + 1))
            && (x.id > ids[i] ==> t == Post(Take(s, i), k, x).(sent := s.sent + 1))
  {
    assert s.started[i := s.started[i]] == s.started;
    assert s.phase[i := Running] == s.phase;
  }

  /** The message of the largest id, if any, is not affected by a server that reads another one. */
  lemma ReadAhead(ids: seq<Id>, starters: seq<bool>, s: State, m: nat, i: nat)
    requires Distinct(ids) && |starters| == |ids| && Top(ids, m) && OpenBefore(ids, starters, s, m, i)
    requires s.chan[i][0] != Underway(ids[m])
    requires i == m ==> !s.started[m]
    ensures forall c: nat, q: nat :: OnTheWay(Take(s, i), Underway(ids[m]), c, q) ==>
              i != m && Hops(|ids|, m, i) >= Hops(|ids|, m, c)
  {
    forall c: nat, q: nat | OnTheWay(Take(s, i), Underway(ids[m]), c, q)
      ensures i != m && Hops(|ids|, m, i) >= Hops(|ids|, m, c)
    {
      var q0 := if c == i then q + 1 else q;
      assert OnTheWay(s, Underway(ids[m]), c, q0);
      NotBehind(ids, s, m, i, c, q0);
      if i == m { NoTopBeforeStart(ids, s, m); }
    }
  }

  /** A server that took part drops a smaller id. */
  lemma DropOpen(ids: seq<Id>, starters: seq<bool>, s: State, m: nat, i: nat)
    requires |starters| == |ids| && m < |ids| && OpenBefore(ids, starters, s, m, i)
    requires s.chan[i][0].Underway? && s.chan[i][0].id < ids[i] && s.started[i]
    ensures Open(ids, starters, Take(s, i), m)
  {
    var x := s.chan[i][0];
    var t := Take(s, i);
    TakeOpen(ids, starters, s, m, i);
    assert Carried(t, ids[i]);
    forall j | 0 <= j < |ids| && t.started[j] ensures Carried(t, ids[j]) {
      if ids[j] <= x.id { CarriedLess(t, ids[i], ids[j]); }
    }
  }

  lemma CarriedLess(s: State, x: Id, y: Id)
    requires Carried(s, x) && y <= x
    ensures Carried(s, y)
  {
    var c, q :| 0 <= c < |s.chan| && 0 <= q < |s.chan[c]| && s.chan[c][q].Underway? && s.chan[c][q].id >= x;
    CarriedWitness(s, y, c, q);
  }

  /** A larger id other than the largest is passed on. */
  lemma ForwardOpen(ids: seq<Id>, starters: seq<bool>, s: State, m: nat, i: nat)
    requires Distinct(ids) && |starters| == |ids| && Top(ids, m) && OpenBefore(ids, starters, s, m, i)
    requires s.chan[i][0].Underway? && s.chan[i][0].id > ids[i] && s.chan[i][0].id != ids[m]
    ensures Open(ids, starters, Post(Take(s, i), Next(|ids|, i), s.chan[i][0]).(sent := s.sent + 1), m)
  {
    var x := s.chan[i][0];
    var t := Take(s, i);
    TakeOpen(ids, starters, s, m, i);
    HeadFromStarted(ids, s, i);
    assert i != m;
    ReadAhead(ids, starters, s, m, i);
    PostOpen(ids, starters, t, Post(t, Next(|ids|, i), x).(sent := s.sent + 1), m, i, x);
  }

  lemma HeadFromStarted(ids: seq<Id>, s: State, i: nat)
    requires i < |ids| && ValidSize(|ids|, s) && FromStarted(ids, s) && s.chan[i] != []
    ensures var x := s.chan[i][0]; x.Underway? && x.id in ids && s.started[Position(ids, x.id)]
  {
  }

  lemma TopOnce(ids: seq<Id>, s: State, m: nat, i: nat, c: nat, q: nat)
    requires m < |ids| && ValidSize(|ids|, s) && Silent(ids, s, m)
    requires OnTheWay(s, Underway(ids[m]), i, 0) && OnTheWay(s, Underway(ids[m]), c, q)
    ensures c == i
  {
    NotBehind(ids, s, m, i, c, q);
    NotBehind(ids, s, m, c, i, 0);
    AtHops(|ids|, m, i);
    AtHops(|ids|, m, c);
  }

  /** Once the largest id has been taken off its channel there is no other copy of it. */
  lemma TopTaken(ids: seq<Id>, starters: seq<bool>, s: State, m: nat, i: nat)
    requires |starters| == |ids| && m < |ids| && OpenBefore(ids, starters, s, m, i)
    requires s.chan[i][0] == Underway(ids[m])
    ensures Take(s, i).chan[i] == []
    ensures QuietBehind(ids, Take(s, i), m, Hops(|ids|, m, i))
    ensures forall c: nat, q: nat :: !OnTheWay(Take(s, i), Underway(ids[m]), c, q)
  {
    var t := Take(s, i);
    assert OnTheWay(s, s.chan[i][0], i, 0);
    assert QuietBehind(ids, s, m, Hops(|ids|, m, i));
    forall c: nat, q: nat ensures !OnTheWay(t, Underway(ids[m]), c, q) {
      if OnTheWay(s, Underway(ids[m]), c, q) {
        TopOnce(ids, s, m, i, c, q);
      }
    }
  }

  /** The largest id is passed on, leaving silence behind it. */
  lemma ForwardTopOpen(ids: seq<Id>, starters: seq<bool>, s: State, m: nat, i: nat)
    requires Distinct(ids) && |starters| == |ids| && Top(ids, m) && OpenBefore(ids, starters, s, m, i)
    requires s.chan[i][0] == Underway(ids[m]) && i != m
    ensures Open(ids, starters, Post(Take(s, i), Next(|ids|, i), s.chan[i][0]).(sent := s.sent + 1), m)
  {
    var n := |ids|;
    var x := s.chan[i][0];
    var t := Take(s, i);
    TakeOpen(ids, starters, s, m, i);
    HeadFromStarted(ids, s, i);
    TopTaken(ids, starters, s, m, i);
    HopsNext(n, m, i);
    AtHops(n, m, i);
    assert Quiet(t, i);
    assert QuietBehind(ids, t, m, Hops(n, m, Next(n, i)));
    PostOpen(ids, starters, t, Post(t, Next(n, i), x).(sent := s.sent + 1), m, i, x);
  }

  /** A server that had not taken part puts its own id in place of a smaller one. */
  lemma SubstituteOpen(ids: seq<Id>, starters: seq<bool>, s: State, m: nat, i: nat)
    requires Distinct(ids) && |starters| == |ids| && Top(ids, m) && OpenBefore(ids, starters, s, m, i)
    requires s.chan[i][0].Underway? && s.chan[i][0].id < ids[i] && !s.started[i]
    ensures Open(ids, starters, Post(Joined(Take(s, i), i), Next(|ids|, i), Underway(ids[i])).(sent := s.sent + 1), m)
  {
    var t := Take(s, i);
    TakeOpen(ids, starters, s, m, i);
    ReadAhead(ids, starters, s, m, i);
    LaunchOpen(ids, starters, t, Post(Joined(t, i), Next(|ids|, i), Underway(ids[i])).(sent := s.sent + 1), m, i);
  }

  /** The message of the largest id is back home: it was the last message of the whole ring. */
  lemma DeclareAnnounces(ids: seq<Id>, starters: seq<bool>, s: State, m: nat)
    requires |starters| == |ids| && m < |ids| && OpenBefore(ids, starters, s, m, m)
    requires s.chan[m][0] == Underway(ids[m])
    ensures Announcing(ids, Post(Take(s, m), Next(|ids|, m), Elected(ids[m])), m, 1)
  {
    var n := |ids|;
    TopTaken(ids, starters, s, m, m);
    var t := Take(s, m);
    forall c | 0 <= c < n ensures t.chan[c] == [] && t.phase[c] == Running {
      AtHops(n, m, c);
      if c != m { assert Quiet(t, At(n, m, Hops(n, m, c))); }
    }
  }

  /** Only the largest id comes back to its own server. */
  lemma OwnIdIsTop(ids: seq<Id>, s: State, m: nat, i: nat)
    requires Distinct(ids) && Top(ids, m) && Safe(ids, s) && i < |ids| && s.chan[i] != []
    requires s.chan[i][0] == Underway(ids[i])
    ensures i == m
  {
    assert Sound(ids, i, s.chan[i][0]);
    ReactSound(ids, i, s.started[i], s.chan[i][0]);
    assert IsMax(ids, ids[i]);
  }

  lemma ReplyKeepsOpen(ids: seq<Id>, starters: seq<bool>, s: State, m: nat, i: nat)
    requires Distinct(ids) && |starters| == |ids| && Top(ids, m) && OpenBefore(ids, starters, s, m, i) && AllUp(s)
    requires s.chan[i][0].id != ids[i]
    ensures Open(ids, starters, Apply(ids, s, Reply(i)), m)
  {
    var x := s.chan[i][0];
    HeadFromStarted(ids, s, i);
    ReplyEffect(ids, s, i);
    if x.id < ids[i] && s.started[i] {
      DropOpen(ids, starters, s, m, i);
    } else if x.id < ids[i] {
      SubstituteOpen(ids, starters, s, m, i);
    } else if x.id == ids[m] {
      ForwardTopOpen(ids, starters, s, m, i);
    } else {
      ForwardOpen(ids, starters, s, m, i);
    }
  }

  lemma OpenLaunchedOnce(ids: seq<Id>, starters: seq<bool>, s: State, m: nat)
    requires |starters| == |ids| && m < |ids| && ValidSize(|ids|, s) && Open(ids, starters, s, m)
    ensures LaunchedOnce(starters, s)
  {
  }

  /** A step of an open election leaves it open or declares the winner. */
  lemma OpenStep(ids: seq<Id>, starters: seq<bool>, s: State, m: nat, step: Step)
    requires Distinct(ids) && |starters| == |ids| && Top(ids, m) && Safe(ids, s) && AllUp(s)
    requires Open(ids, starters, s, m) && Regular(step) && Enabled(|ids|, s, step)
    ensures var t := Apply(ids, s, step);
            t.up == s.up && LaunchedOnce(starters, t) && (Open(ids, starters, t, m) || Closed(ids, t, m))
  {
    var i := step.i;
    var t := Apply(ids, s, step);
    if step.Start? {
      StartKeepsOpen(ids, starters, s, m, i);
      OpenLaunchedOnce(ids, starters, t, m);
    } else {
      HeadFromStarted(ids, s, i);
      ReplyEffect(ids, s, i);
      assert OpenBefore(ids, starters, s, m, i);
      if s.chan[i][0].id == ids[i] {
        OwnIdIsTop(ids, s, m, i);
        DeclareAnnounces(ids, starters, s, m);
        assert Announcing(ids, t, m, 1);
        OpenLaunchedOnce(ids, starters, s, m);
      } else {
        ReplyKeepsOpen(ids, starters, s, m, i);
        OpenLaunchedOnce(ids, starters, t, m);
      }
    }
  }

  /** Once the winner is declared only the announcement moves. */
  lemma ClosedStep(ids: seq<Id>, starters: seq<bool>, s: State, m: nat, step: Step)
    requires Distinct(ids) && |starters| == |ids| && Top(ids, m) && AllUp(s) && ValidSize(|ids|, s)
    requires LaunchedOnce(starters, s) && Closed(ids, s, m) && Regular(step) && Enabled(|ids|, s, step)
    ensures var t := Apply(ids, s, step);
            t.up == s.up && LaunchedOnce(starters, t) && Closed(ids, t, m)
  {
    AtHops(|ids|, m, step.i);
    var d :| 1 <= d <= |ids| && Announcing(ids, s, m, d);
    assert step.Reply?;
    AnnouncementMoves(ids, s, m, d, step.i);
    if d < |ids| { assert Announcing(ids, Apply(ids, s, step), m, d + 1); }
  }

  lemma StepKeepsInv(ids: seq<Id>, starters: seq<bool>, s: State, m: nat, step: Step)
    requires Distinct(ids) && |starters| == |ids| && Inv(ids, starters, s, m)
    requires Regular(step) && Enabled(|ids|, s, step)
    ensures Inv(ids, starters, Apply(ids, s, step), m)
  {
    ApplySafe(ids, s, step);
    if Open(ids, starters, s, m) {
      OpenStep(ids, starters, s, m, step);
    } else {
      ClosedStep(ids, starters, s, m, step);
    }
  }

  /** The announcement goes on by one place, and stops with the winner. */
  lemma AnnouncementMoves(ids: seq<Id>, s: State, m: nat, d: nat, i: nat)
    requires Distinct(ids) && ValidSize(|ids|, s) && Top(ids, m) && AllUp(s)
    requires 1 <= d <= |ids| && Announcing(ids, s, m, d) && Enabled(|ids|, s, Reply(i))
    ensures var t := Apply(ids, s, Reply(i));
            && i == At(|ids|, m, d) && t.declared == s.declared && t.up == s.up && t.launched == s.launched
            && (forall k :: 0 <= k < |ids| && t.phase[k].Idle? ==> s.phase[k].Idle?)
            && (forall k :: 0 <= k < |ids| && s.phase[k].Idle? ==> t.phase[k].Idle?)
            && if d < |ids| then Announcing(ids, t, m, d + 1) else Over(ids, t, m)
  {
    var n := |ids|;
    var t := Apply(ids, s, Reply(i));
    PositionUnique(ids, m);
    PositionUnique(ids, i);
    AtHops(n, m, i);
    HopsNext(n, m, i);
    forall e | 1 <= e <= n ensures t.phase[At(n, m, e)] == if e < d + 1 then Returned(ids[m]) else Running {
      AtHops(n, m, At(n, m, e));
    }
    if d == n {
      forall c | 0 <= c < n ensures t.phase[c] == Returned(ids[m]) {
        AtHops(n, m, c);
      }
    }
  }

  lemma {:induction false} RunKeepsInv(ids: seq<Id>, starters: seq<bool>, s: State, m: nat, schedule: seq<Step>)
    requires Distinct(ids) && |starters| == |ids| && Inv(ids, starters, s, m)
    requires Runs(ids, s, schedule) && AllRegular(schedule)
    ensures Inv(ids, starters, Final(ids, s, schedule), m)
    decreases |schedule|
  {
    if schedule != [] {
      assert Regular(schedule[0]);
      StepKeepsInv(ids, starters, s, m, schedule[0]);
      RunKeepsInv(ids, starters, Apply(ids, s, schedule[0]), m, schedule[1..]);
    }
  }

  lemma InitInv(ids: seq<Id>, starters: seq<bool>, m: nat)
    requires |starters| == |ids| && Top(ids, m)
    ensures Inv(ids, starters, Init(starters), m)
  {
  }

  lemma TopExists(ids: seq<Id>) returns (m: nat)
    requires |ids| > 0
    ensures Top(ids, m)
  {
    m := 0;
    for k := 0 to |ids|
      invariant m < |ids| && forall j :: 0 <= j < k ==> ids[j] <= ids[m]
    {
      if ids[k] > ids[m] { m := k; }
    }
  }

  /** As long as somebody takes part, an open election can go on. */
  lemma OpenMoves(ids: seq<Id>, starters: seq<bool>, s: State, m: nat, i: nat) returns (step: Step)
    requires |starters| == |ids| && m < |ids| && ValidSize(|ids|, s) && Open(ids, starters, s, m)
    requires i < |ids| && starters[i]
    ensures Regular(step) && Enabled(|ids|, s, step)
  {
    step := Start(i);
    if !s.phase[i].Idle? {
      assert Carried(s, ids[i]);
      var c, q :| 0 <= c < |ids| && 0 <= q < |s.chan[c]| && s.chan[c][q].Underway?;
      step := if s.phase[c].Idle? then Start(c) else Reply(c);
    }
  }

  lemma AnnouncingMoves(ids: seq<Id>, s: State, m: nat, d: nat) returns (step: Step)
    requires m < |ids| && ValidSize(|ids|, s) && 1 <= d <= |ids| && Announcing(ids, s, m, d)
    ensures Regular(step) && Enabled(|ids|, s, step) && s.phase[m].Running?
  {
    step := Reply(At(|ids|, m, d));
    assert At(|ids|, m, |ids|) == m;
  }

  lemma StuckMeansOver(ids: seq<Id>, starters: seq<bool>, s: State, m: nat, i: nat)
    requires |starters| == |ids| && i < |ids| && starters[i]
    requires Inv(ids, starters, s, m) && Stuck(|ids|, s)
    ensures Over(ids, s, m) && s.declared == 1
  {
    if Open(ids, starters, s, m) {
      var step := OpenMoves(ids, starters, s, m, i);
    } else if exists d :: 1 <= d <= |ids| && Announcing(ids, s, m, d) {
      var d :| 1 <= d <= |ids| && Announcing(ids, s, m, d);
      var step := AnnouncingMoves(ids, s, m, d);
    }
  }

  /**
   No deadlock, one winner and a clean ring. For every non-empty set of starters, every server
   puts its own id on the ring at most once, and exactly once if it is a starter that began; at
   most one winner is declared; and when no server can move everyone has returned the largest id
   and every channel is empty, so that a later election cannot read a message of this one.
   */
  lemma RestMeansElected(ids: seq<Id>, starters: seq<bool>, schedule: seq<Step>)
    requires Distinct(ids) && |starters| == |ids| && (exists i :: 0 <= i < |ids| && starters[i])
    requires Runs(ids, Init(starters), schedule) && AllRegular(schedule)
    ensures var t := Final(ids, Init(starters), schedule);
            && t.declared <= 1 && LaunchedOnce(starters, t)
            && (Stuck(|ids|, t) <==> forall i :: 0 <= i < |ids| ==> t.phase[i].Returned?)
            && (Stuck(|ids|, t) ==> t.declared == 1)
            && (Stuck(|ids|, t) ==>
                  forall i :: 0 <= i < |ids| ==> t.phase[i].Returned? && IsMax(ids, t.phase[i].id) && t.chan[i] == [])
  {
    var m := TopExists(ids);
    var t := Final(ids, Init(starters), schedule);
    InitInv(ids, starters, m);
    RunKeepsInv(ids, starters, Init(starters), m, schedule);
    if Stuck(|ids|, t) {
      var i :| 0 <= i < |ids| && starters[i];
      StuckMeansOver(ids, starters, t, m, i);
    }
  }

  /**
   The winner is the last to return: whoever has the largest id returns only when everyone else
   has, and from then on every channel is empty.
   */
  lemma WinnerReturnsLast(ids: seq<Id>, starters: seq<bool>, schedule: seq<Step>, m: nat)
    requires Distinct(ids) && |starters| == |ids| && Top(ids, m)
    requires Runs(ids, Init(starters), schedule) && AllRegular(schedule)
    ensures var t := Final(ids, Init(starters), schedule);
            t.phase[m].Returned? ==>
              forall i :: 0 <= i < |ids| ==> t.phase[i] == Returned(ids[m]) && t.chan[i] == []
  {
    var t := Final(ids, Init(starters), schedule);
    InitInv(ids, starters, m);
    RunKeepsInv(ids, starters, Init(starters), m, schedule);
    if t.phase[m].Returned? && !Over(ids, t, m) {
      var d :| 1 <= d <= |ids| && Announcing(ids, t, m, d);
      var step := AnnouncingMoves(ids, t, m, d);
    }
  }
}
