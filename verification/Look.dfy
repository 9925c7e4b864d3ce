/**
  * The LOOK scheduler: the head sweeps up and down over the pending requests and turns where
  * nothing is left in its direction.
  */
module Look {
  import opened Lists

  /** A pending request: where it starts, and the length of its first bio. */
  datatype Rq = Rq(id: nat, pos: nat, len: nat)

  datatype Look = Look(queue: seq<Rq>, cur: nat, up: bool)

  // ----- the scan of look_dispatch -----

  /** The scan for a request at or above the head, over the first n: its index, or -1. */
  function Higher(q: seq<Rq>, cur: nat, n: nat): (h: int)
    requires n <= |q|
    ensures -1 <= h < n
  {
    if n == 0 then -1
    else
      var h := Higher(q, cur, n - 1);
      if q[n-1].pos >= cur && (h == -1 || q[n-1].pos < q[h].pos) then n - 1 else h
  }

  /** The scan for a request at or below the head. */
  function Lower(q: seq<Rq>, cur: nat, n: nat): (l: int)
    requires n <= |q|
    ensures -1 <= l < n
  {
    if n == 0 then -1
    else
      var l := Lower(q, cur, n - 1);
      if q[n-1].pos <= cur && (l == -1 || q[n-1].pos > q[l].pos) then n - 1 else l
  }

  /** The scan finds the first of the lowest requests at or above the head, if there is any. */
  lemma {:induction false} HigherIs(q: seq<Rq>, cur: nat, n: nat, j: nat)
    requires n <= |q|
    ensures var h := Higher(q, cur, n); h >= 0 ==> q[h].pos >= cur
    ensures var h := Higher(q, cur, n);
            j < n && q[j].pos >= cur ==> h >= 0 && (q[h].pos < q[j].pos || (q[h].pos == q[j].pos && h <= j))
  {
    if n > 0 { HigherIs(q, cur, n - 1, j); }
  }

  /** And the first of the highest at or below it. */
  lemma {:induction false} LowerIs(q: seq<Rq>, cur: nat, n: nat, j: nat)
    requires n <= |q|
    ensures var l := Lower(q, cur, n); l >= 0 ==> q[l].pos <= cur
    ensures var l := Lower(q, cur, n);
            j < n && q[j].pos <= cur ==> l >= 0 && (q[l].pos > q[j].pos || (q[l].pos == q[j].pos && l <= j))
  {
    if n > 0 { LowerIs(q, cur, n - 1, j); }
  }

  /** The direction of the next dispatch, after the head has turned if it must. */
  function Heading(s: Look): bool {
    var up := s.up && Higher(s.queue, s.cur, |s.queue|) >= 0;
    up || Lower(s.queue, s.cur, |s.queue|) < 0
  }

  function Target(s: Look): int {
    if Heading(s) then Higher(s.queue, s.cur, |s.queue|) else Lower(s.queue, s.cur, |s.queue|)
  }

  /** There is always something to dispatch: neither branch meets a null request. */
  lemma TargetExists(s: Look)
    requires s.queue != []
    ensures 0 <= Target(s) < |s.queue|
  {
    HigherIs(s.queue, s.cur, |s.queue|, 0);
    LowerIs(s.queue, s.cur, |s.queue|, 0);
  }

  /** look_dispatch on a queue that is not empty: the head moves to the end of the first bio. */
  function Step(s: Look): Look
    requires s.queue != []
  {
    TargetExists(s);
    var r := s.queue[Target(s)];
    Look(Remove(s.queue, Target(s)), r.pos + r.len, Heading(s))
  }

  // ----- draining -----

  datatype Event = Event(up: bool, rq: Rq)

  function Served(s: Look): Event
    requires s.queue != []
  {
    TargetExists(s);
    Event(Heading(s), s.queue[Target(s)])
  }

  /** What repeated dispatching with no arrivals sends out. */
  function Drain(s: Look): seq<Event>
    decreases |s.queue|
  {
    if s.queue == [] then [] else [Served(s)] + Drain(Step(s))
  }

  function Requests(es: seq<Event>): (rs: seq<Rq>)
    ensures |rs| == |es|
  {
    seq(|es|, i requires 0 <= i < |es| => es[i].rq)
  }

  lemma DrainCons(s: Look)
    requires s.queue != []
    ensures Drain(s) == [Served(s)] + Drain(Step(s)) && |Step(s).queue| == |s.queue| - 1 && Step(s).up == Served(s).up
    ensures multiset(s.queue) == multiset{Served(s).rq} + multiset(Step(s).queue)
  {
    TargetExists(s);
    var k := Target(s);
    hide Target, Heading;
    assert s.queue == s.queue[..k] + [s.queue[k]] + s.queue[k+1..];
  }

  /** Every pending request is dispatched exactly once, one per call. */
  lemma {:induction false} DrainServesAll(s: Look)
    ensures |Drain(s)| == |s.queue| && multiset(Requests(Drain(s))) == multiset(s.queue)
    decreases |s.queue|
  {
    if s.queue == [] {
      assert Drain(s) == [] && Requests([]) == [];
    } else {
      DrainCons(s);
      hide Drain, Step, Served;
      DrainServesAll(Step(s));
      RequestsCons(Served(s), Drain(Step(s)));
    }
  }

  lemma RequestsCons(e: Event, es: seq<Event>)
    ensures Requests([e] + es) == [e.rq] + Requests(es)
    ensures multiset(Requests([e] + es)) == multiset{e.rq} + multiset(Requests(es))
  {
    assert Requests([e] + es) == [e.rq] + Requests(es);
  }

  /** Changes of direction, the first counted against `up`. */
  function Turns(up: bool, es: seq<Event>): nat
    decreases |es|
  {
    if es == [] then 0 else (if es[0].up != up then 1 else 0) + Turns(es[0].up, es[1..])
  }

  ghost predicate Rises(es: seq<Event>) {
    && (forall i :: 0 <= i < |es| ==> es[i].up)
    && (forall i, j :: 0 <= i < j < |es| ==> es[i].rq.pos <= es[j].rq.pos)
  }

  ghost predicate Falls(es: seq<Event>) {
    && (forall i :: 0 <= i < |es| ==> !es[i].up)
    && (forall i, j :: 0 <= i < j < |es| ==> es[i].rq.pos >= es[j].rq.pos)
  }

  ghost predicate AllWithin(q: seq<Rq>, top: nat) { forall i :: 0 <= i < |q| ==> q[i].pos <= top }

  /** The head going down with everything below it takes the highest that is left. */
  lemma FallStep(s: Look, top: nat)
    requires s.queue != [] && AllWithin(s.queue, top) && top <= s.cur && (!s.up || Higher(s.queue, s.cur, |s.queue|) < 0)
    ensures var t := Step(s); !t.up && Served(s).rq.pos <= top && AllWithin(t.queue, Served(s).rq.pos) && Served(s).rq.pos <= t.cur
    ensures !Served(s).up
  {
    hide Lower, Higher;
    var k := Lower(s.queue, s.cur, |s.queue|);
    assert s.queue[0].pos <= s.cur;
    LowerIs(s.queue, s.cur, |s.queue|, 0);
    assert s.queue[k].pos <= top;
    forall i | 0 <= i < |Remove(s.queue, k)| ensures Remove(s.queue, k)[i].pos <= s.queue[k].pos {
      var j := if i < k then i else i + 1;
      assert Remove(s.queue, k)[i] == s.queue[j] && s.queue[j].pos <= s.cur;
      LowerIs(s.queue, s.cur, |s.queue|, j);
    }
  }

  lemma FallCons(e: Event, es: seq<Event>)
    requires !e.up && Falls(es) && forall i :: 0 <= i < |es| ==> es[i].rq.pos <= e.rq.pos
    ensures Falls([e] + es)
  {
    var all := [e] + es;
    forall i | 0 <= i < |all| ensures all[i] == if i == 0 then e else es[i-1] {}
  }

  lemma {:induction false} Falling(s: Look, top: nat)
    requires AllWithin(s.queue, top) && top <= s.cur && (!s.up || Higher(s.queue, s.cur, |s.queue|) < 0)
    ensures Falls(Drain(s)) && forall i :: 0 <= i < |Drain(s)| ==> Drain(s)[i].rq.pos <= top
    decreases |s.queue|
  {
    if s.queue != [] {
      FallStep(s, top);
      DrainCons(s);
      hide Drain, Step, Served, Higher, Falls;
      Falling(Step(s), Served(s).rq.pos);
      FallCons(Served(s), Drain(Step(s)));
    }
  }

  /** Going up, the head takes the lowest at or above it and stays above what it has passed. */
  lemma RiseStep(s: Look)
    requires s.queue != [] && s.up && Higher(s.queue, s.cur, |s.queue|) >= 0
    ensures var t := Step(s); t.up && Served(s).up && s.cur <= Served(s).rq.pos <= t.cur
  {
    hide Lower, Higher;
    HigherIs(s.queue, s.cur, |s.queue|, 0);
  }

  ghost predicate Swept(es: seq<Event>, k: nat, low: nat) {
    && k <= |es| && Rises(es[..k]) && Falls(es[k..])
    && forall i :: 0 <= i < k ==> es[i].rq.pos >= low
  }

  /** A sweep that starts upward rises, turns at most once and then falls. */
  lemma {:induction false} Rising(s: Look) returns (k: nat)
    requires s.up
    ensures Swept(Drain(s), k, s.cur)
    decreases |s.queue|
  {
    if s.queue == [] {
      k := 0;
    } else if Higher(s.queue, s.cur, |s.queue|) < 0 {
      forall j | 0 <= j < |s.queue| ensures s.queue[j].pos <= s.cur { HigherIs(s.queue, s.cur, |s.queue|, j); }
      Falling(s, s.cur);
      k := 0;
      assert Drain(s)[0..] == Drain(s);
    } else {
      RiseStep(s);
      DrainCons(s);
      hide Drain, Step, Served, Higher, Swept;
      var j := Rising(Step(s));
      k := j + 1;
      RiseCons(Served(s), Drain(Step(s)), j, Step(s).cur, s.cur);
    }
  }

  lemma RiseCons(e: Event, es: seq<Event>, k: nat, low: nat, lower: nat)
    requires Swept(es, k, low) && e.up && lower <= e.rq.pos <= low
    ensures Swept([e] + es, k + 1, lower)
  {
    var all := [e] + es;
    assert all[k+1..] == es[k..];
    assert all[..k+1] == [e] + es[..k];
    forall i | 0 <= i < k ensures es[..k][i] == es[i] {}
  }

  /** Going down, until nothing is below the head, and then a sweep upward. */
  lemma {:induction false} Opening(s: Look) returns (d: nat, k: nat)
    requires !s.up
    ensures d <= k <= |Drain(s)| && (forall i :: 0 <= i < d ==> !Drain(s)[i].up)
    ensures Rises(Drain(s)[d..k]) && Falls(Drain(s)[k..])
    decreases |s.queue|
  {
    hide Drain, Step, Served, Rises, Falls, Swept;
    if s.queue == [] {
      DrainNil(s);
      d, k := 0, 0;
    } else {
      DrainCons(s);
      HeadMoves(s);
      var t, e := Step(s), Served(s);
      var es := Drain(t);
      if e.up {
        var j := Rising(t);
        RiseCons(e, es, j, t.cur, e.rq.pos);
        SweptFromStart([e] + es, j + 1, e.rq.pos);
        d, k := 0, j + 1;
      } else {
        d, k := Opening(t);
        OpenCons(e, es, d, k);
        d, k := d + 1, k + 1;
      }
    }
  }

  lemma SweptFromStart(es: seq<Event>, k: nat, low: nat)
    requires Swept(es, k, low)
    ensures k <= |es| && Rises(es[0..k]) && Falls(es[k..])
  {
    assert es[0..k] == es[..k];
  }

  lemma OpenCons(e: Event, es: seq<Event>, d: nat, k: nat)
    requires !e.up && d <= k <= |es| && (forall i :: 0 <= i < d ==> !es[i].up)
    ensures ([e] + es)[d+1..k+1] == es[d..k] && ([e] + es)[k+1..] == es[k..]
    ensures forall i :: 0 <= i < d + 1 ==> !([e] + es)[i].up
  {
    forall i | 0 <= i < d + 1 ensures !([e] + es)[i].up { assert ([e] + es)[i] == if i == 0 then e else es[i-1]; }
  }

  lemma DrainNil(s: Look)
    requires s.queue == []
    ensures Drain(s) == [] && Rises(Drain(s)[0..0]) && Falls(Drain(s)[0..])
  {
  }

  lemma HeadMoves(s: Look)
    requires s.queue != []
    ensures Served(s).rq.pos <= Step(s).cur
  {
  }

  lemma {:induction false} TurnsIn(up: bool, es: seq<Event>, k: nat)
    requires k <= |es| && (forall i :: 0 <= i < k ==> es[i].up == up)
    ensures Turns(up, es) == Turns(up, es[k..])
    decreases k
  {
    if k > 0 {
      TurnsIn(up, es[1..], k - 1);
      assert es[1..][k-1..] == es[k..];
    } else {
      assert es[0..] == es;
    }
  }

  lemma TurnOnce(up: bool, es: seq<Event>)
    requires forall i :: 0 <= i < |es| ==> es[i].up != up
    ensures Turns(up, es) <= 1
  {
    TurnsIn(!up, es, |es|);
    assert es[|es|..] == [];
  }

  /** Starting upward: requests rise, then fall, with at most one turn. */
  lemma UpwardDrain(s: Look)
    requires s.up
    ensures Turns(true, Drain(s)) <= 1
    ensures exists k :: 0 <= k <= |Drain(s)| && Rises(Drain(s)[..k]) && Falls(Drain(s)[k..])
  {
    var k := Rising(s);
    var es := Drain(s);
    hide Drain;
    forall i | 0 <= i < k ensures es[i].up { assert es[..k][i].up; }
    TurnsIn(true, es, k);
    TurnOnce(true, es[k..]);
  }

  /** Starting downward: an opening descent, then rising, then falling, with at most two turns. */
  lemma DownwardDrain(s: Look)
    requires !s.up
    ensures Turns(false, Drain(s)) <= 2
    ensures exists d, k :: 0 <= d <= k <= |Drain(s)| && (forall i :: 0 <= i < d ==> !Drain(s)[i].up)
                        && Rises(Drain(s)[d..k]) && Falls(Drain(s)[k..])
  {
    var d, k := Opening(s);
    var es := Drain(s);
    hide Drain;
    TurnsIn(false, es, d);
    var fs := es[d..];
    forall i | 0 <= i < k - d ensures fs[i].up { assert es[d..k][i].up; }
    TurnedTwice(fs, k - d);
    assert fs[k-d..] == es[k..];
  }

  lemma TurnedTwice(fs: seq<Event>, k: nat)
    requires k <= |fs| && (forall i :: 0 <= i < k ==> fs[i].up) && Falls(fs[k..])
    ensures Turns(false, fs) <= 2
  {
    TurnsIn(true, fs, k);
    TurnOnce(true, fs[k..]);
    assert Turns(false, fs) <= 1 + Turns(true, fs);
  }

  /** A descent steps back up exactly when a pending request starts within the bio just passed. */
  lemma DescentRisesIff(s: Look)
    requires s.queue != [] && !Served(s).up && Step(s).queue != []
    ensures var t, r := Step(s), Served(s).rq;
            !Served(t).up && Served(t).rq.pos > r.pos <==> exists i :: 0 <= i < |t.queue| && r.pos < t.queue[i].pos <= r.pos + r.len
  {
    var t, r := Step(s), Served(s).rq;
    assert !t.up && t.cur == r.pos + r.len;
    hide Step, Higher, Lower;
    TargetExists(t);
    var l := Lower(t.queue, t.cur, |t.queue|);
    LowerIs(t.queue, t.cur, |t.queue|, 0);
    forall i | 0 <= i < |t.queue| && r.pos < t.queue[i].pos <= r.pos + r.len ensures l >= 0 && t.queue[l].pos > r.pos {
      LowerIs(t.queue, t.cur, |t.queue|, i);
    }
  }

  /** In an opening descent positions may rise again: the head stands behind the bio it has just passed. */
  lemma OpeningMayRise()
    ensures var s := Look([Rq(0, 9, 8), Rq(1, 15, 1)], 10, false);
            var es := Drain(s); |es| == 2 && !es[0].up && !es[1].up && es[0].rq.pos < es[1].rq.pos
  {
    var s := Look([Rq(0, 9, 8), Rq(1, 15, 1)], 10, false);
    assert Lower(s.queue, 10, 1) == 0;
    assert Lower(s.queue, 10, 2) == 0;
    assert Remove(s.queue, 0) == [Rq(1, 15, 1)];
    var t := Look([Rq(1, 15, 1)], 17, false);
    assert Step(s) == t && Served(s) == Event(false, Rq(0, 9, 8));
    assert Lower(t.queue, 17, 1) == 0;
    assert Remove(t.queue, 0) == [];
    assert Step(t).queue == [] && Served(t) == Event(false, Rq(1, 15, 1));
    assert Drain(Step(t)) == [];
    assert Drain(t) == [Served(t)];
    assert Drain(s) == [Served(s)] + Drain(t);
  }

  // ----- the scheduler -----

  class LookData {
    var queue: seq<Rq>
    var curPos: nat
    var dir: nat

    ghost predicate Valid()
      reads this
    {
      dir <= 1
    }

    ghost function State(): Look
      reads this
    {
      Look(queue, curPos, dir == 1)
    }

    constructor (cur: nat, d: nat)
      requires d <= 1
      ensures Valid() && State() == Look([], cur, d == 1)
    {
      queue, curPos, dir := [], cur, d;
    }

    /** look_add_request */
    method AddRequest(rq: Rq)
      requires Valid()
      modifies this`queue
      ensures Valid() && State() == old(State()).(queue := old(queue) + [rq])
    {
      queue := queue + [rq];
    }

    /** The loop of look_dispatch over the pending requests. */
    static method Scan(queue: seq<Rq>, curPos: nat) returns (higher: int, lower: int)
      ensures higher == Higher(queue, curPos, |queue|) && lower == Lower(queue, curPos, |queue|)
    {
      higher, lower := -1, -1;
      var i := 0;
      while i < |queue|
        invariant i <= |queue| && higher == Higher(queue, curPos, i) && lower == Lower(queue, curPos, i)
      {
        var rq := queue[i];
        if rq.pos >= curPos {
          if higher != -1 {
            if rq.pos < queue[higher].pos { higher := i; }
          } else {
            higher := i;
          }
        }
        if rq.pos <= curPos {
          if lower != -1 {
            if rq.pos > queue[lower].pos { lower := i; }
          } else {
            lower := i;
          }
        }
        i := i + 1;
      }
    }

    /** The head turns where nothing is left in its direction. */
    method Turn(higher: int, lower: int)
      requires Valid() && higher == Higher(queue, curPos, |queue|) && lower == Lower(queue, curPos, |queue|)
      modifies this`dir
      ensures Valid() && (dir == 1) == Heading(old(State()))
    {
      hide Higher, Lower;
      if dir == 1 && higher == -1 { dir := 0; }
      if dir == 0 && lower == -1 { dir := 1; }
    }

    /** Request k goes to the dispatch queue. */
    method Send(k: nat, ghost s: Look) returns (out: seq<Rq>)
      requires s.queue == queue != [] && k == Target(s) && k < |queue| && Valid() && (dir == 1) == Heading(s)
      modifies this`queue, this`curPos
      ensures State() == Step(s) && out == [Served(s).rq]
    {
      hide Target, Heading;
      out := [queue[k]];
      curPos := queue[k].pos + queue[k].len;
      queue := queue[..k] + queue[k+1..];
    }

    /** look_dispatch: one request, and none exactly when none is pending. */
    method Dispatch() returns (out: seq<Rq>)
      requires Valid()
      modifies this
      ensures Valid() && (out == [] <==> old(queue) == [])
      ensures old(queue) == [] ==> State() == old(State())
      ensures old(queue) != [] ==> State() == Step(old(State())) && out == [Served(old(State())).rq]
    {
      if queue == [] { return []; }
      hide Higher, Lower, Heading, Step, Served;
      ghost var s := State();
      TargetExists(s);
      var higher, lower := Scan(queue, curPos);
      Turn(higher, lower);
      out := Send(if dir == 1 then higher else lower, s);
    }

    /** elv_drain_elevator over this scheduler. */
    method DrainAll() returns (out: seq<Rq>)
      requires Valid()
      modifies this
      ensures Valid() && queue == [] && out == Requests(Drain(old(State())))
    {
      ghost var s := State();
      out := [];
      assert Requests([]) == [];
      var next := Dispatch();
      ghost var was := s;
      while next != []
        invariant Valid() && Progress(s, was, State(), out, next)
        decreases |was.queue|
      {
        Progressed(s, was, State(), out, next);
        out := out + next;
        was := State();
        next := Dispatch();
      }
      assert Drain(was) == [] && Requests([]) == [];
    }
  }

  /** `out` has been sent, `next` was just taken from the state `was`. */
  ghost predicate Progress(s: Look, was: Look, now: Look, out: seq<Rq>, next: seq<Rq>) {
    && Requests(Drain(s)) == out + Requests(Drain(was))
    && (next == [] <==> was.queue == [])
    && if was.queue == [] then now == was else now == Step(was) && next == [Served(was).rq]
  }

  lemma Progressed(s: Look, was: Look, now: Look, out: seq<Rq>, next: seq<Rq>)
    requires Progress(s, was, now, out, next) && next != []
    ensures Requests(Drain(s)) == (out + next) + Requests(Drain(now)) && |now.queue| < |was.queue|
  {
    DrainCons(was);
    hide Drain, Step, Served;
    RequestsCons(Served(was), Drain(now));
  }
}
