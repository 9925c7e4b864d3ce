/** What the barrier protocol promises, for every run. */
module BarrierTheorems {
  import opened Barrier
  import opened BarrierInvariants
  import opened BarrierColours
  import opened BarrierDraining
  import opened BarrierOrdering

  /** Reached from an idle queue whose driver asked for ordering mode `m`. */
  ghost predicate Reachable(m: Mode, acts: seq<Action>, s: State) { Supported(m) && Runs(Init(m), acts, s) }

  lemma ReachableInv(m: Mode, acts: seq<Action>, s: State)
    requires Reachable(m, acts, s)
    ensures Inv(s)
  {
    InitInv(m);
    RunInv(Init(m), acts, s);
  }

  lemma ReachableColoured(m: Mode, acts: seq<Action>, s: State)
    requires Reachable(m, acts, s) && Unflagged(acts)
    ensures ColouredInv(s)
  {
    InitColoured(m);
    RunColoured(Init(m), acts, s);
  }

  lemma ReachableOrdered(m: Mode, acts: seq<Action>, s: State)
    requires Reachable(m, acts, s) && Unflagged(acts) && m.byDrain
    ensures OrderedInv(s)
  {
    InitOrdered(m);
    RunOrdered(Init(m), acts, s);
  }

  // ----- ordering by draining -----

  /** While a command `p` of the running barrier is with the driver: requests preceding the barrier
      have finished, requests following it have not started, and no other filesystem request is
      with the driver. */
  ghost predicate Separated(s: State, p: int) {
    && IsBarrier(s, s.orig)
    && (forall r :: r in s.driver && r != p ==> IsSpecial(s, r))
    && (forall t :: 0 <= t < s.orig && !IsSpecial(s, t) ==> t in s.ended)
    && (forall t :: s.orig < t && IsPlain(s, t) ==> t !in s.issued && t !in s.ended)
  }

  ghost predicate DrainSafe(s: State) { forall p :: IsProxy(p) && p in s.driver ==> Separated(s, p) }

  /** A request submitted after a barrier is not issued before that barrier has ended. */
  ghost predicate NoOvertaking(s: State) {
    forall b, t :: IsBarrier(s, b) && IsPlain(s, t) && b < t && t in s.issued ==> b in s.ended
  }

  /** A barrier does not end before every earlier filesystem request has. */
  ghost predicate EndsInOrder(s: State) {
    forall b, t :: IsBarrier(s, b) && b in s.ended && 0 <= t < b && !IsSpecial(s, t) ==> t in s.ended
  }

  lemma DrainSafety(m: Mode, acts: seq<Action>, s: State)
    requires Reachable(m, acts, s) && Unflagged(acts) && m.byDrain
    ensures DrainSafe(s)
  {
    ReachableOrdered(m, acts, s);
    forall p | IsProxy(p) && p in s.driver ensures Separated(s, p) { ProxySeparated(s, p); }
  }

  lemma ProxySeparated(s: State, p: int)
    requires OrderedInv(s) && IsProxy(p) && p in s.driver
    ensures Separated(s, p)
  {
    HeldIsCurrent(s, p);
    forall r | r in s.driver && r != p ensures IsSpecial(s, r) {
      HeldIsCurrent(s, r);
      assert RequestOk(s, {}, r) && ColourOk(s, r);
    }
    forall t | 0 <= t < s.orig && !IsSpecial(s, t) ensures t in s.ended { EndedBefore(s, t); }
    forall t | s.orig < t && IsPlain(s, t) ensures t !in s.issued && t !in s.ended { NotBegunAfter(s, t); }
  }

  /** Once the drain stage is over every earlier filesystem request has ended. */
  lemma EndedBefore(s: State, t: int)
    requires OrderedInv(s) && Running(s) && DRAIN in s.ordseq && 0 <= t < s.orig && !IsSpecial(s, t)
    ensures t in s.ended
  {
    assert BarrierOk(s, s.begun - 1) && TicketOk(s, t) && RequestOk(s, {}, t) && OrderOk(s, t) && ColourOk(s, t);
  }

  lemma NotBegunAfter(s: State, t: int)
    requires OrderedInv(s) && Running(s) && s.orig < t && IsPlain(s, t)
    ensures t !in s.issued && t !in s.ended
  {
    DrainMode(s);
    assert BarrierOk(s, s.begun - 1) && RequestOk(s, {}, t) && ColourOk(s, t);
  }

  lemma NoneOvertakes(m: Mode, acts: seq<Action>, s: State)
    requires Reachable(m, acts, s) && Unflagged(acts) && m.byDrain
    ensures NoOvertaking(s)
  {
    ReachableOrdered(m, acts, s);
    forall b, t | IsBarrier(s, b) && IsPlain(s, t) && b < t && t in s.issued ensures b in s.ended {
      BarrierPassed(s, b, t);
    }
  }

  lemma BarrierPassed(s: State, b: int, t: int)
    requires OrderedInv(s) && IsBarrier(s, b) && IsPlain(s, t) && b < t && t in s.issued
    ensures b in s.ended
  {
    assert ColourOk(s, t) && TicketOk(s, b) && RequestOk(s, {}, b) && ColourOk(s, b) && BarrierOk(s, s.epoch[b]);
    if Running(s) {
      DrainMode(s);
      assert BarrierOk(s, s.begun - 1);
    }
  }

  lemma BarrierEndsLast(m: Mode, acts: seq<Action>, s: State)
    requires Reachable(m, acts, s) && Unflagged(acts) && m.byDrain
    ensures EndsInOrder(s)
  {
    ReachableOrdered(m, acts, s);
    forall b, t | IsBarrier(s, b) && b in s.ended && 0 <= t < b && !IsSpecial(s, t) ensures t in s.ended {
      BarrierLast(s, b, t);
    }
  }

  lemma BarrierLast(s: State, b: int, t: int)
    requires OrderedInv(s) && IsBarrier(s, b) && b in s.ended && 0 <= t < b && !IsSpecial(s, t)
    ensures t in s.ended
  {
    assert OrderOk(s, t) && TicketOk(s, b) && TicketOk(s, t) && RequestOk(s, {}, b) && RequestOk(s, {}, t);
    assert ColourOk(s, b) && ColourOk(s, t) && BarrierOk(s, s.epoch[b]);
    if Running(s) { assert BarrierOk(s, s.begun - 1); }
  }

  // ----- no sequence gets stuck -----

  /** A sequence that orders by tag never comes to a standstill, whatever the queue's mode. */
  lemma TagNeverStuck(m: Mode, acts: seq<Action>, s: State)
    requires Reachable(m, acts, s) && Unflagged(acts) && s.ordered.byTag
    ensures !Stuck(s)
  {
    ReachableColoured(m, acts, s);
    ColouredLive(s);
    StuckIff(s);
    if Draining(s) { DrainingMode(s); }
  }

  /** On a queue that orders by draining no sequence does. */
  lemma DrainNeverStuck(m: Mode, acts: seq<Action>, s: State)
    requires Reachable(m, acts, s) && Unflagged(acts) && m.byDrain
    ensures !Stuck(s)
  {
    ReachableOrdered(m, acts, s);
    ColouredLive(s);
    StuckIff(s);
  }

  /** In every mode the running sequence can be ended from every state that a run reaches. */
  lemma AlwaysFinishes(m: Mode, acts: seq<Action>, s: State)
    requires Reachable(m, acts, s) && Unflagged(acts)
    ensures exists more, t :: Unflagged(more) && Runs(s, more, t) && !Running(t) && t.begun == s.begun
  {
    hide Sane, Runs, Reachable;
    ReachableColoured(m, acts, s);
    ColouredLive(s);
    var more, t := CanFinish(s);
  }

  /** When looking at the head begins a drain, in any mode: the sequence can come to a standstill
      exactly if the driver holds a plain request of the other colour than the barrier's. */
  lemma StartSticksIff(m: Mode, acts: seq<Action>, s: State)
    requires Reachable(m, acts, s) && Unflagged(acts) && s.queue != [] && !Running(s) && Draining(Peek(s).st)
    ensures CanStick(Peek(s).st, s.queue[0]) <==>
            exists r :: r in s.driver && IsPlain(s, r) && ColorOf(s, r) != ColorOf(s, s.queue[0])
  {
    hide Inv, Coloured, Peek, CanStick, StartOrdered, IsBarrier, Reachable, Stuck;
    var t := Peek(s).st;
    ReachableColoured(m, acts, s);
    PeekColoured(s, Peek(s));
    StartsAt(s, t);
    DrainSticksIff(t);
    assert !Stuck(t) by { NotStuckHeld(t); }
    if r :| Mismatched(t, r) { assert r in s.driver; }
    if r :| r in s.driver && IsPlain(s, r) && ColorOf(s, r) != ColorOf(s, s.queue[0]) { assert Mismatched(t, r); }
  }

  lemma NotStuckHeld(t: State)
    requires t.driver != {}
    ensures !Stuck(t)
  {
  }

  lemma StartsAt(s: State, t: State)
    requires ColouredInv(s) && s.queue != [] && !Running(s) && t == Peek(s).st && Draining(t)
    ensures t.orig == s.queue[0] && t.driver == s.driver != {} && t.kind == s.kind && t.color == s.color
  {
    hide Inv, Coloured, Peek, StartOrdered, IsBarrier;
    PeekBegun(s, t);
    if !IsBarrier(s, s.queue[0]) { PeekQuiet(s, t); }
    else if s.nextOrdered == ORDERED_NONE { PeekRefuses(s, t); }
    else {
      StartProgress(s, StartOrdered(s, s.queue[0]).st);
      PeekStarts(s, t, StartOrdered(s, s.queue[0]).st);
    }
  }

  /** A queue in this mode drains only where its driver asked for that. */
  lemma TagWithFlushNeverDrains(m: Mode, acts: seq<Action>, s: State)
    requires Reachable(m, acts, s) && !m.byDrain && (m.byTag ==> m.doPre)
    ensures !Draining(s)
  {
    ReachableInv(m, acts, s);
    ModeStays(Init(m), acts, s);
    if Draining(s) { DrainingMode(s); }
  }

  lemma {:induction false} ModeStays(s: State, acts: seq<Action>, t: State)
    requires Inv(s) && Runs(s, acts, t)
    ensures t.nextOrdered == s.nextOrdered
    decreases |acts|
  {
    hide Inv, Apply, Enabled;
    if acts != [] {
      StepBegun(s, acts[0], Apply(s, acts[0]));
      StepInv(s, acts[0]);
      ModeStays(Apply(s, acts[0]), acts[1..], t);
    }
  }

  // ----- exactly once, in every mode -----

  /** Every submitted request is in exactly one place, no request ends twice, and no BUG_ON fires,
      whatever is submitted. */
  lemma ExactlyOnce(m: Mode, acts: seq<Action>, s: State)
    requires Reachable(m, acts, s)
    ensures !s.bug
    ensures forall t :: IsTicket(s, t) ==> Holders(s, t) == 1
    ensures forall t :: s.ended[t] <= 1
  {
    ReachableInv(m, acts, s);
    forall t | IsTicket(s, t) ensures Holders(s, t) == 1 { assert RequestOk(s, {}, t); }
    forall t ensures s.ended[t] <= 1 { assert RequestOk(s, {}, t); }
  }

  /** Queued proxies stand in the order preflush, barrier, postflush, in every mode. */
  lemma ProxiesInOrder(m: Mode, acts: seq<Action>, s: State, i: nat, j: nat)
    requires Reachable(m, acts, s) && i < j < |s.queue| && IsProxy(s.queue[i]) && IsProxy(s.queue[j])
    ensures s.queue[i] < s.queue[j]
  {
    ReachableInv(m, acts, s);
    assert Before(s, s.queue[i], s.queue[j]);
  }

  /** FirstError is the first nonzero error, or zero when there is none. */
  lemma {:induction false} FirstErrorIs(errs: seq<int>)
    ensures FirstError(errs) == 0 ==> forall i :: 0 <= i < |errs| ==> errs[i] == 0
    ensures FirstError(errs) != 0 ==>
              exists i :: 0 <= i < |errs| && errs[i] == FirstError(errs) && forall k :: 0 <= k < i ==> errs[k] == 0
  {
    if errs != [] {
      var front := errs[..|errs|-1];
      FirstErrorIs(front);
      if FirstError(front) != 0 {
        var i :| 0 <= i < |front| && front[i] == FirstError(front) && forall k :: 0 <= k < i ==> front[k] == 0;
        assert errs[i] == FirstError(errs) && forall k :: 0 <= k < i ==> errs[k] == 0;
      } else if errs[|front|] != 0 {
        assert forall k :: 0 <= k < |front| ==> errs[k] == front[k];
      }
    }
  }

  /** The error a step reports to the running sequence: a proxy reports its own, a drain none. */
  function Reported(a: Action): int {
    match a
    case End(r, e) => if IsProxy(r) then e else 0
    case _ => 0
  }

  ghost predicate Untouched(s: State, t: State) { t.ended == s.ended && t.results == s.results }

  lemma CompleteSeqOutcome(u: State, c: set<Stage>, e: int, t: State)
    requires t == CompleteSeq(u, c, e)
    ensures t.errs == u.errs + [e] && t.kind == u.kind
    ensures Untouched(u, t) || (t.ordseq == {} && t.ended == u.ended + multiset{u.orig} && t.results == u.results[u.orig := t.orderr])
  {
  }

  lemma StartOutcome(s: State, t: State)
    requires s.queue != [] && IsBarrier(s, s.queue[0]) && t == StartOrdered(s, s.queue[0]).st
    ensures t.errs == [0]
    ensures Untouched(s, t) ||
            (t.ordseq == {} && t.ended == s.ended + multiset{s.queue[0]} && t.results == s.results[s.queue[0] := t.orderr])
  {
    QueueSequenceShape(s);
    FinishOutcome(QueueSequence(s, s.queue[0]), t);
  }

  lemma FinishOutcome(u: State, t: State)
    requires t == FinishStart(u).st
    ensures t.errs == u.errs + [0]
    ensures Untouched(u, t) || (t.ordseq == {} && t.ended == u.ended + multiset{u.orig} && t.results == u.results[u.orig := t.orderr])
  {
    CompleteSeqOutcome(u, Skipped(u.ordered, u.ordered.byDrain && u.inFlight != 0), 0, t);
  }

  lemma PeekOutcome(s: State, t: State, b: int)
    requires s.queue != [] && t == Peek(s).st && s.nextOrdered != ORDERED_NONE && b !in s.ended && b in t.ended
    ensures !Running(s) && b == s.queue[0] && t.errs == [0] && t.ordseq == {}
    ensures b in t.results && t.results[b] == t.orderr
  {
    if !Running(s) && IsBarrier(s, s.queue[0]) { StartOutcome(s, StartOrdered(s, s.queue[0]).st); }
  }

  /** The barrier `b` ends in this step with the error its sequence recorded. */
  ghost predicate Outcome(s: State, t: State, e: int, b: int) {
    && t.ordseq == {} && b in t.results && t.results[b] == t.orderr
    && (b == s.orig || (!Running(s) && s.queue != [] && b == s.queue[0]))
    && t.errs == (if b == s.orig then s.errs else []) + [e]
  }

  lemma CloseOutcome(s: State, u: State, c: set<Stage>, e: int, t: State, b: int)
    requires u.orig == s.orig && u.errs == s.errs && t == CompleteSeq(u, c, e) && b !in u.ended && b in t.ended
    ensures Outcome(s, t, e, b)
  {
    CompleteSeqOutcome(u, c, e, t);
  }

  lemma EndOutcome(s: State, r: int, e: int, t: State, b: int)
    requires Inv(s) && r in s.driver && t == Complete(s, r, e) && b != r && b !in s.ended && b in t.ended
    ensures Outcome(s, t, Reported(End(r, e)), b)
  {
    var u := Release(s, r, e);
    if IsProxy(r) {
      ProxyClosesOwnStage(s, r, e);
      CloseOutcome(s, u, {ProxyStage(r)}, e, t, b);
    } else {
      CompleteShape(s, r, e);
      CloseOutcome(s, u, {DRAIN}, 0, t, b);
    }
  }

  /** Only completing a request or looking at the head of the queue can end a barrier. */
  lemma OthersEndNothing(s: State, a: Action)
    requires Enabled(s, a) && !a.End? && !a.PeekHead? && !a.FetchHead?
    ensures Apply(s, a).ended == s.ended
  {
  }

  /** The driver completes `b` itself. */
  ghost predicate Completes(a: Action, b: int) { a.End? && a.r == b }

  /** A barrier ends when its last stage closes, with the first nonzero error its sequence saw. */
  lemma BarrierOutcome(s: State, a: Action, t: State, b: int)
    requires Inv(s) && Enabled(s, a) && t == Apply(s, a) && s.nextOrdered != ORDERED_NONE
    requires IsBarrier(s, b) && b !in s.ended && b in t.ended && !Completes(a, b)
    ensures !Running(t) && b in t.results && t.results[b] == FirstError(t.errs)
    ensures b == s.orig || (!Running(s) && s.queue != [] && b == s.queue[0])
    ensures t.errs == (if b == s.orig then s.errs else []) + [Reported(a)]
    ensures forall p :: IsProxy(p) ==> !Queued(t, p) && p !in t.driver
  {
    StepOutcome(s, a, t, b);
    StepInv(s, a);
    forall p | IsProxy(p) ensures !Queued(t, p) && p !in t.driver { assert RequestOk(t, {}, p); }
  }

  /** A barrier handed out itself would end with the driver's error instead. */
  lemma HandedOutOutcome(s: State, b: int, e: int)
    requires Inv(s) && IsBarrier(s, b) && b in s.driver
    ensures b in Complete(s, b, e).results && Complete(s, b, e).results[b] == e
  {
    hide CompleteSeq, ReqSeq;
    HeldIsNotOrig(s, b);
    CompleteShape(s, b, e);
    CompleteSeqOutcome(Release(s, b, e), {DRAIN}, 0, CompleteSeq(Release(s, b, e), {DRAIN}, 0));
  }

  /** That does not happen as long as only filesystem requests carry the barrier flag. */
  lemma NeverHandedOut(m: Mode, acts: seq<Action>, s: State, b: int)
    requires Reachable(m, acts, s) && Unflagged(acts) && IsBarrier(s, b)
    ensures b !in s.issued && b !in s.driver
  {
    ReachableColoured(m, acts, s);
    assert ColourOk(s, b) && RequestOk(s, {}, b);
  }

  /** Taking the head off the queue afterwards does not touch the sequence. */
  lemma LookOutcome(s: State, t: State, b: int)
    requires Inv(s) && s.queue != [] && s.nextOrdered != ORDERED_NONE && b !in s.ended && b in t.ended
    requires var u := Peek(s).st;
             t.ended == u.ended && t.ordseq == u.ordseq && t.results == u.results && t.orderr == u.orderr && t.errs == u.errs
    ensures Outcome(s, t, 0, b)
  {
    hide Peek;
    PeekOutcome(s, Peek(s).st, b);
    QueuedIsKnown(s, 0);
  }

  lemma StepOutcome(s: State, a: Action, t: State, b: int)
    requires Inv(s) && Enabled(s, a) && t == Apply(s, a) && s.nextOrdered != ORDERED_NONE
    requires IsBarrier(s, b) && b !in s.ended && b in t.ended && !Completes(a, b)
    ensures Outcome(s, t, Reported(a), b)
  {
    hide Inv, Outcome, Peek, Complete, IsBarrier, MoveToQueue, Requeue;
    match a
    case End(r, e) => EndOutcome(s, r, e, t, b);
    case PeekHead => LookOutcome(s, t, b);
    case FetchHead => LookOutcome(s, t, b);
    case _ => OthersEndNothing(s, a);
  }
}
