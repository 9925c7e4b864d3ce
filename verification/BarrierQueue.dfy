/** The request queue as the block layer keeps it: fields updated in place under the queue lock.

    Every public method leaves the queue in a state that a run of the barrier protocol reaches, so
    the theorems about runs hold of it at all times. */
module BarrierQueue {
  import opened Barrier
  import opened BarrierInvariants
  import BarrierTheorems

  lemma ReachStep(m: Mode, trace: seq<Action>, s: State, a: Action)
    requires BarrierTheorems.Reachable(m, trace, s) && Enabled(s, a)
    ensures BarrierTheorems.Reachable(m, trace + [a], Apply(s, a))
  {
    RunsAppend(Init(m), trace, s, a);
  }

  lemma NonEmpty(s: set<int>)
    ensures s == {} || exists r :: r in s
  {
    if forall r :: r !in s { assert s == {}; }
  }

  /** When blk_do_ordered sends its caller back to the queue, the head is gone and nothing replaced it. */
  lemma SentBack(s: State)
    requires s.queue != [] && !DoOrdered(s).go
    ensures Peek(s).st == DoOrdered(s).st
    ensures Peek(s).st.queue == s.queue[1..] && Peek(s).st.sorted == s.sorted
  {
    if s.ordseq == {} && IsBarrier(s, s.queue[0]) && s.nextOrdered != ORDERED_NONE { SentBackStart(s); }
  }

  lemma SentBackStart(s: State)
    requires s.queue != [] && IsBarrier(s, s.queue[0]) && s.ordseq == {} && !StartOrdered(s, s.queue[0]).go
    ensures StartOrdered(s, s.queue[0]).st.queue == s.queue[1..]
    ensures StartOrdered(s, s.queue[0]).st.sorted == s.sorted
  {
    var u := QueueSequence(s, s.queue[0]);
    QueueSequenceShape(s);
    SentBackFinish(u);
  }

  lemma SentBackFinish(u: State)
    requires u.ordseq == {STARTED} && !FinishStart(u).go
    ensures FinishStart(u).st.queue == u.queue && FinishStart(u).st.sorted == u.sorted
    ensures !u.ordered.doPre && !u.ordered.doBar && !u.ordered.doPost
  {
    assert STARTED in u.ordseq + Skipped(u.ordered, u.ordered.byDrain && u.inFlight != 0);
  }

  /** Where __elv_add_request is told to put a request. */
  datatype Where = Front | Back | Sort

  class RequestQueue {
    const nextOrdered: Mode
    var kind: seq<Kind>
    var color: seq<bool>
    var queue: seq<int>
    var sorted: set<int>
    var driver: set<int>
    var started: set<int>
    var soft: set<int>
    var inFlight: int
    var ordcolor: bool
    var ordseq: set<Stage>
    var ordered: Mode
    var orderr: int
    var orig: int
    // the protocol state these fields stand for, with its history, and the run that led there
    ghost var model: State
    ghost var trace: seq<Action>

    ghost predicate Linked()
      reads this
    {
      && model.nextOrdered == nextOrdered && model.kind == kind && model.color == color && model.queue == queue
      && model.sorted == sorted && model.driver == driver && model.started == started && model.soft == soft
      && model.inFlight == inFlight && model.ordcolor == ordcolor && model.ordseq == ordseq
      && model.ordered == ordered && model.orderr == orderr && model.orig == orig
    }

    /** The fields are in the state that the run recorded in `trace` reaches. */
    ghost predicate Valid()
      reads this
    {
      Linked() && BarrierTheorems.Reachable(nextOrdered, trace, model)
    }

    constructor (m: Mode)
      requires Supported(m)
      ensures Valid() && nextOrdered == m && trace == []
    {
      nextOrdered := m;
      kind, color, queue, sorted, driver, started, soft := [], [], [], {}, {}, {}, {};
      inFlight, ordcolor, ordseq, ordered, orderr, orig := 0, false, {}, ORDERED_NONE, 0, NOREQ;
      model, trace := Init(m), [];
    }

    /** blk_fs_request */
    predicate FsRequest(r: int)
      reads this
    {
      r == BARRQ || (0 <= r < |kind| && !kind[r].Special?)
    }

    predicate Colored(r: int)
      reads this
    {
      0 <= r < |kind| && r < |color| && color[r]
    }

    /** blk_ordered_req_seq */
    function OrderedReqSeq(r: int): (st: Stage)
      requires Linked()
      reads this
      ensures st == ReqSeq(model, r)
    {
      if IsProxy(r) then ProxyStage(r)
      else if !FsRequest(r) then DRAIN
      else if Colored(r) == Colored(orig) then DRAIN
      else DONE
    }

    method RecordError(error: int)
      requires Linked()
      modifies this`orderr, this`model
      ensures Linked() && model == NoteError(old(model), error)
    {
      if error != 0 && orderr == 0 { orderr := error; }
      model := NoteError(model, error);
    }

    /** The end of the original request: __blk_end_request_all with the recorded error. */
    method EndOriginal()
      requires Linked()
      modifies this`ordseq, this`orig, this`inFlight, this`model
      ensures Linked() && model == EndSequence(old(model))
    {
      ordseq := {};
      if FsRequest(orig) && orig in started { inFlight := inFlight - 1; }
      orig := NOREQ;
      model := EndSequence(model);
    }

    /** blk_ordered_complete_seq */
    method OrderedCompleteSeq(stages: set<Stage>, error: int) returns (done: bool)
      requires Linked() && ordseq != {}
      modifies this`orderr, this`ordseq, this`orig, this`inFlight, this`model
      ensures Linked() && model == CompleteSeq(old(model), stages, error)
      ensures done == (ordseq == {})
    {
      RecordError(error);
      ordseq := ordseq + stages;
      model := MarkStages(model, stages);
      done := CurSeq(ordseq) == DONE;
      if done { EndOriginal(); }
    }

    /** elv_insert(ELEVATOR_INSERT_FRONT) of a freshly initialised request. */
    method InsertFront(r: int)
      requires Linked()
      modifies this`queue, this`soft, this`started, this`model
      ensures Linked() && model == PushFront(old(model), r)
    {
      queue := [r] + queue;
      soft := soft + {r};
      started := started - {r};
      model := PushFront(model, r);
    }

    /** blk_dequeue_request of the head. */
    method Dequeue()
      requires Linked() && queue != []
      modifies this`queue, this`inFlight, this`model
      ensures Linked()
      ensures model == old(model).(queue := old(queue)[1..], inFlight := old(inFlight) + Account(old(model), old(queue)[0]))
    {
      ghost var n := Account(model, queue[0]);
      if FsRequest(queue[0]) && queue[0] in started { inFlight := inFlight + 1; }
      queue := queue[1..];
      model := model.(queue := queue, inFlight := inFlight);
    }

    /** start_ordered up to the queueing of the proxies: the barrier is stashed. */
    method Stash(bar: int)
      requires Linked() && queue != [] && bar == queue[0] && IsBarrier(model, bar)
      modifies this`orderr, this`ordered, this`ordseq, this`queue, this`inFlight, this`orig, this`model
      ensures Linked() && model == StashBarrier(old(model), bar)
    {
      orderr, ordered, ordseq, orig := 0, EffectiveMode(nextOrdered, kind[bar].empty), ordseq + {STARTED}, bar;
      ghost var was := model;
      model := was.(orderr := 0, ordered := ordered, ordseq := ordseq, orig := bar);
      Dequeue();
      model := StashBarrier(was, bar);
    }

    /** Queue the commands of the sequence, stacking them at the head in reverse order. */
    method QueueCommands() returns (pick: int, skip: set<Stage>)
      requires Linked()
      modifies this`queue, this`soft, this`started, this`model
      ensures Linked() && skip == Skipped(ordered, true)
      ensures model == PushIf(PushIf(PushIf(old(model), POST, ordered.doPost), BARRQ, ordered.doBar), PRE, ordered.doPre)
      ensures pick == if ordered.doPre then PRE else if ordered.doBar then BARRQ else if ordered.doPost then POST else NOREQ
    {
      skip, pick := {}, NOREQ;
      if ordered.doPost { InsertFront(POST); pick := POST; } else { skip := skip + {POSTFLUSH}; }
      if ordered.doBar { InsertFront(BARRQ); pick := BARRQ; } else { skip := skip + {BAR}; }
      if ordered.doPre { InsertFront(PRE); pick := PRE; } else { skip := skip + {PREFLUSH}; }
    }

    /** The end of start_ordered: wait for the drain or not, then complete the skipped stages. */
    method SkipStages(first: int, skipped: set<Stage>) returns (pick: int, go: bool)
      requires Linked() && ordseq != {} && skipped == Skipped(ordered, true)
      requires first == if ordered.doPre then PRE else if ordered.doBar then BARRQ else if ordered.doPost then POST else NOREQ
      modifies this`orderr, this`ordseq, this`orig, this`inFlight, this`model
      ensures Linked() && Verdict(model, pick, go) == FinishStart(old(model))
    {
      var skip := skipped;
      pick := first;
      if ordered.byDrain && inFlight != 0 { pick := NOREQ; } else { skip := skip + {DRAIN}; }
      assert skip == Skipped(model.ordered, model.ordered.byDrain && model.inFlight != 0);
      var done := OrderedCompleteSeq(skip, 0);
      go := !done;
    }

    /** start_ordered */
    method Start(bar: int) returns (pick: int, go: bool)
      requires Linked() && queue != [] && bar == queue[0] && IsBarrier(model, bar)
      modifies this
      ensures Linked() && Verdict(model, pick, go) == StartOrdered(old(model), bar) && trace == old(trace)
    {
      Stash(bar);
      assert STARTED in ordseq;
      var first, skip := QueueCommands();
      ghost var u := model;
      assert u == QueueSequence(old(model), bar);
      pick, go := SkipStages(first, skip);
    }
  
    /** blk_do_ordered on the head of the queue. */
    method DoOrderedHead() returns (pick: int, go: bool)
      requires Linked() && queue != []
      modifies this
      ensures Linked() && Verdict(model, pick, go) == DoOrdered(old(model)) && trace == old(trace)
    {
      var r := queue[0];
      pick, go := r, true;
      if ordseq == {} {
        if 0 <= r < |kind| && kind[r].Barrier? {
          if nextOrdered != ORDERED_NONE {
            pick, go := Start(r);
          } else {
            queue := queue[1..];
            model := Refuse(model);
            pick, go := NOREQ, false;
          }
        }
      } else if !FsRequest(r) && r != PRE && r != POST {
        // a driver command is let through whatever stage the sequence is in
      } else if ordered.byTag {
        if r != BARRQ && 0 <= r < |kind| && kind[r].Barrier? { pick := NOREQ; }
      } else {
        model := model.(warned := model.warned || Bit(ReqSeq(model, r)) < Bit(CurSeq(ordseq)));
        if Bit(OrderedReqSeq(r)) > Bit(CurSeq(ordseq)) { pick := NOREQ; }
      }
    }

    /** elv_completed_request */
    method ElvCompleted(r: int)
      requires Linked()
      modifies this`orderr, this`ordseq, this`orig, this`inFlight, this`model
      ensures Linked() && model == CompletedRequest(old(model), r)
    {
      ghost var was := model;
      if FsRequest(r) && r in started { inFlight := inFlight - 1; }
      model := was.(inFlight := was.inFlight - Account(was, r));
      if ordseq != {} && inFlight == 0 && CurSeq(ordseq) == DRAIN &&
         (queue == [] || Bit(OrderedReqSeq(queue[0])) > Bit(DRAIN)) {
        var done := OrderedCompleteSeq({DRAIN}, 0);
      }
    }

    /** The walk of ELEVATOR_INSERT_REQUEUE over the dispatch queue. */
    method FindRequeuePos(st: Stage) returns (p: nat)
      requires Linked()
      ensures p == RequeuePos(model, st, 0)
    {
      p := 0;
      while p < |queue| && Bit(st) > Bit(OrderedReqSeq(queue[p]))
        invariant p <= |queue| && RequeuePos(model, st, p) == RequeuePos(model, st, 0)
      {
        p := p + 1;
      }
    }

    /** No entry from position `p` on is a barrier or has been started. */
    predicate BehindFlags(p: int)
      reads this
    {
      0 <= p && forall i :: p <= i < |queue| ==> queue[i] !in soft && queue[i] !in started
    }

    /** A request leaves the scheduler for the dispatch queue, at a place the scheduler chooses. */
    method DispatchOne(r: int, p: nat)
      requires Valid() && MayMove(model, r, p)
      modifies this`queue, this`sorted, this`model, this`trace
      ensures Valid() && model == MoveToQueue(old(model), r, p)
    {
      ReachStep(nextOrdered, trace, model, Dispatch(r, p));
      sorted, queue := sorted - {r}, InsertAt(queue, p, r);
      model, trace := MoveToQueue(model, r, p), trace + [Dispatch(r, p)];
    }
  
    /** elevator_dispatch_fn: the scheduler hands over one of its requests. */
    method ElvDispatch() returns (r: int)
      requires Valid() && sorted != {}
      modifies this`queue, this`sorted, this`model, this`trace
      ensures Valid() && r in old(sorted) && sorted == old(sorted) - {r}
      ensures multiset(queue) == old(multiset(queue)) + multiset{r}
    {
      NonEmpty(sorted);
      r :| r in sorted;
      assert BehindFlags(|queue|);
      var p: int :| 0 <= p <= |queue| && BehindFlags(p);
      assert BehindFlags(p);
      InsertCounts(queue, p, r);
      DispatchOne(r, p);
    }

    /** elv_drain_elevator: forced dispatching until the scheduler is empty. */
    method Drain()
      requires Valid()
      modifies this`queue, this`sorted, this`model, this`trace
      ensures Valid() && sorted == {} && multiset(queue) == old(multiset(queue) + multiset(sorted))
    {
      while sorted != {}
        invariant Valid() && multiset(queue) + multiset(sorted) == old(multiset(queue) + multiset(sorted))
        decreases |sorted|
      {
        ghost var before := sorted;
        var r := ElvDispatch();
        assert multiset(before) == multiset(sorted) + multiset{r};
      }
    }

    /** The colouring part of __elv_add_request. */
    method LogRequest(k: Kind)
      requires Linked()
      modifies this`kind, this`color, this`ordcolor, this`model
      ensures Linked() && model == Submit(old(model), k)
    {
      kind, color := kind + [k], color + [ordcolor];
      if Hard(k) { ordcolor := !ordcolor; }
      model := Submit(model, k);
    }

    /** ELEVATOR_INSERT_SORT */
    method InsertSort()
      requires Valid()
      modifies this
      ensures Valid() && model == SubmitSorted(old(model))
    {
      ReachStep(nextOrdered, trace, model, AddSort);
      var r := |kind|;
      LogRequest(Plain);
      sorted := sorted + {r};
      model, trace := model.(sorted := sorted), trace + [AddSort];
    }

    /** ELEVATOR_INSERT_BACK */
    method InsertBack(k: Kind)
      requires Valid() && sorted == {}
      modifies this
      ensures Valid() && model == SubmitBack(old(model), k)
    {
      ReachStep(nextOrdered, trace, model, AddBack(k));
      var r := |kind|;
      LogRequest(k);
      queue, soft := queue + [r], soft + {r};
      model, trace := model.(queue := queue, soft := soft), trace + [AddBack(k)];
    }

    /** ELEVATOR_INSERT_FRONT of a driver command. */
    method InsertCommand(hard: bool)
      requires Valid()
      modifies this
      ensures Valid() && model == SubmitFront(old(model), hard)
    {
      ReachStep(nextOrdered, trace, model, AddFront(hard));
      var r := |kind|;
      LogRequest(Special(hard));
      InsertFront(r);
      trace := trace + [AddFront(hard)];
    }

    /** __elv_add_request.  A filesystem request is never inserted at the front, and a driver
        command never goes to the scheduler. */
    method AddRequest(k: Kind, place: Where) returns (r: int)
      requires Valid() && (place == Front ==> k.Special?) && (place == Sort ==> !k.Special?)
      modifies this
      ensures Valid() && r == |old(kind)| && kind == old(kind) + [k] && color == old(color) + [old(ordcolor)]
      ensures ordcolor == if Hard(k) then !old(ordcolor) else old(ordcolor)
      ensures place == Front ==> queue == [r] + old(queue) && sorted == old(sorted)
      ensures place == Sort && k.Plain? ==> queue == old(queue) && sorted == old(sorted) + {r}
      ensures place == Back || k.Barrier? ==>
                sorted == {} && queue != [] && queue[|queue| - 1] == r &&
                multiset(queue) == old(multiset(queue) + multiset(sorted)) + multiset{r}
    {
      r := |kind|;
      if place == Front {
        InsertCommand(k.hard);
      } else if place == Back || k.Barrier? {
        Drain();
        InsertBack(k);
      } else {
        InsertSort();
      }
    }
  
    /** One look at the head: blk_do_ordered, and REQ_STARTED on the request it offers. */
    method PeekOnce() returns (pick: int, go: bool)
      requires Valid() && queue != []
      modifies this
      ensures Valid() && Verdict(model, pick, go) == Peek(old(model))
    {
      hide DoOrdered, BarrierTheorems.Reachable;
      ReachStep(nextOrdered, trace, model, PeekHead);
      pick, go := DoOrderedHead();
      if go && pick != NOREQ {
        started := started + {pick};
        model := MarkStarted(model, pick);
      }
      trace := trace + [PeekHead];
    }

    /** blk_peek_request over __elv_next_request: look at heads, and ask the scheduler for more
        when the queue runs empty; the scheduler may decline (`willing` is false). */
    method PeekRequest(willing: bool) returns (pick: int)
      requires Valid()
      modifies this
      ensures Valid() && (pick != NOREQ ==> MayIssue(model, pick) && pick in started)
      ensures pick == NOREQ && willing && ordseq == {} ==> queue == [] && sorted == {}
    {
      var go := false;
      pick := NOREQ;
      while !go
        invariant Valid()
        invariant pick != NOREQ && go ==> MayIssue(model, pick) && pick in started
        invariant go && pick == NOREQ && ordseq == {} ==> queue == [] && (willing ==> sorted == {})
        decreases !go, |sorted|, |queue|
      {
        BarrierTheorems.ReachableInv(nextOrdered, trace, model);
        if queue != [] {
          ghost var was := model;
          PeekInv(was);
          HeadOffered(was);
          pick, go := PeekOnce();
          if !go { SentBack(was); }
        } else if willing && sorted != {} {
          var r := ElvDispatch();
        } else {
          pick, go := NOREQ, true;
        }
      }
    }

    /** blk_start_request on a request just offered by blk_peek_request. */
    method StartRequest(r: int)
      requires Linked() && queue != [] && queue[0] == r
      modifies this`queue, this`driver, this`inFlight, this`model
      ensures Linked() && model == Issue(old(model), r)
    {
      ghost var was := model;
      Dequeue();
      driver := driver + {r};
      model := Issue(was, r);
    }

    /** blk_fetch_request, once a head is there. */
    method FetchRequest() returns (pick: int)
      requires Valid() && queue != []
      modifies this
      ensures Valid() && model == Fetch(old(model))
      ensures pick != NOREQ ==> pick in driver && pick !in old(driver)
    {
      ghost var was, run := model, trace;
      BarrierTheorems.ReachableInv(nextOrdered, trace, model);
      PeekInv(model);
      ReachStep(nextOrdered, trace, model, FetchHead);
      var go;
      pick, go := PeekOnce();
      if !go { pick := NOREQ; }
      if pick != NOREQ {
        BarrierTheorems.ReachableInv(nextOrdered, trace, model);
        QueuedIsKnown(model, 0);
        PeekKeepsDriver(was);
        StartRequest(pick);
      }
      trace := run + [FetchHead];
    }

    /** pre_flush_end_io, bar_end_io, post_flush_end_io */
    method EndProxy(r: int, error: int)
      requires Linked() && r in driver && IsProxy(r) && Inv(model)
      modifies this`driver, this`orderr, this`ordseq, this`orig, this`inFlight, this`model
      ensures Linked() && model == Complete(old(model), r, error)
    {
      ProxyStaysRunning(model, r);
      driver := driver - {r};
      model := model.(driver := driver);
      ElvCompleted(r);
      var done := OrderedCompleteSeq({ProxyStage(r)}, error);
    }

    /** __blk_end_request_all of a submitted request. */
    method EndSubmitted(r: int, error: int)
      requires Linked() && !IsProxy(r)
      modifies this`driver, this`orderr, this`ordseq, this`orig, this`inFlight, this`model
      ensures Linked() && model == Complete(old(model), r, error)
    {
      driver := driver - {r};
      model := EndRequest(model.(driver := driver), r, error);
      ElvCompleted(r);
    }

    /** The driver ends a request. */
    method EndIo(r: int, error: int)
      requires Valid() && r in driver
      modifies this
      ensures Valid() && model == Complete(old(model), r, error)
    {
      BarrierTheorems.ReachableInv(nextOrdered, trace, model);
      ReachStep(nextOrdered, trace, model, End(r, error));
      if IsProxy(r) { EndProxy(r, error); } else { EndSubmitted(r, error); }
      trace := trace + [End(r, error)];
    }

    /** elv_requeue_request */
    method RequeueRequest(r: int)
      requires Valid() && r in driver
      modifies this
      ensures Valid() && model == Requeue(old(model), r)
    {
      hide BarrierTheorems.Reachable, RequeuePos, ReqSeq;
      ghost var was := model;
      ReachStep(nextOrdered, trace, was, PutBack(r));
      TakeFromDriver(r);
      var p: nat := 0;
      if ordseq != {} {
        var st := OrderedReqSeq(r);
        p := FindRequeuePos(st);
      }
      queue := InsertAt(queue, p, r);
      model := model.(queue := queue);
      trace := trace + [PutBack(r)];
    }

    method TakeFromDriver(r: int)
      requires Linked()
      modifies this`driver, this`inFlight, this`started, this`soft, this`model
      ensures Linked() && model == TakeBack(old(model), r)
    {
      ghost var was := model;
      if FsRequest(r) && r in started { inFlight := inFlight - 1; }
      driver, started, soft := driver - {r}, started - {r}, soft + {r};
      model := TakeBack(was, r);
    }
  }

  /** A head that is offered but withheld belongs to a running sequence. */
  lemma HeadOffered(s: State)
    requires Inv(s) && s.queue != []
    ensures var v := Peek(s); v.go && v.pick == NOREQ ==> v.st.ordseq != {}
  {
    QueuedIsKnown(s, 0);
  }

  lemma PeekKeepsDriver(s: State)
    requires s.queue != []
    ensures Peek(s).st.driver == s.driver
  {
    if s.ordseq == {} && IsBarrier(s, s.queue[0]) && s.nextOrdered != ORDERED_NONE {
      QueueSequenceShape(s);
      FinishKeepsDriver(QueueSequence(s, s.queue[0]));
    }
  }

  lemma FinishKeepsDriver(u: State)
    ensures FinishStart(u).st.driver == u.driver
  {
  }

  lemma ProxyStaysRunning(s: State, r: int)
    requires Inv(s) && r in s.driver && IsProxy(r)
    ensures CompletedRequest(s.(driver := s.driver - {r}), r).ordseq == s.ordseq != {}
  {
    ProxyClosesOwnStage(s, r, 0);
  }
}
