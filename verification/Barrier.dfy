/** The barrier protocol of the block layer as a state machine over its steps.

    A request is named by an integer: a submitted request by its ticket (its index in the
    submission log), and the three proxy requests of a running barrier sequence by the
    negative constants PRE, BARRQ and POST.  Every action is one critical section under the
    queue lock. */
module Barrier {

  /** The stages of an ordered sequence, QUEUE_ORDSEQ_*; `ordseq` is the set of finished ones. */
  datatype Stage = STARTED | DRAIN | PREFLUSH | BAR | POSTFLUSH | DONE

  function Bit(st: Stage): nat {
    match st
    case STARTED => 0x01
    case DRAIN => 0x02
    case PREFLUSH => 0x04
    case BAR => 0x08
    case POSTFLUSH => 0x10
    case DONE => 0x20
  }

  /** QUEUE_ORDERED_*: how the queue orders and which commands a sequence issues. */
  datatype Mode = Mode(byDrain: bool, byTag: bool, doPre: bool, doBar: bool, doPost: bool, doFua: bool)

  const ORDERED_NONE := Mode(false, false, false, false, false, false)

  /** The values blk_queue_ordered accepts. */
  predicate Supported(m: Mode) {
    m == ORDERED_NONE ||
    (m.byDrain != m.byTag && m.doBar && m.doPre == (m.doPost || m.doFua) && !(m.doPost && m.doFua))
  }

  /** What a submitted request is.  Everything but `Special` is a filesystem request. */
  datatype Kind = Plain | Barrier(empty: bool) | Special(hard: bool)

  const PRE := -3
  const BARRQ := -2
  const POST := -1
  const NOREQ := -4
  const EOPNOTSUPP := -95

  datatype State = State(
    nextOrdered: Mode,
    // the submission log: kind and REQ_ORDERED_COLOR of every ticket
    kind: seq<Kind>,
    color: seq<bool>,
    // where the requests are
    queue: seq<int>,
    sorted: set<int>,
    driver: set<int>,
    // REQ_STARTED and REQ_SOFTBARRIER
    started: set<int>,
    soft: set<int>,
    inFlight: int,
    ordcolor: bool,
    ordseq: set<Stage>,
    ordered: Mode,
    orderr: int,
    orig: int,
    // history: barriers submitted before each ticket, barrier tickets, barriers that left the queue
    epoch: seq<nat>,
    barriers: seq<nat>,
    begun: nat,
    // history: errors reported to the running sequence, ended requests and their status, issued tickets
    errs: seq<int>,
    ended: multiset<int>,
    results: map<int, int>,
    issued: set<int>,
    // a BUG_ON or WARN_ON has fired
    bug: bool,
    warned: bool)

  function Init(m: Mode): State {
    State(m, [], [], [], {}, {}, {}, {}, 0, false, {}, ORDERED_NONE, 0, NOREQ,
          [], [], 0, [], multiset{}, map[], {}, false, false)
  }

  predicate IsTicket(s: State, r: int) { 0 <= r < |s.kind| }
  predicate IsProxy(r: int) { PRE <= r <= POST }
  predicate IsPlain(s: State, r: int) { IsTicket(s, r) && s.kind[r].Plain? }
  predicate IsBarrier(s: State, r: int) { IsTicket(s, r) && s.kind[r].Barrier? }
  predicate IsSpecial(s: State, r: int) { IsTicket(s, r) && s.kind[r].Special? }

  /** blk_fs_request: the flush proxies are driver commands, the barrier proxy is not. */
  predicate IsFs(s: State, r: int) { r == BARRQ || IsPlain(s, r) || IsBarrier(s, r) }

  function ProxyStage(r: int): Stage {
    if r == PRE then PREFLUSH else if r == BARRQ then BAR else POSTFLUSH
  }

  /** blk_ordered_cur_seq: the lowest stage not yet finished. */
  function CurSeq(ordseq: set<Stage>): Stage {
    if STARTED !in ordseq then STARTED
    else if DRAIN !in ordseq then DRAIN
    else if PREFLUSH !in ordseq then PREFLUSH
    else if BAR !in ordseq then BAR
    else if POSTFLUSH !in ordseq then POSTFLUSH
    else DONE
  }

  function ColorOf(s: State, r: int): bool { IsTicket(s, r) && r < |s.color| && s.color[r] }

  /** blk_ordered_req_seq */
  function ReqSeq(s: State, r: int): Stage {
    if IsProxy(r) then ProxyStage(r)
    else if !IsFs(s, r) then DRAIN
    else if ColorOf(s, r) == ColorOf(s, s.orig) then DRAIN
    else DONE
  }

  /** blk_account_rq, as the amount it adds to or takes from queue_in_flight. */
  function Account(s: State, r: int): int { if IsFs(s, r) && r in s.started then 1 else 0 }

  /** The request is ended once, with status `error`. */
  function EndRequest(s: State, r: int, error: int): State {
    s.(ended := s.ended + multiset{r}, results := s.results[r := error])
  }

  function FirstError(errs: seq<int>): int {
    if errs == [] then 0
    else if FirstError(errs[..|errs|-1]) != 0 then FirstError(errs[..|errs|-1])
    else errs[|errs|-1]
  }

  /** The `if (error && !q->orderr)` that both completion paths run. */
  function NoteError(s: State, error: int): State {
    s.(orderr := if error != 0 && s.orderr == 0 then error else s.orderr, errs := s.errs + [error])
  }

  /** The stages are marked finished; marking one twice is the BUG_ON. */
  function MarkStages(s: State, stages: set<Stage>): State {
    s.(bug := s.bug || s.ordseq * stages != {}, ordseq := s.ordseq + stages)
  }

  /** The sequence is over: the original request ends with the recorded error. */
  function EndSequence(s: State): State {
    EndRequest(s.(ordseq := {}, orig := NOREQ, inFlight := s.inFlight - Account(s, s.orig)), s.orig, s.orderr)
  }

  /** blk_ordered_complete_seq */
  function CompleteSeq(s: State, stages: set<Stage>, error: int): State {
    var t := MarkStages(NoteError(s, error), stages);
    if CurSeq(t.ordseq) != DONE then t else EndSequence(t)
  }

  /** elv_insert(ELEVATOR_INSERT_FRONT) */
  function PushFront(s: State, r: int): State {
    s.(queue := [r] + s.queue, soft := s.soft + {r}, started := s.started - {r})
  }

  /** The masking of q->ordered at the start of a sequence. */
  function EffectiveMode(m: Mode, empty: bool): Mode {
    if !empty then m
    else
      var m1 := m.(doBar := false, doPost := false);
      if m1.byTag && !m1.doPre then m1.(byTag := false, byDrain := true) else m1
  }

  /** What blk_do_ordered leaves: the new state, *rqp and the return value. */
  datatype Verdict = Verdict(st: State, pick: int, go: bool)

  /** The head barrier is dequeued and stashed as q->orig_bar_rq. */
  function StashBarrier(s: State, bar: int): State
    requires IsBarrier(s, bar) && s.queue != []
  {
    s.(orderr := 0, errs := [], ordered := EffectiveMode(s.nextOrdered, s.kind[bar].empty),
       ordseq := s.ordseq + {STARTED}, queue := s.queue[1..], inFlight := s.inFlight + Account(s, bar),
       orig := bar, begun := s.begun + 1)
  }

  function PushIf(s: State, r: int, on: bool): State { if on then PushFront(s, r) else s }

  /** start_ordered up to the completion of the skipped stages: the queued proxies and the pick. */
  function QueueSequence(s: State, bar: int): State
    requires IsBarrier(s, bar) && s.queue != []
  {
    var s0 := StashBarrier(s, bar);
    PushIf(PushIf(PushIf(s0, POST, s0.ordered.doPost), BARRQ, s0.ordered.doBar), PRE, s0.ordered.doPre)
  }

  function Skipped(m: Mode, mustDrain: bool): set<Stage> {
    (if m.doPost then {} else {POSTFLUSH}) + (if m.doBar then {} else {BAR}) +
    (if m.doPre then {} else {PREFLUSH}) + (if mustDrain then {} else {DRAIN})
  }

  /** The rest of start_ordered: pick the first command and complete the skipped stages. */
  function FinishStart(u: State): Verdict {
    var m := u.ordered;
    var mustDrain := m.byDrain && u.inFlight != 0;
    var first := if m.doPre then PRE else if m.doBar then BARRQ else if m.doPost then POST else NOREQ;
    var t := CompleteSeq(u, Skipped(m, mustDrain), 0);
    Verdict(t, if mustDrain then NOREQ else first, t.ordseq != {})
  }

  function StartOrdered(s: State, bar: int): Verdict
    requires IsBarrier(s, bar) && s.queue != []
  {
    FinishStart(QueueSequence(s, bar))
  }

  /** blk_do_ordered on the head of the dispatch queue. */
  function DoOrdered(s: State): Verdict
    requires s.queue != []
  {
    var r := s.queue[0];
    var isBarrier := r == BARRQ || IsBarrier(s, r);
    if s.ordseq == {} then
      if !IsBarrier(s, r) then Verdict(s, r, true)
      else if s.nextOrdered != ORDERED_NONE then StartOrdered(s, r)
      else
        Verdict(EndRequest(s.(queue := s.queue[1..], begun := s.begun + 1), r, EOPNOTSUPP), NOREQ, false)
    else if !IsFs(s, r) && r != PRE && r != POST then Verdict(s, r, true)
    else if s.ordered.byTag then Verdict(s, if isBarrier && r != BARRQ then NOREQ else r, true)
    else
      var s1 := s.(warned := s.warned || Bit(ReqSeq(s, r)) < Bit(CurSeq(s.ordseq)));
      Verdict(s1, if Bit(ReqSeq(s, r)) > Bit(CurSeq(s.ordseq)) then NOREQ else r, true)
  }

  function MarkStarted(s: State, r: int): State { s.(started := s.started + {r}) }

  /** blk_peek_request, one turn of its loop: REQ_STARTED is set on the request offered. */
  function Peek(s: State): Verdict
    requires s.queue != []
  {
    var v := DoOrdered(s);
    if v.go && v.pick != NOREQ then v.(st := MarkStarted(v.st, v.pick)) else v
  }

  /** blk_start_request: the head of the queue is dequeued and handed to the driver. */
  function Issue(s: State, r: int): State
    requires s.queue != []
  {
    s.(queue := s.queue[1..], driver := s.driver + {r}, issued := s.issued + {r},
       inFlight := s.inFlight + Account(s, r))
  }

  /** blk_fetch_request */
  function Fetch(s: State): State
    requires s.queue != []
  {
    var v := Peek(s);
    if !v.go || v.pick == NOREQ || v.st.queue == [] then v.st else Issue(v.st, v.pick)
  }

  /** The drain check of elv_completed_request. */
  function CheckDrained(s: State): State {
    if s.ordseq != {} && s.inFlight == 0 && CurSeq(s.ordseq) == DRAIN &&
       (s.queue == [] || Bit(ReqSeq(s, s.queue[0])) > Bit(DRAIN))
    then CompleteSeq(s, {DRAIN}, 0)
    else s
  }

  /** elv_completed_request */
  function CompletedRequest(s: State, r: int): State {
    CheckDrained(s.(inFlight := s.inFlight - Account(s, r)))
  }

  /** The driver ends request `r` completely: __blk_end_request_all and the end_io handlers. */
  function Complete(s: State, r: int, error: int): State {
    var s1 := s.(driver := s.driver - {r});
    if IsProxy(r) then CompleteSeq(CompletedRequest(s1, r), {ProxyStage(r)}, error)
    else CompletedRequest(EndRequest(s1, r, error), r)
  }

  /** The first queue position whose stage is not below `st`: the walk of ELEVATOR_INSERT_REQUEUE. */
  function RequeuePos(s: State, st: Stage, i: nat): nat
    requires i <= |s.queue|
    ensures i <= RequeuePos(s, st, i) <= |s.queue|
    decreases |s.queue| - i
  {
    if i == |s.queue| || Bit(st) <= Bit(ReqSeq(s, s.queue[i])) then i else RequeuePos(s, st, i + 1)
  }

  function InsertAt(q: seq<int>, p: nat, r: int): seq<int>
    requires p <= |q|
  {
    q[..p] + [r] + q[p..]
  }

  /** elv_requeue_request */
  function Requeue(s: State, r: int): State {
    var s1 := s.(driver := s.driver - {r},
                 inFlight := s.inFlight - Account(s, r),
                 started := s.started - {r}, soft := s.soft + {r});
    var p := if s1.ordseq == {} then 0 else RequeuePos(s1, ReqSeq(s1, r), 0);
    s1.(queue := InsertAt(s1.queue, p, r))
  }

  datatype Action =
    | AddSort                       // __elv_add_request of a plain fs request, ELEVATOR_INSERT_SORT
    | AddBack(k: Kind)              // ... ELEVATOR_INSERT_BACK, after elv_drain_elevator
    | AddFront(hard: bool)          // a driver command put at the head
    | Dispatch(r: int, p: nat)      // the scheduler moves r to position p of the dispatch queue
    | PeekHead                      // blk_peek_request
    | FetchHead                     // blk_fetch_request
    | End(r: int, error: int)       // the driver completes r
    | PutBack(r: int)               // the driver requeues r
    | BarError(error: int)          // req_bio_endio on part of the barrier proxy

  /** The request carries REQ_HARDBARRIER. */
  predicate Hard(k: Kind) { k.Barrier? || (k.Special? && k.hard) }

  /** The logging part of __elv_add_request: colour the request, then toggle on a hard barrier. */
  function Submit(s: State, k: Kind): State {
    s.(kind := s.kind + [k], color := s.color + [s.ordcolor], epoch := s.epoch + [|s.barriers|],
       barriers := if k.Barrier? then s.barriers + [|s.kind|] else s.barriers,
       ordcolor := if Hard(k) then !s.ordcolor else s.ordcolor)
  }

  /** ELEVATOR_INSERT_SORT: the request goes to the scheduler. */
  function SubmitSorted(s: State): State { Submit(s, Plain).(sorted := s.sorted + {|s.kind|}) }

  /** ELEVATOR_INSERT_BACK, once the scheduler is drained. */
  function SubmitBack(s: State, k: Kind): State {
    Submit(s, k).(queue := s.queue + [|s.kind|], soft := s.soft + {|s.kind|})
  }

  /** ELEVATOR_INSERT_FRONT of a driver command. */
  function SubmitFront(s: State, hard: bool): State { PushFront(Submit(s, Special(hard)), |s.kind|) }

  /** The scheduler hands `r` over to the dispatch queue. */
  function MoveToQueue(s: State, r: int, p: nat): State
    requires p <= |s.queue|
  {
    s.(sorted := s.sorted - {r}, queue := InsertAt(s.queue, p, r))
  }

  /** A request leaving the scheduler is placed behind every SOFTBARRIER, HARDBARRIER or
      STARTED entry of the dispatch queue (elv_dispatch_sort, elv_dispatch_add_tail). */
  predicate MayMove(s: State, r: int, p: nat) {
    r in s.sorted && p <= |s.queue| &&
    forall i :: p <= i < |s.queue| ==> s.queue[i] !in s.soft && s.queue[i] !in s.started
  }

  predicate Enabled(s: State, a: Action) {
    match a
    case AddSort => true
    case AddBack(k) => s.sorted == {}
    case AddFront(_) => true
    case Dispatch(r, p) => MayMove(s, r, p)
    case PeekHead => s.queue != []
    case FetchHead => s.queue != []
    case End(r, _) => r in s.driver
    case PutBack(r) => r in s.driver
    case BarError(_) => BARRQ in s.driver
  }

  function Apply(s: State, a: Action): State
    requires Enabled(s, a)
  {
    match a
    case AddSort => SubmitSorted(s)
    case AddBack(k) => SubmitBack(s, k)
    case AddFront(hard) => SubmitFront(s, hard)
    case Dispatch(r, p) => MoveToQueue(s, r, p)
    case PeekHead => Peek(s).st
    case FetchHead => Fetch(s)
    case End(r, error) => Complete(s, r, error)
    case PutBack(r) => Requeue(s, r)
    case BarError(error) => NoteError(s, error)
  }

  predicate Runs(s: State, acts: seq<Action>, t: State)
    decreases |acts|
  {
    if acts == [] then s == t
    else Enabled(s, acts[0]) && Runs(Apply(s, acts[0]), acts[1..], t)
  }

  /** The step submits a driver command that carries REQ_HARDBARRIER. */
  predicate Flagged(a: Action) { a == AddBack(Special(true)) || a == AddFront(true) }

  /** Only filesystem requests carry REQ_HARDBARRIER, as the colour protocol takes for granted. */
  predicate Unflagged(acts: seq<Action>) { forall i :: 0 <= i < |acts| ==> !Flagged(acts[i]) }
}
