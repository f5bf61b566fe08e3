/** The consumer group: claims that enqueue and then mark, workers that may leave on
    cancellation, the loop that re-enters `Consume` after each rebalance, the error handler,
    and `StartConsume` waiting for all of them. Every event is one atomic step. */
module ConsumerGroup {
  import opened Channels
  import opened Messages
  import opened Runs
  import opened Tally
  import opened Wrappers

  /** `start[p]` is the committed position of partition p when the consumer starts. */
  datatype Config = Config(workers: nat, capacity: nat, start: map<nat, nat>)

  /** A ticket is the position of a delivery in the order in which messages were queued. */
  datatype Worker =
    | Selecting
    | Holding(ticket: nat)
    | Processing(ticket: nat)
    | Stopped

  datatype ClaimPc = Ranging | Sending | Marking(ticket: nat) | Ended

  /** A `ConsumeClaim` call: `next` is the first position it has not queued, `left` how many
      messages its channel will still deliver before it is closed. */
  datatype Claim = Claim(partition: nat, next: nat, left: nat, pc: ClaimPc)

  datatype Loop = Checking | Calling | InSession | Leaving | Closing | Exited

  datatype State = State(
    queue: seq<Message>,
    closed: bool,
    panicked: bool,
    cancelled: bool,
    handlingErrors: bool,
    workers: seq<Worker>,
    loop: Loop,
    claims: seq<Claim>,
    returned: bool,
    marks: map<nat, nat>,
    sent: seq<Message>,
    taken: seq<Message>,
    marked: set<nat>,
    handed: set<nat>,
    stored: set<nat>,
    failed: set<nat>)

  datatype Event =
    | LogError
    | StopErrors(closed: bool)
    | Take(i: nat)
    | HandOff(i: nat, j: nat)
    | Begin(i: nat)
    | Finish(i: nat, ok: bool)
    | Quit(i: nat)
    | Leave(i: nat)
    | Check
    | Open(session: seq<Claim>)
    | Deliver(j: nat)
    | Send(j: nat)
    | Mark(j: nat)
    | EndClaim(j: nat)
    | ConsumeReturns(failed: bool)
    | LoopDone
    | CloseQueue
    | Cancel
    | Return

  function At(marks: map<nat, nat>, p: nat): nat {
    if p in marks then marks[p] else 0
  }

  function Init(c: Config): State {
    State([], false, false, false, true, seq(c.workers, _ => Selecting), Checking, [], false,
          c.start, [], [], {}, {}, {}, {})
  }

  function InHand(k: Claim): Message {
    Message(k.partition, k.next)
  }

  predicate AllStopped(ws: seq<Worker>) {
    forall i :: 0 <= i < |ws| ==> ws[i].Stopped?
  }

  predicate AllEnded(ks: seq<Claim>) {
    forall j :: 0 <= j < |ks| ==> ks[j].pc.Ended?
  }

  /** The contract of the broker: a new claim starts at or below the last mark. */
  predicate Fresh(s: State, ks: seq<Claim>) {
    forall j :: 0 <= j < |ks| ==> ks[j].pc.Ranging? && ks[j].next <= At(s.marks, ks[j].partition)
  }

  predicate Enabled(c: Config, s: State, e: Event) {
    match e
    case LogError => s.handlingErrors
    case StopErrors(closed) => s.handlingErrors && (s.cancelled || closed)
    case Take(i) => i < |s.workers| && s.workers[i].Selecting? && s.queue != []
    case HandOff(i, j) =>
      && i < |s.workers| && s.workers[i].Selecting? && s.queue == []
      && j < |s.claims| && s.claims[j].pc.Sending? && !s.closed
    case Begin(i) => i < |s.workers| && s.workers[i].Holding?
    case Finish(i, _) => i < |s.workers| && s.workers[i].Processing?
    case Quit(i) => i < |s.workers| && s.workers[i].Selecting? && s.cancelled
    case Leave(i) => i < |s.workers| && s.workers[i].Selecting? && s.closed && s.queue == []
    case Check => s.loop.Checking?
    case Open(ks) => s.loop.Calling? && !s.cancelled && Fresh(s, ks)
    case Deliver(j) => j < |s.claims| && s.claims[j].pc.Ranging? && s.claims[j].left > 0
    case Send(j) => j < |s.claims| && s.claims[j].pc.Sending? && (s.closed || |s.queue| < c.capacity)
    case Mark(j) => j < |s.claims| && s.claims[j].pc.Marking?
    case EndClaim(j) => j < |s.claims| && s.claims[j].pc.Ranging? && s.claims[j].left == 0
    case ConsumeReturns(_) => s.loop.Calling? || (s.loop.InSession? && AllEnded(s.claims))
    case LoopDone => s.loop.Leaving?
    case CloseQueue => s.loop.Closing?
    case Cancel => !s.cancelled
    case Return =>
      && !s.returned && s.cancelled && !s.handlingErrors
      && (s.loop.Closing? || s.loop.Exited?) && AllStopped(s.workers)
  }

  function Queued(k: Claim, ticket: nat): Claim {
    k.(next := k.next + 1, pc := Marking(ticket))
  }

  function Apply(c: Config, s: State, e: Event): State
    requires Enabled(c, s, e)
  {
    match e
    case LogError => s
    case StopErrors(_) => s.(handlingErrors := false)
    case Take(i) =>
      s.(queue := s.queue[1..], taken := s.taken + [s.queue[0]],
         workers := s.workers[i := Holding(|s.taken|)])
    case HandOff(i, j) =>
      s.(sent := s.sent + [InHand(s.claims[j])], taken := s.taken + [InHand(s.claims[j])],
         claims := s.claims[j := Queued(s.claims[j], |s.sent|)],
         workers := s.workers[i := Holding(|s.taken|)])
    case Begin(i) =>
      s.(handed := s.handed + {s.workers[i].ticket},
         workers := s.workers[i := Processing(s.workers[i].ticket)])
    case Finish(i, ok) =>
      var k := s.workers[i].ticket;
      s.(stored := if ok then s.stored + {k} else s.stored,
         failed := if ok then s.failed else s.failed + {k},
         workers := s.workers[i := Selecting])
    case Quit(i) => s.(workers := s.workers[i := Stopped])
    case Leave(i) => s.(workers := s.workers[i := Stopped])
    case Check => s.(loop := if s.cancelled then Leaving else Calling)
    case Open(ks) => s.(loop := InSession, claims := ks)
    case Deliver(j) =>
      s.(claims := s.claims[j := s.claims[j].(left := s.claims[j].left - 1, pc := Sending)])
    case Send(j) =>
      if s.closed then s.(panicked := true)
      else
        s.(queue := s.queue + [InHand(s.claims[j])], sent := s.sent + [InHand(s.claims[j])],
           claims := s.claims[j := Queued(s.claims[j], |s.sent|)])
    case Mark(j) =>
      var k := s.claims[j];
      s.(marks := s.marks[k.partition := Max(At(s.marks, k.partition), k.next)],
         marked := s.marked + {k.pc.ticket},
         claims := s.claims[j := k.(pc := Ranging)])
    case EndClaim(j) => s.(claims := s.claims[j := s.claims[j].(pc := Ended)])
    case ConsumeReturns(failed) =>
      s.(claims := [], loop := if failed && s.cancelled then Leaving else Checking)
    case LoopDone => s.(loop := Closing)
    case CloseQueue => s.(loop := Exited, closed := true, panicked := s.panicked || s.closed)
    case Cancel => s.(cancelled := true)
    case Return => s.(returned := true)
  }

  predicate IsWorkerEvent(e: Event) {
    e.Take? || e.Begin? || e.Finish? || e.Quit? || e.Leave?
  }

  predicate IsClaimEvent(e: Event) {
    e.Deliver? || e.Send? || e.Mark? || e.EndClaim?
  }

  predicate IsLoopEvent(e: Event) {
    e.Check? || e.Open? || e.ConsumeReturns? || e.LoopDone? || e.CloseQueue?
  }

  predicate IsMainEvent(e: Event) {
    e.LogError? || e.StopErrors? || e.Cancel? || e.Return?
  }

  function Max(a: nat, b: nat): nat {
    if a < b then b else a
  }

  /** The goroutines together, as a step system. */
  function Program(c: Config): System<State, Event> {
    System(Init(c), (s: State, e: Event) => if Enabled(c, s, e) then Some(Apply(c, s, e)) else None)
  }

  // ------------------------------------------ what each kind of step leaves alone

  lemma WorkerFrame(c: Config, s: State, e: Event)
    requires Enabled(c, s, e) && IsWorkerEvent(e)
    ensures var t := Apply(c, s, e);
            t == s.(queue := t.queue, taken := t.taken, workers := t.workers,
                    handed := t.handed, stored := t.stored, failed := t.failed)
  {
  }

  lemma ClaimFrame(c: Config, s: State, e: Event)
    requires Enabled(c, s, e) && IsClaimEvent(e)
    ensures var t := Apply(c, s, e);
            t == s.(queue := t.queue, sent := t.sent, claims := t.claims,
                    marks := t.marks, marked := t.marked, panicked := t.panicked)
  {
  }

  lemma LoopFrame(c: Config, s: State, e: Event)
    requires Enabled(c, s, e) && IsLoopEvent(e)
    ensures var t := Apply(c, s, e);
            t == s.(loop := t.loop, claims := t.claims, closed := t.closed, panicked := t.panicked)
    ensures e.Open? || e.ConsumeReturns? || Apply(c, s, e).claims == s.claims
  {
    match e
    case Check =>
    case Open(_) =>
    case ConsumeReturns(_) =>
    case LoopDone =>
    case CloseQueue =>
  }

  /** The loop and main steps together, for what concerns messages. */
  lemma ControlFrame(c: Config, s: State, e: Event)
    requires Enabled(c, s, e) && (IsLoopEvent(e) || IsMainEvent(e))
    ensures var t := Apply(c, s, e);
            t == s.(loop := t.loop, claims := t.claims, closed := t.closed, panicked := t.panicked,
                    handlingErrors := t.handlingErrors, cancelled := t.cancelled, returned := t.returned)
    ensures e.Open? || e.ConsumeReturns? || Apply(c, s, e).claims == s.claims
  {
    if IsLoopEvent(e) { LoopFrame(c, s, e); }
  }

  // ---------------------------------------------------------------- invariant

  ghost function Holds(k: nat): Worker -> nat {
    (w: Worker) => if w.Holding? && w.ticket == k then 1 else 0
  }

  ghost function Busy(w: Worker): nat {
    if w.Holding? then 1 else 0
  }

  /** Every ticket taken is either still held by one worker or was handed over, never both. */
  ghost predicate EachOnce(s: State) {
    && (forall k: nat ::
          Sum(s.workers, Holds(k)) + (if k in s.handed then 1 else 0) == if k < |s.taken| then 1 else 0)
    && Sum(s.workers, Busy) + |s.handed| == |s.taken|
  }

  ghost function Works(k: nat): Worker -> nat {
    (w: Worker) => if w.Processing? && w.ticket == k then 1 else 0
  }

  ghost function Working(w: Worker): nat {
    if w.Processing? then 1 else 0
  }

  ghost function Member(k: nat, ks: set<nat>): nat {
    if k in ks then 1 else 0
  }

  /** Every delivery handed to `ProcessMessageFunc` is still being processed by one worker, or was
      stored, or failed: exactly one of these. */
  ghost predicate OneVerdict(s: State) {
    && (forall k: nat ::
          Sum(s.workers, Works(k)) + Member(k, s.stored) + Member(k, s.failed) == Member(k, s.handed))
    && Sum(s.workers, Working) + |s.stored| + |s.failed| == |s.handed|
  }

  /** All positions of partition p from its start up to `end` have been queued. */
  ghost predicate QueuedUpTo(c: Config, sent: seq<Message>, p: nat, end: nat) {
    forall o: nat :: At(c.start, p) <= o < end ==> Message(p, o) in sent
  }

  ghost predicate NoGaps(c: Config, s: State) {
    && (forall p: nat :: QueuedUpTo(c, s.sent, p, At(s.marks, p)))
    && (forall j :: 0 <= j < |s.claims| ==> QueuedUpTo(c, s.sent, s.claims[j].partition, s.claims[j].next))
  }

  ghost predicate Control(c: Config, s: State) {
    && !s.panicked
    && |s.workers| == c.workers
    && |s.queue| <= c.capacity
    && (s.closed <==> s.loop.Exited?)
    && (!s.loop.InSession? ==> s.claims == [])
    && (forall j :: 0 <= j < |s.claims| && s.claims[j].pc.Ended? ==> s.claims[j].left == 0)
    && (s.loop.Leaving? || s.loop.Closing? || s.loop.Exited? ==> s.cancelled)
    && (forall i :: 0 <= i < |s.workers| && s.workers[i].Stopped? ==> s.cancelled)
    && (s.returned ==> s.cancelled && !s.handlingErrors && AllStopped(s.workers)
                       && (s.loop.Closing? || s.loop.Exited?))
  }

  ghost predicate AboutToMark(s: State, k: nat) {
    exists j :: 0 <= j < |s.claims| && s.claims[j].pc == Marking(k)
  }

  ghost predicate BelowMark(s: State, m: Message) {
    m.offset < At(s.marks, m.partition)
  }

  /** Every delivery queued is marked, or its claim is just about to; a marked one is below its mark. */
  ghost predicate MarksFollow(s: State) {
    && (forall k: nat :: k < |s.sent| ==> k in s.marked || AboutToMark(s, k))
    && (forall k :: k in s.marked ==> k < |s.sent| && BelowMark(s, s.sent[k]))
    && (forall j :: 0 <= j < |s.claims| && s.claims[j].pc.Marking? ==>
          var k := s.claims[j];
          k.pc.ticket < |s.sent| && k.next > 0 && s.sent[k.pc.ticket] == Message(k.partition, k.next - 1))
  }

  ghost predicate Inv(c: Config, s: State) {
    Control(c, s) && s.sent == s.taken + s.queue && MarksFollow(s) && EachOnce(s) && OneVerdict(s) && NoGaps(c, s)
  }

  lemma {:induction false} InitInv(c: Config)
    ensures Inv(c, Init(c))
  {
    forall k: nat
      ensures Sum(Init(c).workers, Holds(k)) == 0
    {
      SumZero(Init(c).workers, Holds(k));
    }
    forall k: nat
      ensures Sum(Init(c).workers, Works(k)) == 0
    {
      SumZero(Init(c).workers, Works(k));
    }
    SumZero(Init(c).workers, Busy);
    SumZero(Init(c).workers, Working);
  }

  lemma TakeKeepsEachOnce(s: State, t: State, i: nat, m: Message)
    requires EachOnce(s) && i < |s.workers| && s.workers[i].Selecting?
    requires t.workers == s.workers[i := Holding(|s.taken|)]
    requires t.handed == s.handed && t.taken == s.taken + [m]
    ensures EachOnce(t)
  {
    forall k: nat
      ensures Sum(t.workers, Holds(k)) == Sum(s.workers, Holds(k)) + if k == |s.taken| then 1 else 0
    {
      SumUpdate(s.workers, i, Holding(|s.taken|), Holds(k));
    }
    SumUpdate(s.workers, i, Holding(|s.taken|), Busy);
  }

  lemma BeginKeepsEachOnce(s: State, t: State, i: nat)
    requires EachOnce(s) && i < |s.workers| && s.workers[i].Holding?
    requires t.workers == s.workers[i := Processing(s.workers[i].ticket)]
    requires t.handed == s.handed + {s.workers[i].ticket} && t.taken == s.taken
    ensures EachOnce(t)
  {
    var w := Processing(s.workers[i].ticket);
    SumHas(s.workers, i, Holds(s.workers[i].ticket));
    forall k: nat
      ensures Sum(t.workers, Holds(k)) + (if k == s.workers[i].ticket then 1 else 0) == Sum(s.workers, Holds(k))
    {
      SumUpdate(s.workers, i, w, Holds(k));
    }
    SumUpdate(s.workers, i, w, Busy);
  }

  lemma IdleKeepsEachOnce(s: State, t: State, i: nat, w: Worker)
    requires EachOnce(s) && i < |s.workers| && !s.workers[i].Holding? && !w.Holding?
    requires t.workers == s.workers[i := w] && t.handed == s.handed && t.taken == s.taken
    ensures EachOnce(t)
  {
    forall k: nat
      ensures Sum(t.workers, Holds(k)) == Sum(s.workers, Holds(k))
    {
      SumUpdate(s.workers, i, w, Holds(k));
    }
    SumUpdate(s.workers, i, w, Busy);
  }

  lemma WorkerStepKeepsEachOnce(c: Config, s: State, e: Event)
    requires EachOnce(s) && Enabled(c, s, e) && IsWorkerEvent(e)
    ensures EachOnce(Apply(c, s, e))
  {
    var t := Apply(c, s, e);
    match e
    case Take(i) => TakeKeepsEachOnce(s, t, i, s.queue[0]);
    case Begin(i) => BeginKeepsEachOnce(s, t, i);
    case Finish(i, _) => IdleKeepsEachOnce(s, t, i, Selecting);
    case Quit(i) => IdleKeepsEachOnce(s, t, i, Stopped);
    case Leave(i) => IdleKeepsEachOnce(s, t, i, Stopped);
  }

  lemma StepKeepsEachOnce(c: Config, s: State, e: Event)
    requires EachOnce(s) && Enabled(c, s, e)
    ensures EachOnce(Apply(c, s, e))
  {
    if IsWorkerEvent(e) {
      WorkerStepKeepsEachOnce(c, s, e);
    } else if e.HandOff? {
      TakeKeepsEachOnce(s, Apply(c, s, e), e.i, InHand(s.claims[e.j]));
    } else if IsClaimEvent(e) {
      ClaimFrame(c, s, e);
    } else {
      ControlFrame(c, s, e);
    }
  }

  /** A delivery that starts being processed was not handed over before. */
  lemma BeginKeepsOneVerdict(s: State, t: State, i: nat)
    requires EachOnce(s) && OneVerdict(s) && i < |s.workers| && s.workers[i].Holding?
    requires t.workers == s.workers[i := Processing(s.workers[i].ticket)]
    requires t.handed == s.handed + {s.workers[i].ticket} && t.stored == s.stored && t.failed == s.failed
    ensures OneVerdict(t)
  {
    var h := s.workers[i].ticket;
    SumHas(s.workers, i, Holds(h));
    assert Sum(s.workers, Holds(h)) + (if h in s.handed then 1 else 0) <= 1;
    forall k: nat
      ensures Sum(t.workers, Works(k)) == Sum(s.workers, Works(k)) + if k == h then 1 else 0
    {
      SumUpdate(s.workers, i, Processing(h), Works(k));
    }
    SumUpdate(s.workers, i, Processing(h), Working);
  }

  lemma FinishKeepsOneVerdict(s: State, t: State, i: nat, ok: bool)
    requires OneVerdict(s) && i < |s.workers| && s.workers[i].Processing?
    requires t.workers == s.workers[i := Selecting] && t.handed == s.handed
    requires t.stored == s.stored + if ok then {s.workers[i].ticket} else {}
    requires t.failed == s.failed + if ok then {} else {s.workers[i].ticket}
    ensures OneVerdict(t)
  {
    var h := s.workers[i].ticket;
    SumHas(s.workers, i, Works(h));
    assert Sum(s.workers, Works(h)) + Member(h, s.stored) + Member(h, s.failed) == Member(h, s.handed);
    forall k: nat
      ensures Sum(t.workers, Works(k)) + (if k == h then 1 else 0) == Sum(s.workers, Works(k))
    {
      SumUpdate(s.workers, i, Selecting, Works(k));
    }
    SumUpdate(s.workers, i, Selecting, Working);
  }

  lemma OtherKeepsOneVerdict(s: State, t: State, i: nat, w: Worker)
    requires OneVerdict(s) && i < |s.workers| && !s.workers[i].Processing? && !w.Processing?
    requires t.workers == s.workers[i := w]
    requires t.handed == s.handed && t.stored == s.stored && t.failed == s.failed
    ensures OneVerdict(t)
  {
    forall k: nat
      ensures Sum(t.workers, Works(k)) == Sum(s.workers, Works(k))
    {
      SumUpdate(s.workers, i, w, Works(k));
    }
    SumUpdate(s.workers, i, w, Working);
  }

  lemma WorkerStepKeepsOneVerdict(c: Config, s: State, e: Event, t: State)
    requires EachOnce(s) && OneVerdict(s) && Enabled(c, s, e) && IsWorkerEvent(e) && t == Apply(c, s, e)
    ensures OneVerdict(t)
  {
    if e.Begin? {
      BeginKeepsOneVerdict(s, t, e.i);
    } else if e.Finish? {
      FinishKeepsOneVerdict(s, t, e.i, e.ok);
    } else {
      OtherKeepsOneVerdict(s, t, e.i, if e.Take? then Holding(|s.taken|) else Stopped);
    }
  }

  lemma StepKeepsOneVerdict(c: Config, s: State, e: Event)
    requires EachOnce(s) && OneVerdict(s) && Enabled(c, s, e)
    ensures OneVerdict(Apply(c, s, e))
  {
    var t := Apply(c, s, e);
    if IsWorkerEvent(e) {
      WorkerStepKeepsOneVerdict(c, s, e, t);
    } else if e.HandOff? {
      OtherKeepsOneVerdict(s, t, e.i, Holding(|s.taken|));
    } else {
      if IsClaimEvent(e) { ClaimFrame(c, s, e); } else { ControlFrame(c, s, e); }
    }
  }

  lemma WorkerStepKeepsControl(c: Config, s: State, e: Event)
    requires Control(c, s) && Enabled(c, s, e) && IsWorkerEvent(e)
    ensures Control(c, Apply(c, s, e))
  {
  }

  lemma ClaimStepKeepsControl(c: Config, s: State, e: Event)
    requires Control(c, s) && Enabled(c, s, e) && (IsClaimEvent(e) || e.HandOff?)
    ensures Control(c, Apply(c, s, e))
  {
  }

  lemma LoopStepKeepsControl(c: Config, s: State, e: Event)
    requires Control(c, s) && Enabled(c, s, e) && IsLoopEvent(e)
    ensures Control(c, Apply(c, s, e))
  {
  }

  lemma MainStepKeepsControl(c: Config, s: State, e: Event)
    requires Control(c, s) && Enabled(c, s, e) && IsMainEvent(e)
    ensures Control(c, Apply(c, s, e))
  {
  }

  lemma StepKeepsControl(c: Config, s: State, e: Event)
    requires Control(c, s) && Enabled(c, s, e)
    ensures Control(c, Apply(c, s, e))
  {
    if IsWorkerEvent(e) {
      WorkerStepKeepsControl(c, s, e);
    } else if IsLoopEvent(e) {
      LoopStepKeepsControl(c, s, e);
    } else if IsMainEvent(e) {
      MainStepKeepsControl(c, s, e);
    } else {
      ClaimStepKeepsControl(c, s, e);
    }
  }

  lemma StepKeepsQueueOrder(c: Config, s: State, e: Event)
    requires Control(c, s) && s.sent == s.taken + s.queue && Enabled(c, s, e)
    ensures var t := Apply(c, s, e); t.sent == t.taken + t.queue
  {
    if IsLoopEvent(e) || IsMainEvent(e) { ControlFrame(c, s, e); }
  }

  lemma QueueingKeepsMarksFollow(s: State, j: nat, t: State)
    requires MarksFollow(s) && j < |s.claims| && s.claims[j].pc.Sending?
    requires t.sent == s.sent + [InHand(s.claims[j])] && t.marks == s.marks && t.marked == s.marked
    requires t.claims == s.claims[j := Queued(s.claims[j], |s.sent|)]
    ensures MarksFollow(t)
  {
    assert t.claims[j].pc == Marking(|s.sent|);
    forall k: nat | k < |s.sent| && k !in s.marked
      ensures AboutToMark(t, k)
    {
      assert AboutToMark(s, k);
      var i :| 0 <= i < |s.claims| && s.claims[i].pc == Marking(k);
      assert t.claims[i].pc == Marking(k);
    }
  }

  lemma MarkingKeepsMarksFollow(c: Config, s: State, j: nat)
    requires MarksFollow(s) && Enabled(c, s, Mark(j))
    ensures MarksFollow(Apply(c, s, Mark(j)))
  {
    var t := Apply(c, s, Mark(j));
    forall k: nat | k < |s.sent| && k !in t.marked
      ensures AboutToMark(t, k)
    {
      assert AboutToMark(s, k);
      var i :| 0 <= i < |s.claims| && s.claims[i].pc == Marking(k);
      assert t.claims[i].pc == Marking(k);
    }
  }

  /** Steps that leave the queue's history and the marks alone, and no claim that is about to mark. */
  lemma OtherKeepsMarksFollow(s: State, t: State)
    requires MarksFollow(s) && t.sent == s.sent && t.marks == s.marks && t.marked == s.marked
    requires forall j :: 0 <= j < |s.claims| && s.claims[j].pc.Marking? ==> j < |t.claims| && t.claims[j] == s.claims[j]
    requires forall j :: 0 <= j < |t.claims| && t.claims[j].pc.Marking? ==> j < |s.claims| && t.claims[j] == s.claims[j]
    ensures MarksFollow(t)
  {
    forall k: nat | k < |s.sent| && k !in t.marked
      ensures AboutToMark(t, k)
    {
      assert AboutToMark(s, k);
      var i :| 0 <= i < |s.claims| && s.claims[i].pc == Marking(k);
      assert t.claims[i].pc == Marking(k);
    }
  }

  lemma ClaimStepKeepsMarksFollow(c: Config, s: State, e: Event)
    requires Control(c, s) && MarksFollow(s) && Enabled(c, s, e) && IsClaimEvent(e)
    ensures MarksFollow(Apply(c, s, e))
  {
    var t := Apply(c, s, e);
    match e
    case Send(j) => QueueingKeepsMarksFollow(s, j, t);
    case Mark(j) => MarkingKeepsMarksFollow(c, s, j);
    case Deliver(_) => OtherKeepsMarksFollow(s, t);
    case EndClaim(_) => OtherKeepsMarksFollow(s, t);
  }

  lemma StepKeepsMarksFollow(c: Config, s: State, e: Event)
    requires Control(c, s) && MarksFollow(s) && Enabled(c, s, e)
    ensures MarksFollow(Apply(c, s, e))
  {
    if IsClaimEvent(e) {
      ClaimStepKeepsMarksFollow(c, s, e);
    } else if e.HandOff? {
      QueueingKeepsMarksFollow(s, e.j, Apply(c, s, e));
    } else {
      if IsWorkerEvent(e) { WorkerFrame(c, s, e); } else { ControlFrame(c, s, e); }
      OtherKeepsMarksFollow(s, Apply(c, s, e));
    }
  }

  /** Queueing the message in hand extends what is queued of its partition by one position. */
  lemma QueueingKeepsNoGaps(c: Config, s: State, j: nat, t: State)
    requires NoGaps(c, s) && j < |s.claims|
    requires t.sent == s.sent + [InHand(s.claims[j])] && t.marks == s.marks
    requires t.claims == s.claims[j := Queued(s.claims[j], |s.sent|)]
    ensures NoGaps(c, t)
  {
    forall p: nat
      ensures QueuedUpTo(c, t.sent, p, At(t.marks, p))
    {
      assert QueuedUpTo(c, s.sent, p, At(s.marks, p));
    }
    assert QueuedUpTo(c, s.sent, s.claims[j].partition, s.claims[j].next);
    assert InHand(s.claims[j]) in t.sent;
  }

  lemma MarkingKeepsNoGaps(c: Config, s: State, j: nat)
    requires NoGaps(c, s) && Enabled(c, s, Mark(j))
    ensures NoGaps(c, Apply(c, s, Mark(j)))
  {
    var t := Apply(c, s, Mark(j));
    forall p: nat
      ensures QueuedUpTo(c, t.sent, p, At(t.marks, p))
    {
      assert QueuedUpTo(c, s.sent, p, At(s.marks, p));
    }
  }

  lemma OpeningKeepsNoGaps(c: Config, s: State, ks: seq<Claim>)
    requires NoGaps(c, s) && Enabled(c, s, Open(ks))
    ensures NoGaps(c, Apply(c, s, Open(ks)))
  {
    forall j | 0 <= j < |ks|
      ensures QueuedUpTo(c, s.sent, ks[j].partition, ks[j].next)
    {
      assert QueuedUpTo(c, s.sent, ks[j].partition, At(s.marks, ks[j].partition));
    }
  }

  lemma ClaimStepKeepsNoGaps(c: Config, s: State, e: Event)
    requires Control(c, s) && NoGaps(c, s) && Enabled(c, s, e) && IsClaimEvent(e)
    ensures NoGaps(c, Apply(c, s, e))
  {
    match e
    case Send(j) => QueueingKeepsNoGaps(c, s, j, Apply(c, s, e));
    case Mark(j) => MarkingKeepsNoGaps(c, s, j);
    case Deliver(_) =>
    case EndClaim(_) =>
  }

  lemma StepKeepsNoGaps(c: Config, s: State, e: Event)
    requires Control(c, s) && NoGaps(c, s) && Enabled(c, s, e)
    ensures NoGaps(c, Apply(c, s, e))
  {
    if IsClaimEvent(e) {
      ClaimStepKeepsNoGaps(c, s, e);
    } else if e.HandOff? {
      QueueingKeepsNoGaps(c, s, e.j, Apply(c, s, e));
    } else if e.Open? {
      OpeningKeepsNoGaps(c, s, e.session);
    } else if IsWorkerEvent(e) {
      WorkerFrame(c, s, e);
    } else {
      ControlFrame(c, s, e);
    }
  }

  lemma StepKeepsInv(c: Config, s: State, e: Event)
    requires Inv(c, s) && Enabled(c, s, e)
    ensures Inv(c, Apply(c, s, e))
  {
    StepKeepsControl(c, s, e);
    StepKeepsQueueOrder(c, s, e);
    StepKeepsMarksFollow(c, s, e);
    StepKeepsEachOnce(c, s, e);
    StepKeepsOneVerdict(c, s, e);
    StepKeepsNoGaps(c, s, e);
  }

  lemma {:induction false} InvIsKept(c: Config)
    ensures Kept(Program(c), s => Inv(c, s))
  {
    forall s: State, e: Event | Inv(c, s) && Enabled(c, s, e)
      ensures Inv(c, Apply(c, s, e))
    {
      StepKeepsInv(c, s, e);
    }
  }

  lemma ReachableInv(c: Config, s: State)
    requires Reachable(Program(c), s)
    ensures Inv(c, s)
  {
    InitInv(c);
    InvIsKept(c);
    ReachableKeeps(Program(c), s => Inv(c, s), s);
  }

  // ------------------------------------------------- what a mark guarantees

  /** Across any sequence of sessions and rebalances: every position of a partition below its
      mark has been queued, and the channel was never sent to or closed after its close. */
  lemma NoGapUnderMarks(c: Config, s: State)
    requires Reachable(Program(c), s)
    ensures !s.panicked
    ensures forall p: nat, o: nat :: At(c.start, p) <= o < At(s.marks, p) ==> Message(p, o) in s.sent
  {
    ReachableInv(c, s);
    forall p: nat, o: nat | At(c.start, p) <= o < At(s.marks, p)
      ensures Message(p, o) in s.sent
    {
      assert QueuedUpTo(c, s.sent, p, At(s.marks, p));
    }
  }

  /** Marks never move back, whatever the sessions in between. */
  lemma {:induction false} MarksOnlyAdvance(c: Config, s: State, es: seq<Event>, p: nat)
    requires Exec(Program(c), s, es).Some?
    ensures At(s.marks, p) <= At(Exec(Program(c), s, es).value.marks, p)
    decreases |es|
  {
    if es != [] {
      MarksOnlyAdvance(c, Apply(c, s, es[0]), es[1..], p);
    }
  }

  /** Conversely to the absence of gaps, everything queued gets marked: outside the moment between
      a claim's send and its mark, every message ever queued is below its partition's mark. */
  lemma EverythingQueuedIsMarked(c: Config, s: State)
    requires Reachable(Program(c), s) && forall j :: 0 <= j < |s.claims| ==> !s.claims[j].pc.Marking?
    ensures s.marked == Below(|s.sent|)
    ensures forall m :: m in s.sent ==> BelowMark(s, m)
  {
    ReachableInv(c, s);
    forall k: nat | k < |s.sent|
      ensures k in s.marked
    {
      assert !AboutToMark(s, k);
    }
  }

  ghost function Below(n: nat): (r: set<nat>)
    ensures |r| == n && forall k: nat :: k in r <==> k < n
  {
    if n == 0 then {} else Below(n - 1) + {n - 1}
  }

  /** Deliveries queued but not yet given to `ProcessMessageFunc`. */
  ghost function Unhanded(s: State): set<nat> {
    Below(|s.sent|) - s.handed
  }

  lemma SubsetSize<T>(a: set<T>, b: set<T>)
    requires a <= b
    ensures |a| <= |b|
  {
    assert b == a + (b - a);
  }

  lemma StoppedHoldNothing(s: State)
    requires AllStopped(s.workers)
    ensures Sum(s.workers, Busy) == 0
  {
    SumZero(s.workers, Busy);
  }

  /** Marked deliveries not yet given to `ProcessMessageFunc` are at most the channel's capacity
      plus the workers that have just taken one. */
  lemma LossBound(c: Config, s: State)
    requires Reachable(Program(c), s)
    ensures |s.marked - s.handed| <= c.capacity + Sum(s.workers, Busy) <= c.capacity + c.workers
  {
    ReachableInv(c, s);
    SubsetSize(s.marked - s.handed, Unhanded(s));
    SumBound(s.workers, Busy);
  }

  /** The deliveries still in the channel. */
  ghost function Left(s: State): set<nat> {
    Below(|s.sent|) - Below(|s.taken|)
  }

  lemma StoppedFinishedAll(s: State)
    requires AllStopped(s.workers) && EachOnce(s) && OneVerdict(s)
    ensures s.handed == Below(|s.taken|)
    ensures s.handed == s.stored + s.failed && s.stored !! s.failed
  {
    forall k: nat
      ensures k in s.handed <==> k < |s.taken|
      ensures Member(k, s.stored) + Member(k, s.failed) == Member(k, s.handed)
    {
      SumZero(s.workers, Holds(k));
      SumZero(s.workers, Works(k));
      assert Sum(s.workers, Holds(k)) + (if k in s.handed then 1 else 0) == if k < |s.taken| then 1 else 0;
    }
    forall k: nat
      ensures k in s.handed <==> k in s.stored || k in s.failed
      ensures !(k in s.stored && k in s.failed)
    {
      assert Member(k, s.stored) + Member(k, s.failed) == Member(k, s.handed);
    }
  }

  lemma LeftSize(s: State)
    requires s.sent == s.taken + s.queue
    ensures Below(|s.taken|) <= Below(|s.sent|) && |Left(s)| == |s.queue|
    ensures Below(|s.sent|) == Below(|s.taken|) + Left(s) && Below(|s.taken|) !! Left(s)
  {
    assert |Left(s)| == |Below(|s.sent|)| - |Below(|s.taken|)|;
  }

  /** Once `StartConsume` has returned every marked delivery was stored, or its processing failed,
      or it is left in the channel: exactly one of the three, and at most a full channel is left.
      So what a mark promises was kept if and only if nothing is left and nothing failed. */
  lemma LossOnReturn(c: Config, s: State)
    requires Reachable(Program(c), s) && s.returned
    ensures s.marked == Below(|s.sent|) == s.stored + s.failed + Left(s)
    ensures s.stored !! s.failed !! Left(s)
    ensures s.handed == Below(|s.taken|) == s.stored + s.failed
    ensures |s.marked - s.handed| == |Left(s)| == |s.queue| <= c.capacity
    ensures |s.marked - s.stored| == |s.failed| + |s.queue|
    ensures s.marked <= s.stored <==> s.queue == [] && s.failed == {}
  {
    ReachableInv(c, s);
    EverythingQueuedIsMarked(c, s);
    StoppedFinishedAll(s);
    LeftSize(s);
  }

  /** Whether one of these deliveries is of this message. */
  ghost predicate Among(s: State, ks: set<nat>, m: Message) {
    exists k :: k in ks && k < |s.sent| && s.sent[k] == m
  }

  ghost function Image(sent: seq<Message>, ks: set<nat>): set<Message>
    requires forall k :: k in ks ==> k < |sent|
  {
    set k | k in ks :: sent[k]
  }

  lemma {:induction false} ImageSize(sent: seq<Message>, ks: set<nat>)
    requires forall k :: k in ks ==> k < |sent|
    ensures |Image(sent, ks)| <= |ks|
    decreases |ks|
  {
    if ks != {} {
      var k :| k in ks;
      ImageSize(sent, ks - {k});
      assert Image(sent, ks) == Image(sent, ks - {k}) + {sent[k]};
    } else {
      assert Image(sent, ks) == {};
    }
  }

  /** The marks and the hand-off together: every log position below a mark was handed to
      `ProcessMessageFunc`, except for the positions in one set of bounded size; on return
      each of the others was stored by some delivery, or one of its deliveries failed. */
  lemma MarkedPositionsAreHanded(c: Config, s: State) returns (stranded: set<Message>)
    requires Reachable(Program(c), s)
    ensures |stranded| <= c.capacity + Sum(s.workers, Busy)
    ensures s.returned ==> |stranded| <= c.capacity
    ensures forall p: nat, o: nat :: At(c.start, p) <= o < At(s.marks, p) ==>
              Among(s, s.handed, Message(p, o)) || Message(p, o) in stranded
    ensures s.returned ==> forall p: nat, o: nat :: At(c.start, p) <= o < At(s.marks, p) ==>
              Among(s, s.stored, Message(p, o)) || Among(s, s.failed, Message(p, o)) || Message(p, o) in stranded
  {
    ReachableInv(c, s);
    ImageSize(s.sent, Unhanded(s));
    stranded := Image(s.sent, Unhanded(s));
    if s.returned {
      StoppedHoldNothing(s);
      StoppedFinishedAll(s);
    }
    forall p: nat, o: nat | At(c.start, p) <= o < At(s.marks, p)
      ensures Among(s, s.handed, Message(p, o)) || Message(p, o) in stranded
    {
      NoGapUnderMarks(c, s);
      var k: nat :| k < |s.sent| && s.sent[k] == Message(p, o);
      assert k in s.handed || k in Unhanded(s);
    }
  }

  /** How many calls of `ProcessMessageFunc` a run has return an error. */
  ghost function Failures(es: seq<Event>): nat {
    Sum(es, (e: Event) => if e.Finish? && !e.ok then 1 else 0)
  }

  lemma StepCountsFailures(c: Config, s: State, e: Event)
    requires Inv(c, s) && Enabled(c, s, e)
    ensures |Apply(c, s, e).failed| == |s.failed| + if e.Finish? && !e.ok then 1 else 0
    ensures s.stored <= Apply(c, s, e).stored
  {
    if e.Finish? {
      var k := s.workers[e.i].ticket;
      SumHas(s.workers, e.i, Works(k));
      assert Sum(s.workers, Works(k)) + Member(k, s.stored) + Member(k, s.failed) == Member(k, s.handed);
    }
  }

  /** No failed delivery is ever processed again, and none is stored later. */
  lemma {:induction false} RunCountsFailures(c: Config, s: State, es: seq<Event>)
    requires Inv(c, s) && Exec(Program(c), s, es).Some?
    ensures |Exec(Program(c), s, es).value.failed| == |s.failed| + Failures(es)
    ensures s.stored <= Exec(Program(c), s, es).value.stored
    decreases |es|
  {
    if es != [] {
      StepKeepsInv(c, s, es[0]);
      StepCountsFailures(c, s, es[0]);
      RunCountsFailures(c, Apply(c, s, es[0]), es[1..]);
    }
  }

  /** What a whole run loses: the marked deliveries that are not stored are as many as the calls
      that returned an error plus the messages left in the channel. */
  lemma {:induction false} LossOfARun(c: Config, es: seq<Event>, s: State)
    requires Exec(Program(c), Init(c), es) == Some(s) && s.returned
    ensures |s.marked - s.stored| == Failures(es) + |s.queue|
    ensures s.marked <= s.stored <==> s.queue == [] && Failures(es) == 0
  {
    InitInv(c);
    RunCountsFailures(c, Init(c), es);
    LossOnReturn(c, s);
  }

  // --------------------------------------------------- when shutdown finishes

  ghost predicate AllExited(s: State) {
    s.returned && s.loop.Exited?
  }

  ghost predicate Quiescent(c: Config, s: State) {
    forall e :: !Enabled(c, s, e)
  }

  function ToCome(k: Claim): nat {
    k.left + if k.pc.Sending? then 1 else 0
  }

  /** The messages still to come from open claims fit in the free slots of the channel. */
  ghost predicate Fits(c: Config, s: State) {
    Sum(s.claims, ToCome) + |s.queue| <= c.capacity
  }

  ghost function WorkerWork(w: Worker): nat {
    match w
    case Selecting => 1
    case Holding(_) => 3
    case Processing(_) => 2
    case Stopped => 0
  }

  ghost function ClaimWork(k: Claim): nat {
    7 * k.left + match k.pc
                 case Ranging => 1
                 case Sending => 7
                 case Marking(_) => 2
                 case Ended => 0
  }

  ghost function LoopWork(l: Loop): nat {
    match l
    case InSession => 5
    case Calling => 4
    case Checking => 3
    case Leaving => 2
    case Closing => 1
    case Exited => 0
  }

  ghost function WorkLeft(s: State): nat {
    4 * |s.queue| + Sum(s.workers, WorkerWork) + Sum(s.claims, ClaimWork) + LoopWork(s.loop)
    + (if s.handlingErrors then 1 else 0) + if s.returned then 0 else 1
  }

  ghost function ErrorsLogged(es: seq<Event>): nat {
    Sum(es, (e: Event) => if e.LogError? then 1 else 0)
  }

  lemma WorkerMoves(s: State, t: State, i: nat, w: Worker)
    requires i < |s.workers| && t.workers == s.workers[i := w]
    ensures Sum(t.workers, WorkerWork) + WorkerWork(s.workers[i]) == Sum(s.workers, WorkerWork) + WorkerWork(w)
  {
    SumUpdate(s.workers, i, w, WorkerWork);
  }

  lemma ClaimMoves(s: State, t: State, j: nat, k: Claim)
    requires j < |s.claims| && t.claims == s.claims[j := k]
    ensures Sum(t.claims, ClaimWork) + ClaimWork(s.claims[j]) == Sum(s.claims, ClaimWork) + ClaimWork(k)
    ensures Sum(t.claims, ToCome) + ToCome(s.claims[j]) == Sum(s.claims, ToCome) + ToCome(k)
  {
    SumUpdate(s.claims, j, k, ClaimWork);
    SumUpdate(s.claims, j, k, ToCome);
  }

  lemma WorkerStepAfterCancel(c: Config, s: State, e: Event)
    requires Enabled(c, s, e) && IsWorkerEvent(e)
    ensures |Apply(c, s, e).queue| <= |s.queue|
    ensures WorkLeft(Apply(c, s, e)) < WorkLeft(s)
  {
    var t := Apply(c, s, e);
    match e
    case Take(i) => WorkerMoves(s, t, i, Holding(|s.taken|));
    case Begin(i) => WorkerMoves(s, t, i, Processing(s.workers[i].ticket));
    case Finish(i, _) => WorkerMoves(s, t, i, Selecting);
    case Quit(i) => WorkerMoves(s, t, i, Stopped);
    case Leave(i) => WorkerMoves(s, t, i, Stopped);
  }

  /** A claim's own step uses up work */
  lemma ClaimStepUsesWork(c: Config, s: State, e: Event)
    requires Control(c, s) && Enabled(c, s, e) && IsClaimEvent(e)
    ensures WorkLeft(Apply(c, s, e)) < WorkLeft(s)
  {
    var t := Apply(c, s, e);
    match e
    case Deliver(j) => ClaimMoves(s, t, j, s.claims[j].(left := s.claims[j].left - 1, pc := Sending));
    case Send(j) => ClaimMoves(s, t, j, Queued(s.claims[j], |s.sent|));
    case Mark(j) => ClaimMoves(s, t, j, s.claims[j].(pc := Ranging));
    case EndClaim(j) => ClaimMoves(s, t, j, s.claims[j].(pc := Ended));
  }

  /** and leaves unchanged how many messages have yet to fit. */
  lemma ClaimStepKeepsToCome(c: Config, s: State, e: Event)
    requires Control(c, s) && Enabled(c, s, e) && IsClaimEvent(e)
    ensures var t := Apply(c, s, e);
            && Sum(t.claims, ToCome) + |t.queue| == Sum(s.claims, ToCome) + |s.queue|
            && |t.sent| - |t.queue| == |s.sent| - |s.queue|
  {
    var t := Apply(c, s, e);
    match e
    case Deliver(j) => ClaimMoves(s, t, j, s.claims[j].(left := s.claims[j].left - 1, pc := Sending));
    case Send(j) => ClaimMoves(s, t, j, Queued(s.claims[j], |s.sent|));
    case Mark(j) => ClaimMoves(s, t, j, s.claims[j].(pc := Ranging));
    case EndClaim(j) => ClaimMoves(s, t, j, s.claims[j].(pc := Ended));
  }

  lemma HandOffAfterCancel(c: Config, s: State, i: nat, j: nat)
    requires Enabled(c, s, HandOff(i, j))
    ensures WorkLeft(Apply(c, s, HandOff(i, j))) < WorkLeft(s)
    ensures Fits(c, s) ==> Fits(c, Apply(c, s, HandOff(i, j)))
  {
    var t := Apply(c, s, HandOff(i, j));
    WorkerMoves(s, t, i, Holding(|s.taken|));
    ClaimMoves(s, t, j, Queued(s.claims[j], |s.sent|));
  }

  lemma ControlStepAfterCancel(c: Config, s: State, e: Event)
    requires Control(c, s) && s.cancelled && Enabled(c, s, e) && (IsLoopEvent(e) || IsMainEvent(e))
    ensures WorkLeft(Apply(c, s, e)) + (if e.LogError? then 0 else 1) <= WorkLeft(s)
    ensures Fits(c, s) ==> Fits(c, Apply(c, s, e))
  {
  }

  /** After cancellation every step except logging an error uses up work, and no step makes
      fewer messages fit. */
  lemma StepAfterCancel(c: Config, s: State, e: Event)
    requires Control(c, s) && s.cancelled && Enabled(c, s, e)
    ensures Apply(c, s, e).cancelled
    ensures WorkLeft(Apply(c, s, e)) + (if e.LogError? then 0 else 1) <= WorkLeft(s)
    ensures Fits(c, s) ==> Fits(c, Apply(c, s, e))
  {
    if IsWorkerEvent(e) {
      WorkerFrame(c, s, e);
      WorkerStepAfterCancel(c, s, e);
    } else if IsClaimEvent(e) {
      ClaimFrame(c, s, e);
      ClaimStepUsesWork(c, s, e);
      ClaimStepKeepsToCome(c, s, e);
    } else if e.HandOff? {
      HandOffAfterCancel(c, s, e.i, e.j);
    } else {
      ControlStepAfterCancel(c, s, e);
    }
  }

  /** After cancellation no schedule is longer than the work left plus the errors it logs. */
  lemma {:induction false} RunAfterCancel(c: Config, s: State, es: seq<Event>)
    requires Inv(c, s) && s.cancelled && Exec(Program(c), s, es).Some?
    ensures |es| <= WorkLeft(s) + ErrorsLogged(es)
    ensures Exec(Program(c), s, es).value.cancelled
    ensures Fits(c, s) ==> Fits(c, Exec(Program(c), s, es).value)
    decreases |es|
  {
    if es != [] {
      StepKeepsInv(c, s, es[0]);
      StepAfterCancel(c, s, es[0]);
      RunAfterCancel(c, Apply(c, s, es[0]), es[1..]);
    }
  }

  /** While the messages to come fit, some goroutine can step until all have exited. */
  lemma FittingShutdownProceeds(c: Config, s: State)
    requires Inv(c, s) && s.cancelled && Fits(c, s) && Quiescent(c, s)
    ensures AllExited(s)
  {
    assert !Enabled(c, s, StopErrors(false));
    WorkersAreStopped(c, s);
    ClaimsAreEnded(c, s);
    assert !Enabled(c, s, Check) && !Enabled(c, s, ConsumeReturns(false));
    assert !Enabled(c, s, LoopDone) && !Enabled(c, s, CloseQueue) && !Enabled(c, s, Return);
  }

  lemma ClaimsAreEnded(c: Config, s: State)
    requires Fits(c, s) && Quiescent(c, s)
    ensures AllEnded(s.claims)
  {
    forall j | 0 <= j < |s.claims|
      ensures s.claims[j].pc.Ended?
    {
      SumHas(s.claims, j, ToCome);
      assert !Enabled(c, s, Deliver(j)) && !Enabled(c, s, EndClaim(j));
      assert !Enabled(c, s, Send(j)) && !Enabled(c, s, Mark(j));
    }
  }

  lemma WorkersAreStopped(c: Config, s: State)
    requires s.cancelled && Quiescent(c, s)
    ensures AllStopped(s.workers)
  {
    forall i | 0 <= i < |s.workers|
      ensures s.workers[i].Stopped?
    {
      assert !Enabled(c, s, Quit(i)) && !Enabled(c, s, Begin(i)) && !Enabled(c, s, Finish(i, true));
    }
  }

  /** The next step of a schedule in which no worker takes another message. */
  lemma UnhelpfulStep(c: Config, s: State) returns (e: Event)
    requires Inv(c, s) && s.cancelled && !Fits(c, s) && !Quiescent(c, s)
    ensures Enabled(c, s, e) && !e.LogError? && !Fits(c, Apply(c, s, e))
  {
    if s.handlingErrors {
      e := StopErrors(false);
    } else if !AllStopped(s.workers) {
      var i :| 0 <= i < |s.workers| && !s.workers[i].Stopped?;
      e := match s.workers[i] case Selecting => Quit(i) case Holding(_) => Begin(i) case Processing(_) => Finish(i, true);
    } else {
      e :| Enabled(c, s, e);
      var j := SumPositive(s.claims, ToCome);
      assert !s.claims[j].pc.Ended?;
      if IsClaimEvent(e) { ClaimStepKeepsToCome(c, s, e); }
    }
  }

  lemma QuiescentOverfull(c: Config, s: State)
    requires Control(c, s) && s.cancelled && !Fits(c, s) && Quiescent(c, s)
    ensures !s.returned && AllStopped(s.workers) && |s.queue| == c.capacity
    ensures exists j :: 0 <= j < |s.claims| && s.claims[j].pc.Sending?
  {
    WorkersAreStopped(c, s);
    var j := SumPositive(s.claims, ToCome);
    assert !Enabled(c, s, Deliver(j)) && !Enabled(c, s, EndClaim(j));
    assert !Enabled(c, s, Send(j)) && !Enabled(c, s, Mark(j));
  }

  /** If they do not fit, some schedule gets stuck: every worker is gone, the channel is full,
      a claim is blocked in its send, and no goroutine will ever step again. */
  lemma {:induction false} OverfullShutdownCanHang(c: Config, s: State) returns (es: seq<Event>, t: State)
    requires Inv(c, s) && s.cancelled && !Fits(c, s)
    ensures Exec(Program(c), s, es) == Some(t) && Quiescent(c, t) && !t.returned
    ensures AllStopped(t.workers) && |t.queue| == c.capacity
    ensures exists j :: 0 <= j < |t.claims| && t.claims[j].pc.Sending?
    decreases WorkLeft(s)
  {
    if Quiescent(c, s) {
      es, t := [], s;
      QuiescentOverfull(c, s);
    } else {
      var e := UnhelpfulStep(c, s);
      StepKeepsInv(c, s, e);
      StepAfterCancel(c, s, e);
      var rest;
      rest, t := OverfullShutdownCanHang(c, Apply(c, s, e));
      es := [e] + rest;
      assert es[1..] == rest;
    }
  }

  /** The exact condition for shutdown: once cancelled, every schedule that cannot be continued
      has brought all goroutines to their exit if and only if the messages still to come fit. */
  lemma ShutdownCompletesIffFits(c: Config, s: State)
    requires Reachable(Program(c), s) && s.cancelled
    ensures Fits(c, s) <==>
            forall es, t :: Exec(Program(c), s, es) == Some(t) && Quiescent(c, t) ==> AllExited(t)
  {
    ReachableInv(c, s);
    if Fits(c, s) {
      forall es, t | Exec(Program(c), s, es) == Some(t) && Quiescent(c, t)
        ensures AllExited(t)
      {
        InvIsKept(c);
        RunKeeps(Program(c), s => Inv(c, s), s, es);
        RunAfterCancel(c, s, es);
        FittingShutdownProceeds(c, t);
      }
    } else {
      var es, t := OverfullShutdownCanHang(c, s);
      assert !AllExited(t);
    }
  }

  // ------------------------------------------------ deadlock while running

  /** A worker that has a message goes on with it. */
  lemma BusyWorkerProceeds(c: Config, s: State, i: nat)
    requires i < |s.workers| && (s.workers[i].Holding? || s.workers[i].Processing?)
    ensures CanProceed(c, s)
  {
    if s.workers[i].Holding? { assert Enabled(c, s, Begin(i)); } else { assert Enabled(c, s, Finish(i, true)); }
  }

  /** What the broker, the error channel and the operating system do. */
  predicate FromOutside(e: Event) {
    || e.LogError? || (e.StopErrors? && e.closed) || e.Cancel?
    || e.Open? || e.Deliver? || e.EndClaim? || e.ConsumeReturns?
  }

  ghost predicate CanProceed(c: Config, s: State) {
    exists e :: !FromOutside(e) && Enabled(c, s, e)
  }

  /** A claim that waits for its channel, or, without any worker, for room in the queue. */
  ghost predicate Waits(c: Config, s: State, k: Claim) {
    k.pc.Ranging? || k.pc.Ended? || (k.pc.Sending? && s.workers == [] && |s.queue| >= c.capacity)
  }

  /** No message is on its way to a worker: everybody waits for the broker. */
  ghost predicate Idle(c: Config, s: State) {
    && (s.loop.Calling? || s.loop.InSession?)
    && (s.workers == [] || s.queue == [])
    && (forall i :: 0 <= i < |s.workers| ==> s.workers[i].Selecting?)
    && (forall j :: 0 <= j < |s.claims| ==> Waits(c, s, s.claims[j]))
  }

  /** Before cancellation a claim blocked on a full channel always leaves a worker able to step. */
  lemma BackPressureResolves(c: Config, s: State, j: nat)
    requires c.workers >= 1 && Reachable(Program(c), s) && !s.cancelled
    requires j < |s.claims| && s.claims[j].pc.Sending? && !Enabled(c, s, Send(j))
    ensures Enabled(c, s, Take(0)) || Enabled(c, s, HandOff(0, j))
         || Enabled(c, s, Begin(0)) || Enabled(c, s, Finish(0, true))
  {
    ReachableInv(c, s);
    assert !s.workers[0].Stopped?;
  }

  lemma BlockedClaimProceeds(c: Config, s: State, j: nat)
    requires Control(c, s) && !s.cancelled && s.workers != []
    requires j < |s.claims| && s.claims[j].pc.Sending?
    ensures CanProceed(c, s)
  {
    if !s.workers[0].Selecting? {
      BusyWorkerProceeds(c, s, 0);
    } else if s.queue == [] {
      assert Enabled(c, s, HandOff(0, j));
    } else {
      assert Enabled(c, s, Take(0));
    }
  }

  lemma BusyClaimProceeds(c: Config, s: State, j: nat)
    requires Control(c, s) && !s.cancelled && j < |s.claims| && !Waits(c, s, s.claims[j])
    ensures CanProceed(c, s)
  {
    if s.claims[j].pc.Marking? {
      assert Enabled(c, s, Mark(j));
    } else if s.workers == [] {
      assert Enabled(c, s, Send(j));
    } else {
      BlockedClaimProceeds(c, s, j);
    }
  }

  lemma BusyConsumerProceeds(c: Config, s: State)
    requires Reachable(Program(c), s) && !s.cancelled && !Idle(c, s)
    ensures CanProceed(c, s)
  {
    ReachableInv(c, s);
    if s.loop.Checking? {
      assert Enabled(c, s, Check);
    } else if i :| 0 <= i < |s.workers| && !s.workers[i].Selecting? {
      BusyWorkerProceeds(c, s, i);
    } else if s.workers != [] && s.queue != [] {
      assert Enabled(c, s, Take(0));
    } else {
      var j :| 0 <= j < |s.claims| && !Waits(c, s, s.claims[j]);
      BusyClaimProceeds(c, s, j);
    }
  }

  lemma IdleWaitsForOutside(c: Config, s: State, e: Event)
    requires Inv(c, s) && !s.cancelled && Idle(c, s) && Enabled(c, s, e)
    ensures FromOutside(e)
  {
    if e.Send? || e.HandOff? || e.Mark? { assert Waits(c, s, s.claims[e.j]); }
  }

  /** No deadlock while the consumer runs: before cancellation nothing but the outside can make a
      step possible exactly when the consumer is idle. */
  lemma NeverStuck(c: Config, s: State)
    requires Reachable(Program(c), s) && !s.cancelled
    ensures Idle(c, s) <==> !CanProceed(c, s)
  {
    ReachableInv(c, s);
    if Idle(c, s) {
      forall e | Enabled(c, s, e)
        ensures FromOutside(e)
      {
        IdleWaitsForOutside(c, s, e);
      }
    } else {
      BusyConsumerProceeds(c, s);
    }
  }

  // ------------------------------------------- what shutdown itself can lose

  /** Deliveries without a verdict at a moment: queued, just taken, or being processed. */
  ghost function Undecided(s: State): nat {
    |s.queue| + Sum(s.workers, Busy) + Sum(s.workers, Working)
  }

  /** What has failed, what is undecided, and what is still to come. */
  ghost function AtStake(s: State): nat {
    |s.failed| + Undecided(s) + Sum(s.claims, ToCome)
  }

  predicate IsStore(e: Event) {
    e.Finish? && e.ok
  }

  /** How many calls of `ProcessMessageFunc` a run has return without an error. */
  ghost function Stores(es: seq<Event>): nat {
    Sum(es, (e: Event) => if IsStore(e) then 1 else 0)
  }

  lemma WorkerChanges(s: State, t: State, i: nat, w: Worker)
    requires i < |s.workers| && t.workers == s.workers[i := w]
    ensures Sum(t.workers, Busy) + Busy(s.workers[i]) == Sum(s.workers, Busy) + Busy(w)
    ensures Sum(t.workers, Working) + Working(s.workers[i]) == Sum(s.workers, Working) + Working(w)
  {
    SumUpdate(s.workers, i, w, Busy);
    SumUpdate(s.workers, i, w, Working);
  }

  lemma WorkerStepStakes(c: Config, s: State, e: Event)
    requires Inv(c, s) && Enabled(c, s, e) && IsWorkerEvent(e)
    ensures AtStake(Apply(c, s, e)) + (if IsStore(e) then 1 else 0) == AtStake(s)
  {
    var t := Apply(c, s, e);
    StepCountsFailures(c, s, e);
    WorkerFrame(c, s, e);
    match e
    case Take(i) => WorkerChanges(s, t, i, Holding(|s.taken|));
    case Begin(i) => WorkerChanges(s, t, i, Processing(s.workers[i].ticket));
    case Finish(i, _) => WorkerChanges(s, t, i, Selecting);
    case Quit(i) => WorkerChanges(s, t, i, Stopped);
    case Leave(i) => WorkerChanges(s, t, i, Stopped);
  }

  lemma HandOffStakes(c: Config, s: State, i: nat, j: nat)
    requires Enabled(c, s, HandOff(i, j))
    ensures AtStake(Apply(c, s, HandOff(i, j))) == AtStake(s)
  {
    var t := Apply(c, s, HandOff(i, j));
    WorkerChanges(s, t, i, Holding(|s.taken|));
    ClaimMoves(s, t, j, Queued(s.claims[j], |s.sent|));
  }

  lemma NothingToCome(c: Config, s: State)
    requires Control(c, s) && (!s.loop.InSession? || AllEnded(s.claims))
    ensures Sum(s.claims, ToCome) == 0
  {
    SumZero(s.claims, ToCome);
  }

  /** After cancellation no new claims come, so only a store takes anything out of what is at stake. */
  lemma StepStakes(c: Config, s: State, e: Event)
    requires Inv(c, s) && s.cancelled && Enabled(c, s, e)
    ensures AtStake(Apply(c, s, e)) + (if IsStore(e) then 1 else 0) == AtStake(s)
  {
    if IsWorkerEvent(e) {
      WorkerStepStakes(c, s, e);
    } else if e.HandOff? {
      HandOffStakes(c, s, e.i, e.j);
    } else if IsClaimEvent(e) {
      ClaimFrame(c, s, e);
      ClaimStepKeepsToCome(c, s, e);
    } else {
      ControlFrame(c, s, e);
      if e.ConsumeReturns? { NothingToCome(c, s); }
    }
  }

  lemma {:induction false} RunStakes(c: Config, s: State, es: seq<Event>)
    requires Inv(c, s) && s.cancelled && Exec(Program(c), s, es).Some?
    ensures AtStake(Exec(Program(c), s, es).value) + Stores(es) == AtStake(s)
    decreases |es|
  {
    if es != [] {
      StepKeepsInv(c, s, es[0]);
      StepAfterCancel(c, s, es[0]);
      StepStakes(c, s, es[0]);
      RunStakes(c, Apply(c, s, es[0]), es[1..]);
    }
  }

  lemma StakesWhenStopped(c: Config, s: State)
    requires Control(c, s) && s.returned
    ensures AtStake(s) == |s.failed| + |s.queue|
  {
    NothingToCome(c, s);
    SumZero(s.workers, Busy);
    SumZero(s.workers, Working);
  }

  /** On return only what failed and what is left in the channel is at stake, and it is lost. */
  lemma StakesOnReturn(c: Config, s: State)
    requires Reachable(Program(c), s) && s.returned
    ensures |s.marked - s.stored| == AtStake(s)
  {
    ReachableInv(c, s);
    StakesWhenStopped(c, s);
    LossOnReturn(c, s);
  }

  /** Although any call may fail once the context is cancelled, shutdown itself loses no more than
      was in flight at the cancellation, undecided deliveries and messages still to come: exactly
      these, except for what it stores. */
  lemma {:induction false} ShutdownLoss(c: Config, s: State, es: seq<Event>, t: State)
    requires Reachable(Program(c), s) && s.cancelled
    requires Exec(Program(c), s, es) == Some(t) && t.returned
    ensures |t.marked - t.stored| + Stores(es) == |s.failed| + Undecided(s) + Sum(s.claims, ToCome)
  {
    ReachableInv(c, s);
    ReachableThen(Program(c), s, es, t);
    RunStakes(c, s, es);
    StakesOnReturn(c, t);
  }

  /** Some worker can still take messages, or no more of them have to be taken. */
  ghost predicate CanEnd(c: Config, s: State) {
    !AllStopped(s.workers) || Fits(c, s)
  }

  /** Once the workers are gone and the messages to come do not fit, that stays so. */
  lemma CannotEndStays(c: Config, s: State, e: Event)
    requires Inv(c, s) && s.cancelled && !CanEnd(c, s) && Enabled(c, s, e)
    ensures !CanEnd(c, Apply(c, s, e))
  {
    if IsClaimEvent(e) {
      ClaimFrame(c, s, e);
      ClaimStepKeepsToCome(c, s, e);
    } else {
      ControlFrame(c, s, e);
      if e.ConsumeReturns? { NothingToCome(c, s); }
    }
  }

  lemma {:induction false} RunCannotEnd(c: Config, s: State, es: seq<Event>)
    requires Inv(c, s) && s.cancelled && !CanEnd(c, s) && Exec(Program(c), s, es).Some?
    ensures !Exec(Program(c), s, es).value.returned
    decreases |es|
  {
    if es == [] {
      if s.returned { NothingToCome(c, s); }
    } else {
      StepKeepsInv(c, s, es[0]);
      StepAfterCancel(c, s, es[0]);
      CannotEndStays(c, s, es[0]);
      RunCannotEnd(c, Apply(c, s, es[0]), es[1..]);
    }
  }

  /** A step toward the return that stores nothing. */
  ghost predicate Losing(c: Config, s: State, e: Event) {
    Enabled(c, s, e) && !e.LogError? && !IsStore(e) && CanEnd(c, Apply(c, s, e))
  }

  /** A worker with a message begins it, or fails it; */
  lemma LosingWorker(c: Config, s: State, i: nat) returns (e: Event)
    requires i < |s.workers| && (s.workers[i].Holding? || s.workers[i].Processing?)
    ensures Losing(c, s, e)
  {
    e := if s.workers[i].Holding? then Begin(i) else Finish(i, false);
    assert !Apply(c, s, e).workers[i].Stopped?;
  }

  /** a claim goes on, a worker taking from the queue if it is full; */
  lemma LosingClaim(c: Config, s: State, j: nat) returns (e: Event)
    requires Control(c, s) && s.cancelled && CanEnd(c, s) && j < |s.claims| && !s.claims[j].pc.Ended?
    requires forall i :: 0 <= i < |s.workers| ==> s.workers[i].Selecting? || s.workers[i].Stopped?
    ensures Losing(c, s, e)
  {
    e := match s.claims[j].pc
         case Marking(_) => Mark(j)
         case Ranging => if s.claims[j].left == 0 then EndClaim(j) else Deliver(j)
         case Sending => Send(j);
    if Enabled(c, s, e) {
      ClaimFrame(c, s, e);
      ClaimStepKeepsToCome(c, s, e);
    } else {
      SumHas(s.claims, j, ToCome);
      var i :| 0 <= i < |s.workers| && !s.workers[i].Stopped?;
      e := if s.queue == [] then HandOff(i, j) else Take(i);
      assert Apply(c, s, e).workers[i].Holding?;
    }
  }

  /** the consume loop comes to its end, the workers leave, and `StartConsume` returns. */
  lemma LosingLoop(c: Config, s: State) returns (e: Event)
    requires Control(c, s) && s.cancelled && !s.returned && !s.handlingErrors && AllEnded(s.claims)
    requires forall i :: 0 <= i < |s.workers| ==> s.workers[i].Selecting? || s.workers[i].Stopped?
    ensures Losing(c, s, e)
  {
    NothingToCome(c, s);
    match s.loop
    case Checking => e := Check;
    case Leaving => e := LoopDone;
    case Calling => e := ConsumeReturns(true);
    case InSession => e := ConsumeReturns(true);
    case _ =>
      if AllStopped(s.workers) {
        e := Return;
      } else {
        var i :| 0 <= i < |s.workers| && !s.workers[i].Stopped?;
        e := Quit(i);
      }
  }

  lemma LosingStep(c: Config, s: State) returns (e: Event)
    requires Control(c, s) && s.cancelled && !s.returned && CanEnd(c, s)
    ensures Losing(c, s, e)
  {
    if s.handlingErrors {
      e := StopErrors(false);
    } else if i :| 0 <= i < |s.workers| && (s.workers[i].Holding? || s.workers[i].Processing?) {
      e := LosingWorker(c, s, i);
    } else if AllEnded(s.claims) {
      e := LosingLoop(c, s);
    } else {
      var j :| 0 <= j < |s.claims| && !s.claims[j].pc.Ended?;
      e := LosingClaim(c, s, j);
    }
  }

  /** If it can end, shutdown can end without storing anything any more. */
  lemma {:induction false} LosesEverything(c: Config, s: State) returns (es: seq<Event>, t: State)
    requires Inv(c, s) && s.cancelled && CanEnd(c, s)
    ensures Exec(Program(c), s, es) == Some(t) && t.returned && Stores(es) == 0
    decreases WorkLeft(s)
  {
    if s.returned {
      es, t := [], s;
    } else {
      var e := LosingStep(c, s);
      StepKeepsInv(c, s, e);
      StepAfterCancel(c, s, e);
      var rest;
      rest, t := LosesEverything(c, Apply(c, s, e));
      es := [e] + rest;
      assert es[1..] == rest;
    }
  }

  /** The loss that a continuation can bring about and return. */
  ghost predicate CanReturnLosing(c: Config, s: State, n: nat) {
    exists es, t :: Exec(Program(c), s, es) == Some(t) && t.returned && |t.marked - t.stored| == n
  }

  /** Everything at stake can be lost exactly when a return is possible at all: some worker has
      not left yet, or the messages to come fit in the channel. */
  lemma ShutdownLossIsReachedIff(c: Config, s: State)
    requires Reachable(Program(c), s) && s.cancelled
    ensures CanReturnLosing(c, s, AtStake(s)) <==> CanEnd(c, s)
    ensures (exists n :: CanReturnLosing(c, s, n)) <==> CanEnd(c, s)
  {
    ReachableInv(c, s);
    if CanEnd(c, s) {
      var es, t := LosesEverything(c, s);
      ShutdownLoss(c, s, es, t);
      assert CanReturnLosing(c, s, AtStake(s));
    } else {
      forall n: nat
        ensures !CanReturnLosing(c, s, n)
      {
        forall es, t | Exec(Program(c), s, es) == Some(t)
          ensures !t.returned
        {
          RunCannotEnd(c, s, es);
        }
      }
    }
  }

  // ------------------------------------------------ the bounds are reached

  /** The loop calls `Consume`, and a session with one claim opens. */
  lemma SessionOpens(c: Config, before: State, k: Claim) returns (s: State)
    requires Reachable(Program(c), before) && before.loop.Checking? && !before.cancelled
    requires k.pc.Ranging? && k.next <= At(before.marks, k.partition)
    ensures Reachable(Program(c), s) && s == before.(loop := InSession, claims := [k])
  {
    ReachableStep(Program(c), before, Check);
    var calling := Apply(c, before, Check);
    assert Fresh(calling, [k]);
    ReachableStep(Program(c), calling, Open([k]));
    s := Apply(c, calling, Open([k]));
  }

  /** A session with one claim of `left` messages, opened by the first `Consume` call. */
  lemma OneClaimSession(c: Config, left: nat) returns (s: State)
    ensures Reachable(Program(c), s)
    ensures s == Init(c).(loop := InSession, claims := [Claim(0, At(c.start, 0), left, Ranging)])
  {
    ReachableStart(Program(c));
    s := SessionOpens(c, Init(c), Claim(0, At(c.start, 0), left, Ranging));
  }

  /** The same session, cancelled before any message came. */
  lemma CancelledSession(c: Config, left: nat) returns (s: State)
    ensures Reachable(Program(c), s) && s.cancelled && Sum(s.claims, ToCome) == left
  {
    var before := OneClaimSession(c, left);
    ReachableStep(Program(c), before, Cancel);
    s := Apply(c, before, Cancel);
    assert s.claims == [Claim(0, At(c.start, 0), left, Ranging)];
    assert Sum(s.claims, ToCome) == left + Sum(s.claims[1..], ToCome);
  }

  /** Whatever the worker count and the capacity, a cancelled consumer may hang for ever. */
  lemma ShutdownCanHang(c: Config)
    ensures exists s :: Reachable(Program(c), s) && s.cancelled && Quiescent(c, s) && !s.returned
  {
    var s := CancelledSession(c, c.capacity + 1);
    ReachableInv(c, s);
    var es, t := OverfullShutdownCanHang(c, s);
    RunAfterCancel(c, s, es);
    ReachableThen(Program(c), s, es, t);
  }

  /** The one claim has queued and marked n messages, and no worker has taken any. */
  ghost predicate Filling(c: Config, s: State, n: nat) {
    && n <= c.capacity && !s.cancelled && !s.closed && s.handlingErrors && !s.returned && s.loop.InSession?
    && s.workers == Init(c).workers && s.handed == {} && |s.queue| == |s.sent| == n && s.marked == Below(n)
    && |s.claims| == 1 && s.claims[0].pc.Ranging? && s.claims[0].left == c.capacity - n
  }

  /** The claim receives and queues its next message, */
  lemma QueuesOneMore(c: Config, before: State, n: nat) returns (s: State)
    requires Reachable(Program(c), before) && Filling(c, before, n) && n < c.capacity
    ensures Reachable(Program(c), s) && |s.queue| == |s.sent| == n + 1
    ensures |s.claims| == 1 && s.claims[0].pc == Marking(n) && s.claims[0].left == c.capacity - n - 1
    ensures s == before.(queue := s.queue, sent := s.sent, claims := s.claims)
  {
    ReachableStep(Program(c), before, Deliver(0));
    s := Apply(c, before, Deliver(0));
    ReachableStep(Program(c), s, Send(0));
    s := Apply(c, s, Send(0));
  }

  /** and marks it. */
  lemma FillsOneMore(c: Config, before: State, n: nat) returns (s: State)
    requires Reachable(Program(c), before) && Filling(c, before, n) && n < c.capacity
    ensures Reachable(Program(c), s) && Filling(c, s, n + 1)
  {
    var queued := QueuesOneMore(c, before, n);
    s := MarksOne(c, queued);
  }

  /** One claim fills the channel and marks everything it queued before any worker takes any. */
  lemma FilledAndMarked(c: Config) returns (s: State)
    ensures Reachable(Program(c), s) && Filling(c, s, c.capacity)
  {
    s := OneClaimSession(c, c.capacity);
    var n := 0;
    while n < c.capacity
      invariant n <= c.capacity && Reachable(Program(c), s) && Filling(c, s, n)
    {
      s := FillsOneMore(c, s, n);
      n := n + 1;
    }
  }

  /** All workers leave through their cancellation case without taking anything. */
  lemma WorkersQuit(c: Config, before: State) returns (s: State)
    requires Reachable(Program(c), before) && before.cancelled && before.workers == Init(c).workers
    ensures Reachable(Program(c), s) && AllStopped(s.workers) && s == before.(workers := s.workers)
  {
    s := before;
    var n := 0;
    while n < c.workers
      invariant n <= c.workers == |s.workers| && Reachable(Program(c), s) && s == before.(workers := s.workers)
      invariant forall i :: 0 <= i < n ==> s.workers[i].Stopped?
      invariant forall i :: n <= i < c.workers ==> s.workers[i].Selecting?
    {
      ReachableStep(Program(c), s, Quit(n));
      s := Apply(c, s, Quit(n));
      n := n + 1;
    }
  }

  /** A cancelled consumer's exhausted claim ends, and `Consume` returns; */
  lemma SessionEnds(c: Config, before: State) returns (s: State)
    requires Reachable(Program(c), before) && before.cancelled && before.loop.InSession?
    requires |before.claims| == 1 && before.claims[0].pc.Ranging? && before.claims[0].left == 0
    ensures Reachable(Program(c), s) && s == before.(claims := [], loop := Leaving)
  {
    ReachableStep(Program(c), before, EndClaim(0));
    s := Apply(c, before, EndClaim(0));
    ReachableStep(Program(c), s, ConsumeReturns(true));
    s := Apply(c, s, ConsumeReturns(true));
  }

  /** the loop ends, the error handler stops, */
  lemma LoopEnds(c: Config, before: State) returns (s: State)
    requires Reachable(Program(c), before) && before.cancelled && before.loop.Leaving? && before.handlingErrors
    ensures Reachable(Program(c), s) && s == before.(loop := Closing, handlingErrors := false)
  {
    ReachableStep(Program(c), before, LoopDone);
    s := Apply(c, before, LoopDone);
    ReachableStep(Program(c), s, StopErrors(false));
    s := Apply(c, s, StopErrors(false));
  }

  /** with all workers gone `StartConsume` returns: */
  lemma Returns(c: Config, before: State) returns (s: State)
    requires Reachable(Program(c), before) && Enabled(c, before, Return)
    ensures Reachable(Program(c), s) && s == before.(returned := true)
  {
    ReachableStep(Program(c), before, Return);
    s := Apply(c, before, Return);
  }

  /** a cancelled consumer whose messages have all come runs to its end. */
  lemma WindsDown(c: Config, before: State) returns (s: State)
    requires Reachable(Program(c), before) && before.cancelled && before.handlingErrors && !before.returned
    requires before.loop.InSession? && AllStopped(before.workers)
    requires |before.claims| == 1 && before.claims[0].pc.Ranging? && before.claims[0].left == 0
    ensures Reachable(Program(c), s)
    ensures s == before.(claims := [], loop := Closing, handlingErrors := false, returned := true)
  {
    var ended := SessionEnds(c, before);
    var closing := LoopEnds(c, ended);
    s := Returns(c, closing);
  }

  /** `StartConsume` can return with a whole channel of marked messages that no worker ever took. */
  lemma LossBoundIsReached(c: Config) returns (s: State)
    ensures Reachable(Program(c), s) && s.returned && s.handed == {} && |s.marked - s.handed| == c.capacity
  {
    s := FilledAndMarked(c);
    ReachableStep(Program(c), s, Cancel);
    s := WorkersQuit(c, Apply(c, s, Cancel));
    s := WindsDown(c, s);
    assert s.marked - s.handed == s.marked;
  }

  /** A mark promises that the message was handed over, in every run, exactly when the channel has
      no buffer: then a claim's send meets a worker, and no worker drops what it has taken. */
  lemma MarkMeansHandedIffUnbuffered(c: Config)
    ensures c.capacity == 0 <==> forall s :: Reachable(Program(c), s) && s.returned ==> s.marked <= s.handed
  {
    if c.capacity == 0 {
      forall s | Reachable(Program(c), s) && s.returned
        ensures s.marked <= s.handed
      {
        LossOnReturn(c, s);
        assert s.marked - s.handed == {};
      }
    } else {
      var s := LossBoundIsReached(c);
      assert s.marked != {};
    }
  }

  /** The one claim has n more messages to deliver; all before were marked, and all calls failed. */
  ghost predicate Failing(c: Config, s: State, n: nat, left: nat) {
    && !s.cancelled && !s.closed && s.handlingErrors && !s.returned && s.loop.InSession?
    && s.workers == Init(c).workers && s.stored == {} && s.queue == [] && s.marked == Below(n)
    && |s.sent| == n && |s.claims| == 1 && s.claims[0].pc.Ranging? && s.claims[0].left == left
  }

  /** The only claim's next message meets worker 0 */
  lemma HandsOneOver(c: Config, before: State, k: Claim) returns (s: State)
    requires Reachable(Program(c), before) && before.queue == [] && !before.closed
    requires |before.workers| >= 1 && before.workers[0].Selecting?
    requires before.claims == [k] && k.pc.Ranging? && k.left > 0
    ensures Reachable(Program(c), s)
    ensures s == before.(workers := before.workers[0 := Holding(|before.taken|)],
                         sent := before.sent + [InHand(k)], taken := before.taken + [InHand(k)],
                         claims := [k.(next := k.next + 1, left := k.left - 1, pc := Marking(|before.sent|))])
  {
    ReachableStep(Program(c), before, Deliver(0));
    var received := Apply(c, before, Deliver(0));
    ReachableStep(Program(c), received, HandOff(0, 0));
    s := Apply(c, received, HandOff(0, 0));
  }

  /** whose call for it returns an error, */
  lemma FailsOne(c: Config, before: State) returns (s: State)
    requires Reachable(Program(c), before) && |before.workers| >= 1 && before.workers[0].Holding?
    ensures Reachable(Program(c), s) && s.workers == before.workers[0 := Selecting]
    ensures s == before.(workers := s.workers, handed := s.handed, failed := s.failed)
  {
    ReachableStep(Program(c), before, Begin(0));
    s := Apply(c, before, Begin(0));
    ReachableStep(Program(c), s, Finish(0, false));
    s := Apply(c, s, Finish(0, false));
  }

  /** and it is marked all the same. */
  lemma MarksOne(c: Config, before: State) returns (s: State)
    requires Reachable(Program(c), before) && |before.claims| == 1 && before.claims[0].pc.Marking?
    ensures var k := before.claims[0];
            s == before.(marks := before.marks[k.partition := Max(At(before.marks, k.partition), k.next)],
                         marked := before.marked + {k.pc.ticket}, claims := [k.(pc := Ranging)])
    ensures Reachable(Program(c), s)
  {
    ReachableStep(Program(c), before, Mark(0));
    s := Apply(c, before, Mark(0));
  }

  /** All three steps, for the next message of the only claim. */
  lemma FailsNext(c: Config, before: State, k: Claim) returns (s: State)
    requires Reachable(Program(c), before) && before.queue == [] && !before.closed
    requires |before.workers| >= 1 && before.workers[0].Selecting?
    requires before.claims == [k] && k.pc.Ranging? && k.left > 0
    ensures Reachable(Program(c), s) && s.sent == before.sent + [InHand(k)]
    ensures s.marked == before.marked + {|before.sent|}
    ensures s.claims == [k.(next := k.next + 1, left := k.left - 1)]
    ensures s == before.(sent := s.sent, taken := s.taken, handed := s.handed, failed := s.failed,
                         marks := s.marks, marked := s.marked, claims := s.claims)
  {
    var handed := HandsOneOver(c, before, k);
    var failed := FailsOne(c, handed);
    assert failed.workers == before.workers;
    s := MarksOne(c, failed);
  }

  lemma FailsOneMore(c: Config, before: State, n: nat, left: nat) returns (s: State)
    requires c.workers >= 1 && Reachable(Program(c), before) && Failing(c, before, n, left + 1)
    ensures Reachable(Program(c), s) && Failing(c, s, n + 1, left)
  {
    s := FailsNext(c, before, before.claims[0]);
  }

  /** Some run returns with n deliveries marked, none of them stored, and nothing in the channel. */
  ghost predicate CanLose(c: Config, n: nat) {
    exists s :: Reachable(Program(c), s) && s.returned && |s.marked| == n && s.stored == {} && s.queue == []
  }

  /** Whatever the capacity, zero included, one worker is enough to lose any number of messages. */
  lemma WorkersCanLose(c: Config, n: nat)
    requires c.workers >= 1
    ensures CanLose(c, n)
  {
    var s := OneClaimSession(c, n);
    var done := 0;
    while done < n
      invariant done <= n && Reachable(Program(c), s) && Failing(c, s, done, n - done)
    {
      s := FailsOneMore(c, s, done, n - done - 1);
      done := done + 1;
    }
    ReachableStep(Program(c), s, Cancel);
    s := WorkersQuit(c, Apply(c, s, Cancel));
    s := WindsDown(c, s);
  }

  lemma NoWorkersTakeNothing(c: Config, s: State)
    requires c.workers == 0 && Reachable(Program(c), s)
    ensures s.taken == []
  {
    forall t: State, e: Event | t.workers == [] && t.taken == [] && Enabled(c, t, e)
      ensures Apply(c, t, e).workers == [] && Apply(c, t, e).taken == []
    {
      if IsClaimEvent(e) { ClaimFrame(c, t, e); }
    }
    ReachableKeeps(Program(c), (t: State) => t.workers == [] && t.taken == [], s);
  }

  /** The number of marked messages lost has no bound as soon as there is a worker. */
  lemma LossIsUnboundedIffWorkers(c: Config)
    ensures c.workers >= 1 <==> forall n: nat :: CanLose(c, n)
  {
    if c.workers >= 1 {
      forall n: nat
        ensures CanLose(c, n)
      {
        WorkersCanLose(c, n);
      }
    } else if CanLose(c, 1) {
      var s :| Reachable(Program(c), s) && s.returned && |s.marked| == 1 && s.stored == {} && s.queue == [];
      NoWorkersTakeNothing(c, s);
      ReachableInv(c, s);
      LossOnReturn(c, s);
    }
  }

  /** Among runs in which no call fails, a mark promises that the message is stored exactly when
      the channel has no buffer; */
  lemma MarkMeansStoredIffUnbuffered(c: Config)
    ensures c.capacity == 0 <==>
            forall es, s :: Exec(Program(c), Init(c), es) == Some(s) && Failures(es) == 0 && s.returned ==>
                              s.marked <= s.stored
  {
    if c.capacity == 0 {
      forall es, s | Exec(Program(c), Init(c), es) == Some(s) && Failures(es) == 0 && s.returned
        ensures s.marked <= s.stored
      {
        LossOnReturn(c, s);
        LossOfARun(c, es, s);
      }
    } else {
      var s := LossBoundIsReached(c);
      var es :| Exec(Program(c), Init(c), es) == Some(s);
      LossOnReturn(c, s);
      LossOfARun(c, es, s);
      assert |s.failed| == 0;
    }
  }

  /** among all runs never, unless no message can enter the channel at all. */
  lemma MarkMeansStoredIffNothingEnters(c: Config)
    ensures c.workers == 0 && c.capacity == 0 <==>
            forall s :: Reachable(Program(c), s) && s.returned ==> s.marked <= s.stored
  {
    if c.workers >= 1 {
      WorkersCanLose(c, 1);
      var s :| Reachable(Program(c), s) && s.returned && |s.marked| == 1 && s.stored == {} && s.queue == [];
      assert s.marked != {};
    } else if c.capacity > 0 {
      var s := LossBoundIsReached(c);
      LossOnReturn(c, s);
      assert s.marked != {};
    } else {
      forall s | Reachable(Program(c), s) && s.returned
        ensures s.marked <= s.stored
      {
        NoWorkersTakeNothing(c, s);
        ReachableInv(c, s);
        LossOnReturn(c, s);
      }
    }
  }

  // ------------------------------------------- what a run says of its schedule

  ghost predicate RecordsSignals(es: seq<Event>, s: State) {
    && (s.cancelled <==> Cancel in es) && (s.closed <==> CloseQueue in es) && (s.returned <==> Return in es)
    && (s.handlingErrors <==> StopErrors(false) !in es && StopErrors(true) !in es)
    && forall i :: 0 <= i < |s.workers| ==> (s.workers[i].Stopped? <==> Quit(i) in es || Leave(i) in es)
  }

  lemma {:induction false} WorkerRecordsSignals(c: Config, es: seq<Event>, s: State, e: Event)
    requires RecordsSignals(es, s) && Enabled(c, s, e) && IsWorkerEvent(e)
    ensures RecordsSignals(es + [e], Apply(c, s, e))
  {
    OneMoreEvent(es, e);
    WorkerFrame(c, s, e);
  }

  lemma {:induction false} ClaimRecordsSignals(c: Config, es: seq<Event>, s: State, e: Event)
    requires RecordsSignals(es, s) && Enabled(c, s, e) && (IsClaimEvent(e) || e.HandOff?)
    ensures RecordsSignals(es + [e], Apply(c, s, e))
  {
    OneMoreEvent(es, e);
    if IsClaimEvent(e) { ClaimFrame(c, s, e); }
  }

  lemma {:induction false} LoopRecordsSignals(c: Config, es: seq<Event>, s: State, e: Event)
    requires RecordsSignals(es, s) && Enabled(c, s, e) && IsLoopEvent(e)
    ensures RecordsSignals(es + [e], Apply(c, s, e))
  {
    OneMoreEvent(es, e);
    LoopFrame(c, s, e);
  }

  lemma {:induction false} MainRecordsSignals(c: Config, es: seq<Event>, s: State, e: Event)
    requires RecordsSignals(es, s) && Enabled(c, s, e) && IsMainEvent(e)
    ensures RecordsSignals(es + [e], Apply(c, s, e))
  {
    OneMoreEvent(es, e);
  }

  ghost predicate RecordsVerdicts(es: seq<Event>, s: State) {
    |s.failed| == Failures(es) && |s.stored| == Stores(es)
  }

  lemma {:induction false} StepRecordsVerdicts(c: Config, es: seq<Event>, s: State, e: Event)
    requires Inv(c, s) && RecordsVerdicts(es, s) && Enabled(c, s, e)
    ensures RecordsVerdicts(es + [e], Apply(c, s, e))
  {
    StepCountsFailures(c, s, e);
    StepCountsStores(c, s, e);
    SumAppend(es, e, (e: Event) => if e.Finish? && !e.ok then 1 else 0);
    SumAppend(es, e, (e: Event) => if IsStore(e) then 1 else 0);
  }

  lemma StepCountsStores(c: Config, s: State, e: Event)
    requires Inv(c, s) && Enabled(c, s, e)
    ensures |Apply(c, s, e).stored| == |s.stored| + if IsStore(e) then 1 else 0
  {
    if e.Finish? {
      var k := s.workers[e.i].ticket;
      SumHas(s.workers, e.i, Works(k));
      assert Sum(s.workers, Works(k)) + Member(k, s.stored) + Member(k, s.failed) == Member(k, s.handed);
    }
  }

  /** All that the claims of a session had to deliver when it opened is queued and below its marks. */
  ghost predicate Served(ks: seq<Claim>, s: State) {
    forall j, o: nat :: 0 <= j < |ks| && ks[j].next <= o < ks[j].next + ks[j].left ==>
      Message(ks[j].partition, o) in s.sent && o < At(s.marks, ks[j].partition)
  }

  /** The open claims are those of the session: of what each had to deliver, all before its next
      position is queued, and the rest is still to come. */
  ghost predicate Serving(ks: seq<Claim>, s: State) {
    && |s.claims| == |ks|
    && (forall j :: 0 <= j < |ks| ==>
          && s.claims[j].partition == ks[j].partition && ks[j].next <= s.claims[j].next
          && s.claims[j].next + ToCome(s.claims[j]) == ks[j].next + ks[j].left)
    && (forall j, o: nat :: 0 <= j < |ks| && ks[j].next <= o < s.claims[j].next ==>
          Message(ks[j].partition, o) in s.sent)
  }

  lemma ServedStays(c: Config, ks: seq<Claim>, s: State, e: Event)
    requires Served(ks, s) && Enabled(c, s, e)
    ensures Served(ks, Apply(c, s, e))
  {
    var t := Apply(c, s, e);
    forall j, o: nat | 0 <= j < |ks| && ks[j].next <= o < ks[j].next + ks[j].left
      ensures Message(ks[j].partition, o) in t.sent && o < At(t.marks, ks[j].partition)
    {
      assert Message(ks[j].partition, o) in s.sent && o < At(s.marks, ks[j].partition);
    }
  }

  lemma QueueingServes(ks: seq<Claim>, s: State, j: nat, t: State)
    requires Serving(ks, s) && j < |s.claims| && s.claims[j].pc.Sending?
    requires t.sent == s.sent + [InHand(s.claims[j])]
    requires t.claims == s.claims[j := Queued(s.claims[j], |s.sent|)]
    ensures Serving(ks, t)
  {
    assert InHand(s.claims[j]) in t.sent;
  }

  lemma ClaimServes(c: Config, ks: seq<Claim>, s: State, e: Event)
    requires Control(c, s) && Serving(ks, s) && Enabled(c, s, e) && IsClaimEvent(e)
    ensures Serving(ks, Apply(c, s, e))
  {
    match e
    case Send(j) => QueueingServes(ks, s, j, Apply(c, s, e));
    case Deliver(_) =>
    case Mark(_) =>
    case EndClaim(_) =>
  }

  lemma StepServes(c: Config, ks: seq<Claim>, s: State, e: Event)
    requires Control(c, s) && Serving(ks, s) && Enabled(c, s, e) && !e.Open? && !e.ConsumeReturns?
    ensures Serving(ks, Apply(c, s, e))
  {
    if IsClaimEvent(e) {
      ClaimServes(c, ks, s, e);
    } else if e.HandOff? {
      QueueingServes(ks, s, e.j, Apply(c, s, e));
    } else if IsWorkerEvent(e) {
      WorkerFrame(c, s, e);
    } else {
      ControlFrame(c, s, e);
    }
  }

  /** Once all its claims have ended, a session has been served. */
  lemma EndedIsServed(c: Config, ks: seq<Claim>, s: State)
    requires Inv(c, s) && Serving(ks, s) && AllEnded(s.claims)
    ensures Served(ks, s)
  {
    forall j, o: nat | 0 <= j < |ks| && ks[j].next <= o < ks[j].next + ks[j].left
      ensures Message(ks[j].partition, o) in s.sent && o < At(s.marks, ks[j].partition)
    {
      assert s.claims[j].pc.Ended?;
      assert Message(ks[j].partition, o) in s.sent;
      var k :| 0 <= k < |s.sent| && s.sent[k] == Message(ks[j].partition, o);
      assert !AboutToMark(s, k);
      assert BelowMark(s, s.sent[k]);
    }
  }

  /** Every session a schedule opens has been served, or is open and being served. */
  ghost predicate RecordsSessions(es: seq<Event>, s: State) {
    forall k :: 0 <= k < |es| && es[k].Open? ==>
      Served(es[k].session, s) || (s.loop.InSession? && Serving(es[k].session, s))
  }

  lemma {:induction false} OpenRecordsSessions(c: Config, es: seq<Event>, s: State, ks: seq<Claim>)
    requires RecordsSessions(es, s) && Enabled(c, s, Open(ks))
    ensures RecordsSessions(es + [Open(ks)], Apply(c, s, Open(ks)))
  {
    var t := Apply(c, s, Open(ks));
    OneMoreEvent(es, Open(ks));
    forall k | 0 <= k < |es| && es[k].Open?
      ensures Served(es[k].session, t)
    {
      ServedStays(c, es[k].session, s, Open(ks));
    }
    assert Serving(ks, t);
  }

  lemma {:induction false} StepRecordsSessions(c: Config, es: seq<Event>, s: State, e: Event)
    requires Inv(c, s) && RecordsSessions(es, s) && Enabled(c, s, e) && !e.Open?
    ensures RecordsSessions(es + [e], Apply(c, s, e))
  {
    var t := Apply(c, s, e);
    OneMoreEvent(es, e);
    forall k | 0 <= k < |es| && es[k].Open?
      ensures Served(es[k].session, t) || (t.loop.InSession? && Serving(es[k].session, t))
    {
      var ks := es[k].session;
      if s.loop.InSession? && Serving(ks, s) && !e.ConsumeReturns? {
        StepServes(c, ks, s, e);
        SessionLasts(c, s, e);
      } else {
        if s.loop.InSession? && Serving(ks, s) { EndedIsServed(c, ks, s); }
        ServedStays(c, ks, s, e);
      }
    }
  }

  lemma {:induction false} SessionLasts(c: Config, s: State, e: Event)
    requires Enabled(c, s, e) && !e.Open?
    ensures Apply(c, s, e).loop.InSession? <==> s.loop.InSession? && !e.ConsumeReturns?
  {
    if IsWorkerEvent(e) {
      WorkerFrame(c, s, e);
    } else if IsClaimEvent(e) {
      ClaimFrame(c, s, e);
    }
  }

  /** Some session of the schedule has a claim that had this message to deliver. */
  ghost predicate Announced(es: seq<Event>, m: Message) {
    exists k, j ::
      && 0 <= k < |es| && es[k].Open? && 0 <= j < |es[k].session| && es[k].session[j].partition == m.partition
      && es[k].session[j].next <= m.offset < es[k].session[j].next + es[k].session[j].left
  }

  ghost predicate ServingSome(es: seq<Event>, s: State) {
    exists k :: 0 <= k < |es| && es[k].Open? && Serving(es[k].session, s)
  }

  ghost predicate RecordsSources(es: seq<Event>, s: State) {
    (s.loop.InSession? ==> ServingSome(es, s)) && forall m :: m in s.sent ==> Announced(es, m)
  }

  lemma {:induction false} AnnouncedStays(es: seq<Event>, e: Event, m: Message)
    requires Announced(es, m)
    ensures Announced(es + [e], m)
  {
    OneMoreEvent(es, e);
    var k, j :| 0 <= k < |es| && es[k].Open? && 0 <= j < |es[k].session| && es[k].session[j].partition == m.partition
                && es[k].session[j].next <= m.offset < es[k].session[j].next + es[k].session[j].left;
    assert (es + [e])[k].session[j] == es[k].session[j];
  }

  /** What a claim has in hand is a message that its session announced. */
  lemma {:induction false} InHandIsAnnounced(es: seq<Event>, s: State, j: nat)
    requires ServingSome(es, s) && j < |s.claims| && s.claims[j].pc.Sending?
    ensures Announced(es, InHand(s.claims[j]))
  {
    var k :| 0 <= k < |es| && es[k].Open? && Serving(es[k].session, s);
    assert es[k].session[j].partition == s.claims[j].partition;
  }

  lemma {:induction false} StepRecordsSources(c: Config, es: seq<Event>, s: State, e: Event)
    requires Control(c, s) && RecordsSources(es, s) && Enabled(c, s, e)
    ensures forall m :: m in Apply(c, s, e).sent ==> Announced(es + [e], m)
  {
    var t := Apply(c, s, e);
    forall m | m in t.sent
      ensures Announced(es + [e], m)
    {
      if m !in s.sent {
        SentOnlyByClaims(c, s, e, m);
        InHandIsAnnounced(es, s, e.j);
      }
      AnnouncedStays(es, e, m);
    }
  }

  lemma SentOnlyByClaims(c: Config, s: State, e: Event, m: Message)
    requires Control(c, s) && Enabled(c, s, e) && m in Apply(c, s, e).sent && m !in s.sent
    ensures (e.Send? || e.HandOff?) && e.j < |s.claims| && s.claims[e.j].pc.Sending? && m == InHand(s.claims[e.j])
    ensures s.loop.InSession?
  {
    if IsWorkerEvent(e) {
      WorkerFrame(c, s, e);
    } else if IsLoopEvent(e) || IsMainEvent(e) {
      ControlFrame(c, s, e);
    }
  }

  lemma {:induction false} StepServesSome(c: Config, es: seq<Event>, s: State, e: Event)
    requires Control(c, s) && RecordsSources(es, s) && Enabled(c, s, e)
    ensures Apply(c, s, e).loop.InSession? ==> ServingSome(es + [e], Apply(c, s, e))
  {
    var t := Apply(c, s, e);
    OneMoreEvent(es, e);
    if e.Open? {
      assert (es + [e])[|es|].Open? && Serving(e.session, t);
    } else if t.loop.InSession? {
      SessionLasts(c, s, e);
      var k :| 0 <= k < |es| && es[k].Open? && Serving(es[k].session, s);
      StepServes(c, es[k].session, s, e);
      assert (es + [e])[k] == es[k];
    }
  }

  ghost predicate Recorded(c: Config, es: seq<Event>, s: State) {
    Inv(c, s) && RecordsSignals(es, s) && RecordsVerdicts(es, s) && RecordsSessions(es, s) && RecordsSources(es, s)
  }

  lemma {:induction false} StepRecorded(c: Config, es: seq<Event>, s: State, e: Event)
    requires Recorded(c, es, s) && Enabled(c, s, e)
    ensures Recorded(c, es + [e], Apply(c, s, e))
  {
    StepKeepsInv(c, s, e);
    StepRecordsVerdicts(c, es, s, e);
    StepRecordsSources(c, es, s, e);
    StepServesSome(c, es, s, e);
    if e.Open? { OpenRecordsSessions(c, es, s, e.session); } else { StepRecordsSessions(c, es, s, e); }
    if IsWorkerEvent(e) {
      WorkerRecordsSignals(c, es, s, e);
    } else if IsLoopEvent(e) {
      LoopRecordsSignals(c, es, s, e);
    } else if IsMainEvent(e) {
      MainRecordsSignals(c, es, s, e);
    } else {
      ClaimRecordsSignals(c, es, s, e);
    }
  }

  lemma {:induction false} RunIsRecorded(c: Config, es: seq<Event>, s: State)
    requires Exec(Program(c), Init(c), es) == Some(s)
    ensures Recorded(c, es, s)
  {
    InitInv(c);
    assert Recorded(c, [], Init(c));
    forall es, s, e | Recorded(c, es, s) && Enabled(c, s, e)
      ensures Recorded(c, es + [e], Apply(c, s, e))
    {
      StepRecorded(c, es, s, e);
    }
    RunRecords(Program(c), (es, s) => Recorded(c, es, s), es, s);
  }

  /** Every message that any claim of any session of the schedule had to deliver is queued, and is
      below the mark of its partition. */
  ghost predicate AllServed(es: seq<Event>, s: State) {
    forall k, j, o: nat ::
      && 0 <= k < |es| && es[k].Open? && 0 <= j < |es[k].session|
      && es[k].session[j].next <= o < es[k].session[j].next + es[k].session[j].left ==>
        Message(es[k].session[j].partition, o) in s.sent && o < At(s.marks, es[k].session[j].partition)
  }

  lemma {:induction false} SessionServed(c: Config, es: seq<Event>, s: State, k: nat)
    requires Exec(Program(c), Init(c), es) == Some(s) && AllEnded(s.claims) && k < |es| && es[k].Open?
    ensures Served(es[k].session, s)
  {
    RunIsRecorded(c, es, s);
    if !Served(es[k].session, s) { EndedIsServed(c, es[k].session, s); }
  }

  /** No claim of any session is forgotten: whenever no session is open, or all claims of the open
      one have ended, all that the sessions of the schedule had to deliver is queued and marked. */
  lemma {:induction false} SessionsAreServed(c: Config, es: seq<Event>, s: State)
    requires Exec(Program(c), Init(c), es) == Some(s) && AllEnded(s.claims)
    ensures AllServed(es, s)
  {
    forall k | 0 <= k < |es| && es[k].Open?
      ensures Served(es[k].session, s)
    {
      SessionServed(c, es, s, k);
    }
  }

  /** The same for one session, from the state in which it opens. */
  lemma {:induction false} SessionIsServed(c: Config, s: State, ks: seq<Claim>, es: seq<Event>, t: State)
    requires Reachable(Program(c), s) && Exec(Program(c), s, [Open(ks)] + es) == Some(t) && AllEnded(t.claims)
    ensures forall j, o: nat :: 0 <= j < |ks| && ks[j].next <= o < ks[j].next + ks[j].left ==>
              Message(ks[j].partition, o) in t.sent && o < At(t.marks, ks[j].partition)
  {
    var before :| Exec(Program(c), Init(c), before) == Some(s);
    ExecConcat(Program(c), Init(c), before, [Open(ks)] + es);
    var all := before + ([Open(ks)] + es);
    assert all[|before|] == Open(ks);
    SessionServed(c, all, t, |before|);
    assert Served(ks, t);
    forall j, o: nat | 0 <= j < |ks| && ks[j].next <= o < ks[j].next + ks[j].left
      ensures Message(ks[j].partition, o) in t.sent && o < At(t.marks, ks[j].partition)
    {
    }
  }

  /** Only messages that some session announced are queued, and they leave the channel in the order
      in which they were; what a schedule stores and fails are its calls' verdicts; and
      `StartConsume` returns only after the cancellation, the error handler's end and every worker's. */
  lemma {:induction false} HistoryIsTheSchedules(c: Config, es: seq<Event>, s: State)
    requires Exec(Program(c), Init(c), es) == Some(s)
    ensures forall m :: m in s.sent ==> Announced(es, m)
    ensures s.sent == s.taken + s.queue && |s.queue| <= c.capacity
    ensures |s.stored| == Stores(es) && |s.failed| == Failures(es)
    ensures (s.cancelled <==> Cancel in es) && (s.closed <==> CloseQueue in es) && (s.returned <==> Return in es)
    ensures s.handlingErrors <==> StopErrors(false) !in es && StopErrors(true) !in es
    ensures Return in es ==> Cancel in es && (StopErrors(false) in es || StopErrors(true) in es)
    ensures Return in es ==> forall i :: 0 <= i < c.workers ==> Quit(i) in es || Leave(i) in es
  {
    RunIsRecorded(c, es, s);
    assert s.returned ==> forall i :: 0 <= i < |s.workers| ==> s.workers[i].Stopped?;
  }

  lemma LoopStepFollowsContext(c: Config, s: State, e: Event, t: State)
    requires Enabled(c, s, e) && IsLoopEvent(e) && t == Apply(c, s, e)
    ensures e.ConsumeReturns? ==>
              t.claims == [] && if e.failed && s.cancelled then t.loop.Leaving? else t.loop.Checking?
    ensures e.Check? ==> if s.cancelled then t.loop.Leaving? else t.loop.Calling?
    ensures e.Open? ==> !s.cancelled && t.loop.InSession? && t.claims == e.session
  {
  }

  /** The consume loop re-enters `Consume` after every return of it, failed or not, except after a
      failed one when the context was cancelled, and gives up when it finds it cancelled. */
  lemma {:induction false} LoopFollowsContext(c: Config, es: seq<Event>, e: Event, s: State)
    requires Exec(Program(c), Init(c), es + [e]) == Some(s) && IsLoopEvent(e)
    ensures e.ConsumeReturns? ==>
              s.claims == [] && if e.failed && Cancel in es then s.loop.Leaving? else s.loop.Checking?
    ensures e.Check? ==> if Cancel in es then s.loop.Leaving? else s.loop.Calling?
    ensures e.Open? ==> Cancel !in es && s.loop.InSession? && s.claims == e.session
  {
    ExecLast(Program(c), Init(c), es, e);
    var t := Exec(Program(c), Init(c), es).value;
    RunIsRecorded(c, es, t);
    LoopStepFollowsContext(c, t, e, s);
  }

  // ------------------------------------------------ how often a position is queued

  /** A session that starts every claim exactly at the mark, with one claim for a partition. */
  predicate Exact(s: State, ks: seq<Claim>) {
    && (forall j :: 0 <= j < |ks| ==> ks[j].next == At(s.marks, ks[j].partition))
    && (forall i, j :: 0 <= i < j < |ks| ==> ks[i].partition != ks[j].partition)
  }

  /** The program with a broker that opens only exact sessions. */
  function ExactProgram(c: Config): System<State, Event> {
    System(Init(c), (s: State, e: Event) =>
      if Enabled(c, s, e) && (e.Open? ==> Exact(s, e.session)) then Some(Apply(c, s, e)) else None)
  }

  ghost predicate NoRepeats(ms: seq<Message>) {
    forall i, j :: 0 <= i < j < |ms| ==> ms[i] != ms[j]
  }

  /** Open claims are of different partitions, and ahead of everything queued of theirs. */
  ghost predicate Ahead(s: State) {
    && (forall i, j :: 0 <= i < j < |s.claims| ==> s.claims[i].partition != s.claims[j].partition)
    && (forall j, k :: 0 <= j < |s.claims| && 0 <= k < |s.sent| && s.sent[k].partition == s.claims[j].partition ==>
          s.sent[k].offset < s.claims[j].next)
  }

  lemma QueueingKeepsAhead(s: State, j: nat, t: State)
    requires Ahead(s) && NoRepeats(s.sent) && j < |s.claims|
    requires t.sent == s.sent + [InHand(s.claims[j])]
    requires t.claims == s.claims[j := Queued(s.claims[j], |s.sent|)]
    ensures Ahead(t) && NoRepeats(t.sent)
  {
    forall i, k | 0 <= i < |t.claims| && 0 <= k < |t.sent| && t.sent[k].partition == t.claims[i].partition
      ensures t.sent[k].offset < t.claims[i].next
    {
      assert t.claims[i].partition == s.claims[i].partition;
    }
  }

  lemma OpeningKeepsAhead(c: Config, s: State, ks: seq<Claim>)
    requires Inv(c, s) && Enabled(c, s, Open(ks)) && Exact(s, ks)
    ensures Ahead(Apply(c, s, Open(ks)))
  {
    forall j, k | 0 <= j < |ks| && 0 <= k < |s.sent| && s.sent[k].partition == ks[j].partition
      ensures s.sent[k].offset < ks[j].next
    {
      assert !AboutToMark(s, k);
      assert BelowMark(s, s.sent[k]);
    }
  }

  lemma ClaimStepKeepsAhead(c: Config, s: State, e: Event)
    requires Control(c, s) && Ahead(s) && NoRepeats(s.sent) && Enabled(c, s, e) && IsClaimEvent(e)
    ensures Ahead(Apply(c, s, e)) && NoRepeats(Apply(c, s, e).sent)
  {
    if e.Send? { QueueingKeepsAhead(s, e.j, Apply(c, s, e)); }
  }

  lemma {:induction false} StepKeepsAhead(c: Config, s: State, e: Event)
    requires Inv(c, s) && Ahead(s) && NoRepeats(s.sent)
    requires Enabled(c, s, e) && (e.Open? ==> Exact(s, e.session))
    ensures Ahead(Apply(c, s, e)) && NoRepeats(Apply(c, s, e).sent)
  {
    if IsClaimEvent(e) {
      ClaimStepKeepsAhead(c, s, e);
    } else if e.HandOff? {
      QueueingKeepsAhead(s, e.j, Apply(c, s, e));
    } else if IsWorkerEvent(e) {
      WorkerFrame(c, s, e);
    } else {
      ControlFrame(c, s, e);
      if e.Open? { OpeningKeepsAhead(c, s, e.session); }
    }
  }

  lemma ReachableAhead(c: Config, s: State)
    requires Reachable(ExactProgram(c), s)
    ensures Inv(c, s) && NoRepeats(s.sent)
  {
    InitInv(c);
    var inv := (t: State) => Inv(c, t) && Ahead(t) && NoRepeats(t.sent);
    forall t: State, e: Event | inv(t) && ExactProgram(c).next(t, e).Some?
      ensures inv(ExactProgram(c).next(t, e).value)
    {
      StepKeepsInv(c, t, e);
      StepKeepsAhead(c, t, e);
    }
    ReachableKeeps(ExactProgram(c), inv, s);
  }

  lemma {:induction false} CountsOnce(ms: seq<Message>, m: Message)
    requires NoRepeats(ms) && m in ms
    ensures multiset(ms)[m] == 1
  {
    assert ms == [ms[0]] + ms[1..];
    if m in ms[1..] {
      CountsOnce(ms[1..], m);
    }
  }

  /** With such a broker "at least once" becomes "exactly once": over any sessions and rebalances
      each position below a mark was queued once, and nothing was queued twice. */
  lemma ExactlyOnceUnderMarks(c: Config, s: State)
    requires Reachable(ExactProgram(c), s)
    ensures forall p: nat, o: nat :: At(c.start, p) <= o < At(s.marks, p) ==> multiset(s.sent)[Message(p, o)] == 1
    ensures forall m :: m in s.sent ==> multiset(s.sent)[m] == 1
  {
    ReachableAhead(c, s);
    forall m | m in s.sent
      ensures multiset(s.sent)[m] == 1
    {
      CountsOnce(s.sent, m);
    }
    forall p: nat, o: nat | At(c.start, p) <= o < At(s.marks, p)
      ensures Message(p, o) in s.sent
    {
      assert QueuedUpTo(c, s.sent, p, At(s.marks, p));
    }
  }

  /** A rebalance: the exhausted claim ends and `Consume` returns, */
  lemma SessionCloses(c: Config, before: State) returns (s: State)
    requires Reachable(Program(c), before) && before.loop.InSession? && !before.cancelled
    requires |before.claims| == 1 && before.claims[0].pc.Ranging? && before.claims[0].left == 0
    ensures Reachable(Program(c), s) && s == before.(claims := [], loop := Checking)
  {
    ReachableStep(Program(c), before, EndClaim(0));
    var ended := Apply(c, before, EndClaim(0));
    ReachableStep(Program(c), ended, ConsumeReturns(false));
    s := Apply(c, ended, ConsumeReturns(false));
  }

  /** and the next session opens with another claim. */
  lemma Rebalances(c: Config, before: State, k: Claim) returns (s: State)
    requires Reachable(Program(c), before) && before.loop.InSession? && !before.cancelled
    requires |before.claims| == 1 && before.claims[0].pc.Ranging? && before.claims[0].left == 0
    requires k.pc.Ranging? && k.next <= At(before.marks, k.partition)
    ensures Reachable(Program(c), s) && s == before.(claims := [k])
  {
    var closed := SessionCloses(c, before);
    s := SessionOpens(c, closed, k);
  }

  /** A claim that starts below the mark, as the broker's contract allows, queues a position again. */
  lemma RedeliveryDuplicates(c: Config) returns (s: State)
    requires c.workers >= 1
    ensures Reachable(Program(c), s) && multiset(s.sent)[Message(0, At(c.start, 0))] == 2
  {
    var k := Claim(0, At(c.start, 0), 1, Ranging);
    var first := OneClaimSession(c, 1);
    var done := FailsNext(c, first, k);
    ReachableInv(c, done);
    assert done.sent[0] == InHand(k) && BelowMark(done, done.sent[0]);
    var again := Rebalances(c, done, k);
    s := FailsNext(c, again, k);
    assert s.sent == [InHand(k), InHand(k)];
  }

  // ------------------------------------------- the goroutines on shared fields

  lemma {:induction false} WhatStartConsumePromises(c: Config, es: seq<Event>, s: State)
    requires Exec(Program(c), Init(c), es) == Some(s)
    ensures forall p: nat, o: nat :: At(c.start, p) <= o < At(s.marks, p) ==> Message(p, o) in s.sent
    ensures AllEnded(s.claims) ==> AllServed(es, s)
    ensures forall m :: m in s.sent ==> Announced(es, m)
    ensures s.sent == s.taken + s.queue && |s.queue| <= c.capacity
    ensures |s.stored| == Stores(es) && |s.failed| == Failures(es)
    ensures s.returned ==> Cancel in es && AllEnded(s.claims)
  {
    assert Reachable(Program(c), s);
    NoGapUnderMarks(c, s);
    HistoryIsTheSchedules(c, es, s);
    ReachableInv(c, s);
    if AllEnded(s.claims) { SessionsAreServed(c, es, s); }
  }

  lemma {:induction false} WhatStartConsumeLoses(c: Config, es: seq<Event>, s: State)
    requires Exec(Program(c), Init(c), es) == Some(s) && s.returned
    ensures s.marked == s.stored + s.failed + Left(s) && s.stored !! s.failed !! Left(s)
    ensures |s.marked - s.stored| == Failures(es) + |s.queue|
  {
    LossOnReturn(c, s);
    LossOfARun(c, es, s);
  }

  /** The running consumer: every method is one atomic step of one goroutine on the channel and
      the fields they share; the last six fields only record what happened. */
  class Consumer {
    const config: Config
    const queue: Channel<Message>
    var panicked: bool
    var cancelled: bool
    var handlingErrors: bool
    var workers: seq<Worker>
    var loop: Loop
    var claims: seq<Claim>
    var returned: bool
    var marks: map<nat, nat>
    var sent: seq<Message>
    var taken: seq<Message>
    var marked: set<nat>
    var handed: set<nat>
    var stored: set<nat>
    var failed: set<nat>

    ghost predicate Valid()
      reads this, queue
    {
      queue.Valid() && queue.slots.Length == config.capacity
    }

    /** The state of the step system that the fields stand for. */
    function View(): State
      requires Valid()
      reads this, queue, queue.slots
    {
      State(queue.Contents(), queue.closed, panicked, cancelled, handlingErrors, workers, loop, claims, returned, marks,
            sent, taken, marked, handed, stored, failed)
    }

    constructor (config: Config)
      ensures Valid() && this.config == config && View() == Init(config)
      ensures fresh(queue) && fresh(queue.slots)
    {
      this.config := config;
      queue := new Channel(config.capacity);
      panicked, cancelled, handlingErrors := false, false, true;
      workers, loop, claims, returned := seq(config.workers, _ => Selecting), Checking, [], false;
      marks, sent, taken, marked, handed := config.start, [], [], {}, {};
      stored, failed := {}, {};
    }

    /** A worker's select: take a message, or leave on cancellation or on a closed empty queue. */
    method WorkerSelects(e: Event)
      requires Valid() && (e.Take? || e.Quit? || e.Leave?) && Enabled(config, View(), e)
      modifies this, queue
      ensures Valid() && View() == Apply(config, old(View()), e)
    {
      match e
      case Take(i) =>
        var msg := queue.Receive();
        workers := workers[i := Holding(|taken|)];
        taken := taken + [msg];
      case Quit(i) => workers := workers[i := Stopped];
      case Leave(i) => workers := workers[i := Stopped];
    }

    /** The call of `ProcessMessageFunc`, */
    method WorkerBegins(i: nat)
      requires Valid() && Enabled(config, View(), Begin(i))
      modifies this
      ensures Valid() && View() == Apply(config, old(View()), Begin(i))
    {
      handed := handed + {workers[i].ticket};
      workers := workers[i := Processing(workers[i].ticket)];
    }

    /** and its return: an error is logged and nothing more. */
    method WorkerFinishes(i: nat, ok: bool)
      requires Valid() && Enabled(config, View(), Finish(i, ok))
      modifies this
      ensures Valid() && View() == Apply(config, old(View()), Finish(i, ok))
    {
      var k := workers[i].ticket;
      if ok { stored := stored + {k}; } else { failed := failed + {k}; }
      workers := workers[i := Selecting];
    }

    /** `ConsumeClaim`: receive from the claim's channel, */
    method ClaimReceives(e: Event)
      requires Valid() && (e.Deliver? || e.EndClaim?) && Enabled(config, View(), e)
      modifies this`claims
      ensures Valid() && View() == Apply(config, old(View()), e)
    {
      match e
      case Deliver(j) =>
        claims := claims[j := claims[j].(left := claims[j].left - 1, pc := Sending)];
      case EndClaim(j) => claims := claims[j := claims[j].(pc := Ended)];
    }

    /** send to the queue, */
    method ClaimSends(j: nat)
      requires Valid() && Enabled(config, View(), Send(j))
      modifies this`panicked, this`claims, this`sent, queue, queue.slots
      ensures Valid() && View() == Apply(config, old(View()), Send(j))
    {
      var m := InHand(claims[j]);
      var panics := queue.Send(m);
      if panics {
        panicked := true;
      } else {
        claims := claims[j := Queued(claims[j], |sent|)];
        sent := sent + [m];
      }
    }

    /** then mark. */
    method ClaimMarks(j: nat)
      requires Valid() && Enabled(config, View(), Mark(j))
      modifies this`marks, this`marked, this`claims
      ensures Valid() && View() == Apply(config, old(View()), Mark(j))
    {
      var k := claims[j];
      marks := marks[k.partition := Max(At(marks, k.partition), k.next)];
      marked := marked + {k.pc.ticket};
      claims := claims[j := k.(pc := Ranging)];
    }

    /** A claim's send meets a worker that is already receiving. */
    method Rendezvous(i: nat, j: nat)
      requires Valid() && Enabled(config, View(), HandOff(i, j))
      modifies this
      ensures Valid() && View() == Apply(config, old(View()), HandOff(i, j))
    {
      var m := InHand(claims[j]);
      claims := claims[j := Queued(claims[j], |sent|)];
      workers := workers[i := Holding(|taken|)];
      sent := sent + [m];
      taken := taken + [m];
    }

    /** The consume loop: check the context, call `Consume`, and on exit */
    method LoopStep(e: Event)
      requires Valid() && (e.Check? || e.LoopDone?) && Enabled(config, View(), e)
      modifies this`loop
      ensures Valid() && View() == Apply(config, old(View()), e)
    {
      match e
      case Check => loop := if cancelled then Leaving else Calling;
      case LoopDone => loop := Closing;
    }

    /** close the queue. */
    method LoopCloses()
      requires Valid() && Enabled(config, View(), CloseQueue)
      modifies this`panicked, this`loop, queue
      ensures Valid() && View() == Apply(config, old(View()), CloseQueue)
    {
      var panics := queue.Close();
      panicked := panicked || panics;
      loop := Exited;
    }

    /** Inside `Consume`: the broker opens a session, and later the call returns. */
    method SessionStep(e: Event)
      requires e.Open? || e.ConsumeReturns?
      requires Valid() && Enabled(config, View(), e)
      modifies this`loop, this`claims
      ensures Valid() && View() == Apply(config, old(View()), e)
    {
      match e
      case Open(ks) =>
        loop := InSession;
        claims := ks;
      case ConsumeReturns(failed) =>
        claims := [];
        loop := if failed && cancelled then Leaving else Checking;
    }

    method MainStep(e: Event)
      requires e.LogError? || e.StopErrors? || e.Cancel? || e.Return?
      requires Valid() && Enabled(config, View(), e)
      modifies this`handlingErrors, this`cancelled, this`returned
      ensures Valid() && View() == Apply(config, old(View()), e)
    {
      match e
      case LogError =>
      case StopErrors(_) => handlingErrors := false;
      case Cancel => cancelled := true;
      case Return => returned := true;
    }

    method Fire(e: Event)
      requires Valid() && Enabled(config, View(), e)
      modifies this, queue, queue.slots
      ensures Valid() && View() == Apply(config, old(View()), e)
    {
      if e.Take? || e.Quit? || e.Leave? {
        WorkerSelects(e);
      } else if e.Begin? {
        WorkerBegins(e.i);
      } else if e.Finish? {
        WorkerFinishes(e.i, e.ok);
      } else if e.Deliver? || e.EndClaim? {
        ClaimReceives(e);
      } else if e.Send? {
        ClaimSends(e.j);
      } else if e.Mark? {
        ClaimMarks(e.j);
      } else if e.Open? || e.ConsumeReturns? {
        SessionStep(e);
      } else if e.Check? || e.LoopDone? {
        LoopStep(e);
      } else if e.CloseQueue? {
        LoopCloses();
      } else if e.HandOff? {
        Rendezvous(e.i, e.j);
      } else {
        MainStep(e);
      }
    }

    /** A whole run under any schedule, up to the first event that cannot happen: no position
        below a mark was skipped, and on return every marked delivery is stored, failed, or left
        in the channel. */
    method StartConsume(schedule: seq<Event>) returns (fired: nat)
      requires Valid() && View() == Init(config)
      modifies this, queue, queue.slots
      ensures Valid() && fired <= |schedule|
      ensures Exec(Program(config), Init(config), schedule[..fired]) == Some(View())
      ensures fired < |schedule| ==> !Enabled(config, View(), schedule[fired])
      ensures forall p: nat, o: nat :: At(config.start, p) <= o < At(marks, p) ==> Message(p, o) in sent
      ensures AllEnded(claims) ==> AllServed(schedule[..fired], View())
      ensures forall m :: m in sent ==> Announced(schedule[..fired], m)
      ensures sent == taken + queue.Contents()
      ensures |stored| == Stores(schedule[..fired]) && |failed| == Failures(schedule[..fired])
      ensures returned ==> Cancel in schedule[..fired] && AllEnded(claims)
      ensures returned ==> marked == stored + failed + Left(View()) && stored !! failed !! Left(View())
      ensures returned ==> |marked - stored| == Failures(schedule[..fired]) + |queue.Contents()|
      ensures |queue.Contents()| <= config.capacity
    {
      fired := 0;
      while fired < |schedule| && Enabled(config, View(), schedule[fired])
        invariant 0 <= fired <= |schedule| && Valid()
        invariant Exec(Program(config), Init(config), schedule[..fired]) == Some(View())
      {
        var e := schedule[fired];
        ExecOneMore(Program(config), Init(config), schedule, fired, View());
        Fire(e);
        fired := fired + 1;
      }
      WhatStartConsumePromises(config, schedule[..fired], View());
      if returned { WhatStartConsumeLoses(config, schedule[..fired], View()); }
    }
  }
}
