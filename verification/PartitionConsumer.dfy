/** The partition consumer's goroutines: one feeder, one bounded channel, N workers that
    range over the channel, a signal listener, and `Consume` itself waiting for all of them.
    Every event is one atomic step of one goroutine; a schedule is a sequence of events. */
module PartitionConsumer {
  import opened Channels
  import opened Messages
  import opened Runs
  import opened Tally
  import opened Wrappers

  datatype Config = Config(workers: nat, capacity: nat)

  datatype Feeder = Selecting | Sending(msg: Message) | Returning | Exited

  /** `Testing` is the gap between assigning the shared `err` and testing it. A ticket is
      the position of the message in the order in which workers took messages. */
  datatype Worker =
    | Ranging
    | Processing(ticket: nat, msg: Message)
    | Testing(ticket: nat, stored: bool)
    | Stopped

  datatype Signal = Listening | Cancelled | Finished

  /** What `ProcessMessageFunc` really returned for the message with this ticket, and whether the
      context it was given had been cancelled by then. */
  datatype Outcome = Outcome(ticket: nat, msg: Message, stored: bool, late: bool)

  /** The verdict a worker logs, read back from the shared `err`, beside its own. */
  datatype LogLine = LogLine(ticket: nat, own: bool, logged: bool)

  datatype State = State(
    queue: seq<Message>,
    closed: bool,
    panicked: bool,
    errIsNil: bool,
    feeder: Feeder,
    workers: seq<Worker>,
    signal: Signal,
    returned: bool,
    received: seq<Message>,
    taken: seq<Message>,
    outcomes: seq<Outcome>,
    log: seq<LogLine>)

  datatype Event =
    | Receive(msg: Message)
    | ReceiveNil
    | ReceiveError
    | Send
    | StopFeeding
    | CloseQueue
    | Take(i: nat)
    | HandOff(i: nat)
    | Process(i: nat, stored: bool)
    | Test(i: nat)
    | Leave(i: nat)
    | Interrupt
    | CloseDone
    | Return

  function Init(c: Config): State {
    State([], false, false, true, Selecting, seq(c.workers, _ => Ranging), Listening, false, [], [], [], [])
  }

  predicate Enabled(c: Config, s: State, e: Event) {
    match e
    case Receive(_) => s.feeder.Selecting?
    case ReceiveNil => s.feeder.Selecting?
    case ReceiveError => s.feeder.Selecting?
    case Send => s.feeder.Sending? && (s.closed || |s.queue| < c.capacity)
    case StopFeeding => s.feeder.Selecting? && !s.signal.Listening?
    case CloseQueue => s.feeder.Returning?
    case Take(i) => i < |s.workers| && s.workers[i].Ranging? && s.queue != []
    case HandOff(i) =>
      i < |s.workers| && s.workers[i].Ranging? && s.queue == [] && s.feeder.Sending? && !s.closed
    case Process(i, _) => i < |s.workers| && s.workers[i].Processing?
    case Test(i) => i < |s.workers| && s.workers[i].Testing?
    case Leave(i) => i < |s.workers| && s.workers[i].Ranging? && s.closed && s.queue == []
    case Interrupt => s.signal.Listening?
    case CloseDone => s.signal.Cancelled?
    case Return =>
      !s.returned && s.signal.Finished? && s.feeder.Exited? && AllStopped(s.workers)
  }

  predicate AllStopped(ws: seq<Worker>) {
    forall i :: 0 <= i < |ws| ==> ws[i].Stopped?
  }

  function Report(w: Worker, stored: bool, late: bool): Outcome
    requires w.Processing?
  {
    Outcome(w.ticket, w.msg, stored, late)
  }

  function Apply(c: Config, s: State, e: Event): State
    requires Enabled(c, s, e)
  {
    match e
    case Receive(m) => s.(feeder := Sending(m), received := s.received + [m])
    case ReceiveNil => s
    case ReceiveError => s
    case Send =>
      if s.closed then s.(panicked := true)
      else s.(feeder := Selecting, queue := s.queue + [s.feeder.msg])
    case StopFeeding => s.(feeder := Returning)
    case CloseQueue => s.(feeder := Exited, closed := true, panicked := s.panicked || s.closed)
    case Take(i) =>
      s.(queue := s.queue[1..], taken := s.taken + [s.queue[0]],
         workers := s.workers[i := Processing(|s.taken|, s.queue[0])])
    case HandOff(i) =>
      s.(feeder := Selecting, taken := s.taken + [s.feeder.msg],
         workers := s.workers[i := Processing(|s.taken|, s.feeder.msg)])
    case Process(i, stored) =>
      s.(errIsNil := stored,
         outcomes := s.outcomes + [Report(s.workers[i], stored, !s.signal.Listening?)],
         workers := s.workers[i := Testing(s.workers[i].ticket, stored)])
    case Test(i) =>
      s.(log := s.log + [LogLine(s.workers[i].ticket, s.workers[i].stored, s.errIsNil)],
         workers := s.workers[i := Ranging])
    case Leave(i) => s.(workers := s.workers[i := Stopped])
    case Interrupt => s.(signal := Cancelled)
    case CloseDone => s.(signal := Finished)
    case Return => s.(returned := true)
  }

  /** The goroutines together, as a step system. */
  function Program(c: Config): System<State, Event> {
    System(Init(c), (s: State, e: Event) => if Enabled(c, s, e) then Some(Apply(c, s, e)) else None)
  }

  // ---------------------------------------------------------------- invariant

  ghost function Holds(k: nat): Worker -> nat {
    (w: Worker) => if w.Processing? && w.ticket == k then 1 else 0
  }

  ghost function Reports(k: nat): Outcome -> nat {
    (o: Outcome) => if o.ticket == k then 1 else 0
  }

  ghost function Busy(w: Worker): nat {
    if w.Processing? then 1 else 0
  }

  ghost function InHand(f: Feeder): seq<Message> {
    if f.Sending? then [f.msg] else []
  }

  /** Every ticket given out is held by one worker or has one outcome, and never both. */
  ghost predicate EachOnce(s: State) {
    && (forall k: nat ::
          Sum(s.workers, Holds(k)) + Sum(s.outcomes, Reports(k)) == if k < |s.taken| then 1 else 0)
    && Sum(s.workers, Busy) + |s.outcomes| == |s.taken|
  }

  ghost predicate Labelled(s: State) {
    && (forall i :: 0 <= i < |s.workers| && s.workers[i].Processing? ==>
          s.workers[i].ticket < |s.taken| && s.workers[i].msg == s.taken[s.workers[i].ticket])
    && (forall p :: 0 <= p < |s.outcomes| ==>
          s.outcomes[p].ticket < |s.taken| && s.outcomes[p].msg == s.taken[s.outcomes[p].ticket])
  }

  /** Channel discipline: who may still be running when the channel is closed. */
  ghost predicate Closing(c: Config, s: State) {
    && !s.panicked
    && |s.workers| == c.workers
    && |s.queue| <= c.capacity
    && (s.closed <==> s.feeder.Exited?)
    && (s.feeder.Returning? || s.feeder.Exited? ==> !s.signal.Listening?)
    && (forall i :: 0 <= i < |s.workers| && s.workers[i].Stopped? ==> s.closed && s.queue == [])
    && (s.returned ==> s.signal.Finished? && s.closed && AllStopped(s.workers))
  }

  ghost predicate Inv(c: Config, s: State) {
    && Closing(c, s)
    && s.received == s.taken + s.queue + InHand(s.feeder)
    && EachOnce(s)
    && Labelled(s)
    && (forall p :: 0 <= p < |s.outcomes| ==> s.outcomes[p].ticket < p + c.workers)
  }

  lemma {:induction false} InitInv(c: Config)
    ensures Inv(c, Init(c))
  {
    forall k: nat
      ensures Sum(Init(c).workers, Holds(k)) == 0
    {
      SumZero(Init(c).workers, Holds(k));
    }
    SumZero(Init(c).workers, Busy);
  }

  lemma TakeKeepsEachOnce(s: State, t: State, i: nat, m: Message)
    requires EachOnce(s) && i < |s.workers| && s.workers[i].Ranging?
    requires t.workers == s.workers[i := Processing(|s.taken|, m)]
    requires t.outcomes == s.outcomes && t.taken == s.taken + [m]
    ensures EachOnce(t)
  {
    var w := Processing(|s.taken|, m);
    forall k: nat
      ensures Sum(t.workers, Holds(k)) == Sum(s.workers, Holds(k)) + if k == |s.taken| then 1 else 0
    {
      SumUpdate(s.workers, i, w, Holds(k));
    }
    SumUpdate(s.workers, i, w, Busy);
  }

  lemma ProcessKeepsEachOnce(s: State, t: State, i: nat, stored: bool, late: bool)
    requires EachOnce(s) && i < |s.workers| && s.workers[i].Processing?
    requires t.workers == s.workers[i := Testing(s.workers[i].ticket, stored)] && t.taken == s.taken
    requires t.outcomes == s.outcomes + [Report(s.workers[i], stored, late)]
    ensures EachOnce(t)
  {
    var w := Testing(s.workers[i].ticket, stored);
    var o := Report(s.workers[i], stored, late);
    forall k: nat
      ensures Sum(t.workers, Holds(k)) + Sum(t.outcomes, Reports(k))
           == Sum(s.workers, Holds(k)) + Sum(s.outcomes, Reports(k))
    {
      SumUpdate(s.workers, i, w, Holds(k));
      SumAppend(s.outcomes, o, Reports(k));
    }
    SumUpdate(s.workers, i, w, Busy);
  }

  lemma IdleKeepsEachOnce(s: State, t: State, i: nat, w: Worker)
    requires EachOnce(s) && i < |s.workers| && !s.workers[i].Processing? && !w.Processing?
    requires t.workers == s.workers[i := w] && t.outcomes == s.outcomes && t.taken == s.taken
    ensures EachOnce(t)
  {
    forall k: nat
      ensures Sum(t.workers, Holds(k)) == Sum(s.workers, Holds(k))
    {
      SumUpdate(s.workers, i, w, Holds(k));
    }
    SumUpdate(s.workers, i, w, Busy);
  }

  lemma ProcessKeepsLag(c: Config, s: State, e: Event)
    requires Inv(c, s) && Enabled(c, s, e) && e.Process?
    ensures s.workers[e.i].ticket < |s.outcomes| + c.workers
  {
    SumBound(s.workers, Busy);
  }

  lemma StepKeepsEachOnce(c: Config, s: State, e: Event)
    requires Inv(c, s) && Enabled(c, s, e)
    ensures EachOnce(Apply(c, s, e))
  {
    var t := Apply(c, s, e);
    match e
    case Take(i) => TakeKeepsEachOnce(s, t, i, s.queue[0]);
    case HandOff(i) => TakeKeepsEachOnce(s, t, i, s.feeder.msg);
    case Process(i, stored) => ProcessKeepsEachOnce(s, t, i, stored, !s.signal.Listening?);
    case Test(i) => IdleKeepsEachOnce(s, t, i, Ranging);
    case Leave(i) => IdleKeepsEachOnce(s, t, i, Stopped);
    case _ => assert t.workers == s.workers && t.outcomes == s.outcomes && t.taken == s.taken;
  }

  lemma StepKeepsLabelled(c: Config, s: State, e: Event)
    requires Inv(c, s) && Enabled(c, s, e)
    ensures Labelled(Apply(c, s, e))
  {
  }

  lemma StepKeepsOrder(c: Config, s: State, e: Event)
    requires Inv(c, s) && Enabled(c, s, e)
    ensures var t := Apply(c, s, e); t.received == t.taken + t.queue + InHand(t.feeder)
    ensures var t := Apply(c, s, e); forall p :: 0 <= p < |t.outcomes| ==> t.outcomes[p].ticket < p + c.workers
  {
    if e.Process? { ProcessKeepsLag(c, s, e); }
  }

  lemma StepKeepsInv(c: Config, s: State, e: Event)
    requires Inv(c, s) && Enabled(c, s, e)
    ensures Inv(c, Apply(c, s, e))
  {
    StepKeepsEachOnce(c, s, e);
    StepKeepsLabelled(c, s, e);
    StepKeepsOrder(c, s, e);
  }

  lemma {:induction false} InvIsKept(c: Config)
    ensures Kept(Program(c), s => Inv(c, s))
  {
    forall s: State, e: Event | Inv(c, s) && Enabled(c, s, e)
      ensures Inv(c, Apply(c, s, e))
    {
      StepKeepsInv(c, s, e);
    }
  }

  lemma ReachableInv(c: Config, s: State)
    requires Reachable(Program(c), s)
    ensures Inv(c, s)
  {
    InitInv(c);
    InvIsKept(c);
    ReachableKeeps(Program(c), s => Inv(c, s), s);
  }

  // ------------------------------------------- what a run says of its schedule

  /** The messages a schedule has the partition consumer deliver, in order. */
  function ReceivedIn(es: seq<Event>): seq<Message> {
    if es == [] then []
    else
      var e := es[|es| - 1];
      ReceivedIn(es[..|es| - 1]) + if e.Receive? then [e.msg] else []
  }

  /** What one call of `ProcessMessageFunc` returned, and whether after the interrupt. */
  datatype Verdict = Verdict(stored: bool, late: bool)

  /** The verdicts of a schedule, in the order in which the calls return. */
  function VerdictsIn(es: seq<Event>): seq<Verdict> {
    if es == [] then []
    else
      var before, e := es[..|es| - 1], es[|es| - 1];
      VerdictsIn(before) + if e.Process? then [Verdict(e.stored, Interrupt in before)] else []
  }

  /** The verdict of the last call that returned, whoever made it; no error before the first. */
  function LastVerdict(es: seq<Event>): bool {
    if es == [] then true
    else
      var e := es[|es| - 1];
      if e.Process? then e.stored else LastVerdict(es[..|es| - 1])
  }

  /** The verdict of worker i's own last call. */
  function VerdictOf(es: seq<Event>, i: nat): bool {
    if es == [] then true
    else
      var e := es[|es| - 1];
      if e.Process? && e.i == i then e.stored else VerdictOf(es[..|es| - 1], i)
  }

  /** What the workers log: beside each one's own verdict the last one of all. */
  function LinesIn(es: seq<Event>): seq<(bool, bool)> {
    if es == [] then []
    else
      var before, e := es[..|es| - 1], es[|es| - 1];
      LinesIn(before) + if e.Test? then [(VerdictOf(before, e.i), LastVerdict(before))] else []
  }

  ghost predicate RecordsMessages(es: seq<Event>, s: State) {
    s.received == ReceivedIn(es)
  }

  ghost predicate RecordsSignals(es: seq<Event>, s: State) {
    && (s.signal.Listening? <==> Interrupt !in es) && (s.signal.Finished? <==> CloseDone in es)
    && (s.closed <==> CloseQueue in es) && (s.returned <==> Return in es)
    && (forall i :: 0 <= i < |s.workers| ==> (s.workers[i].Stopped? <==> Leave(i) in es))
  }

  ghost predicate RecordsVerdicts(es: seq<Event>, s: State) {
    && |s.outcomes| == |VerdictsIn(es)|
    && forall p :: 0 <= p < |s.outcomes| ==>
         Verdict(s.outcomes[p].stored, s.outcomes[p].late) == VerdictsIn(es)[p]
  }

  /** Some outcome is of this ticket and has this verdict. */
  ghost predicate Reported(os: seq<Outcome>, ticket: nat, stored: bool) {
    exists p :: 0 <= p < |os| && os[p].ticket == ticket && os[p].stored == stored
  }

  ghost predicate RecordsLines(es: seq<Event>, s: State) {
    && s.errIsNil == LastVerdict(es)
    && (forall i :: 0 <= i < |s.workers| && s.workers[i].Testing? ==>
          s.workers[i].stored == VerdictOf(es, i) && Reported(s.outcomes, s.workers[i].ticket, s.workers[i].stored))
    && |s.log| == |LinesIn(es)|
    && (forall l :: 0 <= l < |s.log| ==>
          (s.log[l].own, s.log[l].logged) == LinesIn(es)[l] && Reported(s.outcomes, s.log[l].ticket, s.log[l].own))
  }

  lemma {:induction false} StepRecordsSignals(c: Config, es: seq<Event>, s: State, e: Event)
    requires Inv(c, s) && RecordsSignals(es, s) && Enabled(c, s, e)
    ensures RecordsSignals(es + [e], Apply(c, s, e))
  {
    OneMoreEvent(es, e);
  }

  lemma {:induction false} StepRecordsVerdicts(c: Config, es: seq<Event>, s: State, e: Event)
    requires RecordsSignals(es, s) && RecordsVerdicts(es, s) && Enabled(c, s, e)
    ensures RecordsVerdicts(es + [e], Apply(c, s, e))
  {
    OneMoreEvent(es, e);
  }

  lemma ReportsStay(os: seq<Outcome>, o: Outcome)
    ensures forall k: nat, b: bool :: Reported(os, k, b) ==> Reported(os + [o], k, b)
    ensures Reported(os + [o], o.ticket, o.stored)
  {
    var all := os + [o];
    assert all[|os|] == o;
    forall k: nat, b: bool | Reported(os, k, b)
      ensures Reported(all, k, b)
    {
      var p :| 0 <= p < |os| && os[p].ticket == k && os[p].stored == b;
      assert all[p] == os[p];
    }
  }

  lemma {:induction false} ProcessRecordsLines(es: seq<Event>, s: State, e: Event, o: Outcome, t: State)
    requires RecordsLines(es, s) && e.Process? && e.i < |s.workers| && o.stored == e.stored
    requires t.errIsNil == e.stored && t.outcomes == s.outcomes + [o] && t.log == s.log
    requires t.workers == s.workers[e.i := Testing(o.ticket, e.stored)]
    ensures RecordsLines(es + [e], t)
  {
    OneMoreEvent(es, e);
    ReportsStay(s.outcomes, o);
  }

  lemma {:induction false} TestRecordsLines(es: seq<Event>, s: State, e: Event, t: State)
    requires RecordsLines(es, s) && e.Test? && e.i < |s.workers| && s.workers[e.i].Testing?
    requires t.errIsNil == s.errIsNil && t.outcomes == s.outcomes && t.workers == s.workers[e.i := Ranging]
    requires t.log == s.log + [LogLine(s.workers[e.i].ticket, s.workers[e.i].stored, s.errIsNil)]
    ensures RecordsLines(es + [e], t)
  {
    OneMoreEvent(es, e);
  }

  lemma {:induction false} OtherRecordsLines(es: seq<Event>, s: State, e: Event, t: State)
    requires RecordsLines(es, s) && !e.Process? && !e.Test?
    requires t.errIsNil == s.errIsNil && t.outcomes == s.outcomes && t.log == s.log
    requires forall i :: 0 <= i < |t.workers| && t.workers[i].Testing? ==> i < |s.workers| && t.workers[i] == s.workers[i]
    ensures RecordsLines(es + [e], t)
  {
    OneMoreEvent(es, e);
  }

  lemma {:induction false} StepRecordsLines(c: Config, es: seq<Event>, s: State, e: Event)
    requires RecordsLines(es, s) && Enabled(c, s, e)
    ensures RecordsLines(es + [e], Apply(c, s, e))
  {
    var t := Apply(c, s, e);
    if e.Process? {
      ProcessRecordsLines(es, s, e, Report(s.workers[e.i], e.stored, !s.signal.Listening?), t);
    } else if e.Test? {
      TestRecordsLines(es, s, e, t);
    } else {
      OtherRecordsLines(es, s, e, t);
    }
  }

  ghost predicate Recorded(c: Config, es: seq<Event>, s: State) {
    && Inv(c, s) && RecordsMessages(es, s) && RecordsSignals(es, s)
    && RecordsVerdicts(es, s) && RecordsLines(es, s)
  }

  lemma {:induction false} StepRecorded(c: Config, es: seq<Event>, s: State, e: Event)
    requires Recorded(c, es, s) && Enabled(c, s, e)
    ensures Recorded(c, es + [e], Apply(c, s, e))
  {
    OneMoreEvent(es, e);
    StepKeepsInv(c, s, e);
    StepRecordsSignals(c, es, s, e);
    StepRecordsVerdicts(c, es, s, e);
    StepRecordsLines(c, es, s, e);
  }

  lemma {:induction false} RunIsRecorded(c: Config, es: seq<Event>, s: State)
    requires Exec(Program(c), Init(c), es) == Some(s)
    ensures Recorded(c, es, s)
  {
    InitInv(c);
    assert Recorded(c, [], Init(c));
    forall es, s, e | Recorded(c, es, s) && Enabled(c, s, e)
      ensures Recorded(c, es + [e], Apply(c, s, e))
    {
      StepRecorded(c, es, s, e);
    }
    RunRecords(Program(c), (es, s) => Recorded(c, es, s), es, s);
  }

  /** Nothing is invented or forgotten on the way in: what the feeder received is what the schedule
      delivered. What the calls returned, whether each returned after the interrupt, and what the
      workers log beside it, are those of the schedule too. */
  lemma {:induction false} HistoryIsTheSchedules(c: Config, es: seq<Event>, s: State)
    requires Exec(Program(c), Init(c), es) == Some(s)
    ensures s.received == ReceivedIn(es)
    ensures |s.outcomes| == |VerdictsIn(es)| && |s.log| == |LinesIn(es)|
    ensures forall p :: 0 <= p < |s.outcomes| ==>
              s.outcomes[p].stored == VerdictsIn(es)[p].stored && s.outcomes[p].late == VerdictsIn(es)[p].late
    ensures forall l :: 0 <= l < |s.log| ==> (s.log[l].own, s.log[l].logged) == LinesIn(es)[l]
    ensures forall l :: 0 <= l < |s.log| ==> Reported(s.outcomes, s.log[l].ticket, s.log[l].own)
    ensures (s.signal.Listening? <==> Interrupt !in es) && (s.signal.Finished? <==> CloseDone in es)
    ensures (s.closed <==> CloseQueue in es) && (s.returned <==> Return in es)
  {
    RunIsRecorded(c, es, s);
  }

  /** The feeder refuses nothing: in its select it takes any message, nil or error, before and after
      the interrupt, and it may leave exactly after it. */
  lemma {:induction false} FeederRefusesNothing(c: Config, es: seq<Event>, s: State, m: Message)
    requires Exec(Program(c), Init(c), es) == Some(s) && s.feeder.Selecting?
    ensures Exec(Program(c), Init(c), es + [Receive(m)]).Some?
    ensures Exec(Program(c), Init(c), es + [ReceiveNil]).Some? && Exec(Program(c), Init(c), es + [ReceiveError]).Some?
    ensures Exec(Program(c), Init(c), es + [StopFeeding]).Some? <==> Interrupt in es
  {
    RunIsRecorded(c, es, s);
    ExecExtends(Program(c), Init(c), es, Receive(m));
    ExecExtends(Program(c), Init(c), es, ReceiveNil);
    ExecExtends(Program(c), Init(c), es, ReceiveError);
    ExecExtends(Program(c), Init(c), es, StopFeeding);
  }

  // ------------------------------------------------------- drain on shutdown

  /** A state in which `Consume` has returned has the channel closed and empty, and each message
      received has exactly one outcome. */
  lemma Drained(c: Config, s: State)
    requires c.workers >= 1 && Reachable(Program(c), s) && s.returned
    ensures s.closed && s.queue == [] && !s.panicked
    ensures s.taken == s.received && |s.outcomes| == |s.received|
    ensures forall k: nat :: k < |s.received| ==> Sum(s.outcomes, Reports(k)) == 1
    ensures forall p :: 0 <= p < |s.outcomes| ==>
              s.outcomes[p].ticket < |s.received| && s.outcomes[p].msg == s.received[s.outcomes[p].ticket]
  {
    ReachableInv(c, s);
    assert s.workers[0].Stopped?;
    assert s.received == s.taken;
    SumZero(s.workers, Busy);
    forall k: nat
      ensures Sum(s.workers, Holds(k)) == 0
    {
      SumZero(s.workers, Holds(k));
    }
  }

  /** A schedule that brings `Consume` to its return has interrupted it, closed `done` and the
      channel and let every worker leave; every non-nil message it delivered has exactly one
      outcome of `ProcessMessageFunc`, an outcome of that message, and nothing panicked. */
  lemma {:induction false} DrainOnShutdown(c: Config, es: seq<Event>, s: State)
    requires c.workers >= 1 && Exec(Program(c), Init(c), es) == Some(s) && Return in es
    ensures Interrupt in es && CloseDone in es && CloseQueue in es
    ensures forall i :: 0 <= i < c.workers ==> Leave(i) in es
    ensures s.queue == [] && !s.panicked && s.taken == ReceivedIn(es) && |s.outcomes| == |ReceivedIn(es)|
    ensures forall k: nat :: k < |ReceivedIn(es)| ==> Sum(s.outcomes, Reports(k)) == 1
    ensures forall p :: 0 <= p < |s.outcomes| ==>
              s.outcomes[p].ticket < |ReceivedIn(es)| && s.outcomes[p].msg == ReceivedIn(es)[s.outcomes[p].ticket]
  {
    RunIsRecorded(c, es, s);
    Drained(c, s);
  }

  /** First in, first out at every moment: the messages received are those taken by workers,
      in that order, then those queued, then the one in the feeder's hand. The channel is never
      sent to after its close, and closed once. */
  lemma FirstInFirstOut(c: Config, s: State)
    requires Reachable(Program(c), s)
    ensures !s.panicked
    ensures s.received == s.taken + s.queue + InHand(s.feeder)
    ensures |s.queue| <= c.capacity
    ensures Sum(s.workers, Busy) + |s.outcomes| == |s.taken|
  {
    ReachableInv(c, s);
  }

  // ------------------------------------------- progress and termination

  predicate IsReceive(e: Event) {
    e.Receive? || e.ReceiveNil? || e.ReceiveError?
  }

  predicate IsWorkerEvent(e: Event) {
    e.Take? || e.HandOff? || e.Process? || e.Test? || e.Leave?
  }

  ghost predicate WorkerCanStep(c: Config, s: State) {
    exists e :: IsWorkerEvent(e) && Enabled(c, s, e)
  }

  /** A feeder that cannot complete its send always leaves a worker able to step. */
  lemma BlockedFeederLeavesWorker(c: Config, s: State)
    requires c.workers >= 1 && Reachable(Program(c), s)
    requires s.feeder.Sending? && !Enabled(c, s, Send)
    ensures WorkerCanStep(c, s)
  {
    ReachableInv(c, s);
    match s.workers[0]
    case Ranging =>
      if s.queue != [] { assert Enabled(c, s, Take(0)); } else { assert Enabled(c, s, HandOff(0)); }
    case Processing(_, _) => assert Enabled(c, s, Process(0, true));
    case Testing(_, _) => assert Enabled(c, s, Test(0));
    case Stopped =>
  }

  /** Messages, errors and the interrupt come from outside the program. */
  predicate FromOutside(e: Event) {
    IsReceive(e) || e.Interrupt?
  }

  ghost predicate CanProceed(c: Config, s: State) {
    exists e :: !FromOutside(e) && Enabled(c, s, e)
  }

  /** Everybody waits for something from outside: no message is anywhere in the consumer. */
  ghost predicate Idle(s: State) {
    && s.signal.Listening? && s.feeder.Selecting? && s.queue == []
    && forall i :: 0 <= i < |s.workers| ==> s.workers[i].Ranging?
  }

  /** A message in a worker's hands, or a worker that may leave, keeps the consumer going, */
  lemma WorkerProceeds(c: Config, s: State, i: nat)
    requires i < |s.workers| && !s.workers[i].Stopped?
    requires s.workers[i].Ranging? ==> s.queue != [] || s.closed
    ensures CanProceed(c, s)
  {
    match s.workers[i]
    case Ranging => assert if s.queue == [] then Enabled(c, s, Leave(i)) else Enabled(c, s, Take(i));
    case Processing(_, _) => assert Enabled(c, s, Process(i, true));
    case Testing(_, _) => assert Enabled(c, s, Test(i));
  }

  /** and so does the feeder, except when it has nothing to do before the interrupt. */
  lemma FeederProceeds(c: Config, s: State)
    requires c.workers >= 1 && Reachable(Program(c), s)
    requires !s.feeder.Exited? && !(s.feeder.Selecting? && s.signal.Listening?)
    ensures CanProceed(c, s)
  {
    if s.feeder.Selecting? {
      assert Enabled(c, s, StopFeeding);
    } else if s.feeder.Returning? {
      assert Enabled(c, s, CloseQueue);
    } else if Enabled(c, s, Send) {
      assert !FromOutside(Send);
    } else {
      BlockedFeederLeavesWorker(c, s);
    }
  }

  /** No deadlock, running or shutting down: in a reachable state every goroutine waits for
      something from outside only when the consumer is idle or `Consume` has returned. */
  lemma NeverStuck(c: Config, s: State)
    requires c.workers >= 1 && Reachable(Program(c), s)
    ensures s.returned || Idle(s) <==> !CanProceed(c, s)
  {
    ReachableInv(c, s);
    if !s.returned && !Idle(s) {
      if s.feeder.Selecting? && s.signal.Listening? {
        if s.queue != [] {
          WorkerProceeds(c, s, 0);
        } else {
          var i :| 0 <= i < |s.workers| && !s.workers[i].Ranging?;
          WorkerProceeds(c, s, i);
        }
      } else if !s.feeder.Exited? {
        FeederProceeds(c, s);
      } else if s.signal.Cancelled? {
        assert Enabled(c, s, CloseDone);
      } else if AllStopped(s.workers) {
        assert Enabled(c, s, Return);
      } else {
        var i :| 0 <= i < |s.workers| && !s.workers[i].Stopped?;
        WorkerProceeds(c, s, i);
      }
    }
  }

  ghost function WorkerWork(w: Worker): nat {
    match w
    case Ranging => 1
    case Processing(_, _) => 3
    case Testing(_, _) => 2
    case Stopped => 0
  }

  /** Work left: queued messages, what each goroutine still has to do, and the return itself. */
  ghost function WorkLeft(s: State): nat {
    4 * |s.queue| + Sum(s.workers, WorkerWork)
    + (match s.feeder case Selecting => 2 case Sending(_) => 7 case Returning => 1 case Exited => 0)
    + (match s.signal case Listening => 2 case Cancelled => 1 case Finished => 0)
    + if s.returned then 0 else 1
  }

  ghost function Receives(es: seq<Event>): nat {
    Sum(es, (e: Event) => if IsReceive(e) then 1 else 0)
  }

  lemma WorkerStepDoesWork(c: Config, s: State, e: Event)
    requires Enabled(c, s, e) && IsWorkerEvent(e)
    ensures WorkLeft(Apply(c, s, e)) < WorkLeft(s)
  {
    match e
    case Take(i) => SumUpdate(s.workers, i, Processing(|s.taken|, s.queue[0]), WorkerWork);
    case HandOff(i) => SumUpdate(s.workers, i, Processing(|s.taken|, s.feeder.msg), WorkerWork);
    case Process(i, ok) => SumUpdate(s.workers, i, Testing(s.workers[i].ticket, ok), WorkerWork);
    case Test(i) => SumUpdate(s.workers, i, Ranging, WorkerWork);
    case Leave(i) => SumUpdate(s.workers, i, Stopped, WorkerWork);
  }

  lemma StepDoesWork(c: Config, s: State, e: Event)
    requires Closing(c, s) && Enabled(c, s, e)
    ensures WorkLeft(Apply(c, s, e)) < WorkLeft(s) + if IsReceive(e) then 6 else 0
  {
    if IsWorkerEvent(e) { WorkerStepDoesWork(c, s, e); }
  }

  /** Every run is paid for: besides the work left at its start, only what the feeder receives
      during the run allows further steps. */
  lemma {:induction false} RunsArePaidFor(c: Config, s: State, es: seq<Event>)
    requires Inv(c, s) && Exec(Program(c), s, es).Some?
    ensures |es| + WorkLeft(Exec(Program(c), s, es).value) <= WorkLeft(s) + 6 * Receives(es)
    decreases |es|
  {
    if es != [] {
      StepKeepsInv(c, s, es[0]);
      StepDoesWork(c, s, es[0]);
      RunsArePaidFor(c, Apply(c, s, es[0]), es[1..]);
    }
  }

  lemma {:induction false} NoReceivesAfterCancel(c: Config, s: State, es: seq<Event>)
    requires Inv(c, s) && Exec(Program(c), s, es).Some?
    requires s.feeder.Returning? || s.feeder.Exited?
    ensures Receives(es) == 0
    ensures !Exec(Program(c), s, es).value.feeder.Selecting?
    decreases |es|
  {
    if es != [] {
      StepKeepsInv(c, s, es[0]);
      NoReceivesAfterCancel(c, Apply(c, s, es[0]), es[1..]);
    }
  }

  /** Once the feeder has taken its cancel case every schedule, however unfair, is finite,
      and one that cannot be continued has brought `Consume` to its return. */
  lemma {:induction false} ShutdownIsInevitable(c: Config, s: State, es: seq<Event>, t: State)
    requires c.workers >= 1 && Reachable(Program(c), s)
    requires s.feeder.Returning? || s.feeder.Exited?
    requires Exec(Program(c), s, es) == Some(t)
    ensures |es| <= WorkLeft(s)
    ensures t.returned || CanProceed(c, t)
  {
    ReachableInv(c, s);
    NoReceivesAfterCancel(c, s, es);
    RunsArePaidFor(c, s, es);
    ReachableThen(Program(c), s, es, t);
    NeverStuck(c, t);
  }

  // ------------------------------------------------- order of processing

  /** The message finished at place p was taken at most N - 1 places later, and a worker that
      takes one leaves at most N - 1 earlier ones unfinished. */
  lemma BoundedReordering(c: Config, s: State)
    requires Reachable(Program(c), s)
    ensures forall p :: 0 <= p < |s.outcomes| ==> s.outcomes[p].ticket <= p + c.workers - 1
    ensures forall i: nat :: Enabled(c, s, Take(i)) || Enabled(c, s, HandOff(i)) ==>
              |s.taken| - |s.outcomes| <= c.workers - 1
  {
    ReachableInv(c, s);
    forall i: nat | Enabled(c, s, Take(i)) || Enabled(c, s, HandOff(i))
      ensures |s.taken| - |s.outcomes| <= c.workers - 1
    {
      SumUpdate(s.workers, i, Processing(0, Message(0, 0)), Busy);
      SumBound(s.workers[i := Processing(0, Message(0, 0))], Busy);
    }
  }

  /** What only a single worker keeps: it works in order, and reads back its own verdict. */
  ghost predicate Alone(s: State) {
    && |s.workers| == 1
    && (forall p :: 0 <= p < |s.outcomes| ==> s.outcomes[p].ticket == p)
    && (s.workers[0].Processing? ==> s.workers[0].ticket == |s.outcomes|)
    && (s.workers[0].Testing? ==> s.errIsNil == s.workers[0].stored)
    && LogIsRight(s)
  }

  ghost predicate LogIsRight(s: State) {
    forall l :: 0 <= l < |s.log| ==> s.log[l].logged == s.log[l].own
  }

  lemma WorkerStepKeepsAlone(c: Config, s: State, e: Event)
    requires Alone(s) && |s.taken| == |s.outcomes| + Busy(s.workers[0])
    requires Enabled(c, s, e) && IsWorkerEvent(e)
    ensures Alone(Apply(c, s, e))
  {
    match e
    case Take(_) =>
    case HandOff(_) =>
    case Process(_, _) =>
    case Test(_) =>
    case Leave(_) =>
  }

  lemma StepKeepsAlone(c: Config, s: State, e: Event)
    requires EachOnce(s) && Alone(s) && Enabled(c, s, e)
    ensures Alone(Apply(c, s, e))
  {
    assert Sum(s.workers, Busy) == Busy(s.workers[0]);
    if IsWorkerEvent(e) { WorkerStepKeepsAlone(c, s, e); }
  }

  lemma ReachableAlone(c: Config, s: State)
    requires c.workers == 1 && Reachable(Program(c), s)
    ensures Alone(s)
  {
    InitInv(c);
    forall t: State, e: Event | Inv(c, t) && Alone(t) && Enabled(c, t, e)
      ensures Inv(c, Apply(c, t, e)) && Alone(Apply(c, t, e))
    {
      StepKeepsInv(c, t, e);
      StepKeepsAlone(c, t, e);
    }
    ReachableKeeps(Program(c), t => Inv(c, t) && Alone(t), s);
  }

  /** With one worker messages are processed in the order in which they were received. */
  lemma SingleWorkerKeepsOrder(c: Config, s: State)
    requires c.workers == 1 && Reachable(Program(c), s)
    ensures |s.outcomes| <= |s.received|
    ensures forall p :: 0 <= p < |s.outcomes| ==> s.outcomes[p].msg == s.received[p]
    ensures LogIsRight(s)
  {
    ReachableInv(c, s);
    ReachableAlone(c, s);
    assert s.outcomes != [] ==> s.outcomes[|s.outcomes| - 1].ticket < |s.taken|;
  }

  // ------------------------------------------------- the shared `err`

  /** Two workers each hold a message, whatever the channel's capacity. */
  lemma TwoBusyWorkers(c: Config, m: Message) returns (s: State)
    requires c.workers >= 2
    ensures Reachable(Program(c), s) && |s.workers| == c.workers && s.log == []
    ensures s.workers[0] == Processing(0, m) && s.workers[1] == Processing(1, m)
  {
    s := Init(c);
    ReachableStart(Program(c));
    var n := 0;
    while n < 2
      invariant 0 <= n <= 2 && Reachable(Program(c), s) && |s.workers| == c.workers && s.log == []
      invariant !s.closed && s.queue == [] && s.feeder == Selecting && |s.taken| == n
      invariant forall i :: 0 <= i < n ==> s.workers[i] == Processing(i, m)
      invariant forall i :: n <= i < c.workers ==> s.workers[i] == Ranging
    {
      ReachableStep(Program(c), s, Receive(m));
      s := Apply(c, s, Receive(m));
      ReachableStep(Program(c), s, HandOff(n));
      s := Apply(c, s, HandOff(n));
      n := n + 1;
    }
  }

  /** Both assign the shared `err` before the first of them tests it. */
  lemma OverwrittenVerdict(c: Config) returns (s: State)
    requires c.workers >= 2
    ensures Reachable(Program(c), s) && s.log == [LogLine(0, true, false)]
  {
    s := TwoBusyWorkers(c, Message(0, 0));
    ReachableStep(Program(c), s, Process(0, true));
    s := Apply(c, s, Process(0, true));
    ReachableStep(Program(c), s, Process(1, false));
    s := Apply(c, s, Process(1, false));
    ReachableStep(Program(c), s, Test(0));
    s := Apply(c, s, Test(0));
  }

  /** Every logged verdict is the worker's own, in every run, exactly when there is one worker. */
  lemma LogTrustworthyIffSingleWorker(c: Config)
    requires c.workers >= 1
    ensures c.workers == 1 <==> forall s :: Reachable(Program(c), s) ==> LogIsRight(s)
  {
    if c.workers == 1 {
      forall s | Reachable(Program(c), s)
        ensures LogIsRight(s)
      {
        SingleWorkerKeepsOrder(c, s);
      }
    } else {
      var s := OverwrittenVerdict(c);
      assert s.log[0].logged != s.log[0].own;
      assert !LogIsRight(s);
    }
  }

  // ------------------------------------ the pool refines a sequential loop

  /** The messages stored, in the order in which their processing finished. */
  function StoredBy(os: seq<Outcome>): seq<Message> {
    if os == [] then []
    else (if os[0].stored then [os[0].msg] else []) + StoredBy(os[1..])
  }

  /** What one worker stores when it goes through the messages in order; `late` says of each
      message whether the context had been cancelled when its processing returned. */
  function SequentialLoop(ok: (Message, bool) -> bool, ms: seq<Message>, late: seq<bool>): seq<Message>
    requires |late| == |ms|
  {
    if ms == [] then []
    else (if ok(ms[0], late[0]) then [ms[0]] else []) + SequentialLoop(ok, ms[1..], late[1..])
  }

  /** A verdict depends only on the message and on whether the context had been cancelled. */
  ghost predicate Deterministic(ok: (Message, bool) -> bool, s: State) {
    forall p :: 0 <= p < |s.outcomes| ==> s.outcomes[p].stored == ok(s.outcomes[p].msg, s.outcomes[p].late)
  }

  ghost function StoresAs(m: Message): Outcome -> nat {
    (o: Outcome) => if o.stored && o.msg == m then 1 else 0
  }

  lemma {:induction false} StoredCounts(os: seq<Outcome>, m: Message)
    ensures multiset(StoredBy(os))[m] == Sum(os, StoresAs(m))
  {
    if os != [] {
      StoredCounts(os[1..], m);
    }
  }

  /** The loop's verdict on the message at position k. */
  ghost function PassesAt(ok: (Message, bool) -> bool, ms: seq<Message>, late: seq<bool>, m: Message): nat -> nat
    requires |late| == |ms|
  {
    (k: nat) => if k < |ms| && ok(ms[k], late[k]) && ms[k] == m then 1 else 0
  }

  lemma {:induction false} LoopCounts(ok: (Message, bool) -> bool, ms: seq<Message>, late: seq<bool>, m: Message)
    requires |late| == |ms|
    ensures multiset(SequentialLoop(ok, ms, late))[m] == Sum(Range(|ms|), PassesAt(ok, ms, late, m))
  {
    if ms != [] {
      LoopCounts(ok, ms[1..], late[1..], m);
      var f, g := PassesAt(ok, ms, late, m), PassesAt(ok, ms[1..], late[1..], m);
      SumShift(|ms|, f, g);
      var rest := SequentialLoop(ok, ms[1..], late[1..]);
      assert SequentialLoop(ok, ms, late) == (if ok(ms[0], late[0]) then [ms[0]] else []) + rest;
    }
  }

  ghost function TicketsOf(os: seq<Outcome>): (ks: seq<nat>)
    ensures |ks| == |os| && forall p :: 0 <= p < |os| ==> ks[p] == os[p].ticket
  {
    seq(|os|, p requires 0 <= p < |os| => os[p].ticket)
  }

  /** Sums over the outcomes of a run that has returned may be taken in the order received. */
  lemma InOrderReceived(c: Config, s: State, f: Outcome -> nat, g: nat -> nat)
    requires c.workers >= 1 && Reachable(Program(c), s) && s.returned
    requires forall p :: 0 <= p < |s.outcomes| ==> f(s.outcomes[p]) == g(s.outcomes[p].ticket)
    ensures Sum(s.outcomes, f) == Sum(Range(|s.received|), g)
  {
    Drained(c, s);
    ReachableInv(c, s);
    var ks := TicketsOf(s.outcomes);
    forall k: nat
      ensures Sum(ks, Is(k)) == if k < |s.received| then 1 else 0
    {
      SumPointwise(s.outcomes, ks, Reports(k), Is(k));
      SumZero(s.workers, Holds(k));
    }
    SumPointwise(s.outcomes, ks, f, g);
    SumOverTickets(ks, |s.received|, g);
  }

  ghost function IsLate(o: Outcome): nat {
    if o.late then 1 else 0
  }

  ghost function IsTrue(b: bool): nat {
    if b then 1 else 0
  }

  ghost function LateReports(k: nat): Outcome -> nat {
    (o: Outcome) => if o.ticket == k && o.late then 1 else 0
  }

  /** Which of the received messages were processed late, by position. */
  ghost function Lateness(s: State): (late: seq<bool>)
    ensures |late| == |s.received|
  {
    seq(|s.received|, k requires 0 <= k < |s.received| => Sum(s.outcomes, LateReports(k)) > 0)
  }

  lemma LatenessIsOfOutcome(c: Config, s: State, p: nat)
    requires c.workers >= 1 && Reachable(Program(c), s) && s.returned && p < |s.outcomes|
    ensures s.outcomes[p].ticket < |s.received| && Lateness(s)[s.outcomes[p].ticket] == s.outcomes[p].late
  {
    Drained(c, s);
    var k := s.outcomes[p].ticket;
    SumHas(s.outcomes, p, LateReports(k));
    if Lateness(s)[k] {
      var q := SumPositive(s.outcomes, LateReports(k));
      assert Sum(s.outcomes, Reports(k)) == 1;
      if p != q { SumHasBoth(s.outcomes, p, q, Reports(k)); }
    }
  }

  lemma PoolStoresEqually(c: Config, s: State, ok: (Message, bool) -> bool, m: Message)
    requires c.workers >= 1 && Reachable(Program(c), s) && s.returned && Deterministic(ok, s)
    ensures multiset(StoredBy(s.outcomes))[m] == multiset(SequentialLoop(ok, s.received, Lateness(s)))[m]
  {
    Drained(c, s);
    var g := PassesAt(ok, s.received, Lateness(s), m);
    forall p | 0 <= p < |s.outcomes|
      ensures StoresAs(m)(s.outcomes[p]) == g(s.outcomes[p].ticket)
    {
      LatenessIsOfOutcome(c, s, p);
    }
    InOrderReceived(c, s, StoresAs(m), g);
    StoredCounts(s.outcomes, m);
    LoopCounts(ok, s.received, Lateness(s), m);
  }

  /** The loop finds the context cancelled for as many messages as the pool did. */
  lemma LatenessCount(c: Config, s: State)
    requires c.workers >= 1 && Reachable(Program(c), s) && s.returned
    ensures Sum(Lateness(s), IsTrue) == Sum(s.outcomes, IsLate)
  {
    var late := Lateness(s);
    var g := (k: nat) => if k < |late| && late[k] then 1 else 0;
    forall p | 0 <= p < |s.outcomes|
      ensures IsLate(s.outcomes[p]) == g(s.outcomes[p].ticket)
    {
      LatenessIsOfOutcome(c, s, p);
    }
    InOrderReceived(c, s, IsLate, g);
    SumPointwise(Range(|late|), late, g, IsTrue);
  }

  /** After any N-worker run the stored messages are, as a multiset, those a one-worker loop
      stores from the same received sequence when it finds the context cancelled for the same
      messages. */
  lemma PoolRefinesSequentialLoop(c: Config, s: State, ok: (Message, bool) -> bool)
    requires c.workers >= 1 && Reachable(Program(c), s) && s.returned && Deterministic(ok, s)
    ensures multiset(StoredBy(s.outcomes)) == multiset(SequentialLoop(ok, s.received, Lateness(s)))
  {
    forall m: Message
      ensures multiset(StoredBy(s.outcomes))[m] == multiset(SequentialLoop(ok, s.received, Lateness(s)))[m]
    {
      PoolStoresEqually(c, s, ok, m);
    }
  }

  /** When cancellation makes no difference to verdicts, the loop never needs to know about it. */
  lemma {:induction false} CancellationIsImmaterial(ok: (Message, bool) -> bool, ms: seq<Message>,
                                                    late: seq<bool>, late': seq<bool>)
    requires |late| == |late'| == |ms| && forall m :: ok(m, true) == ok(m, false)
    ensures SequentialLoop(ok, ms, late) == SequentialLoop(ok, ms, late')
  {
    if ms != [] {
      assert forall b: bool :: ok(ms[0], b) == ok(ms[0], true);
      CancellationIsImmaterial(ok, ms[1..], late[1..], late'[1..]);
    }
  }

  // --------------------------------- how much is processed after the interrupt

  /** Until the interrupt nothing is late, and after it what was finished before stays as it was. */
  lemma NothingLateYet(c: Config, s: State)
    requires Reachable(Program(c), s) && s.signal.Listening?
    ensures Sum(s.outcomes, IsLate) == 0
  {
    ReachableKeeps(Program(c), (t: State) => t.signal.Listening? ==> Sum(t.outcomes, IsLate) == 0, s) by {
      forall t: State, e: Event | (t.signal.Listening? ==> Sum(t.outcomes, IsLate) == 0) && Enabled(c, t, e)
        ensures Apply(c, t, e).signal.Listening? ==> Sum(Apply(c, t, e).outcomes, IsLate) == 0
      {
        StepLate(c, t, e);
      }
    }
  }

  lemma StepLate(c: Config, s: State, e: Event)
    requires Enabled(c, s, e)
    ensures var t := Apply(c, s, e);
            && (s.signal.Listening? ==> Sum(t.outcomes, IsLate) == Sum(s.outcomes, IsLate))
            && (!s.signal.Listening? ==>
                  !t.signal.Listening?
                  && Sum(t.outcomes, IsLate) + |s.outcomes| == Sum(s.outcomes, IsLate) + |t.outcomes|)
            && |t.received| <= |s.received| + if IsReceive(e) then 1 else 0
  {
    if e.Process? {
      SumAppend(s.outcomes, Report(s.workers[e.i], e.stored, !s.signal.Listening?), IsLate);
    }
  }

  lemma {:induction false} RunLate(c: Config, s: State, es: seq<Event>)
    requires !s.signal.Listening? && Exec(Program(c), s, es).Some?
    ensures var t := Exec(Program(c), s, es).value;
            && Sum(t.outcomes, IsLate) + |s.outcomes| == Sum(s.outcomes, IsLate) + |t.outcomes|
            && |t.received| <= |s.received| + Receives(es)
    decreases |es|
  {
    if es != [] {
      StepLate(c, s, es[0]);
      RunLate(c, Apply(c, s, es[0]), es[1..]);
    }
  }

  /** The interrupt finds at most a full channel, one message in each worker and one in the
      feeder unfinished; besides these only what the feeder still receives afterwards is
      processed with a cancelled context. */
  lemma {:induction false} LateWorkIsBounded(c: Config, s: State, es: seq<Event>, t: State)
    requires c.workers >= 1 && Reachable(Program(c), s) && Enabled(c, s, Interrupt)
    requires Exec(Program(c), Apply(c, s, Interrupt), es) == Some(t)
    ensures |s.received| - |s.outcomes| <= c.capacity + c.workers + 1
    ensures t.returned ==> Sum(t.outcomes, IsLate) <= c.capacity + c.workers + 1 + Receives(es)
  {
    var u := Apply(c, s, Interrupt);
    FirstInFirstOut(c, s);
    ReachableInv(c, s);
    SumBound(s.workers, Busy);
    NothingLateYet(c, s);
    RunLate(c, u, es);
    ReachableStep(Program(c), s, Interrupt);
    ReachableThen(Program(c), u, es, t);
    if t.returned { Drained(c, t); }
  }

  // ------------------------------------------- the goroutines on shared fields

  lemma {:induction false} WhatConsumePromises(c: Config, es: seq<Event>, s: State)
    requires c.workers >= 1 && Exec(Program(c), Init(c), es) == Some(s)
    ensures s.received == ReceivedIn(es) && |s.outcomes| == |VerdictsIn(es)|
    ensures forall p :: 0 <= p < |s.outcomes| ==> s.outcomes[p].stored == VerdictsIn(es)[p].stored
    ensures s.returned <==> Return in es
    ensures s.returned ==> s.queue == [] && s.taken == ReceivedIn(es)
    ensures s.returned ==> forall k: nat :: k < |ReceivedIn(es)| ==> Sum(s.outcomes, Reports(k)) == 1
    ensures s.returned ==> forall p :: 0 <= p < |s.outcomes| ==>
              s.outcomes[p].ticket < |s.taken| && s.outcomes[p].msg == s.taken[s.outcomes[p].ticket]
  {
    RunIsRecorded(c, es, s);
    HistoryIsTheSchedules(c, es, s);
    if s.returned { DrainOnShutdown(c, es, s); }
  }

  /** The running consumer: every method is one atomic step of one goroutine on the channel and
      the fields they share; the last four fields only record what happened. */
  class Consumer {
    const config: Config
    const queue: Channel<Message>
    var panicked: bool
    var errIsNil: bool
    var feeder: Feeder
    var workers: seq<Worker>
    var signal: Signal
    var returned: bool
    var received: seq<Message>
    var taken: seq<Message>
    var outcomes: seq<Outcome>
    var log: seq<LogLine>

    ghost predicate Valid()
      reads this, queue
    {
      queue.Valid() && queue.slots.Length == config.capacity
    }

    /** The state of the step system that the fields stand for. */
    function View(): State
      requires Valid()
      reads this, queue, queue.slots
    {
      State(queue.Contents(), queue.closed, panicked, errIsNil, feeder, workers, signal, returned,
            received, taken, outcomes, log)
    }

    constructor (config: Config)
      ensures Valid() && this.config == config && View() == Init(config)
      ensures fresh(queue) && fresh(queue.slots)
    {
      this.config := config;
      queue := new Channel(config.capacity);
      panicked, errIsNil, feeder, workers := false, true, Selecting, seq(config.workers, _ => Ranging);
      signal, returned := Listening, false;
      received, taken, outcomes, log := [], [], [], [];
    }

    /** The feeder's select: a message, nothing, an error, or the cancelled context. */
    method FeederSelects(e: Event)
      requires Valid() && (IsReceive(e) || e.StopFeeding?) && Enabled(config, View(), e)
      modifies this
      ensures Valid() && View() == Apply(config, old(View()), e)
    {
      match e
      case Receive(msg) =>
        received := received + [msg];
        feeder := Sending(msg);
      case ReceiveNil =>
      case ReceiveError =>
      case StopFeeding => feeder := Returning;
    }

    /** The feeder on the channel: its send, and the deferred close. */
    method FeederStep(e: Event)
      requires Valid() && (e.Send? || e.CloseQueue?) && Enabled(config, View(), e)
      modifies this, queue, queue.slots
      ensures Valid() && View() == Apply(config, old(View()), e)
    {
      if e.Send? {
        var panics := queue.Send(feeder.msg);
        if panics { panicked := true; } else { feeder := Selecting; }
      } else {
        var panics := queue.Close();
        panicked := panicked || panics;
        feeder := Exited;
      }
    }

    /** A worker on the channel: it receives a message from it, or straight from the feeder, or
        finds it closed and drained. */
    method WorkerRanges(e: Event)
      requires Valid() && (e.Take? || e.HandOff? || e.Leave?) && Enabled(config, View(), e)
      modifies this, queue
      ensures Valid() && View() == Apply(config, old(View()), e)
    {
      match e
      case Take(i) =>
        var msg := queue.Receive();
        workers := workers[i := Processing(|taken|, msg)];
        taken := taken + [msg];
      case HandOff(i) =>
        workers := workers[i := Processing(|taken|, feeder.msg)];
        taken := taken + [feeder.msg];
        feeder := Selecting;
      case Leave(i) => workers := workers[i := Stopped];
    }

    /** A worker's call with its assignment of the shared `err`, and its test of it. */
    method WorkerStep(e: Event)
      requires Valid() && (e.Process? || e.Test?) && Enabled(config, View(), e)
      modifies this
      ensures Valid() && View() == Apply(config, old(View()), e)
    {
      match e
      case Process(i, stored) =>
        errIsNil := stored;
        outcomes := outcomes + [Report(workers[i], stored, !signal.Listening?)];
        workers := workers[i := Testing(workers[i].ticket, stored)];
      case Test(i) =>
        log := log + [LogLine(workers[i].ticket, workers[i].stored, errIsNil)];
        workers := workers[i := Ranging];
    }

    method MainStep(e: Event)
      requires Valid() && (e.Interrupt? || e.CloseDone? || e.Return?) && Enabled(config, View(), e)
      modifies this
      ensures Valid() && View() == Apply(config, old(View()), e)
    {
      match e
      case Interrupt => signal := Cancelled;
      case CloseDone => signal := Finished;
      case Return => returned := true;
    }

    method Fire(e: Event)
      requires Valid() && Enabled(config, View(), e)
      modifies this, queue, queue.slots
      ensures Valid() && View() == Apply(config, old(View()), e)
    {
      if IsReceive(e) || e.StopFeeding? {
        FeederSelects(e);
      } else if e.Send? || e.CloseQueue? {
        FeederStep(e);
      } else if e.Take? || e.HandOff? || e.Leave? {
        WorkerRanges(e);
      } else if e.Process? || e.Test? {
        WorkerStep(e);
      } else {
        MainStep(e);
      }
    }

    /** A whole run under any schedule, up to the first event that cannot happen. If it brings
        `Consume` to its return, everything received was taken and processed exactly once. */
    method Consume(schedule: seq<Event>) returns (fired: nat)
      requires Valid() && View() == Init(config) && config.workers >= 1
      modifies this, queue, queue.slots
      ensures Valid() && fired <= |schedule|
      ensures Exec(Program(config), Init(config), schedule[..fired]) == Some(View())
      ensures fired < |schedule| ==> !Enabled(config, View(), schedule[fired])
      ensures received == ReceivedIn(schedule[..fired]) && |outcomes| == |VerdictsIn(schedule[..fired])|
      ensures forall p :: 0 <= p < |outcomes| ==> outcomes[p].stored == VerdictsIn(schedule[..fired])[p].stored
      ensures returned <==> Return in schedule[..fired]
      ensures returned ==> queue.Contents() == [] && taken == ReceivedIn(schedule[..fired])
      ensures returned ==> forall k: nat :: k < |ReceivedIn(schedule[..fired])| ==> Sum(outcomes, Reports(k)) == 1
      ensures returned ==> forall p :: 0 <= p < |outcomes| ==>
                outcomes[p].ticket < |taken| && outcomes[p].msg == taken[outcomes[p].ticket]
    {
      fired := 0;
      while fired < |schedule| && Enabled(config, View(), schedule[fired])
        invariant 0 <= fired <= |schedule| && Valid()
        invariant Exec(Program(config), Init(config), schedule[..fired]) == Some(View())
      {
        var e := schedule[fired];
        ExecOneMore(Program(config), Init(config), schedule, fired, View());
        Fire(e);
        fired := fired + 1;
      }
      WhatConsumePromises(config, schedule[..fired], View());
    }
  }
}
