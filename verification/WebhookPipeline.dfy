/** The webhook server's hand-off to Kafka: request handlers start detached goroutines that
    offer a message to a bounded queue without blocking; two pools of workers, one per queue,
    pass messages to one shared asynchronous producer and each then read one result from its
    shared result channels; a signal goroutine stops the server and closes the queues. */
module WebhookPipeline {
  import opened Channels
  import opened Runs
  import opened Tally
  import opened Wrappers

  /** A message is the immutable value the handler built, identified by a number. */
  type Msg = nat

  datatype Source = GitHub | GitLab

  /** `producerRoom` bounds the messages the producer holds without their result being read. */
  datatype Config = Config(workers: nat, githubQueue: nat, gitlabQueue: nat, producerRoom: nat)

  /** A ticket is the position of a message in the order in which its source's workers took them. */
  datatype Worker = Ranging | Sending(ticket: nat, msg: Msg) | Waiting(msg: Msg) | Stopped

  /** A message given to the producer. */
  datatype Parcel = Parcel(ticket: nat, msg: Msg)

  /** One webhook source: its offers, its queue and its worker pool. */
  datatype Lane = Lane(
    queue: seq<Msg>,
    closed: bool,
    workers: seq<Worker>,
    accepted: multiset<Msg>,
    pending: multiset<Msg>,
    dropped: multiset<Msg>,
    entered: seq<Msg>,
    taken: seq<Msg>,
    sent: seq<Parcel>)

  /** How far the signal goroutine has come. */
  datatype Shutdown = Listening | Stopping | ServerStopped | GitHubClosed | BothClosed | Finished

  datatype State = State(
    github: Lane,
    gitlab: Lane,
    inFlight: multiset<Msg>,
    results: multiset<Msg>,
    read: multiset<Msg>,
    shutdown: Shutdown,
    returned: bool,
    panicked: bool)

  /** A step that touches one source's offers, queue or workers. */
  datatype LaneEvent =
    | Accept(m: Msg)
    | OfferSend(m: Msg)
    | OfferHandOff(m: Msg, i: nat)
    | OfferFull(m: Msg)
    | OfferDone(m: Msg)
    | Take(i: nat)
    | Input(i: nat)
    | Read(i: nat, m: Msg)
    | Leave(i: nat)

  datatype Event =
    | On(src: Source, step: LaneEvent)
    | Ack(m: Msg)
    | Signal
    | StopReturns
    | CloseGitHub
    | CloseGitLab
    | CloseDone
    | Return

  function LaneOf(s: State, src: Source): Lane {
    if src.GitHub? then s.github else s.gitlab
  }

  function Put(s: State, src: Source, l: Lane): State {
    if src.GitHub? then s.(github := l) else s.(gitlab := l)
  }

  function Room(c: Config, src: Source): nat {
    if src.GitHub? then c.githubQueue else c.gitlabQueue
  }

  function EmptyLane(workers: nat): Lane {
    Lane([], false, seq(workers, _ => Ranging), multiset{}, multiset{}, multiset{}, [], [], [])
  }

  function Init(c: Config): State {
    State(EmptyLane(c.workers), EmptyLane(c.workers), multiset{}, multiset{}, multiset{}, Listening, false, false)
  }

  predicate AllStopped(ws: seq<Worker>) {
    forall i :: 0 <= i < |ws| ==> ws[i].Stopped?
  }

  predicate At(l: Lane, i: nat, w: Worker) {
    i < |l.workers| && l.workers[i] == w
  }

  /** What a lane step needs of its lane, */
  predicate LaneReady(l: Lane, room: nat, e: LaneEvent) {
    match e
    case Accept(_) => true
    case OfferSend(m) => m in l.pending && (l.closed || |l.queue| < room)
    case OfferHandOff(m, i) => m in l.pending && !l.closed && l.queue == [] && At(l, i, Ranging)
    case OfferFull(m) => m in l.pending && !l.closed && |l.queue| >= room
    case OfferDone(m) => m in l.pending
    case Take(i) => At(l, i, Ranging) && l.queue != []
    case Input(i) => i < |l.workers| && l.workers[i].Sending?
    case Read(i, _) => i < |l.workers| && l.workers[i].Waiting?
    case Leave(i) => At(l, i, Ranging) && l.closed && l.queue == []
  }

  /** and of everything else: the phase of the shutdown, and the producer. */
  predicate Allowed(c: Config, s: State, e: LaneEvent) {
    match e
    case Accept(_) => s.shutdown.Listening? || s.shutdown.Stopping?
    case OfferFull(_) => s.shutdown.Listening?
    case OfferDone(_) => !s.shutdown.Listening?
    case Input(_) => |s.inFlight| + |s.results| < c.producerRoom
    case Read(_, m) => m in s.results
    case _ => true
  }

  predicate LaneEnabled(c: Config, s: State, l: Lane, room: nat, e: LaneEvent) {
    LaneReady(l, room, e) && Allowed(c, s, e)
  }

  predicate Enabled(c: Config, s: State, e: Event) {
    match e
    case On(src, step) => LaneEnabled(c, s, LaneOf(s, src), Room(c, src), step)
    case Ack(m) => m in s.inFlight
    case Signal => s.shutdown.Listening?
    case StopReturns => s.shutdown.Stopping?
    case CloseGitHub => s.shutdown.ServerStopped?
    case CloseGitLab => s.shutdown.GitHubClosed?
    case CloseDone => s.shutdown.BothClosed?
    case Return =>
      !s.returned && s.shutdown.Finished? && AllStopped(s.github.workers) && AllStopped(s.gitlab.workers)
  }

  function SetWorker(l: Lane, i: nat, w: Worker): Lane
    requires i < |l.workers|
  {
    l.(workers := l.workers[i := w])
  }

  /** What a lane step does to the lane; a send on the closed queue never gets that far. */
  function LaneApply(l: Lane, room: nat, e: LaneEvent): Lane
    requires LaneReady(l, room, e)
  {
    match e
    case Accept(m) => l.(accepted := l.accepted + multiset{m}, pending := l.pending + multiset{m})
    case OfferSend(m) =>
      if l.closed then l
      else l.(pending := l.pending - multiset{m}, queue := l.queue + [m], entered := l.entered + [m])
    case OfferHandOff(m, i) =>
      SetWorker(l, i, Sending(|l.taken|, m)).(pending := l.pending - multiset{m}, entered := l.entered + [m],
                                              taken := l.taken + [m])
    case OfferFull(m) => l.(pending := l.pending - multiset{m}, dropped := l.dropped + multiset{m})
    case OfferDone(m) => l.(pending := l.pending - multiset{m}, dropped := l.dropped + multiset{m})
    case Take(i) =>
      SetWorker(l, i, Sending(|l.taken|, l.queue[0])).(queue := l.queue[1..], taken := l.taken + [l.queue[0]])
    case Input(i) =>
      SetWorker(l, i, Waiting(l.workers[i].msg)).(sent := l.sent + [Parcel(l.workers[i].ticket, l.workers[i].msg)])
    case Read(i, m) => SetWorker(l, i, Ranging)
    case Leave(i) => SetWorker(l, i, Stopped)
  }

  /** What a lane step does outside its lane: to the producer, or to the process. */
  function Outside(s: State, l: Lane, room: nat, e: LaneEvent): State
    requires LaneReady(l, room, e)
  {
    match e
    case OfferSend(_) => s.(panicked := s.panicked || l.closed)
    case Input(i) => s.(inFlight := s.inFlight + multiset{l.workers[i].msg})
    case Read(_, m) => s.(results := s.results - multiset{m}, read := s.read + multiset{m})
    case _ => s
  }

  function Close(s: State, src: Source): State {
    Put(s, src, LaneOf(s, src).(closed := true)).(panicked := s.panicked || LaneOf(s, src).closed)
  }

  function Apply(c: Config, s: State, e: Event): State
    requires Enabled(c, s, e)
  {
    match e
    case On(src, step) =>
      var l := LaneOf(s, src);
      Put(Outside(s, l, Room(c, src), step), src, LaneApply(l, Room(c, src), step))
    case Ack(m) => s.(inFlight := s.inFlight - multiset{m}, results := s.results + multiset{m})
    case Signal => s.(shutdown := Stopping)
    case StopReturns => s.(shutdown := ServerStopped)
    case CloseGitHub => Close(s, GitHub).(shutdown := GitHubClosed)
    case CloseGitLab => Close(s, GitLab).(shutdown := BothClosed)
    case CloseDone => s.(shutdown := Finished)
    case Return => s.(returned := true)
  }

  /** The goroutines together, as a step system. */
  function Program(c: Config): System<State, Event> {
    System(Init(c), (s: State, e: Event) => if Enabled(c, s, e) then Some(Apply(c, s, e)) else None)
  }

  // ------------------------------------------ what each kind of step leaves alone

  /** The step of a lane, told apart into what it does to the lane and outside it. */
  ghost predicate Stepped(c: Config, s: State, src: Source, e: LaneEvent, t: State)
    requires LaneReady(LaneOf(s, src), Room(c, src), e)
  {
    var u, l := Outside(s, LaneOf(s, src), Room(c, src), e), LaneApply(LaneOf(s, src), Room(c, src), e);
    && t.inFlight == u.inFlight && t.results == u.results && t.read == u.read && t.panicked == u.panicked
    && t.shutdown == s.shutdown && t.returned == s.returned
    && LaneOf(t, src) == l && (src.GitHub? ==> t.gitlab == s.gitlab) && (src.GitLab? ==> t.github == s.github)
  }

  lemma OnSteps(c: Config, s: State, src: Source, e: LaneEvent)
    requires Enabled(c, s, On(src, e))
    ensures Stepped(c, s, src, e, Apply(c, s, On(src, e)))
  {
  }

  // ---------------------------------------------------------------- invariant

  ghost function Waits(w: Worker): nat {
    if w.Waiting? then 1 else 0
  }

  ghost function Carries(m: Msg): Worker -> nat {
    (w: Worker) => if w.Sending? && w.msg == m then 1 else 0
  }

  ghost function Contains(m: Msg): Parcel -> nat {
    (p: Parcel) => if p.msg == m then 1 else 0
  }

  /** Where the copies of message m of one lane are: offered or dropped, queued, in a worker, or sent. */
  ghost predicate Counts(l: Lane, m: Msg) {
    && l.accepted[m] == l.pending[m] + l.dropped[m] + Sum(l.entered, Is(m))
    && Sum(l.entered, Is(m)) == Sum(l.queue, Is(m)) + Sum(l.workers, Carries(m)) + Sum(l.sent, Contains(m))
  }

  ghost predicate LaneConserves(l: Lane) {
    forall m: Msg :: Counts(l, m)
  }

  ghost function Carrying(w: Worker): nat {
    if w.Sending? then 1 else 0
  }

  /** The same account by size. */
  ghost predicate LaneSizes(l: Lane) {
    && |l.accepted| == |l.pending| + |l.dropped| + |l.entered|
    && |l.entered| == |l.queue| + Sum(l.workers, Carrying) + |l.sent|
  }

  ghost predicate LaneControl(c: Config, l: Lane, room: nat) {
    && |l.workers| == c.workers
    && |l.queue| <= room
    && (forall i :: 0 <= i < |l.workers| && l.workers[i].Stopped? ==> l.closed && l.queue == [])
  }

  ghost function WaitingWorkers(s: State): nat {
    Sum(s.github.workers, Waits) + Sum(s.gitlab.workers, Waits)
  }

  /** Every copy of m given to the producer is in flight, answered, or its answer was read. */
  ghost predicate Settled(s: State, m: Msg) {
    Sum(s.github.sent, Contains(m)) + Sum(s.gitlab.sent, Contains(m)) == s.inFlight[m] + s.results[m] + s.read[m]
  }

  /** The counting invariant behind the shared result channels. */
  ghost predicate Shared(s: State) {
    && (forall m: Msg :: Settled(s, m))
    && |s.github.sent| + |s.gitlab.sent| == |s.inFlight| + |s.results| + |s.read|
    && |s.inFlight| + |s.results| == WaitingWorkers(s)
  }

  ghost predicate Phases(s: State) {
    && (s.github.closed <==> s.shutdown.GitHubClosed? || s.shutdown.BothClosed? || s.shutdown.Finished?)
    && (s.gitlab.closed <==> s.shutdown.BothClosed? || s.shutdown.Finished?)
    && (s.returned ==> s.shutdown.Finished? && AllStopped(s.github.workers) && AllStopped(s.gitlab.workers))
  }

  ghost predicate Inv(c: Config, s: State) {
    && LaneInv(c, s.github, c.githubQueue) && LaneInv(c, s.gitlab, c.gitlabQueue)
    && Shared(s)
    && Phases(s)
  }

  lemma {:induction false} InitInv(c: Config)
    ensures Inv(c, Init(c))
  {
    var ws := EmptyLane(c.workers).workers;
    SumZero(ws, Waits);
    SumZero(ws, Carrying);
    forall m: Msg
      ensures Sum(ws, Carries(m)) == 0 && Sum(ws, Holds(m)) == 0
    {
      SumZero(ws, Carries(m));
      SumZero(ws, Holds(m));
    }
  }

  /** A worker's step moves its message along; the lane accounts for every message as before. */
  lemma WorkerKeepsMessages(l: Lane, t: Lane, i: nat, w: Worker, m: Msg)
    requires i < |l.workers| && t.workers == l.workers[i := w]
    requires
      || (l.workers[i].Ranging? && l.queue != [] && w.Sending? && w.msg == l.queue[0]
          && t.queue == l.queue[1..] && t.sent == l.sent)
      || (l.workers[i].Sending? && w == Waiting(l.workers[i].msg)
          && t.queue == l.queue && t.sent == l.sent + [Parcel(l.workers[i].ticket, l.workers[i].msg)])
      || (!l.workers[i].Sending? && !w.Sending? && t.queue == l.queue && t.sent == l.sent)
    ensures Sum(t.queue, Is(m)) + Sum(t.workers, Carries(m)) + Sum(t.sent, Contains(m))
         == Sum(l.queue, Is(m)) + Sum(l.workers, Carries(m)) + Sum(l.sent, Contains(m))
  {
    if l.workers[i].Sending? { SumAppend(l.sent, Parcel(l.workers[i].ticket, l.workers[i].msg), Contains(m)); }
    SumUpdate(l.workers, i, w, Carries(m));
  }

  lemma OfferCounts(l: Lane, room: nat, e: LaneEvent, m: Msg)
    requires Counts(l, m) && LaneReady(l, room, e) && (e.OfferSend? || e.OfferHandOff?)
    ensures Counts(LaneApply(l, room, e), m)
  {
    SumAppend(l.entered, e.m, Is(m));
    SumAppend(l.queue, e.m, Is(m));
    if e.OfferHandOff? { SumUpdate(l.workers, e.i, Sending(|l.taken|, e.m), Carries(m)); }
  }

  lemma LaneStepCounts(l: Lane, room: nat, e: LaneEvent, m: Msg)
    requires Counts(l, m) && LaneReady(l, room, e)
    ensures Counts(LaneApply(l, room, e), m)
  {
    var t := LaneApply(l, room, e);
    match e
    case OfferSend(_) => OfferCounts(l, room, e, m);
    case OfferHandOff(_, _) => OfferCounts(l, room, e, m);
    case Take(i) => WorkerKeepsMessages(l, t, i, Sending(|l.taken|, l.queue[0]), m);
    case Input(i) => WorkerKeepsMessages(l, t, i, Waiting(l.workers[i].msg), m);
    case Read(i, _) => WorkerKeepsMessages(l, t, i, Ranging, m);
    case Leave(i) => WorkerKeepsMessages(l, t, i, Stopped, m);
    case _ =>
  }

  lemma LaneStepConserves(l: Lane, room: nat, e: LaneEvent)
    requires LaneConserves(l) && LaneReady(l, room, e)
    ensures LaneConserves(LaneApply(l, room, e))
  {
    forall m: Msg
      ensures Counts(LaneApply(l, room, e), m)
    {
      LaneStepCounts(l, room, e, m);
    }
  }

  lemma WorkStepSizes(l: Lane, room: nat, e: LaneEvent)
    requires LaneSizes(l) && LaneReady(l, room, e) && (e.Take? || e.Input? || e.Read? || e.Leave?)
    ensures LaneSizes(LaneApply(l, room, e))
  {
    match e
    case Take(i) => SumUpdate(l.workers, i, Sending(|l.taken|, l.queue[0]), Carrying);
    case Input(i) => SumUpdate(l.workers, i, Waiting(l.workers[i].msg), Carrying);
    case Read(i, m) => SumUpdate(l.workers, i, Ranging, Carrying);
    case Leave(i) => SumUpdate(l.workers, i, Stopped, Carrying);
  }

  lemma LaneStepSizes(l: Lane, room: nat, e: LaneEvent)
    requires LaneSizes(l) && LaneReady(l, room, e)
    ensures LaneSizes(LaneApply(l, room, e))
  {
    if e.Take? || e.Input? || e.Read? || e.Leave? {
      WorkStepSizes(l, room, e);
    } else if e.OfferHandOff? {
      SumUpdate(l.workers, e.i, Sending(|l.taken|, e.m), Carrying);
    }
  }

  // ------------------------------------------- the order within one source

  ghost function Holds(k: nat): Worker -> nat {
    (w: Worker) => if w.Sending? && w.ticket == k then 1 else 0
  }

  ghost function Passed(k: nat): Parcel -> nat {
    (p: Parcel) => if p.ticket == k then 1 else 0
  }

  /** Every ticket given out is held by one worker or was passed to the producer, never both. */
  ghost predicate EachOnce(l: Lane) {
    && (forall k: nat :: Sum(l.workers, Holds(k)) + Sum(l.sent, Passed(k)) == if k < |l.taken| then 1 else 0)
    && Sum(l.workers, Carrying) + |l.sent| == |l.taken|
  }

  ghost predicate Labelled(l: Lane) {
    && (forall i :: 0 <= i < |l.workers| && l.workers[i].Sending? ==>
          l.workers[i].ticket < |l.taken| && l.workers[i].msg == l.taken[l.workers[i].ticket])
    && (forall p :: 0 <= p < |l.sent| ==>
          l.sent[p].ticket < |l.taken| && l.sent[p].msg == l.taken[l.sent[p].ticket])
  }

  ghost predicate Ordered(c: Config, l: Lane) {
    && l.entered == l.taken + l.queue && EachOnce(l) && Labelled(l)
    && forall p :: 0 <= p < |l.sent| ==> l.sent[p].ticket < p + c.workers
  }

  lemma TakingKeepsEachOnce(l: Lane, t: Lane, i: nat, m: Msg)
    requires EachOnce(l) && i < |l.workers| && l.workers[i].Ranging?
    requires t.workers == l.workers[i := Sending(|l.taken|, m)] && t.taken == l.taken + [m] && t.sent == l.sent
    ensures EachOnce(t)
  {
    forall k: nat
      ensures Sum(t.workers, Holds(k)) == Sum(l.workers, Holds(k)) + if k == |l.taken| then 1 else 0
    {
      SumUpdate(l.workers, i, Sending(|l.taken|, m), Holds(k));
    }
    SumUpdate(l.workers, i, Sending(|l.taken|, m), Carrying);
  }

  lemma PassingKeepsEachOnce(l: Lane, t: Lane, i: nat)
    requires EachOnce(l) && i < |l.workers| && l.workers[i].Sending?
    requires t.workers == l.workers[i := Waiting(l.workers[i].msg)] && t.taken == l.taken
    requires t.sent == l.sent + [Parcel(l.workers[i].ticket, l.workers[i].msg)]
    ensures EachOnce(t)
  {
    forall k: nat
      ensures Sum(t.workers, Holds(k)) + Sum(t.sent, Passed(k)) == Sum(l.workers, Holds(k)) + Sum(l.sent, Passed(k))
    {
      SumUpdate(l.workers, i, Waiting(l.workers[i].msg), Holds(k));
      SumAppend(l.sent, Parcel(l.workers[i].ticket, l.workers[i].msg), Passed(k));
    }
    SumUpdate(l.workers, i, Waiting(l.workers[i].msg), Carrying);
  }

  lemma IdlingKeepsEachOnce(l: Lane, t: Lane, i: nat, w: Worker)
    requires EachOnce(l) && i < |l.workers| && !l.workers[i].Sending? && !w.Sending?
    requires t.workers == l.workers[i := w] && t.taken == l.taken && t.sent == l.sent
    ensures EachOnce(t)
  {
    forall k: nat
      ensures Sum(t.workers, Holds(k)) == Sum(l.workers, Holds(k))
    {
      SumUpdate(l.workers, i, w, Holds(k));
    }
    SumUpdate(l.workers, i, w, Carrying);
  }

  lemma LaneStepKeepsEachOnce(l: Lane, room: nat, e: LaneEvent)
    requires EachOnce(l) && LaneReady(l, room, e)
    ensures EachOnce(LaneApply(l, room, e))
  {
    var t := LaneApply(l, room, e);
    match e
    case OfferHandOff(m, i) => TakingKeepsEachOnce(l, t, i, m);
    case Take(i) => TakingKeepsEachOnce(l, t, i, l.queue[0]);
    case Input(i) => PassingKeepsEachOnce(l, t, i);
    case Read(i, _) => IdlingKeepsEachOnce(l, t, i, Ranging);
    case Leave(i) => IdlingKeepsEachOnce(l, t, i, Stopped);
    case _ =>
  }

  lemma LaneStepKeepsLag(c: Config, l: Lane, room: nat, e: LaneEvent)
    requires Ordered(c, l) && |l.workers| == c.workers && LaneReady(l, room, e)
    ensures var t := LaneApply(l, room, e);
            && t.entered == t.taken + t.queue
            && forall p :: 0 <= p < |t.sent| ==> t.sent[p].ticket < p + c.workers
  {
    SumBound(l.workers, Carrying);
  }

  lemma LaneStepKeepsOrder(c: Config, l: Lane, room: nat, e: LaneEvent)
    requires Ordered(c, l) && |l.workers| == c.workers && LaneReady(l, room, e)
    ensures Ordered(c, LaneApply(l, room, e))
  {
    LaneStepKeepsEachOnce(l, room, e);
    LaneStepKeepsLag(c, l, room, e);
  }

  // -------------------------------------------------- every step keeps the rest

  /** A lane step changes the number of waiting workers exactly with the producer's traffic. */
  lemma LaneStepWaits(l: Lane, room: nat, e: LaneEvent)
    requires LaneReady(l, room, e)
    ensures Sum(LaneApply(l, room, e).workers, Waits) + (if e.Read? then 1 else 0)
         == Sum(l.workers, Waits) + if e.Input? then 1 else 0
  {
    match e
    case OfferHandOff(m, i) => SumUpdate(l.workers, i, Sending(|l.taken|, m), Waits);
    case Take(i) => SumUpdate(l.workers, i, Sending(|l.taken|, l.queue[0]), Waits);
    case Input(i) => SumUpdate(l.workers, i, Waiting(l.workers[i].msg), Waits);
    case Read(i, m) => SumUpdate(l.workers, i, Ranging, Waits);
    case Leave(i) => SumUpdate(l.workers, i, Stopped, Waits);
    case _ =>
  }

  /** What holds of each lane by itself. */
  ghost predicate LaneInv(c: Config, l: Lane, room: nat) {
    LaneConserves(l) && LaneSizes(l) && Ordered(c, l) && LaneControl(c, l, room)
  }

  lemma LaneStepKeepsInv(c: Config, l: Lane, room: nat, e: LaneEvent)
    requires LaneInv(c, l, room) && LaneReady(l, room, e)
    ensures LaneInv(c, LaneApply(l, room, e), room)
  {
    LaneStepConserves(l, room, e);
    LaneStepSizes(l, room, e);
    LaneStepKeepsOrder(c, l, room, e);
  }

  lemma ClosingKeepsInv(c: Config, l: Lane, t: Lane, room: nat)
    requires LaneInv(c, l, room) && t == l.(closed := t.closed) && (l.closed ==> t.closed)
    ensures LaneInv(c, t, room)
  {
    forall m: Msg
      ensures Counts(t, m)
    {
      assert Counts(l, m);
    }
  }

  lemma ClosingIsFinal(c: Config, s: State, e: Event)
    requires Enabled(c, s, e) && !e.On?
    ensures s.github.closed ==> Apply(c, s, e).github.closed
    ensures s.gitlab.closed ==> Apply(c, s, e).gitlab.closed
  {
  }

  lemma StepKeepsLanes(c: Config, s: State, e: Event)
    requires LaneInv(c, s.github, c.githubQueue) && LaneInv(c, s.gitlab, c.gitlabQueue) && Enabled(c, s, e)
    ensures var t := Apply(c, s, e); LaneInv(c, t.github, c.githubQueue) && LaneInv(c, t.gitlab, c.gitlabQueue)
  {
    if e.On? {
      OnSteps(c, s, e.src, e.step);
      LaneStepKeepsInv(c, LaneOf(s, e.src), Room(c, e.src), e.step);
    } else {
      ClosingIsFinal(c, s, e);
      ClosingKeepsInv(c, s.github, Apply(c, s, e).github, c.githubQueue);
      ClosingKeepsInv(c, s.gitlab, Apply(c, s, e).gitlab, c.gitlabQueue);
    }
  }

  lemma LaneStepFrame(l: Lane, room: nat, e: LaneEvent)
    requires LaneReady(l, room, e)
    ensures LaneApply(l, room, e).closed == l.closed
    ensures AllStopped(l.workers) ==> AllStopped(LaneApply(l, room, e).workers)
  {
  }

  lemma {:induction false} StepKeepsPhases(c: Config, s: State, e: Event)
    requires Phases(s) && Enabled(c, s, e)
    ensures Phases(Apply(c, s, e))
  {
    if e.On? {
      OnSteps(c, s, e.src, e.step);
      LaneStepFrame(LaneOf(s, e.src), Room(c, e.src), e.step);
    }
  }

  /** The copies of m a lane step gives to the producer. */
  ghost function Given(l: Lane, e: LaneEvent, m: Msg): nat {
    if e.Input? && e.i < |l.workers| && l.workers[e.i].Sending? && l.workers[e.i].msg == m then 1 else 0
  }

  lemma LaneStepTraffic(s: State, l: Lane, room: nat, e: LaneEvent, m: Msg)
    requires LaneReady(l, room, e) && (e.Read? ==> e.m in s.results)
    ensures Sum(LaneApply(l, room, e).sent, Contains(m)) == Sum(l.sent, Contains(m)) + Given(l, e, m)
    ensures var t := Outside(s, l, room, e);
            t.inFlight[m] + t.results[m] + t.read[m] == s.inFlight[m] + s.results[m] + s.read[m] + Given(l, e, m)
  {
    if e.Input? { SumAppend(l.sent, Parcel(l.workers[e.i].ticket, l.workers[e.i].msg), Contains(m)); }
  }

  lemma LaneStepHeld(s: State, l: Lane, room: nat, e: LaneEvent)
    requires LaneReady(l, room, e) && (e.Read? ==> e.m in s.results)
    ensures |LaneApply(l, room, e).sent| == |l.sent| + if e.Input? then 1 else 0
    ensures var t := Outside(s, l, room, e);
            && t.github == s.github && t.gitlab == s.gitlab
            && |t.read| == |s.read| + (if e.Read? then 1 else 0)
            && |t.inFlight| + |t.results| + (if e.Read? then 1 else 0)
               == |s.inFlight| + |s.results| + if e.Input? then 1 else 0
  {
  }

  /** A lane step that gives `given` to the producer, in all `gives` messages, and reads `answers` results. */
  lemma {:induction false} PutKeepsShared(s: State, u: State, src: Source, l: Lane, given: Msg -> nat,
                                          gives: nat, answers: nat)
    requires Shared(s) && u.github == s.github && u.gitlab == s.gitlab
    requires forall m: Msg :: Sum(l.sent, Contains(m)) == Sum(LaneOf(s, src).sent, Contains(m)) + given(m)
    requires forall m: Msg ::
               u.inFlight[m] + u.results[m] + u.read[m] == s.inFlight[m] + s.results[m] + s.read[m] + given(m)
    requires |l.sent| == |LaneOf(s, src).sent| + gives && |u.read| == |s.read| + answers
    requires |u.inFlight| + |u.results| + answers == |s.inFlight| + |s.results| + gives
    requires Sum(l.workers, Waits) + answers == Sum(LaneOf(s, src).workers, Waits) + gives
    ensures Shared(Put(u, src, l))
  {
    forall m: Msg
      ensures Settled(Put(u, src, l), m)
    {
      assert Settled(s, m);
    }
  }

  lemma OnKeepsShared(c: Config, s: State, src: Source, step: LaneEvent)
    requires Inv(c, s) && Enabled(c, s, On(src, step))
    ensures Shared(Apply(c, s, On(src, step)))
  {
    var l, room := LaneOf(s, src), Room(c, src);
    var given := (m: Msg) => Given(l, step, m);
    var gives, answers := if step.Input? then 1 else 0, if step.Read? then 1 else 0;
    LaneStepWaits(l, room, step);
    LaneStepHeld(s, l, room, step);
    forall m: Msg
      ensures Sum(LaneApply(l, room, step).sent, Contains(m)) == Sum(l.sent, Contains(m)) + given(m)
      ensures var t := Outside(s, l, room, step);
              t.inFlight[m] + t.results[m] + t.read[m] == s.inFlight[m] + s.results[m] + s.read[m] + given(m)
    {
      LaneStepTraffic(s, l, room, step, m);
    }
    PutKeepsShared(s, Outside(s, l, room, step), src, LaneApply(l, room, step), given, gives, answers);
  }

  lemma {:induction false} StepKeepsShared(c: Config, s: State, e: Event)
    requires Inv(c, s) && Enabled(c, s, e)
    ensures Shared(Apply(c, s, e))
  {
    if e.On? {
      OnKeepsShared(c, s, e.src, e.step);
    } else {
      var t := Apply(c, s, e);
      forall m: Msg
        ensures Settled(t, m)
      {
        assert Settled(s, m);
      }
    }
  }

  lemma StepKeepsInv(c: Config, s: State, e: Event)
    requires Inv(c, s) && Enabled(c, s, e)
    ensures Inv(c, Apply(c, s, e))
  {
    StepKeepsLanes(c, s, e);
    StepKeepsPhases(c, s, e);
    StepKeepsShared(c, s, e);
  }

  lemma {:induction false} InvIsKept(c: Config)
    ensures Kept(Program(c), s => Inv(c, s))
  {
    forall s: State, e: Event | Inv(c, s) && Enabled(c, s, e)
      ensures Inv(c, Apply(c, s, e))
    {
      StepKeepsInv(c, s, e);
    }
  }

  lemma ReachableInv(c: Config, s: State)
    requires Reachable(Program(c), s)
    ensures Inv(c, s)
  {
    InitInv(c);
    InvIsKept(c);
    ReachableKeeps(Program(c), s => Inv(c, s), s);
  }

  // ------------------------------------------- what a run says of its schedule

  /** The messages of the requests that a schedule has a source accept. */
  function AcceptedIn(es: seq<Event>, src: Source): multiset<Msg> {
    if es == [] then multiset{}
    else
      var e := es[|es| - 1];
      AcceptedIn(es[..|es| - 1], src)
      + if e.On? && e.src == src && e.step.Accept? then multiset{e.step.m} else multiset{}
  }

  /** The messages whose offers a schedule has fail. */
  function DroppedIn(es: seq<Event>, src: Source): multiset<Msg> {
    if es == [] then multiset{}
    else
      var e := es[|es| - 1];
      DroppedIn(es[..|es| - 1], src)
      + if e.On? && e.src == src && (e.step.OfferFull? || e.step.OfferDone?) then multiset{e.step.m} else multiset{}
  }

  /** The messages whose offers a schedule has succeed, in order. */
  function EnteredIn(es: seq<Event>, src: Source): seq<Msg> {
    if es == [] then []
    else
      var e := es[|es| - 1];
      EnteredIn(es[..|es| - 1], src)
      + if e.On? && e.src == src && (e.step.OfferSend? || e.step.OfferHandOff?) then [e.step.m] else []
  }

  /** The results that a schedule has workers read. */
  function ReadIn(es: seq<Event>): multiset<Msg> {
    if es == [] then multiset{}
    else
      var e := es[|es| - 1];
      ReadIn(es[..|es| - 1]) + if e.On? && e.step.Read? then multiset{e.step.m} else multiset{}
  }

  /** The results that a schedule has the producer answer. */
  function AckedIn(es: seq<Event>): multiset<Msg> {
    if es == [] then multiset{}
    else
      var e := es[|es| - 1];
      AckedIn(es[..|es| - 1]) + if e.Ack? then multiset{e.m} else multiset{}
  }

  function CloseOf(src: Source): Event {
    if src.GitHub? then CloseGitHub else CloseGitLab
  }

  /** A schedule that sends on a queue after it has closed it. */
  ghost predicate SendsAfterClose(es: seq<Event>) {
    exists k, n :: 0 <= k < n < |es| && es[n].On? && es[n].step.OfferSend? && es[k] == CloseOf(es[n].src)
  }

  ghost predicate RecordsLane(es: seq<Event>, src: Source, s: State) {
    var l := LaneOf(s, src);
    && l.accepted == AcceptedIn(es, src) && l.dropped == DroppedIn(es, src)
    && (!s.panicked ==> l.entered == EnteredIn(es, src))
  }

  ghost predicate RecordsProducer(es: seq<Event>, s: State) {
    s.read == ReadIn(es) && s.results + s.read == AckedIn(es)
  }

  ghost predicate RecordsSignals(es: seq<Event>, s: State) {
    && (s.shutdown.Listening? <==> Signal !in es) && (PastServing(s) <==> StopReturns in es)
    && (s.github.closed <==> CloseGitHub in es) && (s.gitlab.closed <==> CloseGitLab in es)
    && (s.shutdown.Finished? <==> CloseDone in es) && (s.returned <==> Return in es)
  }

  /** What one lane step adds to the lane's records. */
  lemma LaneAdds(l: Lane, room: nat, e: LaneEvent)
    requires LaneReady(l, room, e)
    ensures var t := LaneApply(l, room, e);
            && t.closed == l.closed
            && t.accepted == l.accepted + (if e.Accept? then multiset{e.m} else multiset{})
            && t.dropped == l.dropped + (if e.OfferFull? || e.OfferDone? then multiset{e.m} else multiset{})
            && t.entered == l.entered + if (e.OfferSend? && !l.closed) || e.OfferHandOff? then [e.m] else []
  {
  }

  lemma {:induction false} OwnStepRecordsLane(es: seq<Event>, src: Source, l: Lane, room: nat, e: LaneEvent)
    requires LaneReady(l, room, e) && l.accepted == AcceptedIn(es, src) && l.dropped == DroppedIn(es, src)
    ensures var t, all := LaneApply(l, room, e), es + [On(src, e)];
            && t.accepted == AcceptedIn(all, src) && t.dropped == DroppedIn(all, src)
            && (l.entered == EnteredIn(es, src) && !(e.OfferSend? && l.closed) ==> t.entered == EnteredIn(all, src))
  {
    OneMoreEvent(es, On(src, e));
    LaneAdds(l, room, e);
  }

  lemma {:induction false} OtherStepRecordsLane(es: seq<Event>, src: Source, e: Event)
    requires !(e.On? && e.src == src)
    ensures AcceptedIn(es + [e], src) == AcceptedIn(es, src) && DroppedIn(es + [e], src) == DroppedIn(es, src)
    ensures EnteredIn(es + [e], src) == EnteredIn(es, src)
  {
    OneMoreEvent(es, e);
  }

  lemma {:induction false} OnRecordsLane(c: Config, es: seq<Event>, s: State, on: Source, e: LaneEvent, src: Source,
                                         t: State)
    requires LaneReady(LaneOf(s, on), Room(c, on), e) && Stepped(c, s, on, e, t) && RecordsLane(es, src, s)
    ensures RecordsLane(es + [On(on, e)], src, t)
  {
    if on == src {
      OwnStepRecordsLane(es, src, LaneOf(s, src), Room(c, src), e);
    } else {
      OtherStepRecordsLane(es, src, On(on, e));
    }
  }

  lemma {:induction false} GlobalRecordsLane(c: Config, es: seq<Event>, s: State, e: Event, src: Source)
    requires Phases(s) && RecordsLane(es, src, s) && Enabled(c, s, e) && !e.On?
    ensures RecordsLane(es + [e], src, Apply(c, s, e))
  {
    OtherStepRecordsLane(es, src, e);
    PanicsIff(c, s, e);
  }

  lemma {:induction false} OnRecordsProducer(c: Config, es: seq<Event>, s: State, on: Source, e: LaneEvent, t: State)
    requires LaneReady(LaneOf(s, on), Room(c, on), e) && Stepped(c, s, on, e, t) && RecordsProducer(es, s)
    requires e.Read? ==> e.m in s.results
    ensures RecordsProducer(es + [On(on, e)], t)
  {
    OneMoreEvent(es, On(on, e));
  }

  lemma {:induction false} GlobalRecordsProducer(c: Config, es: seq<Event>, s: State, e: Event)
    requires RecordsProducer(es, s) && Enabled(c, s, e) && !e.On?
    ensures RecordsProducer(es + [e], Apply(c, s, e))
  {
    OneMoreEvent(es, e);
  }

  lemma {:induction false} OnRecordsSignals(c: Config, es: seq<Event>, s: State, on: Source, e: LaneEvent, t: State)
    requires LaneReady(LaneOf(s, on), Room(c, on), e) && Stepped(c, s, on, e, t) && RecordsSignals(es, s)
    ensures RecordsSignals(es + [On(on, e)], t)
  {
    OneMoreEvent(es, On(on, e));
    LaneAdds(LaneOf(s, on), Room(c, on), e);
  }

  lemma {:induction false} GlobalRecordsSignals(c: Config, es: seq<Event>, s: State, e: Event)
    requires Phases(s) && RecordsSignals(es, s) && Enabled(c, s, e) && !e.On?
    ensures RecordsSignals(es + [e], Apply(c, s, e))
  {
    OneMoreEvent(es, e);
  }

  /** A step panics exactly when it makes the schedule one that sends after a close. */
  lemma {:induction false} StepRecordsPanic(c: Config, es: seq<Event>, s: State, e: Event)
    requires Phases(s) && RecordsSignals(es, s) && (s.panicked <==> SendsAfterClose(es)) && Enabled(c, s, e)
    ensures Apply(c, s, e).panicked <==> SendsAfterClose(es + [e])
  {
    var all := es + [e];
    OneMoreEvent(es, e);
    if SendsAfterClose(es) {
      var k, n :| 0 <= k < n < |es| && es[n].On? && es[n].step.OfferSend? && es[k] == CloseOf(es[n].src);
      assert all[n] == es[n] && all[k] == es[k];
    }
    if SendsAfterClose(all) && !SendsAfterClose(es) {
      var k, n :| 0 <= k < n < |all| && all[n].On? && all[n].step.OfferSend? && all[k] == CloseOf(all[n].src);
      assert n == |es| && es[k] == CloseOf(e.src);
    }
    PanicsIff(c, s, e);
    if e.On? && e.step.OfferSend? && LaneOf(s, e.src).closed {
      assert CloseOf(e.src) in es;
      var k :| 0 <= k < |es| && es[k] == CloseOf(e.src);
      assert all[|es|] == e && all[k] == CloseOf(e.src);
    }
  }

  lemma PanicsIff(c: Config, s: State, e: Event)
    requires Phases(s) && Enabled(c, s, e)
    ensures Apply(c, s, e).panicked <==> s.panicked || (e.On? && e.step.OfferSend? && LaneOf(s, e.src).closed)
  {
    if e.On? {
      OnSteps(c, s, e.src, e.step);
    }
  }

  ghost predicate Recorded(c: Config, es: seq<Event>, s: State) {
    && Inv(c, s) && RecordsLane(es, GitHub, s) && RecordsLane(es, GitLab, s)
    && RecordsProducer(es, s) && RecordsSignals(es, s) && (s.panicked <==> SendsAfterClose(es))
  }

  lemma {:induction false} StepRecorded(c: Config, es: seq<Event>, s: State, e: Event)
    requires Recorded(c, es, s) && Enabled(c, s, e)
    ensures Recorded(c, es + [e], Apply(c, s, e))
  {
    var t := Apply(c, s, e);
    StepKeepsInv(c, s, e);
    StepRecordsPanic(c, es, s, e);
    if e.On? {
      OnSteps(c, s, e.src, e.step);
      OnRecordsLane(c, es, s, e.src, e.step, GitHub, t);
      OnRecordsLane(c, es, s, e.src, e.step, GitLab, t);
      OnRecordsProducer(c, es, s, e.src, e.step, t);
      OnRecordsSignals(c, es, s, e.src, e.step, t);
    } else {
      GlobalRecordsLane(c, es, s, e, GitHub);
      GlobalRecordsLane(c, es, s, e, GitLab);
      GlobalRecordsProducer(c, es, s, e);
      GlobalRecordsSignals(c, es, s, e);
    }
  }

  lemma {:induction false} RunIsRecorded(c: Config, es: seq<Event>, s: State)
    requires Exec(Program(c), Init(c), es) == Some(s)
    ensures Recorded(c, es, s)
  {
    InitInv(c);
    assert Recorded(c, [], Init(c));
    forall es, s, e | Recorded(c, es, s) && Enabled(c, s, e)
      ensures Recorded(c, es + [e], Apply(c, s, e))
    {
      StepRecorded(c, es, s, e);
    }
    RunRecords(Program(c), (es, s) => Recorded(c, es, s), es, s);
  }

  /** Each source's account is that of its own requests in the schedule: what it accepted, what it
      dropped, and, in order, what entered its queue; the results read and answered are the
      schedule's; a run panics exactly when it sends on a queue after its close; and the server stops,
      closes the GitHub queue, then the GitLab queue, and returns, in this order. */
  lemma {:induction false} HistoryIsTheSchedules(c: Config, es: seq<Event>, s: State, src: Source)
    requires Exec(Program(c), Init(c), es) == Some(s)
    ensures LaneOf(s, src).accepted == AcceptedIn(es, src) && LaneOf(s, src).dropped == DroppedIn(es, src)
    ensures !s.panicked ==> LaneOf(s, src).entered == EnteredIn(es, src)
    ensures s.read == ReadIn(es) && s.results + s.read == AckedIn(es)
    ensures s.panicked <==>
            exists k, n :: 0 <= k < n < |es| && es[n].On? && es[n].step.OfferSend? && es[k] == CloseOf(es[n].src)
    ensures s.returned <==> Return in es
    ensures Return in es ==> CloseDone in es
    ensures CloseDone in es ==> CloseGitLab in es
    ensures CloseGitLab in es ==> CloseGitHub in es
    ensures CloseGitHub in es ==> StopReturns in es
    ensures StopReturns in es ==> Signal in es
  {
    RunIsRecorded(c, es, s);
  }

  lemma AcceptIsEnabled(c: Config, s: State, src: Source, m: Msg)
    ensures Enabled(c, s, On(src, Accept(m))) <==> !PastServing(s)
  {
  }

  /** No request is refused for what goes on behind the handlers: until `Stop` has returned, and not
      after it, any request can be accepted. */
  lemma {:induction false} AcceptsUntilStopped(c: Config, es: seq<Event>, s: State, src: Source, m: Msg)
    requires Exec(Program(c), Init(c), es) == Some(s)
    ensures Exec(Program(c), Init(c), es + [On(src, Accept(m))]).Some? <==> StopReturns !in es
  {
    RunIsRecorded(c, es, s);
    ExecExtends(Program(c), Init(c), es, On(src, Accept(m)));
    AcceptIsEnabled(c, s, src, m);
  }

  // ------------------------------------------- the shared acknowledgements

  /** Over both pools together, the messages given to the producer minus the results read are
      exactly the workers waiting in their select: at most twice the worker count. */
  lemma AcknowledgementsMatchWaiters(c: Config, s: State)
    requires Reachable(Program(c), s)
    ensures |s.github.sent| + |s.gitlab.sent| - |s.read| == WaitingWorkers(s) == |s.inFlight| + |s.results|
    ensures |s.inFlight| + |s.results| <= 2 * c.workers
    ensures |s.results| <= WaitingWorkers(s)
  {
    ReachableInv(c, s);
    SumBound(s.github.workers, Waits);
    SumBound(s.gitlab.workers, Waits);
  }

  /** A worker in its select never waits in vain: some result is there for it, or on its way. */
  lemma WaiterIsServed(c: Config, s: State, src: Source, i: nat)
    requires Reachable(Program(c), s) && i < |LaneOf(s, src).workers| && LaneOf(s, src).workers[i].Waiting?
    ensures (exists m :: Enabled(c, s, On(src, Read(i, m)))) || exists m :: Enabled(c, s, Ack(m))
  {
    ReachableInv(c, s);
    SumHas(LaneOf(s, src).workers, i, Waits);
    if |s.results| > 0 {
      var m :| m in s.results;
      assert Enabled(c, s, On(src, Read(i, m)));
    } else {
      var m :| m in s.inFlight;
      assert Enabled(c, s, Ack(m));
    }
  }

  /** No result is ever left without a reader. */
  lemma ResultHasReader(c: Config, s: State, m: Msg)
    requires Reachable(Program(c), s) && m in s.results
    ensures exists src: Source, i: nat :: Enabled(c, s, On(src, Read(i, m)))
  {
    ReachableInv(c, s);
    if Sum(s.github.workers, Waits) > 0 {
      var i := SumPositive(s.github.workers, Waits);
      assert LaneOf(s, GitHub).workers[i].Waiting?;
      assert Enabled(c, s, On(GitHub, Read(i, m)));
    } else {
      var i := SumPositive(s.gitlab.workers, Waits);
      assert LaneOf(s, GitLab).workers[i].Waiting?;
      assert Enabled(c, s, On(GitLab, Read(i, m)));
    }
  }

  /** Whether a worker that reads a result can only read the one for the message it sent. */
  ghost predicate ReadsOwn(c: Config, s: State) {
    forall src: Source, i: nat, m: Msg ::
      Enabled(c, s, On(src, Read(i, m))) ==> LaneOf(s, src).workers[i].msg == m
  }

  /** With room for one message, the producer holds exactly what the one waiting worker sent. */
  ghost predicate Solo(s: State) {
    forall src: Source, i: nat ::
      i < |LaneOf(s, src).workers| && LaneOf(s, src).workers[i].Waiting? ==>
        s.inFlight + s.results == multiset{LaneOf(s, src).workers[i].msg}
  }

  lemma NobodyWaits(c: Config, s: State, src: Source, i: nat)
    requires Inv(c, s) && s.inFlight == s.results == multiset{} && i < |LaneOf(s, src).workers|
    ensures !LaneOf(s, src).workers[i].Waiting?
  {
    SumHas(LaneOf(s, src).workers, i, Waits);
  }

  lemma LaneStepWaiter(l: Lane, room: nat, e: LaneEvent, i: nat)
    requires LaneReady(l, room, e) && i < |l.workers| && LaneApply(l, room, e).workers[i].Waiting?
    ensures LaneApply(l, room, e).workers[i] == l.workers[i]
         || (e == Input(i) && l.workers[i].Sending? && l.workers[i].msg == LaneApply(l, room, e).workers[i].msg)
  {
  }

  lemma OutsideHeld(s: State, l: Lane, room: nat, e: LaneEvent)
    requires LaneReady(l, room, e)
    ensures var t := Outside(s, l, room, e);
            && (e.Input? ==> t.inFlight == s.inFlight + multiset{l.workers[e.i].msg} && t.results == s.results)
            && (!e.Input? && !e.Read? ==> t.inFlight == s.inFlight && t.results == s.results)
  {
  }

  /** With room for one message only: a message is given when the producer holds none, */
  lemma InputKeepsSolo(c: Config, s: State, on: Source, k: nat)
    requires c.producerRoom <= 1 && Inv(c, s) && Enabled(c, s, On(on, Input(k)))
    ensures Solo(Apply(c, s, On(on, Input(k))))
  {
    var t := Apply(c, s, On(on, Input(k)));
    forall src: Source, i: nat | i < |LaneOf(t, src).workers| && LaneOf(t, src).workers[i].Waiting?
      ensures t.inFlight + t.results == multiset{LaneOf(t, src).workers[i].msg}
    {
      if !(src == on && i == k) { NobodyWaits(c, s, src, i); }
    }
  }

  /** after a result is read nobody waits any more, */
  lemma ReadKeepsSolo(c: Config, s: State, on: Source, k: nat, m: Msg)
    requires Inv(c, s) && Solo(s) && Enabled(c, s, On(on, Read(k, m)))
    ensures Solo(Apply(c, s, On(on, Read(k, m))))
  {
    var t := Apply(c, s, On(on, Read(k, m)));
    assert s.inFlight + s.results == multiset{LaneOf(s, on).workers[k].msg};
    assert |s.inFlight + s.results| == 1;
    assert t.inFlight == t.results == multiset{};
    StepKeepsInv(c, s, On(on, Read(k, m)));
    forall src: Source, i: nat | i < |LaneOf(t, src).workers|
      ensures !LaneOf(t, src).workers[i].Waiting?
    {
      NobodyWaits(c, t, src, i);
    }
  }

  /** and every other step leaves alone what the producer holds and who waits for it. */
  lemma SoloStays(s: State, t: State)
    requires Solo(s) && t.inFlight + t.results == s.inFlight + s.results
    requires forall src: Source, i: nat :: i < |LaneOf(t, src).workers| && LaneOf(t, src).workers[i].Waiting? ==>
               i < |LaneOf(s, src).workers| && LaneOf(s, src).workers[i] == LaneOf(t, src).workers[i]
    ensures Solo(t)
  {
  }

  lemma OtherKeepsSolo(c: Config, s: State, on: Source, e: LaneEvent, t: State)
    requires LaneReady(LaneOf(s, on), Room(c, on), e) && Stepped(c, s, on, e, t)
    requires Solo(s) && !e.Input? && !e.Read?
    ensures Solo(t)
  {
    OutsideHeld(s, LaneOf(s, on), Room(c, on), e);
    forall src: Source, i: nat | i < |LaneOf(t, src).workers| && LaneOf(t, src).workers[i].Waiting?
      ensures i < |LaneOf(s, src).workers| && LaneOf(s, src).workers[i] == LaneOf(t, src).workers[i]
    {
      if src == on { LaneStepWaiter(LaneOf(s, on), Room(c, on), e, i); }
    }
    SoloStays(s, t);
  }

  lemma StepKeepsSolo(c: Config, s: State, e: Event)
    requires c.producerRoom <= 1 && Inv(c, s) && Solo(s) && Enabled(c, s, e)
    ensures Solo(Apply(c, s, e))
  {
    if !e.On? {
      SoloStays(s, Apply(c, s, e));
    } else if e.step.Input? {
      InputKeepsSolo(c, s, e.src, e.step.i);
    } else if e.step.Read? {
      ReadKeepsSolo(c, s, e.src, e.step.i, e.step.m);
    } else {
      OnSteps(c, s, e.src, e.step);
      OtherKeepsSolo(c, s, e.src, e.step, Apply(c, s, e));
    }
  }

  lemma ReachableSolo(c: Config, s: State)
    requires c.producerRoom <= 1 && Reachable(Program(c), s)
    ensures Solo(s)
  {
    InitInv(c);
    forall t: State, e: Event | Inv(c, t) && Solo(t) && Enabled(c, t, e)
      ensures Inv(c, Apply(c, t, e)) && Solo(Apply(c, t, e))
    {
      StepKeepsInv(c, t, e);
      StepKeepsSolo(c, t, e);
    }
    ReachableKeeps(Program(c), t => Inv(c, t) && Solo(t), s);
  }

  lemma SoloReadsOwn(c: Config, s: State)
    requires Solo(s)
    ensures ReadsOwn(c, s)
  {
    forall src: Source, i: nat, m: Msg | Enabled(c, s, On(src, Read(i, m)))
      ensures LaneOf(s, src).workers[i].msg == m
    {
      assert m in s.inFlight + s.results;
    }
  }

  /** A request is accepted. */
  lemma AcceptsOne(c: Config, before: State, src: Source, m: Msg) returns (s: State)
    requires Reachable(Program(c), before) && before.shutdown.Listening?
    ensures var l := LaneOf(before, src);
            s == Put(before, src, l.(accepted := l.accepted + multiset{m}, pending := l.pending + multiset{m}))
    ensures Reachable(Program(c), s)
  {
    ReachableStep(Program(c), before, On(src, Accept(m)));
    s := Apply(c, before, On(src, Accept(m)));
  }

  /** From a fresh lane: its offer meets worker 0, */
  lemma OfferedOne(c: Config, before: State, src: Source, m: Msg) returns (s: State)
    requires c.workers >= 1 && Reachable(Program(c), before) && before.shutdown.Listening?
    requires LaneOf(before, src) == EmptyLane(c.workers)
    ensures Reachable(Program(c), s) && At(LaneOf(s, src), 0, Sending(0, m))
    ensures s == Put(before, src, LaneOf(s, src))
  {
    var accepted := AcceptsOne(c, before, src, m);
    ReachableStep(Program(c), accepted, On(src, OfferHandOff(m, 0)));
    s := Apply(c, accepted, On(src, OfferHandOff(m, 0)));
  }

  /** which passes it to the producer: */
  lemma InputsOne(c: Config, before: State, src: Source, m: Msg) returns (s: State)
    requires Reachable(Program(c), before) && At(LaneOf(before, src), 0, Sending(0, m))
    requires |before.inFlight| + |before.results| < c.producerRoom
    ensures Reachable(Program(c), s) && At(LaneOf(s, src), 0, Waiting(m))
    ensures s == Put(before, src, LaneOf(s, src)).(inFlight := before.inFlight + multiset{m})
  {
    ReachableStep(Program(c), before, On(src, Input(0)));
    s := Apply(c, before, On(src, Input(0)));
  }

  /** one more message is with it, whatever happened on the other lane. */
  lemma SendsOne(c: Config, before: State, src: Source, m: Msg) returns (s: State)
    requires c.workers >= 1 && Reachable(Program(c), before) && before.shutdown.Listening?
    requires LaneOf(before, src) == EmptyLane(c.workers)
    requires |before.inFlight| + |before.results| < c.producerRoom
    ensures Reachable(Program(c), s) && s.shutdown.Listening? && At(LaneOf(s, src), 0, Waiting(m))
    ensures s == Put(before, src, LaneOf(s, src)).(inFlight := before.inFlight + multiset{m})
  {
    var offered := OfferedOne(c, before, src, m);
    s := InputsOne(c, offered, src, m);
  }

  /** Two workers wait, and only the second one's result has arrived: the first may read it. */
  lemma ForeignAcknowledgement(c: Config) returns (s: State)
    requires c.workers >= 1 && c.producerRoom >= 2
    ensures Reachable(Program(c), s) && !ReadsOwn(c, s)
  {
    s := Init(c);
    ReachableStart(Program(c));
    s := SendsOne(c, s, GitHub, 0);
    s := SendsOne(c, s, GitLab, 1);
    ReachableStep(Program(c), s, Ack(1));
    s := Apply(c, s, Ack(1));
    assert Enabled(c, s, On(GitHub, Read(0, 1)));
  }

  /** A worker is sure to read its own message's result exactly when the producer holds at most
      one message at a time; otherwise only the counts are right, not the pairing. */
  lemma OwnAcknowledgementIffOneAtATime(c: Config)
    requires c.workers >= 1
    ensures c.producerRoom <= 1 <==> forall s :: Reachable(Program(c), s) ==> ReadsOwn(c, s)
  {
    if c.producerRoom <= 1 {
      forall s | Reachable(Program(c), s)
        ensures ReadsOwn(c, s)
      {
        ReachableSolo(c, s);
        SoloReadsOwn(c, s);
      }
    } else {
      var s := ForeignAcknowledgement(c);
    }
  }

  lemma AcceptedCopies(l: Lane, m: Msg)
    requires Counts(l, m)
    ensures l.accepted[m] == l.pending[m] + l.dropped[m] + multiset(l.entered)[m]
  {
    SumIsMultiplicity(l.entered, m);
  }

  /** Nothing is lost, duplicated or mixed up: of the requests a schedule has a source accept, every
      copy of a message is offered, dropped, or has entered that source's queue; */
  lemma {:induction false} SourceConservation(c: Config, es: seq<Event>, s: State, src: Source, m: Msg)
    requires Exec(Program(c), Init(c), es) == Some(s)
    ensures var l := LaneOf(s, src);
            AcceptedIn(es, src)[m] == l.pending[m] + l.dropped[m] + multiset(l.entered)[m]
  {
    RunIsRecorded(c, es, s);
    AcceptedCopies(LaneOf(s, src), m);
  }

  /** and over both sources it is offered, dropped, queued, in a worker, in the producer, answered,
      or its answer was read. */
  lemma {:induction false} RequestConservation(c: Config, es: seq<Event>, s: State, m: Msg)
    requires Exec(Program(c), Init(c), es) == Some(s)
    ensures AcceptedIn(es, GitHub)[m] + AcceptedIn(es, GitLab)[m]
         == s.github.pending[m] + s.gitlab.pending[m] + s.github.dropped[m] + s.gitlab.dropped[m]
            + Sum(s.github.queue, Is(m)) + Sum(s.gitlab.queue, Is(m))
            + Sum(s.github.workers, Carries(m)) + Sum(s.gitlab.workers, Carries(m))
            + s.inFlight[m] + s.results[m] + s.read[m]
    ensures |s.github.queue| <= c.githubQueue && |s.gitlab.queue| <= c.gitlabQueue
  {
    RunIsRecorded(c, es, s);
    assert Counts(s.github, m) && Counts(s.gitlab, m) && Settled(s, m);
  }

  /** Within one source: messages leave the queue in the order in which they entered it, and the
      p-th one given to the producer was taken at most N - 1 places later; a worker that takes one
      leaves at most N - 1 earlier ones not yet given. */
  lemma QueueOrder(c: Config, s: State, src: Source)
    requires Reachable(Program(c), s)
    ensures var l := LaneOf(s, src);
            && l.entered == l.taken + l.queue
            && (forall p :: 0 <= p < |l.sent| ==>
                  && l.sent[p].ticket <= p + c.workers - 1 && l.sent[p].ticket < |l.taken|
                  && l.sent[p].msg == l.taken[l.sent[p].ticket])
            && (forall p, q :: 0 <= p < q < |l.sent| ==> l.sent[p].ticket != l.sent[q].ticket)
            && (forall i: nat :: At(l, i, Ranging) ==> |l.taken| - |l.sent| <= c.workers - 1)
  {
    ReachableInv(c, s);
    var l := LaneOf(s, src);
    forall p, q | 0 <= p < q < |l.sent|
      ensures l.sent[p].ticket != l.sent[q].ticket
    {
      SumHasBoth(l.sent, p, q, Passed(l.sent[p].ticket));
    }
    forall i: nat | At(l, i, Ranging)
      ensures |l.taken| - |l.sent| <= c.workers - 1
    {
      SumUpdate(l.workers, i, Sending(0, 0), Carrying);
      SumBound(l.workers[i := Sending(0, 0)], Carrying);
    }
  }

  /** With one worker the producer is given the messages of a source in the order they entered. */
  lemma {:induction false} SingleWorkerKeepsOrder(c: Config, s: State, src: Source, p: nat)
    requires c.workers == 1 && Reachable(Program(c), s) && p < |LaneOf(s, src).sent|
    ensures var l := LaneOf(s, src);
            l.sent[p].ticket == p && p < |l.entered| && l.sent[p].msg == l.entered[p]
    decreases p
  {
    QueueOrder(c, s, src);
    var l := LaneOf(s, src);
    if l.sent[p].ticket < p {
      SingleWorkerKeepsOrder(c, s, src, l.sent[p].ticket);
    }
  }

  /** Until the signal comes, a lane that dropped something accepted more than its queue holds. */
  ghost predicate DropsOnlyWhenFull(c: Config, s: State) {
    s.shutdown.Listening? ==>
      forall src: Source :: LaneOf(s, src).dropped != multiset{} ==> |LaneOf(s, src).accepted| > Room(c, src)
  }

  lemma LaneStepDrops(c: Config, s: State, l: Lane, room: nat, e: LaneEvent)
    requires LaneEnabled(c, s, l, room, e) && LaneSizes(l) && s.shutdown.Listening?
    requires l.dropped != multiset{} ==> |l.accepted| > room
    ensures var t := LaneApply(l, room, e); t.dropped != multiset{} ==> |t.accepted| > room
  {
    if e.OfferFull? { assert |l.pending| >= 1; }
  }

  lemma PutKeepsDrops(c: Config, s: State, u: State, src: Source, l: Lane)
    requires DropsOnlyWhenFull(c, s) && u.github == s.github && u.gitlab == s.gitlab && u.shutdown == s.shutdown
    requires s.shutdown.Listening? ==> l.dropped != multiset{} ==> |l.accepted| > Room(c, src)
    ensures DropsOnlyWhenFull(c, Put(u, src, l))
  {
  }

  lemma GlobalKeepsDrops(c: Config, s: State, e: Event)
    requires DropsOnlyWhenFull(c, s) && Enabled(c, s, e) && !e.On?
    ensures DropsOnlyWhenFull(c, Apply(c, s, e))
  {
  }

  lemma {:induction false} StepKeepsDrops(c: Config, s: State, e: Event)
    requires Inv(c, s) && DropsOnlyWhenFull(c, s) && Enabled(c, s, e)
    ensures DropsOnlyWhenFull(c, Apply(c, s, e))
  {
    if !e.On? {
      GlobalKeepsDrops(c, s, e);
    } else {
      var l, room := LaneOf(s, e.src), Room(c, e.src);
      if s.shutdown.Listening? { LaneStepDrops(c, s, l, room, e.step); }
      PutKeepsDrops(c, s, Outside(s, l, room, e.step), e.src, LaneApply(l, room, e.step));
    }
  }

  lemma ReachableDrops(c: Config, s: State)
    requires Reachable(Program(c), s)
    ensures DropsOnlyWhenFull(c, s)
  {
    InitInv(c);
    forall t: State, e: Event | Inv(c, t) && DropsOnlyWhenFull(c, t) && Enabled(c, t, e)
      ensures Inv(c, Apply(c, t, e)) && DropsOnlyWhenFull(c, Apply(c, t, e))
    {
      StepKeepsInv(c, t, e);
      StepKeepsDrops(c, t, e);
    }
    ReachableKeeps(Program(c), t => Inv(c, t) && DropsOnlyWhenFull(c, t), s);
  }

  /** A server that has not been told to stop loses no accepted request of a source of which it
      accepted no more than the queue holds: the non-blocking offer only fails on a full queue. */
  lemma NoLossWithinQueueSize(c: Config, s: State, src: Source)
    requires Reachable(Program(c), s) && s.shutdown.Listening?
    requires |LaneOf(s, src).accepted| <= Room(c, src)
    ensures LaneOf(s, src).dropped == multiset{}
  {
    ReachableDrops(c, s);
  }

  /** The offer of an accepted request is queued, */
  lemma QueuesOne(c: Config, before: State, src: Source, m: Msg) returns (s: State)
    requires Reachable(Program(c), before) && !LaneOf(before, src).closed
    requires m in LaneOf(before, src).pending && |LaneOf(before, src).queue| < Room(c, src)
    ensures var l := LaneOf(before, src);
            s == Put(before, src, l.(pending := l.pending - multiset{m}, queue := l.queue + [m],
                                     entered := l.entered + [m]))
    ensures Reachable(Program(c), s)
  {
    ReachableStep(Program(c), before, On(src, OfferSend(m)));
    s := Apply(c, before, On(src, OfferSend(m)));
  }

  /** or, when the queue is full, dropped. */
  lemma DropsOne(c: Config, before: State, src: Source, m: Msg) returns (s: State)
    requires Reachable(Program(c), before) && before.shutdown.Listening? && !LaneOf(before, src).closed
    requires m in LaneOf(before, src).pending && |LaneOf(before, src).queue| >= Room(c, src)
    ensures var l := LaneOf(before, src);
            s == Put(before, src, l.(pending := l.pending - multiset{m}, dropped := l.dropped + multiset{m}))
    ensures Reachable(Program(c), s)
  {
    ReachableStep(Program(c), before, On(src, OfferFull(m)));
    s := Apply(c, before, On(src, OfferFull(m)));
  }

  /** Only one source has had requests: n, all of them still in its queue. */
  ghost predicate Filled(s: State, src: Source, n: nat) {
    var l := LaneOf(s, src);
    && s.shutdown.Listening? && !l.closed && |l.accepted| == |l.queue| == n
    && l.pending == l.dropped == multiset{}
  }

  lemma FillsOneMore(c: Config, before: State, src: Source, n: nat) returns (s: State)
    requires Reachable(Program(c), before) && Filled(before, src, n) && n < Room(c, src)
    ensures Reachable(Program(c), s) && Filled(s, src, n + 1)
  {
    var accepted := AcceptsOne(c, before, src, 0);
    s := QueuesOne(c, accepted, src, 0);
  }

  /** One request more than the queue holds, and one is dropped, whatever the number of workers. */
  lemma DropReached(c: Config, src: Source) returns (s: State)
    ensures Reachable(Program(c), s) && s.shutdown.Listening?
    ensures LaneOf(s, src).dropped != multiset{} && |LaneOf(s, src).accepted| == Room(c, src) + 1
  {
    s := Init(c);
    ReachableStart(Program(c));
    var n := 0;
    while n < Room(c, src)
      invariant n <= Room(c, src) && Reachable(Program(c), s) && Filled(s, src, n)
    {
      s := FillsOneMore(c, s, src, n);
      n := n + 1;
    }
    var accepted := AcceptsOne(c, s, src, 0);
    s := DropsOne(c, accepted, src, 0);
    assert 0 in LaneOf(s, src).dropped;
  }

  /** The exact condition: n accepted requests of a source are safe from being dropped, in every run
      before the stop signal, if and only if its queue has room for n. */
  lemma NoLossIffRoom(c: Config, src: Source, n: nat)
    ensures n <= Room(c, src) <==>
            forall s :: Reachable(Program(c), s) && s.shutdown.Listening? && |LaneOf(s, src).accepted| <= n ==>
                          LaneOf(s, src).dropped == multiset{}
  {
    if n <= Room(c, src) {
      forall s | Reachable(Program(c), s) && s.shutdown.Listening? && |LaneOf(s, src).accepted| <= n
        ensures LaneOf(s, src).dropped == multiset{}
      {
        NoLossWithinQueueSize(c, s, src);
      }
    } else {
      var s := DropReached(c, src);
    }
  }

  /** No offer goroutine is still running for any lane whose queue is, or will be, closed. */
  ghost predicate OffersDone(s: State) {
    s.github.pending == multiset{} && s.gitlab.pending == multiset{}
  }

  ghost predicate PastServing(s: State) {
    !s.shutdown.Listening? && !s.shutdown.Stopping?
  }

  ghost predicate SameDrops(s: State, t: State) {
    t.github.dropped == s.github.dropped && t.gitlab.dropped == s.gitlab.dropped
  }

  lemma LaneStepWithoutOffers(c: Config, s: State, l: Lane, room: nat, e: LaneEvent)
    requires LaneEnabled(c, s, l, room, e) && PastServing(s) && l.pending == multiset{}
    ensures LaneApply(l, room, e).pending == multiset{} && LaneApply(l, room, e).dropped == l.dropped
    ensures Outside(s, l, room, e).panicked == s.panicked
  {
  }

  lemma StepWithoutOffers(c: Config, s: State, e: Event)
    requires Phases(s) && PastServing(s) && OffersDone(s) && Enabled(c, s, e)
    ensures PastServing(Apply(c, s, e)) && OffersDone(Apply(c, s, e))
    ensures Apply(c, s, e).panicked == s.panicked && SameDrops(s, Apply(c, s, e))
  {
    if e.On? {
      LaneStepWithoutOffers(c, s, LaneOf(s, e.src), Room(c, e.src), e.step);
    }
  }

  lemma {:induction false} RunWithoutOffers(c: Config, s: State, es: seq<Event>)
    requires Inv(c, s) && PastServing(s) && OffersDone(s) && Exec(Program(c), s, es).Some?
    ensures Exec(Program(c), s, es).value.panicked == s.panicked
    ensures SameDrops(s, Exec(Program(c), s, es).value)
    decreases |es|
  {
    if es != [] {
      StepKeepsInv(c, s, es[0]);
      StepWithoutOffers(c, s, es[0]);
      RunWithoutOffers(c, Apply(c, s, es[0]), es[1..]);
    }
  }

  /** An offer that finds its context done drops its message, */
  lemma OfferGivesUp(c: Config, s: State) returns (e: Event)
    requires !s.shutdown.Listening? && !OffersDone(s)
    ensures Enabled(c, s, e) && !SameDrops(s, Apply(c, s, e))
  {
    var src := if s.github.pending != multiset{} then GitHub else GitLab;
    var m :| m in LaneOf(s, src).pending;
    e := On(src, OfferDone(m));
    assert LaneOf(Apply(c, s, e), src).dropped[m] == LaneOf(s, src).dropped[m] + 1;
  }

  /** and until `Stop` has returned there can always be such an offer. */
  lemma {:induction false} MoreCanBeDropped(c: Config, s: State) returns (es: seq<Event>, t: State)
    requires !PastServing(s) || !OffersDone(s)
    ensures Exec(Program(c), s, es) == Some(t) && !SameDrops(s, t)
    decreases if s.shutdown.Listening? then 2 else if OffersDone(s) then 1 else 0
  {
    if !s.shutdown.Listening? && !OffersDone(s) {
      var e := OfferGivesUp(c, s);
      es, t := [e], Apply(c, s, e);
      assert Exec(Program(c), t, es[1..]) == Some(t);
    } else {
      var e := if s.shutdown.Listening? then Signal else On(GitHub, Accept(0));
      var u := Apply(c, s, e);
      assert SameDrops(s, u) && (e.On? ==> 0 in u.github.pending);
      var rest;
      rest, t := MoreCanBeDropped(c, u);
      es := [e] + rest;
      assert es[1..] == rest;
    }
  }

  /** And the exact condition after that: no schedule drops anything any more if and only if `Stop`
      has returned and every detached offer goroutine has finished. */
  lemma NothingMoreIsDroppedIff(c: Config, s: State)
    requires Reachable(Program(c), s)
    ensures PastServing(s) && OffersDone(s) <==>
            forall es, t :: Exec(Program(c), s, es) == Some(t) ==> SameDrops(s, t)
  {
    ReachableInv(c, s);
    if PastServing(s) && OffersDone(s) {
      forall es, t | Exec(Program(c), s, es) == Some(t)
        ensures SameDrops(s, t)
      {
        RunWithoutOffers(c, s, es);
      }
    } else {
      var es, t := MoreCanBeDropped(c, s);
    }
  }

  // ------------------------------------------- deadlock and shutdown

  predicate IsAccept(e: Event) {
    e.On? && e.step.Accept?
  }

  /** Requests and the stop signal come from outside the server. */
  predicate FromOutside(e: Event) {
    IsAccept(e) || e.Signal?
  }

  ghost predicate CanProceed(c: Config, s: State) {
    exists e :: !FromOutside(e) && Enabled(c, s, e)
  }

  predicate IsTraffic(e: Event) {
    e.Ack? || (e.On? && (e.step.Input? || e.step.Read?))
  }

  ghost predicate TrafficFlows(c: Config, s: State) {
    exists e :: IsTraffic(e) && Enabled(c, s, e)
  }

  /** What the producer holds is answered, and what it answered is read. */
  lemma HeldTrafficFlows(c: Config, s: State)
    requires Reachable(Program(c), s) && |s.inFlight| + |s.results| > 0
    ensures TrafficFlows(c, s)
  {
    if |s.results| > 0 {
      var m :| m in s.results;
      ResultHasReader(c, s, m);
    } else {
      var m :| m in s.inFlight;
      assert Enabled(c, s, Ack(m));
    }
  }

  /** No deadlock around the shared producer: in every phase, serving or stopping, a worker with a
      message in hand or waiting for a result leaves an input, a read or an answer possible. */
  lemma BusyWorkerProceeds(c: Config, s: State, src: Source, i: nat)
    requires c.producerRoom >= 1 && Reachable(Program(c), s) && i < |LaneOf(s, src).workers|
    requires LaneOf(s, src).workers[i].Sending? || LaneOf(s, src).workers[i].Waiting?
    ensures TrafficFlows(c, s)
  {
    if LaneOf(s, src).workers[i].Waiting? {
      WaiterIsServed(c, s, src, i);
    } else if |s.inFlight| + |s.results| < c.producerRoom {
      assert Enabled(c, s, On(src, Input(i)));
    } else {
      HeldTrafficFlows(c, s);
    }
  }

  /** One source at rest: no offer pending, nothing for a worker to take, all workers receiving. */
  ghost predicate Resting(l: Lane) {
    && l.pending == multiset{} && (l.workers == [] || l.queue == [])
    && forall i :: 0 <= i < |l.workers| ==> l.workers[i].Ranging?
  }

  /** The server as it waits for requests. */
  ghost predicate Idle(s: State) {
    s.shutdown.Listening? && Resting(s.github) && Resting(s.gitlab) && |s.inFlight| + |s.results| == 0
  }

  lemma PendingProceeds(c: Config, s: State, src: Source)
    requires LaneOf(s, src).pending != multiset{}
    ensures CanProceed(c, s)
  {
    var l := LaneOf(s, src);
    var m :| m in l.pending;
    if !s.shutdown.Listening? {
      assert Enabled(c, s, On(src, OfferDone(m)));
    } else if l.closed || |l.queue| < Room(c, src) {
      assert Enabled(c, s, On(src, OfferSend(m)));
    } else {
      assert Enabled(c, s, On(src, OfferFull(m)));
    }
  }

  /** A worker with something to do proceeds: a message to take, one in hand, or the close. */
  lemma WorkerProceeds(c: Config, s: State, src: Source, i: nat)
    requires c.producerRoom >= 1 && Reachable(Program(c), s)
    requires i < |LaneOf(s, src).workers| && !LaneOf(s, src).workers[i].Stopped?
    requires LaneOf(s, src).workers[i].Ranging? ==> LaneOf(s, src).queue != [] || LaneOf(s, src).closed
    ensures CanProceed(c, s)
  {
    var l := LaneOf(s, src);
    if !l.workers[i].Ranging? {
      BusyWorkerProceeds(c, s, src, i);
      var e :| IsTraffic(e) && Enabled(c, s, e);
      assert !FromOutside(e);
    } else if l.queue == [] {
      assert Enabled(c, s, On(src, Leave(i)));
    } else {
      assert Enabled(c, s, On(src, Take(i)));
    }
  }

  lemma RestlessLaneProceeds(c: Config, s: State, src: Source)
    requires c.producerRoom >= 1 && Reachable(Program(c), s) && s.shutdown.Listening?
    requires !Resting(LaneOf(s, src))
    ensures CanProceed(c, s)
  {
    ReachableInv(c, s);
    var l := LaneOf(s, src);
    if l.pending != multiset{} {
      PendingProceeds(c, s, src);
    } else if l.workers != [] && l.queue != [] {
      WorkerProceeds(c, s, src, 0);
    } else {
      var i :| 0 <= i < |l.workers| && !l.workers[i].Ranging?;
      WorkerProceeds(c, s, src, i);
    }
  }

  lemma ServingProceeds(c: Config, s: State)
    requires c.producerRoom >= 1 && Reachable(Program(c), s) && s.shutdown.Listening?
    ensures Idle(s) || CanProceed(c, s)
  {
    if !Resting(s.github) {
      RestlessLaneProceeds(c, s, GitHub);
    } else if !Resting(s.gitlab) {
      RestlessLaneProceeds(c, s, GitLab);
    } else if !Idle(s) {
      HeldTrafficFlows(c, s);
      var e :| IsTraffic(e) && Enabled(c, s, e);
      assert !FromOutside(e);
    }
  }

  lemma StoppingProceeds(c: Config, s: State)
    requires c.producerRoom >= 1 && Reachable(Program(c), s) && !s.shutdown.Listening?
    ensures (s.returned && OffersDone(s)) || CanProceed(c, s)
  {
    ReachableInv(c, s);
    match s.shutdown
    case Stopping => assert Enabled(c, s, StopReturns);
    case ServerStopped => assert Enabled(c, s, CloseGitHub);
    case GitHubClosed => assert Enabled(c, s, CloseGitLab);
    case BothClosed => assert Enabled(c, s, CloseDone);
    case Finished =>
      if !AllStopped(s.github.workers) {
        var i :| 0 <= i < |s.github.workers| && !s.github.workers[i].Stopped?;
        WorkerProceeds(c, s, GitHub, i);
      } else if !AllStopped(s.gitlab.workers) {
        var i :| 0 <= i < |s.gitlab.workers| && !s.gitlab.workers[i].Stopped?;
        WorkerProceeds(c, s, GitLab, i);
      } else if !s.returned {
        assert Enabled(c, s, Return);
      } else if s.github.pending != multiset{} {
        PendingProceeds(c, s, GitHub);
      } else if s.gitlab.pending != multiset{} {
        PendingProceeds(c, s, GitLab);
      }
  }

  lemma NothingLeftToDo(c: Config, s: State, e: Event)
    requires Inv(c, s) && (Idle(s) || (s.returned && OffersDone(s))) && Enabled(c, s, e)
    ensures FromOutside(e)
  {
    if s.returned {
      SumZero(s.github.workers, Waits);
      SumZero(s.gitlab.workers, Waits);
    }
  }

  /** No deadlock, for any room in the producer: only requests and the stop signal can make a step
      possible exactly when the server is idle, or `Run` has returned and no offer is pending. */
  lemma NeverStuck(c: Config, s: State)
    requires c.producerRoom >= 1 && Reachable(Program(c), s)
    ensures Idle(s) || (s.returned && OffersDone(s)) <==> !CanProceed(c, s)
  {
    ReachableInv(c, s);
    if Idle(s) || (s.returned && OffersDone(s)) {
      forall e | Enabled(c, s, e)
        ensures FromOutside(e)
      {
        NothingLeftToDo(c, s, e);
      }
    } else if s.shutdown.Listening? {
      ServingProceeds(c, s);
    } else {
      StoppingProceeds(c, s);
    }
  }

  ghost function WorkerWork(w: Worker): nat {
    match w
    case Ranging => 1
    case Sending(_, _) => 4
    case Waiting(_) => 2
    case Stopped => 0
  }

  ghost function LaneWork(l: Lane): nat {
    5 * |l.pending| + 4 * |l.queue| + Sum(l.workers, WorkerWork)
  }

  ghost function ShutdownWork(p: Shutdown): nat {
    match p
    case Listening => 5
    case Stopping => 4
    case ServerStopped => 3
    case GitHubClosed => 2
    case BothClosed => 1
    case Finished => 0
  }

  ghost function WorkLeft(s: State): nat {
    LaneWork(s.github) + LaneWork(s.gitlab) + |s.inFlight| + ShutdownWork(s.shutdown) + if s.returned then 0 else 1
  }

  lemma LaneStepWork(l: Lane, room: nat, e: LaneEvent)
    requires LaneReady(l, room, e) && !(e.OfferSend? && l.closed)
    ensures LaneWork(LaneApply(l, room, e)) + (if e.Input? then 1 else 0)
          < LaneWork(l) + if e.Accept? then 6 else 0
  {
    match e
    case OfferHandOff(m, i) => SumUpdate(l.workers, i, Sending(|l.taken|, m), WorkerWork);
    case Take(i) => SumUpdate(l.workers, i, Sending(|l.taken|, l.queue[0]), WorkerWork);
    case Input(i) => SumUpdate(l.workers, i, Waiting(l.workers[i].msg), WorkerWork);
    case Read(i, m) => SumUpdate(l.workers, i, Ranging, WorkerWork);
    case Leave(i) => SumUpdate(l.workers, i, Stopped, WorkerWork);
    case _ =>
  }

  lemma PutWork(s: State, u: State, src: Source, l: Lane)
    requires u.github == s.github && u.gitlab == s.gitlab && u.shutdown == s.shutdown && u.returned == s.returned
    ensures WorkLeft(Put(u, src, l)) + LaneWork(LaneOf(s, src)) + |s.inFlight|
         == WorkLeft(s) + LaneWork(l) + |u.inFlight|
  {
  }

  lemma OnWork(c: Config, s: State, src: Source, step: LaneEvent)
    requires Enabled(c, s, On(src, step)) && !(step.OfferSend? && LaneOf(s, src).closed)
    ensures WorkLeft(Apply(c, s, On(src, step))) < WorkLeft(s) + if step.Accept? then 6 else 0
  {
    var l, room := LaneOf(s, src), Room(c, src);
    LaneStepWork(l, room, step);
    PutWork(s, Outside(s, l, room, step), src, LaneApply(l, room, step));
  }

  lemma StepWork(c: Config, s: State, e: Event)
    requires Enabled(c, s, e) && !Apply(c, s, e).panicked
    ensures WorkLeft(Apply(c, s, e)) < WorkLeft(s) + if IsAccept(e) then 6 else 0
  {
    match e
    case On(src, step) => OnWork(c, s, src, step);
    case Ack(m) => assert |s.inFlight - multiset{m}| == |s.inFlight| - 1;
    case _ =>
  }

  ghost function Accepts(es: seq<Event>): nat {
    Sum(es, (e: Event) => if IsAccept(e) then 1 else 0)
  }

  lemma {:induction false} PanicLasts(c: Config, s: State, es: seq<Event>)
    requires s.panicked && Exec(Program(c), s, es).Some?
    ensures Exec(Program(c), s, es).value.panicked
    decreases |es|
  {
    if es != [] {
      PanicLasts(c, Apply(c, s, es[0]), es[1..]);
    }
  }

  /** No run that stays free of panics is longer than the work left at its start and what the
      requests accepted during it add; after `Stop` has returned nothing is accepted. */
  lemma {:induction false} RunsArePaidFor(c: Config, s: State, es: seq<Event>)
    requires Exec(Program(c), s, es).Some? && !Exec(Program(c), s, es).value.panicked
    ensures |es| + WorkLeft(Exec(Program(c), s, es).value) <= WorkLeft(s) + 6 * Accepts(es)
    ensures PastServing(s) ==> Accepts(es) == 0 && PastServing(Exec(Program(c), s, es).value)
    decreases |es|
  {
    if es != [] {
      var t := Apply(c, s, es[0]);
      if t.panicked { PanicLasts(c, t, es[1..]); }
      StepWork(c, s, es[0]);
      RunsArePaidFor(c, t, es[1..]);
    }
  }

  /** When `Run` returns, the results read are exactly the messages that ever entered a queue,
      whoever read whose, and nothing is left in a queue, a worker or the producer. */
  lemma ReturnMeansAllAnswered(c: Config, s: State)
    requires c.workers >= 1 && Reachable(Program(c), s) && s.returned
    ensures s.github.queue == [] && s.gitlab.queue == [] && s.inFlight == s.results == multiset{}
    ensures s.read == multiset(s.github.entered) + multiset(s.gitlab.entered)
  {
    ReachableInv(c, s);
    assert s.github.workers[0].Stopped? && s.gitlab.workers[0].Stopped?;
    SumZero(s.github.workers, Waits);
    SumZero(s.gitlab.workers, Waits);
    assert |s.inFlight| == 0 && |s.results| == 0;
    forall m: Msg
      ensures s.read[m] == (multiset(s.github.entered) + multiset(s.gitlab.entered))[m]
    {
      assert Counts(s.github, m) && Counts(s.gitlab, m) && Settled(s, m);
      SumZero(s.github.workers, Carries(m));
      SumZero(s.gitlab.workers, Carries(m));
      SumIsMultiplicity(s.github.entered, m);
      SumIsMultiplicity(s.gitlab.entered, m);
    }
  }

  lemma AcceptedAreAccountedFor(s: State)
    requires LaneConserves(s.github) && LaneConserves(s.gitlab)
    requires s.read == multiset(s.github.entered) + multiset(s.gitlab.entered)
    ensures s.github.accepted + s.gitlab.accepted
         == s.github.pending + s.gitlab.pending + s.github.dropped + s.gitlab.dropped + s.read
  {
    forall m: Msg
      ensures (s.github.accepted + s.gitlab.accepted)[m]
           == (s.github.pending + s.gitlab.pending + s.github.dropped + s.gitlab.dropped + s.read)[m]
    {
      assert Counts(s.github, m) && Counts(s.gitlab, m);
      SumIsMultiplicity(s.github.entered, m);
      SumIsMultiplicity(s.gitlab.entered, m);
    }
  }

  // ------------------------------------------------ sends after the close

  /** With an offer still pending, the signal goroutine can close both queues before it fires. */
  lemma {:induction false} LateOfferPanics(c: Config, s: State) returns (es: seq<Event>, t: State)
    requires Inv(c, s) && PastServing(s) && !OffersDone(s)
    ensures Exec(Program(c), s, es) == Some(t) && t.panicked
    decreases ShutdownWork(s.shutdown)
  {
    if s.shutdown.ServerStopped? || s.shutdown.GitHubClosed? {
      var e := if s.shutdown.ServerStopped? then CloseGitHub else CloseGitLab;
      StepKeepsInv(c, s, e);
      var rest;
      rest, t := LateOfferPanics(c, Apply(c, s, e));
      es := [e] + rest;
      assert es[1..] == rest;
    } else {
      var src := if s.github.pending != multiset{} then GitHub else GitLab;
      var m :| m in LaneOf(s, src).pending;
      var e := On(src, OfferSend(m));
      es, t := [e], Apply(c, s, e);
      assert Exec(Program(c), t, es[1..]) == Some(t);
    }
  }

  /** The exact condition for closing the queues: once `Stop` has returned, no schedule ever sends
      on a closed queue if and only if every detached offer goroutine has finished. */
  lemma NoSendAfterCloseIffOffersDone(c: Config, s: State)
    requires Reachable(Program(c), s) && PastServing(s) && !s.panicked
    ensures OffersDone(s) <==> forall es, t :: Exec(Program(c), s, es) == Some(t) ==> !t.panicked
  {
    ReachableInv(c, s);
    if OffersDone(s) {
      forall es, t | Exec(Program(c), s, es) == Some(t)
        ensures !t.panicked
      {
        RunWithoutOffers(c, s, es);
      }
    } else {
      var es, t := LateOfferPanics(c, s);
    }
  }

  /** Whatever the sizes, nothing in the server itself makes it wait for its offer goroutines: a
      send on a closed queue is reachable. */
  lemma LateOfferIsPossible(c: Config)
    ensures exists s :: Reachable(Program(c), s) && s.panicked
  {
    var s := Init(c);
    ReachableStart(Program(c));
    ReachableStep(Program(c), s, On(GitHub, Accept(0)));
    s := Apply(c, s, On(GitHub, Accept(0)));
    ReachableStep(Program(c), s, Signal);
    s := Apply(c, s, Signal);
    ReachableStep(Program(c), s, StopReturns);
    s := Apply(c, s, StopReturns);
    ReachableInv(c, s);
    assert 0 in s.github.pending;
    var es, t := LateOfferPanics(c, s);
    ReachableThen(Program(c), s, es, t);
  }

  /** Shutdown, from the moment `Stop` has returned: every schedule without a send on a closed
      queue, however unfair, is finite, and one that cannot be continued has `Run` return with
      every accepted message dropped or answered. */
  lemma {:induction false} ShutdownAnswersEverything(c: Config, s: State, es: seq<Event>, t: State)
    requires c.workers >= 1 && c.producerRoom >= 1
    requires Reachable(Program(c), s) && PastServing(s)
    requires Exec(Program(c), s, es) == Some(t) && !t.panicked
    ensures |es| <= WorkLeft(s)
    ensures CanProceed(c, t) || (t.returned && t.read == multiset(t.github.entered) + multiset(t.gitlab.entered))
    ensures CanProceed(c, t) ||
            t.github.accepted + t.gitlab.accepted == t.github.dropped + t.gitlab.dropped + t.read
  {
    ReachableInv(c, s);
    ReachableThen(Program(c), s, es, t);
    RunsArePaidFor(c, s, es);
    NeverStuck(c, t);
    if t.returned && OffersDone(t) {
      ReturnMeansAllAnswered(c, t);
      ReachableInv(c, t);
      AcceptedAreAccountedFor(t);
    }
  }

  // ------------------------------------------- the goroutines on shared fields

  /** One webhook source's channel and fields, shared by its offer goroutines and its workers. */
  class Side {
    const queue: Channel<Msg>
    var workers: seq<Worker>
    var accepted: multiset<Msg>
    var pending: multiset<Msg>
    var dropped: multiset<Msg>
    var entered: seq<Msg>
    var taken: seq<Msg>
    var sent: seq<Parcel>

    function Repr(): set<object> {
      {this, queue, queue.slots}
    }

    ghost predicate Valid()
      reads this, queue
    {
      queue.Valid()
    }

    /** The lane that the fields stand for. */
    function View(): Lane
      requires Valid()
      reads this, queue, queue.slots
    {
      Lane(queue.Contents(), queue.closed, workers, accepted, pending, dropped, entered, taken, sent)
    }

    function Room(): nat {
      queue.slots.Length
    }

    constructor (workers: nat, room: nat)
      ensures Valid() && Room() == room && View() == EmptyLane(workers)
      ensures fresh(Repr())
    {
      queue := new Channel(room);
      this.workers := seq(workers, _ => Ranging);
      accepted, pending, dropped := multiset{}, multiset{}, multiset{};
      entered, taken, sent := [], [], [];
    }

    /** A handler accepts a request and starts a detached goroutine to offer its message. */
    method AcceptRequest(m: Msg)
      requires Valid()
      modifies this
      ensures Valid() && View() == LaneApply(old(View()), Room(), Accept(m))
    {
      accepted := accepted + multiset{m};
      pending := pending + multiset{m};
    }

    /** The offer's send into the queue; on a closed queue it panics, */
    method Queues(m: Msg) returns (panics: bool)
      requires Valid() && LaneReady(View(), Room(), OfferSend(m))
      modifies this, queue, queue.slots
      ensures Valid() && View() == LaneApply(old(View()), Room(), OfferSend(m))
      ensures panics == old(queue.closed)
    {
      panics := queue.Send(m);
      if !panics {
        pending := pending - multiset{m};
        entered := entered + [m];
      }
    }

    /** or straight to a worker that is already receiving. */
    method HandsOver(m: Msg, i: nat)
      requires Valid() && LaneReady(View(), Room(), OfferHandOff(m, i))
      modifies this`workers, this`pending, this`entered, this`taken
      ensures Valid() && View() == LaneApply(old(View()), Room(), OfferHandOff(m, i))
    {
      ghost var before := View();
      pending := pending - multiset{m};
      workers := workers[i := Sending(|taken|, m)];
      entered := entered + [m];
      taken := taken + [m];
      assert View() == before.(pending := pending, workers := workers, entered := entered, taken := taken);
    }

    /** The offer's other cases: the server is stopping, or the queue is full. */
    method Drops(e: LaneEvent)
      requires Valid() && (e.OfferFull? || e.OfferDone?) && LaneReady(View(), Room(), e)
      modifies this
      ensures Valid() && View() == LaneApply(old(View()), Room(), e)
    {
      pending := pending - multiset{e.m};
      dropped := dropped + multiset{e.m};
    }

    /** A worker receives a message from the queue, */
    method WorkerTakes(i: nat)
      requires Valid() && LaneReady(View(), Room(), Take(i))
      modifies this, queue
      ensures Valid() && View() == LaneApply(old(View()), Room(), Take(i))
    {
      var m := queue.Receive();
      workers := workers[i := Sending(|taken|, m)];
      taken := taken + [m];
    }

    /** passes it to the producer, reads one result, or leaves a drained closed queue. */
    method WorkerStep(e: LaneEvent)
      requires Valid() && (e.Input? || e.Read? || e.Leave?) && LaneReady(View(), Room(), e)
      modifies this
      ensures Valid() && View() == LaneApply(old(View()), Room(), e)
    {
      match e
      case Input(i) =>
        sent := sent + [Parcel(workers[i].ticket, workers[i].msg)];
        workers := workers[i := Waiting(workers[i].msg)];
      case Read(i, _) => workers := workers[i := Ranging];
      case Leave(i) => workers := workers[i := Stopped];
    }

    /** The queue is closed from outside; a second time that panics. */
    method Closes() returns (panics: bool)
      requires Valid()
      modifies queue
      ensures Valid() && View() == old(View()).(closed := true) && panics == old(queue.closed)
    {
      panics := queue.Close();
    }

    method Step(e: LaneEvent) returns (panics: bool)
      requires Valid() && LaneReady(View(), Room(), e)
      modifies this, queue, queue.slots
      ensures Valid() && View() == LaneApply(old(View()), Room(), e)
      ensures panics == (e.OfferSend? && old(queue.closed))
    {
      panics := false;
      if e.Accept? {
        AcceptRequest(e.m);
      } else if e.OfferSend? {
        panics := Queues(e.m);
      } else if e.OfferHandOff? {
        HandsOver(e.m, e.i);
      } else if e.OfferFull? || e.OfferDone? {
        Drops(e);
      } else if e.Take? {
        WorkerTakes(e.i);
      } else {
        WorkerStep(e);
      }
    }
  }

  /** The running server: both sides, the producer's messages and results, the signal goroutine. */
  class Server {
    const config: Config
    const github: Side
    const gitlab: Side
    var inFlight: multiset<Msg>
    var results: multiset<Msg>
    var read: multiset<Msg>
    var shutdown: Shutdown
    var returned: bool
    var panicked: bool

    ghost predicate Valid()
      reads this, github.Repr(), gitlab.Repr()
    {
      && github.Repr() !! gitlab.Repr() && this !in github.Repr() && this !in gitlab.Repr()
      && github.Valid() && github.Room() == config.githubQueue
      && gitlab.Valid() && gitlab.Room() == config.gitlabQueue
    }

    function SideOf(src: Source): Side {
      if src.GitHub? then github else gitlab
    }

    /** The state of the step system that the fields stand for. */
    function View(): State
      requires Valid()
      reads this, github.Repr(), gitlab.Repr()
    {
      State(github.View(), gitlab.View(), inFlight, results, read, shutdown, returned, panicked)
    }

    constructor (config: Config)
      ensures Valid() && this.config == config && View() == Init(config)
      ensures fresh(github.Repr()) && fresh(gitlab.Repr())
    {
      this.config := config;
      github := new Side(config.workers, config.githubQueue);
      gitlab := new Side(config.workers, config.gitlabQueue);
      inFlight, results, read := multiset{}, multiset{}, multiset{};
      shutdown, returned, panicked := Listening, false, false;
    }

    /** What a lane step does to the producer, or to the process: a worker's message goes in, a
        result comes out, or a send panicked. */
    method Outward(ghost s: State, ghost l: Lane, ghost room: nat, e: LaneEvent, carrier: Worker, panics: bool)
      requires LaneReady(l, room, e) && panics == (e.OfferSend? && l.closed)
      requires e.Input? ==> carrier == l.workers[e.i]
      requires s.inFlight == inFlight && s.results == results && s.read == read && s.panicked == panicked
      modifies this`inFlight, this`results, this`read, this`panicked
      ensures var t := Outside(s, l, room, e);
              inFlight == t.inFlight && results == t.results && read == t.read && panicked == t.panicked
    {
      if e.Input? {
        inFlight := inFlight + multiset{carrier.msg};
      } else if e.Read? {
        results := results - multiset{e.m};
        read := read + multiset{e.m};
      }
      panicked := panicked || panics;
    }

    /** A step of a handler, an offer goroutine or a worker, with what it does to the producer. */
    method SideStep(src: Source, e: LaneEvent)
      requires Valid() && LaneReady(SideOf(src).View(), SideOf(src).Room(), e)
      modifies this`inFlight, this`results, this`read, this`panicked, SideOf(src).Repr()
      ensures Valid()
      ensures SideOf(src).View() == LaneApply(old(SideOf(src).View()), SideOf(src).Room(), e)
      ensures var t := Outside(old(View()), old(SideOf(src).View()), SideOf(src).Room(), e);
              inFlight == t.inFlight && results == t.results && read == t.read && panicked == t.panicked
    {
      ghost var before, lane := View(), SideOf(src).View();
      var side := SideOf(src);
      var carrier := if e.Input? then side.workers[e.i] else Ranging;
      var panics := side.Step(e);
      Outward(before, lane, side.Room(), e, carrier, panics);
    }

    /** Each side's steps leave the other side alone. */
    method GitHubSteps(e: LaneEvent)
      requires Valid() && LaneReady(github.View(), github.Room(), e)
      modifies this`inFlight, this`results, this`read, this`panicked, github.Repr()
      ensures Valid() && Stepped(config, old(View()), GitHub, e, View())
    {
      SideStep(GitHub, e);
      assert gitlab.View() == old(gitlab.View());
    }

    method GitLabSteps(e: LaneEvent)
      requires Valid() && LaneReady(gitlab.View(), gitlab.Room(), e)
      modifies this`inFlight, this`results, this`read, this`panicked, gitlab.Repr()
      ensures Valid() && Stepped(config, old(View()), GitLab, e, View())
    {
      SideStep(GitLab, e);
      assert github.View() == old(github.View());
    }

    method LaneStep(src: Source, e: LaneEvent)
      requires Valid() && Enabled(config, View(), On(src, e))
      modifies this`inFlight, this`results, this`read, this`panicked, SideOf(src).Repr()
      ensures Valid() && View() == Apply(config, old(View()), On(src, e))
    {
      ghost var before := View();
      if src.GitHub? {
        GitHubSteps(e);
      } else {
        GitLabSteps(e);
      }
      Assembled(config, before, src, e, View());
    }

    /** The signal goroutine closes one queue, */
    method ClosesGitHub()
      requires Valid() && Enabled(config, View(), CloseGitHub)
      modifies this`panicked, this`shutdown, github.queue
      ensures Valid() && View() == Apply(config, old(View()), CloseGitHub)
    {
      ghost var before := View();
      var panics := github.Closes();
      panicked := panicked || panics;
      shutdown := GitHubClosed;
      assert View() == before.(github := github.View(), panicked := panicked, shutdown := shutdown);
    }

    /** then the other. */
    method ClosesGitLab()
      requires Valid() && Enabled(config, View(), CloseGitLab)
      modifies this`panicked, this`shutdown, gitlab.queue
      ensures Valid() && View() == Apply(config, old(View()), CloseGitLab)
    {
      ghost var before := View();
      var panics := gitlab.Closes();
      panicked := panicked || panics;
      shutdown := BothClosed;
      assert View() == before.(gitlab := gitlab.View(), panicked := panicked, shutdown := shutdown);
    }

    /** A step of the producer, the signal goroutine, or `Run` waiting for the others. */
    method MainStep(e: Event)
      requires Valid() && !e.On? && !e.CloseGitHub? && !e.CloseGitLab? && Enabled(config, View(), e)
      modifies this`inFlight, this`results, this`shutdown, this`returned
      ensures Valid() && View() == Apply(config, old(View()), e)
    {
      match e
      case Ack(m) =>
        inFlight := inFlight - multiset{m};
        results := results + multiset{m};
      case Signal => shutdown := Stopping;
      case StopReturns => shutdown := ServerStopped;
      case CloseDone => shutdown := Finished;
      case Return => returned := true;
    }

    method Fire(e: Event)
      requires Valid() && Enabled(config, View(), e)
      modifies this, github.Repr(), gitlab.Repr()
      ensures Valid() && View() == Apply(config, old(View()), e)
    {
      if e.On? {
        LaneStep(e.src, e.step);
      } else if e.CloseGitHub? {
        ClosesGitHub();
      } else if e.CloseGitLab? {
        ClosesGitLab();
      } else {
        MainStep(e);
      }
    }

    /** A whole run under any schedule, up to the first event that cannot happen: in-flight work
        is bounded, each source's account is that of its own requests, and if `Run` returns, every
        message that entered a queue was answered; with no offer pending every request was. */
    method Run(schedule: seq<Event>) returns (fired: nat)
      requires Valid() && View() == Init(config) && config.workers >= 1
      modifies this, github.Repr(), gitlab.Repr()
      ensures Valid() && fired <= |schedule|
      ensures Exec(Program(config), Init(config), schedule[..fired]) == Some(View())
      ensures fired < |schedule| ==> !Enabled(config, View(), schedule[fired])
      ensures |inFlight| + |results| <= 2 * config.workers
      ensures github.accepted == AcceptedIn(schedule[..fired], GitHub)
      ensures gitlab.accepted == AcceptedIn(schedule[..fired], GitLab)
      ensures read == ReadIn(schedule[..fired]) && (returned <==> Return in schedule[..fired])
      ensures !panicked ==> github.entered == EnteredIn(schedule[..fired], GitHub)
      ensures !panicked ==> gitlab.entered == EnteredIn(schedule[..fired], GitLab)
      ensures returned ==> read == multiset(github.entered) + multiset(gitlab.entered)
      ensures returned && github.pending == gitlab.pending == multiset{} ==>
                AcceptedIn(schedule[..fired], GitHub) + AcceptedIn(schedule[..fired], GitLab)
                == DroppedIn(schedule[..fired], GitHub) + DroppedIn(schedule[..fired], GitLab) + read
    {
      fired := 0;
      while fired < |schedule| && Enabled(config, View(), schedule[fired])
        invariant 0 <= fired <= |schedule| && Valid()
        invariant Exec(Program(config), Init(config), schedule[..fired]) == Some(View())
      {
        var e := schedule[fired];
        ExecOneMore(Program(config), Init(config), schedule, fired, View());
        Fire(e);
        fired := fired + 1;
      }
      WhatRunPromises(config, schedule[..fired], View());
    }
  }

  lemma Assembled(c: Config, s: State, src: Source, e: LaneEvent, t: State)
    requires Enabled(c, s, On(src, e)) && Stepped(c, s, src, e, t)
    ensures t == Apply(c, s, On(src, e))
  {
    OnSteps(c, s, src, e);
  }

  lemma {:induction false} WhatRunPromises(c: Config, es: seq<Event>, s: State)
    requires Exec(Program(c), Init(c), es) == Some(s) && c.workers >= 1
    ensures |s.inFlight| + |s.results| <= 2 * c.workers
    ensures s.github.accepted == AcceptedIn(es, GitHub) && s.gitlab.accepted == AcceptedIn(es, GitLab)
    ensures s.read == ReadIn(es) && (s.returned <==> Return in es)
    ensures !s.panicked ==> s.github.entered == EnteredIn(es, GitHub) && s.gitlab.entered == EnteredIn(es, GitLab)
    ensures s.returned ==> s.read == multiset(s.github.entered) + multiset(s.gitlab.entered)
    ensures s.returned && OffersDone(s) ==>
              AcceptedIn(es, GitHub) + AcceptedIn(es, GitLab) == DroppedIn(es, GitHub) + DroppedIn(es, GitLab) + s.read
  {
    assert Reachable(Program(c), s);
    RunIsRecorded(c, es, s);
    AcknowledgementsMatchWaiters(c, s);
    if s.returned {
      ReturnMeansAllAnswered(c, s);
      AcceptedAreAccountedFor(s);
    }
  }
}
