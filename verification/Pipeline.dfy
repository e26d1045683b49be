/**
 The runtime as a transition system: one main thread (Runtime::run) and one thread
 per worker, over any number of stages, queues and threads.  Each step is one access
 to shared state: an atomic, a locked section, or a call into a stage.  A blocked
 push, pop, join or poll of the stop flag is a step that is not enabled.
 */
module Pipeline {
  import opened Options
  import opened Payloads

  // ---------------------------------------------------------------- configuration

  /** What a worker of a stage does, with the queues its stage is wired to. */
  datatype Role =
    | Source(outq: nat)
    | Transform(inq: nat, outq: nat)
    | Sink(inq: nat)

  datatype QueueConfig = QueueConfig(capacity: nat, schemaId: string)

  /**
   A wired flow.  Workers are listed in spawn order, stage by stage; stageOf[w] is the
   stage that worker w belongs to.  job is the run-to-completion mode.
   */
  datatype Config = Config(job: bool, queues: seq<QueueConfig>, roles: seq<Role>, stageOf: seq<nat>)

  predicate ValidConfig(c: Config)
  {
    && |c.stageOf| == |c.roles|
    && (forall q :: 0 <= q < |c.queues| ==> c.queues[q].capacity > 0)
    && (forall w :: 0 <= w < |c.roles| ==> ValidRole(c, c.roles[w]))
  }

  predicate ValidRole(c: Config, r: Role)
  {
    && (!r.Sink? ==> r.outq < |c.queues|)
    && (!r.Source? ==> r.inq < |c.queues|)
  }

  predicate Writes(c: Config, w: nat, q: nat)
  {
    w < |c.roles| && !c.roles[w].Sink? && c.roles[w].outq == q
  }

  predicate Reads(c: Config, w: nat, q: nat)
  {
    w < |c.roles| && !c.roles[w].Source? && c.roles[w].inq == q
  }

  function Producers(c: Config, q: nat): set<nat>
  {
    set w: nat | w < |c.roles| && Writes(c, w, q)
  }

  // ---------------------------------------------------------------- state

  datatype Queue = Queue(items: seq<Payload>, closed: bool, remaining: int,
                         pushed: seq<Payload>, popped: seq<Payload>)

  /** Where a worker thread stands; the payload it holds is part of its place. */
  datatype Pc =
    | Unborn                      // thread not started
    | Top                         // about to test the stop flag
    | AtProduce                   // in produce()
    | AtPop                       // about to pop
    | AtProcess(hand: Payload)    // in process()
    | AtConsume(hand: Payload)    // in consume()
    | AtPush(hand: Payload)       // about to push
    | AtCloseIn                   // process() threw: about to close the input queue
    | AtDrop                      // runner returned: about to count down the producers
    | AtCloseOut                  // last producer: about to close the output queue
    | AtDestroy                   // about to destroy the stage instance
    | AtRelease                   // about to count down the active workers
    | AtStop                      // last worker of a job: about to request stop
    | Done

  datatype Metrics = Metrics(dequeues: nat, enqueues: nat, errors: nat, latencies: nat)

  /** A worker: its place, its metric counters, and the history of what passed through it. */
  datatype Worker = Worker(pc: Pc, metrics: Metrics,
                           made: seq<Payload>,     // returned by produce()
                           got: seq<Payload>,      // popped
                           sent: seq<Payload>,     // pushed
                           eaten: seq<Payload>,    // consumed by a sink
                           dropped: seq<Payload>,  // schema errors
                           refused: seq<Payload>,  // push returned false
                           thrown: seq<Payload>)   // lost to a throwing stage

  /**
   A stage instance: whether the registry holds it, how often it was destroyed, and whether the
   registry lost it because its configure() threw before it was registered.
   */
  datatype Instance = Instance(registered: bool, destroys: nat, leaked: bool)

  datatype MainPc =
    | Wiring                              // creating and spawning
    | Bumped                              // active count raised, thread not yet started
    | Check                               // spawn loop over: job with no active worker?
    | Monitor                             // waiting for the stop flag
    | Abort                               // in the catch block, about to request stop
    | Closing(next: nat, failed: bool)
    | Joining(next: nat, failed: bool)
    | ShuttingDown(failed: bool)
    | Finished(failed: bool)

  datatype State = State(stop: bool, early: bool, active: int,
                         created: nat, spawned: nat, main: MainPc,
                         queues: seq<Queue>, workers: seq<Worker>, instances: seq<Instance>,
                         unloads: nat)

  const FRESH_WORKER := Worker(Unborn, Metrics(0, 0, 0, 0), [], [], [], [], [], [], [])

  function Init(c: Config): State
  {
    State(false, false, 0, 0, 0, Wiring,
          seq(|c.queues|, q requires 0 <= q < |c.queues| => Queue([], false, |Producers(c, q)|, [], [])),
          seq(|c.roles|, _ => FRESH_WORKER),
          seq(|c.roles|, _ => Instance(false, 0, false)),
          0)
  }

  /** The container sizes every reachable state has. */
  predicate Shaped(c: Config, s: State)
  {
    && ValidConfig(c)
    && |s.queues| == |c.queues|
    && |s.workers| == |c.roles|
    && |s.instances| == |c.roles|
    && s.spawned <= s.created <= |c.roles|
  }

  /** The places a worker of a role can be in. */
  predicate Fits(r: Role, pc: Pc)
  {
    match pc
    case AtProduce => r.Source?
    case AtPop => !r.Source?
    case AtProcess(_) => r.Transform?
    case AtConsume(_) => r.Sink?
    case AtPush(_) => !r.Sink?
    case AtCloseIn => r.Transform?
    case AtDrop => !r.Sink?
    case AtCloseOut => !r.Sink?
    case _ => true
  }

  predicate Placed(c: Config, s: State)
  {
    && Shaped(c, s)
    && (forall w :: 0 <= w < |s.workers| ==> Fits(c.roles[w], s.workers[w].pc))
  }

  // ---------------------------------------------------------------- worker steps

  /** What the called stage does; Plain for steps that call no stage. */
  datatype Outcome = Plain | Yield(value: Payload) | EndOfStream | Throw

  /** A worker step's effect on what it shares with the other threads. */
  datatype Effect =
    | Quiet
    | Halt
    | Enqueue(item: Payload)
    | Dequeue
    | CloseInput
    | CloseOutput
    | DropProducer
    | Destroy
    | Release

  /** Effects on a queue need the role to have that queue. */
  predicate CanApply(c: Config, s: State, w: nat, e: Effect)
    requires Placed(c, s) && w < |c.roles|
  {
    && (e.Enqueue? || e.CloseOutput? || e.DropProducer? ==> !c.roles[w].Sink?)
    && (e.Dequeue? || e.CloseInput? ==> !c.roles[w].Source?)
    && (e.Dequeue? ==> s.queues[c.roles[w].inq].items != [])
  }

  predicate PossibleOutcome(pc: Pc, o: Outcome)
  {
    match pc
    case AtProduce => !o.Plain?
    case AtProcess(_) => o.Yield? || o.Throw?
    case AtConsume(_) => o.Plain? || o.Throw?
    case _ => o.Plain?
  }

  /** The guard of the next step of worker w: only push and pop can wait. */
  predicate CanWork(c: Config, s: State, w: nat)
    requires Placed(c, s) && w < |c.roles|
  {
    match s.workers[w].pc
    case Unborn => false
    case Done => false
    case AtPush(_) =>
      var q := s.queues[c.roles[w].outq];
      s.stop || q.closed || |q.items| < c.queues[c.roles[w].outq].capacity
    case AtPop =>
      var q := s.queues[c.roles[w].inq];
      s.stop || q.closed || q.items != []
    case _ => true
  }

  /** Where a worker goes when its runner returns: sinks have no output queue to count down. */
  function Leave(r: Role): Pc
  {
    if r.Sink? then AtDestroy else AtDrop
  }

  /** One step of worker w: its new local state and the effect on shared state. */
  function Act(c: Config, s: State, w: nat, o: Outcome): (r: (Worker, Effect))
    requires Placed(c, s) && w < |c.roles| && CanWork(c, s, w)
    requires PossibleOutcome(s.workers[w].pc, o)
    ensures CanApply(c, s, w, r.1) && Fits(c.roles[w], r.0.pc) && !r.0.pc.Unborn?
  {
    var role := c.roles[w];
    var x := s.workers[w];
    match x.pc
    case Top =>
      (x.(pc := if s.stop then Leave(role) else if role.Source? then AtProduce else AtPop), Quiet)
    case AtProduce => Produce(c, role, x, o)
    case AtPop =>
      var q := s.queues[role.inq];
      if q.items != [] then (Take(c, role, x, q.items[0]), Dequeue) else (x.(pc := Leave(role)), Quiet)
    case AtProcess(p) => Process(c, role, x, p, o)
    case AtConsume(p) => Consume(x, p, o)
    case AtPush(p) =>
      if s.stop || s.queues[role.outq].closed then
        (x.(pc := AtDrop, refused := x.refused + [p]), Quiet)
      else
        (x.(pc := Top, sent := x.sent + [p], metrics := x.metrics.(enqueues := x.metrics.enqueues + 1)), Enqueue(p))
    case AtCloseIn => (x.(pc := AtDrop), CloseInput)
    case AtDrop => (x.(pc := if s.queues[role.outq].remaining == 1 then AtCloseOut else AtDestroy), DropProducer)
    case AtCloseOut => (x.(pc := AtDestroy), CloseOutput)
    case AtDestroy => (x.(pc := AtRelease), Destroy)
    case AtRelease => (x.(pc := if c.job && s.active == 1 then AtStop else Done), Release)
    case AtStop => (x.(pc := Done), Halt)
  }

  function Fail(x: Worker): Worker
  {
    x.(metrics := x.metrics.(errors := x.metrics.errors + 1))
  }

  function Succeed(x: Worker): Worker
  {
    x.(metrics := x.metrics.(latencies := x.metrics.latencies + 1))
  }

  /** The body of the source loop from produce() to the push. */
  function Produce(c: Config, role: Role, x: Worker, o: Outcome): (Worker, Effect)
    requires role.Source? && ValidRole(c, role) && !o.Plain?
  {
    match o
    case EndOfStream => (x.(pc := AtDrop), Quiet)
    case Throw => (Fail(x).(pc := AtDrop), Halt)
    case Yield(p) =>
      match Stamp(c.queues[role.outq].schemaId, p) {
        case None => (Fail(x).(pc := Top, made := x.made + [p], dropped := x.dropped + [p]), Quiet)
        case Some(p') => (Succeed(x).(pc := AtPush(p'), made := x.made + [p]), Quiet)
      }
  }

  /** A successful pop and the input validation that follows it. */
  function Take(c: Config, role: Role, x: Worker, p: Payload): Worker
    requires !role.Source? && ValidRole(c, role)
  {
    var y := x.(got := x.got + [p], metrics := x.metrics.(dequeues := x.metrics.dequeues + 1));
    if !AcceptsInput(c.queues[role.inq].schemaId, p) then Fail(y).(pc := Top, dropped := y.dropped + [p])
    else if role.Transform? then y.(pc := AtProcess(p))
    else y.(pc := AtConsume(p))
  }

  /** The body of the transform loop from process() to the push. */
  function Process(c: Config, role: Role, x: Worker, p: Payload, o: Outcome): (Worker, Effect)
    requires role.Transform? && ValidRole(c, role) && (o.Yield? || o.Throw?)
  {
    match o
    case Throw => (Fail(x).(pc := AtCloseIn, thrown := x.thrown + [p]), Halt)
    case Yield(out) =>
      match Stamp(c.queues[role.outq].schemaId, out) {
        case None => (Fail(Succeed(x)).(pc := Top, dropped := x.dropped + [out]), Quiet)
        case Some(out') => (Succeed(x).(pc := AtPush(out')), Quiet)
      }
  }

  /** The body of the sink loop after a successful pop. */
  function Consume(x: Worker, p: Payload, o: Outcome): (Worker, Effect)
    requires o.Plain? || o.Throw?
  {
    if o.Throw? then (Fail(x).(pc := AtDestroy, thrown := x.thrown + [p]), Halt)
    else (Succeed(x).(pc := Top, eaten := x.eaten + [p]), Quiet)
  }

  /** Is the spawn loop still running? */
  predicate Spawning(m: MainPc)
  {
    m.Wiring? || m.Bumped?
  }

  function SetQueue(s: State, q: nat, queue: Queue): State
    requires q < |s.queues|
  {
    s.(queues := s.queues[q := queue])
  }

  /** The shared-state effect of a worker step. */
  function Apply(c: Config, s: State, w: nat, e: Effect): State
    requires Placed(c, s) && w < |c.roles| && CanApply(c, s, w, e)
  {
    var role := c.roles[w];
    match e
    case Quiet => s
    case Halt => s.(stop := true)
    case Enqueue(p) =>
      var q := s.queues[role.outq];
      SetQueue(s, role.outq, q.(items := q.items + [p], pushed := q.pushed + [p]))
    case Dequeue =>
      var q := s.queues[role.inq];
      SetQueue(s, role.inq, q.(items := q.items[1..], popped := q.popped + [q.items[0]]))
    case CloseInput => SetQueue(s, role.inq, s.queues[role.inq].(closed := true))
    case CloseOutput => SetQueue(s, role.outq, s.queues[role.outq].(closed := true))
    case DropProducer =>
      var q := s.queues[role.outq];
      SetQueue(s, role.outq, q.(remaining := q.remaining - 1))
    case Destroy =>
      s.(instances := s.instances[w := DestroyInstance(s.instances[w])])
    case Release =>
      // early records that the count reached zero while a worker was still to be started
      s.(active := s.active - 1, early := s.early || (s.active == 1 && s.spawned < |c.roles|))
  }

  /** StageRegistry::destroy_stage on one instance: a second call finds nothing. */
  function DestroyInstance(i: Instance): Instance
  {
    if i.registered then Instance(false, i.destroys + 1, i.leaked) else i
  }

  function Work(c: Config, s: State, w: nat, o: Outcome): State
    requires Placed(c, s) && w < |c.roles| && CanWork(c, s, w)
    requires PossibleOutcome(s.workers[w].pc, o)
  {
    var (x, e) := Act(c, s, w, o);
    Apply(c, s, w, e).(workers := s.workers[w := x])
  }

  // ---------------------------------------------------------------- main-thread steps

  /** Does the stage being wired still lack instances?  All are created before any thread starts. */
  predicate MustCreate(c: Config, s: State)
    requires Shaped(c, s)
  {
    s.created < |c.roles| && (s.created == s.spawned || c.stageOf[s.created] == c.stageOf[s.spawned])
  }

  predicate CanMain(c: Config, s: State)
    requires Shaped(c, s)
  {
    match s.main
    case Monitor => s.stop
    case Joining(j, _) => j < s.spawned ==> s.workers[j].pc.Done?
    case Bumped => s.spawned < |c.roles|
    case Finished(_) => false
    case _ => true
  }

  function Main(c: Config, s: State): State
    requires Shaped(c, s) && CanMain(c, s)
  {
    match s.main
    case Wiring =>
      if s.spawned == |c.roles| then s.(main := Check)
      else if MustCreate(c, s) then
        s.(created := s.created + 1, instances := s.instances[s.created := Instance(true, 0, false)])
      else s.(main := Bumped, active := s.active + 1)
    case Bumped =>
      s.(main := Wiring, spawned := s.spawned + 1,
         workers := s.workers[s.spawned := s.workers[s.spawned].(pc := Top)])
    case Check => s.(main := Monitor, stop := s.stop || (c.job && s.active == 0))
    case Monitor => s.(main := Closing(0, false))
    case Abort => s.(main := Closing(0, true), stop := true)
    case Closing(j, failed) =>
      if j < |s.queues| then SetQueue(s, j, s.queues[j].(closed := true)).(main := Closing(j + 1, failed))
      else s.(main := Joining(0, failed))
    case Joining(j, failed) =>
      s.(main := if j < s.spawned then Joining(j + 1, failed) else ShuttingDown(failed))
    case ShuttingDown(failed) =>
      s.(main := Finished(failed), unloads := s.unloads + 1,
         instances := seq(|s.instances|, i requires 0 <= i < |s.instances| => DestroyInstance(s.instances[i])))
  }

  /** The ways the wiring code throws. */
  datatype Fault =
    | CreateFails        // create_stage throws with no instance made
    | ConfigRejected     // configure() returns false: the instance is destroyed on the spot
    | ConfigureThrows    // configure() throws: the instance is neither registered nor destroyed
    | WiringFails        // the first instance of a stage is wired wrongly or is no stage
    | WorkerMistyped     // a later instance is of another kind
    | ThreadFails        // the thread cannot be started

  predicate CanFault(c: Config, s: State, f: Fault)
    requires Shaped(c, s)
  {
    match f
    case CreateFails => s.main.Wiring? && MustCreate(c, s)
    case ConfigRejected => s.main.Wiring? && MustCreate(c, s)
    case ConfigureThrows => s.main.Wiring? && MustCreate(c, s)
    case WiringFails => s.main.Wiring? && MustCreate(c, s) && s.created == s.spawned
    case WorkerMistyped => s.main.Wiring? && s.spawned < s.created && !MustCreate(c, s)
    case ThreadFails => s.main.Bumped?
  }

  /** The instances of the stage being wired, none of them started, are destroyed before the rethrow. */
  function DropStage(s: State): (r: seq<Instance>)
    ensures |r| == |s.instances|
  {
    seq(|s.instances|, i requires 0 <= i < |s.instances| =>
          if s.spawned <= i < s.created then DestroyInstance(s.instances[i]) else s.instances[i])
  }

  function Faulted(c: Config, s: State, f: Fault): State
    requires Shaped(c, s) && CanFault(c, s, f)
  {
    match f
    case CreateFails => s.(main := Abort, instances := DropStage(s))
    case ConfigRejected =>
      s.(main := Abort, created := s.created + 1, instances := DropStage(s)[s.created := Instance(false, 1, false)])
    case ConfigureThrows =>
      s.(main := Abort, created := s.created + 1, instances := DropStage(s)[s.created := Instance(false, 0, true)])
    case WiringFails =>
      s.(main := Abort, created := s.created + 1, instances := s.instances[s.created := Instance(false, 1, false)])
    case WorkerMistyped => s.(main := Abort)
    case ThreadFails => s.(main := Abort, active := s.active - 1)
  }

  // ---------------------------------------------------------------- runs

  datatype Label =
    | Worked(w: nat, o: Outcome)
    | Mained
    | Failed(f: Fault)
    | Interrupted      // a relayed signal, or a stage asking for stop

  predicate InStage(pc: Pc)
  {
    pc.AtProduce? || pc.AtProcess? || pc.AtConsume?
  }

  ghost predicate Next(c: Config, s: State, l: Label, s': State)
    requires Placed(c, s)
  {
    match l
    case Worked(w, o) =>
      && w < |c.roles|
      && CanWork(c, s, w)
      && PossibleOutcome(s.workers[w].pc, o)
      && s' == Work(c, s, w, o)
    case Mained => CanMain(c, s) && s' == Main(c, s)
    case Failed(f) => CanFault(c, s, f) && s' == Faulted(c, s, f)
    case Interrupted =>
      && !s.stop
      && (s.main.Monitor? || exists w :: 0 <= w < |s.workers| && InStage(s.workers[w].pc))
      && s' == s.(stop := true)
  }

  /** A finite run, complete or not: states joined by labelled steps, from the initial state. */
  datatype Run = Run(states: seq<State>, labels: seq<Label>) {
    function Last(): State
      requires states != []
    {
      states[|states| - 1]
    }
  }

  ghost predicate StepAt(c: Config, r: Run, i: nat)
    requires i < |r.labels| && |r.states| == |r.labels| + 1
  {
    Placed(c, r.states[i]) && Next(c, r.states[i], r.labels[i], r.states[i + 1])
  }

  ghost predicate IsRun(c: Config, r: Run)
  {
    && ValidConfig(c)
    && |r.states| == |r.labels| + 1
    && r.states[0] == Init(c)
    && (forall i :: 0 <= i < |r.labels| ==> StepAt(c, r, i))
  }

  lemma RunStep(c: Config, r: Run, i: nat)
    requires IsRun(c, r) && i < |r.labels|
    ensures Placed(c, r.states[i]) && Next(c, r.states[i], r.labels[i], r.states[i + 1])
  {
    assert StepAt(c, r, i);
  }
}
