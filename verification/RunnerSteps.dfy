/**
 One worker's runner, apart from the rest of the run: between two of its steps the other
 threads may leave the stop flag and the queues in any state at all.
 */
module RunnerSteps {
  import opened Options
  import opened Payloads
  import opened Pipeline
  import opened PipelineSafety

  /** What the others left before a step, and what the stage does if the step calls it. */
  datatype Move = Move(stop: bool, queues: seq<Queue>, outcome: Outcome)

  function Disturb(s: State, m: Move): State {
    s.(stop := m.stop, queues := m.queues)
  }

  /** A step that is not in a stage takes no outcome from it. */
  function OutcomeAt(pc: Pc, o: Outcome): Outcome {
    if InStage(pc) then o else Plain
  }

  /** Can the runner move: it has not returned, it need not wait, the called stage is done? */
  predicate Moves(c: Config, t: State, w: nat, o: Outcome)
    requires Placed(c, t) && w < |c.roles|
  {
    var pc := t.workers[w].pc;
    InRunner(pc) && CanWork(c, t, w) && PossibleOutcome(pc, OutcomeAt(pc, o))
  }

  lemma WorkPlaced(c: Config, s: State, w: nat, o: Outcome)
    requires Placed(c, s) && w < |c.roles| && CanWork(c, s, w) && PossibleOutcome(s.workers[w].pc, o)
    ensures Placed(c, Work(c, s, w, o))
  {
    WorkFramed(c, s, w, o);
    var (x, e) := Act(c, s, w, o);
    PlacedFramed(c, s, Work(c, s, w, o), w, x);
  }

  lemma PlacedFramed(c: Config, s: State, s': State, w: nat, x: Worker)
    requires Placed(c, s) && w < |c.roles| && Framed(s, s', w) && s'.workers[w] == x && Fits(c.roles[w], x.pc)
    ensures Placed(c, s')
  {
  }

  /** The runner's step, if it can move. */
  function Stepped(c: Config, t: State, w: nat, o: Outcome): (r: State)
    requires Placed(c, t) && w < |c.roles|
    ensures Placed(c, r)
  {
    if Moves(c, t, w, o) then
      WorkPlaced(c, t, w, OutcomeAt(t.workers[w].pc, o));
      Work(c, t, w, OutcomeAt(t.workers[w].pc, o))
    else t
  }

  function WithMe(s: State, w: nat, x: Worker): State
    requires w < |s.workers|
  {
    s.(workers := s.workers[w := x])
  }

  lemma SteppedTop(c: Config, t: State, w: nat, o: Outcome)
    requires Placed(c, t) && w < |c.roles| && t.workers[w].pc.Top?
    ensures var role, x := c.roles[w], t.workers[w];
            Stepped(c, t, w, o)
            == WithMe(t, w, x.(pc := if t.stop then Leave(role) else if role.Source? then AtProduce else AtPop))
  {
  }

  lemma SteppedPop(c: Config, t: State, w: nat, o: Outcome)
    requires Placed(c, t) && w < |c.roles| && t.workers[w].pc.AtPop?
    ensures var role, x := c.roles[w], t.workers[w];
            var q := t.queues[role.inq];
            Stepped(c, t, w, o)
            == if q.items != [] then
                 WithMe(SetQueue(t, role.inq, q.(items := q.items[1..], popped := q.popped + [q.items[0]])),
                        w, Take(c, role, x, q.items[0]))
               else if t.stop || q.closed then WithMe(t, w, x.(pc := Leave(role)))
               else t
  {
  }

  /** The worker after its push was taken, or refused. */
  function Pushed(x: Worker): Worker
    requires x.pc.AtPush?
  {
    x.(pc := Top, sent := x.sent + [x.pc.hand], metrics := x.metrics.(enqueues := x.metrics.enqueues + 1))
  }

  function Refused(x: Worker): Worker
    requires x.pc.AtPush?
  {
    x.(pc := AtDrop, refused := x.refused + [x.pc.hand])
  }

  lemma SteppedPush(c: Config, t: State, w: nat, o: Outcome)
    requires Placed(c, t) && w < |c.roles| && t.workers[w].pc.AtPush?
    ensures var role, x := c.roles[w], t.workers[w];
            var q := t.queues[role.outq];
            Stepped(c, t, w, o)
            == if t.stop || q.closed then WithMe(t, w, Refused(x))
               else if |q.items| < c.queues[role.outq].capacity then
                 WithMe(SetQueue(t, role.outq, q.(items := q.items + [x.pc.hand], pushed := q.pushed + [x.pc.hand])),
                        w, Pushed(x))
               else t
  {
  }

  /** Can a stage of this role answer a call in this way? */
  predicate Answers(r: Role, o: Outcome) {
    match r
    case Source(_) => !o.Plain?
    case Transform(_, _) => o.Yield? || o.Throw?
    case Sink(_) => o.Plain? || o.Throw?
  }

  /** The worker after its stage answered. */
  function Answered(c: Config, role: Role, x: Worker, o: Outcome): Worker
    requires ValidRole(c, role) && InStage(x.pc) && Fits(role, x.pc) && Answers(role, o)
  {
    match role
    case Source(_) => Produce(c, role, x, o).0
    case Transform(_, _) => Process(c, role, x, x.pc.hand, o).0
    case Sink(_) => Consume(x, x.pc.hand, o).0
  }

  lemma SteppedCall(c: Config, t: State, w: nat, o: Outcome)
    requires Placed(c, t) && w < |c.roles| && InStage(t.workers[w].pc)
    ensures var role, x := c.roles[w], t.workers[w];
            Stepped(c, t, w, o)
            == if !Answers(role, o) then t
               else WithMe(if o.Throw? then t.(stop := true) else t, w, Answered(c, role, x, o))
  {
  }

  lemma SteppedClose(c: Config, t: State, w: nat, o: Outcome)
    requires Placed(c, t) && w < |c.roles| && t.workers[w].pc.AtCloseIn?
    ensures var role, x := c.roles[w], t.workers[w];
            Stepped(c, t, w, o)
            == WithMe(SetQueue(t, role.inq, t.queues[role.inq].(closed := true)), w, x.(pc := AtDrop))
  {
  }

  predicate Movable(c: Config, m: Move) {
    |m.queues| == |c.queues|
  }

  predicate AllMovable(c: Config, ms: seq<Move>) {
    forall i :: 0 <= i < |ms| ==> Movable(c, ms[i])
  }

  /** The runner carried through a sequence of moves. */
  function Follow(c: Config, s: State, w: nat, ms: seq<Move>): (r: State)
    requires Placed(c, s) && w < |c.roles| && AllMovable(c, ms)
    ensures Placed(c, r)
  {
    if ms == [] then s
    else Stepped(c, Disturb(Follow(c, s, w, ms[..|ms| - 1]), ms[|ms| - 1]), w, ms[|ms| - 1].outcome)
  }

  /** The state in which a worker enters its runner, with nothing done yet. */
  function Entry(c: Config, w: nat): (s: State)
    requires ValidConfig(c) && w < |c.roles|
    ensures Placed(c, s) && s.workers[w] == FRESH_WORKER.(pc := Top)
  {
    Init(c).(workers := Init(c).workers[w := FRESH_WORKER.(pc := Top)])
  }

  // ---------------------------------------------------------------- every run is made of runner executions

  /** The move, if any, that a step of the run is for worker w. */
  function MoveAt(s: State, l: Label, w: nat): (ms: seq<Move>) {
    if l.Worked? && l.w == w then [Move(s.stop, s.queues, l.o)] else []
  }

  /** The moves worker w made in the first n steps of a run. */
  function MovesOf(r: Run, w: nat, n: nat): (ms: seq<Move>)
    requires |r.states| == |r.labels| + 1 && n <= |r.labels|
  {
    if n == 0 then [] else MovesOf(r, w, n - 1) + MoveAt(r.states[n - 1], r.labels[n - 1], w)
  }

  /** A runner step looks at the flag, the queues and the worker itself, and at nothing else. */
  lemma ActLocal(c: Config, s: State, t: State, w: nat, o: Outcome)
    requires Placed(c, s) && Placed(c, t) && w < |c.roles|
    requires s.stop == t.stop && s.queues == t.queues && s.workers[w] == t.workers[w]
    requires InRunner(s.workers[w].pc) && CanWork(c, s, w) && PossibleOutcome(s.workers[w].pc, o)
    ensures CanWork(c, t, w) && Act(c, t, w, o) == Act(c, s, w, o)
  {
  }

  lemma WorkIsActs(c: Config, s: State, w: nat, o: Outcome)
    requires Placed(c, s) && w < |c.roles| && CanWork(c, s, w) && PossibleOutcome(s.workers[w].pc, o)
    ensures |Work(c, s, w, o).workers| == |s.workers| && Work(c, s, w, o).workers[w] == Act(c, s, w, o).0
  {
  }

  /** The same worker up to the place, and at the same place as long as either is in the runner. */
  predicate InStep(f: Worker, x: Worker) {
    f.(pc := Top) == x.(pc := Top) && (InRunner(f.pc) || InRunner(x.pc) ==> f.pc == x.pc)
  }

  lemma LeavingIsIdle(c: Config, s: State, w: nat, o: Outcome)
    requires Placed(c, s) && w < |c.roles| && CanWork(c, s, w) && PossibleOutcome(s.workers[w].pc, o)
    requires !InRunner(s.workers[w].pc)
    ensures Act(c, s, w, o).0.(pc := Top) == s.workers[w].(pc := Top) && !InRunner(Act(c, s, w, o).0.pc)
  {
  }

  lemma InStepWork(c: Config, s: State, t: State, w: nat, o: Outcome)
    requires Placed(c, s) && Placed(c, t) && w < |c.roles|
    requires s.stop == t.stop && s.queues == t.queues && InStep(t.workers[w], s.workers[w])
    requires CanWork(c, s, w) && PossibleOutcome(s.workers[w].pc, o)
    ensures InStep(Stepped(c, t, w, o).workers[w], Act(c, s, w, o).0)
  {
    var pc := s.workers[w].pc;
    if InRunner(pc) {
      assert t.workers[w] == s.workers[w] by {
        assert t.workers[w] == t.workers[w].(pc := Top).(pc := pc);
        assert s.workers[w] == s.workers[w].(pc := Top).(pc := pc);
      }
      assert OutcomeAt(pc, o) == o;
      ActLocal(c, s, t, w, o);
      WorkIsActs(c, t, w, o);
    } else {
      LeavingIsIdle(c, s, w, o);
    }
  }

  /** The worker is where its own moves carry it; before it is started it has made none. */
  predicate Carried(c: Config, w: nat, ms: seq<Move>, x: Worker)
    requires ValidConfig(c) && w < |c.roles|
  {
    && AllMovable(c, ms)
    && if x.pc.Unborn? then x == FRESH_WORKER && ms == [] else InStep(Follow(c, Entry(c, w), w, ms).workers[w], x)
  }

  lemma CarriedOn(c: Config, s: State, w: nat, o: Outcome, ms: seq<Move>)
    requires Placed(c, s) && w < |c.roles| && CanWork(c, s, w) && PossibleOutcome(s.workers[w].pc, o)
    requires Carried(c, w, ms, s.workers[w])
    ensures Carried(c, w, ms + [Move(s.stop, s.queues, o)], Work(c, s, w, o).workers[w])
  {
    var m := Move(s.stop, s.queues, o);
    assert (ms + [m])[..|ms|] == ms;
    WorkIsActs(c, s, w, o);
    InStepWork(c, s, Disturb(Follow(c, Entry(c, w), w, ms), m), w, o);
  }

  lemma CarriedStill(c: Config, w: nat, ms: seq<Move>, x: Worker, y: Worker)
    requires ValidConfig(c) && w < |c.roles| && Carried(c, w, ms, x)
    requires y == x || (x.pc.Unborn? && y == x.(pc := Top))
    ensures Carried(c, w, ms, y)
  {
  }

  lemma OthersLeaveIt(c: Config, s: State, l: Label, s': State, w: nat)
    requires Located(c, s) && Next(c, s, l, s') && w < |c.roles| && !(l.Worked? && l.w == w)
    ensures |s'.workers| == |s.workers|
    ensures || s'.workers[w] == s.workers[w]
            || (s.workers[w].pc.Unborn? && s'.workers[w] == s.workers[w].(pc := Top))
  {
    match l
    case Worked(v, o) => WorkFramed(c, s, v, o);
    case _ => OtherManaged(c, s, l, s');
  }

  lemma CarriedStep(c: Config, s: State, l: Label, s': State, w: nat, ms: seq<Move>)
    requires Located(c, s) && Next(c, s, l, s') && w < |c.roles|
    requires Carried(c, w, ms, s.workers[w])
    ensures |s'.workers| == |s.workers|
    ensures Carried(c, w, ms + MoveAt(s, l, w), s'.workers[w])
  {
    if l.Worked? && l.w == w {
      WorkIsActs(c, s, w, l.o);
      CarriedOn(c, s, w, l.o, ms);
    } else {
      OthersLeaveIt(c, s, l, s', w);
      assert ms + [] == ms;
      CarriedStill(c, w, ms, s.workers[w], s'.workers[w]);
    }
  }

  /**
   In every run, every worker is carried from its start by its own moves alone: what the
   threads do together, each does as one execution of its runner among arbitrary neighbours.
   */
  lemma {:induction false} WorkerFollowsRunner(c: Config, r: Run, w: nat, n: nat)
    requires IsRun(c, r) && n < |r.states| && w < |c.roles|
    ensures |r.states[n].workers| == |c.roles| && Carried(c, w, MovesOf(r, w, n), r.states[n].workers[w])
    decreases n
  {
    if n > 0 {
      WorkerFollowsRunner(c, r, w, n - 1);
      OneStepCarries(c, r, w, n - 1, MovesOf(r, w, n - 1));
    }
  }

  lemma OneStepCarries(c: Config, r: Run, w: nat, i: nat, ms: seq<Move>)
    requires IsRun(c, r) && i < |r.labels| && w < |c.roles|
    requires |r.states[i].workers| == |c.roles| && Carried(c, w, ms, r.states[i].workers[w])
    ensures |r.states[i + 1].workers| == |c.roles|
    ensures Carried(c, w, ms + MoveAt(r.states[i], r.labels[i], w), r.states[i + 1].workers[w])
  {
    RunInv(c, r, i);
    RunStep(c, r, i);
    CarriedStep(c, r.states[i], r.labels[i], r.states[i + 1], w, ms);
  }

  /** A runner that has returned is not moved any more. */
  lemma {:induction false} ReturnedStays(c: Config, s: State, w: nat, ms: seq<Move>, n: nat)
    requires Placed(c, s) && w < |c.roles| && AllMovable(c, ms) && n <= |ms|
    requires !InRunner(Follow(c, s, w, ms[..n]).workers[w].pc)
    ensures Follow(c, s, w, ms).workers[w] == Follow(c, s, w, ms[..n]).workers[w]
    decreases |ms|
  {
    if n == |ms| {
      assert ms[..n] == ms;
    } else {
      assert ms[..|ms| - 1][..n] == ms[..n];
      ReturnedStays(c, s, w, ms[..|ms| - 1], n);
    }
  }
}
