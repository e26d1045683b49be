/**
 When a job stops too early.  A job stops when its count of active workers reaches zero,
 and workers are counted one by one as they are started; so a job can stop while workers
 are still to be started.  Whether that can happen depends only on the order of the stages:
 it cannot if and only if every proper prefix of the spawn order contains a worker that
 reads from a worker outside the prefix.
 */
module EarlyStop {
  import opened Payloads
  import opened Pipeline
  import opened PipelineSafety
  import opened PipelineLiveness
  import opened PipelineRefinement
  import opened PipelineChains
  import opened Sums

  /** The first k workers read only from queues that they alone write. */
  predicate SelfContained(c: Config, k: nat)
  {
    forall v, u, q :: 0 <= v < k && k <= u < |c.roles| && 0 <= q < |c.queues| && Reads(c, v, q) ==> !Writes(c, u, q)
  }

  /** No proper, non-empty prefix of the spawn order can run to its end by itself. */
  predicate Covered(c: Config)
  {
    forall k :: 0 < k < |c.roles| ==> !SelfContained(c, k)
  }

  // ---------------------------------------------------------------- covered orders never stop early

  /** A reader whose producer has not started is still running. */
  lemma ReaderWaits(c: Config, s: State, v: nat, u: nat, q: nat)
    requires Inv(c, s) && !s.stop && v < s.spawned <= u < |c.roles| && q < |c.queues|
    requires Reads(c, v, q) && Writes(c, u, q)
    ensures InRunner(s.workers[v].pc)
  {
    assert u in Pending(c, s, q);
    assert !s.queues[q].closed;
    assert Settled(c, s, v);
  }

  /** A worker that has yet to count itself down shows that a late stop has not come. */
  lemma NotStopped(c: Config, env: Env, s: State, w: nat)
    requires Inv(c, s) && StopsLate(c, env, s) && !s.early && w < |c.roles| && s.workers[w].pc.AtRelease?
    ensures !s.stop
  {
  }

  lemma UncoveredReader(c: Config, s: State) returns (v: nat)
    requires Covered(c) && Inv(c, s) && !s.stop && 0 < s.spawned < |c.roles|
    ensures v < |c.roles| && InRunner(s.workers[v].pc)
  {
    assert !SelfContained(c, s.spawned);
    var u, q;
    v, u, q :| 0 <= v < s.spawned && s.spawned <= u < |c.roles| && 0 <= q < |c.queues| && Reads(c, v, q) && Writes(c, u, q);
    ReaderWaits(c, s, v, u, q);
  }

  lemma CoveredStep(c: Config, env: Env, s: State, w: nat)
    requires Covered(c) && Inv(c, s) && StopsLate(c, env, s) && !s.early
    requires w < |c.roles| && s.workers[w].pc.AtRelease? && s.active == 1
    ensures s.spawned == |c.roles|
  {
    NotStopped(c, env, s, w);
    if s.spawned < |c.roles| {
      var v := UncoveredReader(c, s);
      TwoMembers(Live(s), v, w);
    }
  }

  lemma CoveredRunStep(c: Config, env: Env, r: Run, i: nat)
    requires CleanRun(c, env, r) && i < |r.labels| && Covered(c) && !r.states[i].early
    ensures !r.states[i + 1].early
  {
    CleanInv(c, env, r, i);
    CleanStepAt(c, env, r, i);
    EarlyStep(c, env, r.states[i], r.labels[i], r.states[i + 1]);
  }

  lemma {:induction false} CoveredRun(c: Config, env: Env, r: Run, n: nat)
    requires CleanRun(c, env, r) && n < |r.states| && Covered(c)
    ensures !r.states[n].early
    decreases n
  {
    if n > 0 {
      CoveredRun(c, env, r, n - 1);
      CoveredRunStep(c, env, r, n - 1);
    }
  }

  lemma EarlyStep(c: Config, env: Env, s: State, l: Label, s': State)
    requires Covered(c) && Inv(c, s) && StopsLate(c, env, s) && !s.early && c.job && |env.script| == |c.roles|
    requires Next(c, s, l, s') && CleanLabel(env, s, l)
    ensures !s'.early
  {
    match l
    case Worked(w, o) =>
      WorkStops(c, env, s, w, o);
      if s'.early {
        CoveredStep(c, env, s, w);
      }
    case Mained =>
  }

  /** In a covered spawn order every clean job run that stops has drained. */
  lemma CoveredJobDrains(c: Config, env: Env, r: Run, n: nat)
    requires CleanRun(c, env, r) && n < |r.states| && Covered(c) && r.states[n].stop
    ensures var s := r.states[n];
            && Shaped(c, s)
            && (forall w :: 0 <= w < |c.roles| ==> PastRunner(s.workers[w].pc) && s.workers[w].refused == [])
            && (forall w :: 0 <= w < |c.roles| && c.roles[w].Source? ==> s.workers[w].made == env.script[w])
            && (forall w, q :: 0 <= w < |c.roles| && 0 <= q < |c.queues| && Reads(c, w, q) ==>
                  s.queues[q].items == [] && s.queues[q].pushed == s.queues[q].popped)
  {
    CoveredRun(c, env, r, n);
    JobDrains(c, env, r, n);
  }

  // ---------------------------------------------------------------- uncovered orders can stop early

  /** Until an early stop, workers still to be started keep a released job active. */
  predicate StillActive(c: Config, s: State)
  {
    && Shaped(c, s)
    && (!s.early && s.spawned < |c.roles| && (exists w :: 0 <= w < |s.workers| && !Counted(s.workers[w].pc) && !s.workers[w].pc.Unborn?)
        ==> s.active > 0)
  }

  lemma ActiveStep(c: Config, env: Env, s: State, l: Label, s': State)
    requires Inv(c, s) && StillActive(c, s) && c.job && |env.script| == |c.roles|
    requires Next(c, s, l, s') && CleanLabel(env, s, l)
    ensures StillActive(c, s')
  {
    LocatedStep(c, s, l, s');
    match l
    case Worked(w, o) =>
      WorkFramed(c, s, w, o);
      WorkCounters(c, s, w, o);
      WorkStops(c, env, s, w, o);
      ActiveWork(c, s, s', w);
    case Mained => OtherManaged(c, s, l, s');
  }

  lemma ActiveWork(c: Config, s: State, s': State, w: nat)
    requires Located(c, s) && Counts(c, s) && StillActive(c, s) && Shaped(c, s') && w < |c.roles| && Framed(s, s', w)
    requires s'.active == s.active - (if s.workers[w].pc.AtRelease? then 1 else 0)
    requires Counted(s.workers[w].pc) == (Counted(s'.workers[w].pc) || s.workers[w].pc.AtRelease?)
    requires s'.early <==> s.early || (s.workers[w].pc.AtRelease? && s.active == 1 && s.spawned < |c.roles|)
    requires !s.workers[w].pc.Unborn?
    ensures StillActive(c, s')
  {
    if s.workers[w].pc.AtRelease? {
      assert w in Live(s);
    } else if v :| 0 <= v < |s'.workers| && !Counted(s'.workers[v].pc) && !s'.workers[v].pc.Unborn? {
      assert !Counted(s.workers[v].pc);
    }
  }

  /** A clean run so far, with everything the constructions need to go on. */
  ghost predicate Going(c: Config, env: Env, r: Run)
  {
    && CleanRun(c, env, r)
    && var s := r.Last();
       Inv(c, s) && AllFaithful(c, env, s) && StopsLate(c, env, s) && StillActive(c, s)
  }

  lemma GoInit(c: Config, env: Env) returns (r: Run)
    requires ValidConfig(c) && c.job && |env.script| == |c.roles|
    ensures Going(c, env, r) && r.Last() == Init(c)
  {
    r := Run([Init(c)], []);
    assert IsRun(c, r);
    CleanInv(c, env, r, 0);
  }

  lemma GoOn(c: Config, env: Env, r: Run, l: Label, s': State) returns (r': Run)
    requires Going(c, env, r) && Next(c, r.Last(), l, s') && CleanLabel(env, r.Last(), l)
    ensures Going(c, env, r') && r'.Last() == s'
  {
    var s := r.Last();
    r' := CleanExtend(c, env, r, l, s');
    InvStep(c, s, l, s');
    RunReached(c, r);
    CleanStep(c, env, s, l, s');
    ActiveStep(c, env, s, l, s');
  }

  lemma RunReached(c: Config, r: Run)
    requires IsRun(c, r)
    ensures Reached(c, r.Last())
  {
    assert IsRun(c, r) && r.states[|r.labels|] == r.Last();
  }

  /** Nothing has been done yet but starting threads. */
  predicate Untouched(c: Config, s: State)
  {
    && Shaped(c, s) && !s.early && !s.stop
    && (forall w :: 0 <= w < |s.workers| ==> s.workers[w].(pc := Unborn) == FRESH_WORKER)
    && (forall w :: 0 <= w < |s.workers| ==> s.workers[w].pc.Unborn? || s.workers[w].pc.Top?)
    && (forall q :: 0 <= q < |s.queues| ==> s.queues[q].items == [])
  }

  /** Main alone can start the first k workers. */
  lemma StartSome(c: Config, env: Env, r: Run, k: nat) returns (r': Run)
    requires Going(c, env, r) && k < |c.roles| && Spawning(r.Last().main) && Untouched(c, r.Last())
    requires r.Last().spawned < k || (r.Last().spawned == k && r.Last().main.Wiring?)
    ensures Going(c, env, r') && r'.Last().main.Wiring? && r'.Last().spawned == k && Untouched(c, r'.Last())
    decreases MainRank(c, r.Last())
  {
    var s := r.Last();
    if s.spawned == k {
      r' := r;
    } else {
      MainRankDrops(c, s, Mained, Main(c, s));
      var next := GoOn(c, env, r, Mained, Main(c, s));
      r' := StartSome(c, env, next, k);
    }
  }

  lemma Start(c: Config, env: Env, k: nat) returns (r: Run)
    requires ValidConfig(c) && c.job && |env.script| == |c.roles| && 0 < k < |c.roles|
    ensures Going(c, env, r) && r.Last().main.Wiring? && r.Last().spawned == k && Untouched(c, r.Last())
  {
    r := GoInit(c, env);
    r := StartSome(c, env, r, k);
  }

  // ---------------------------------------------------------------- the first k workers, alone

  /** The first k workers have nothing left to do but to end. */
  ghost predicate Spent(c: Config, env: Env, k: nat, s: State)
  {
    && Shaped(c, s) && |env.script| == |c.roles| && k <= |c.roles|
    && (forall w :: 0 <= w < k ==> InHand(s.workers[w].pc) == 0)
    && (forall w :: 0 <= w < k && c.roles[w].Source? ==> s.workers[w].made == env.script[w])
    && (forall w :: 0 <= w < k && !c.roles[w].Source? ==> s.queues[c.roles[w].inq].items == [])
  }

  /** The queues hold what they held. */
  predicate SameItems(s: State, s': State)
  {
    |s'.queues| == |s.queues| && forall q :: 0 <= q < |s.queues| ==> s'.queues[q].items == s.queues[q].items
  }

  lemma SpentWork(c: Config, env: Env, s: State, k: nat, w: nat, o: Outcome)
    requires Placed(c, s) && Spent(c, env, k, s) && w < k && CanWork(c, s, w)
    requires PossibleOutcome(s.workers[w].pc, o) && CleanOutcome(env, w, s.workers[w], o)
    ensures Spent(c, env, k, Work(c, s, w, o)) && SameItems(s, Work(c, s, w, o))
  {
    var (x, e) := Act(c, s, w, o);
    assert !e.Enqueue? && !e.Dequeue? && x.made == s.workers[w].made && InHand(x.pc) == 0;
    SpentApply(c, s, w, e);
    WorkFramed(c, s, w, o);
    WorkIs(c, s, w, o);
  }

  lemma SpentApply(c: Config, s: State, w: nat, e: Effect)
    requires Placed(c, s) && w < |c.roles| && CanApply(c, s, w, e) && !e.Enqueue? && !e.Dequeue?
    ensures SameItems(s, Apply(c, s, w, e))
  {
  }

  lemma WorkIs(c: Config, s: State, w: nat, o: Outcome)
    requires Placed(c, s) && w < |c.roles| && CanWork(c, s, w) && PossibleOutcome(s.workers[w].pc, o)
    ensures var (x, e) := Act(c, s, w, o);
            var s' := Work(c, s, w, o);
            |s'.workers| == |s.workers| && s'.workers[w] == x && s'.queues == Apply(c, s, w, e).queues
  {
  }

  /** A spent worker that waits for its input waits for a worker that can move. */
  lemma SpentWaitMoves(c: Config, env: Env, level: seq<nat>, top: nat, s: State, k: nat, w: nat)
    requires Inv(c, s) && Spent(c, env, k, s) && !s.stop && FullyWired(c) && Acyclic(c, level)
    requires forall q :: 0 <= q < |level| ==> level[q] <= top
    requires s.spawned == k <= |c.roles| && SelfContained(c, k)
    requires w < k && s.workers[w].pc.AtPop?
    ensures exists v :: 0 <= v < k && CanWork(c, s, v)
    decreases top - level[c.roles[w].inq]
  {
    var q := c.roles[w].inq;
    assert Reads(c, w, q);
    if !CanWork(c, s, w) {
      var v := LiveProducer(c, s, q);
      assert v < k;
      if !CanWork(c, s, v) {
        SpentWaitMoves(c, env, level, top, s, k, v);
      }
    }
  }

  /** Before an early stop one of the workers started so far is still counted. */
  lemma StillCounted(c: Config, s: State, k: nat) returns (w: nat)
    requires Located(c, s) && Counts(c, s) && StillActive(c, s) && !s.early
    requires s.main.Wiring? && 0 < k == s.spawned < |c.roles|
    ensures w < k && Counted(s.workers[w].pc)
  {
    if Counted(s.workers[0].pc) {
      w := 0;
    } else {
      assert s.active > 0;
      w :| w in Live(s);
    }
  }

  /** Until the job stops early, one of the first k workers can move. */
  lemma PrefixMoves(c: Config, env: Env, level: seq<nat>, s: State, k: nat)
    requires Inv(c, s) && Spent(c, env, k, s) && StillActive(c, s) && !s.stop && !s.early
    requires s.main.Wiring? && 0 < k == s.spawned < |c.roles| && SelfContained(c, k)
    requires FullyWired(c) && Acyclic(c, level)
    ensures exists v :: 0 <= v < k && CanWork(c, s, v)
  {
    var w := StillCounted(c, s, k);
    if s.workers[w].pc.AtPop? {
      SpentWaitMoves(c, env, level, PipelineLiveness.Top(level), s, k, w);
    } else {
      assert CanWork(c, s, w);
    }
  }

  /** With a worker still to be started, a clean job that is not early has not stopped. */
  lemma NotYet(c: Config, env: Env, s: State)
    requires Located(c, s) && StopsLate(c, env, s) && !s.early && s.spawned < |c.roles|
    ensures !s.stop
  {
    assert s.workers[s.spawned].pc.Unborn?;
  }

  /** Run the first k workers alone, when they are spent: they end, and the last is about to stop the job. */
  lemma RunPrefixAlone(c: Config, env: Env, level: seq<nat>, r: Run, k: nat) returns (r': Run, w: nat)
    requires Going(c, env, r) && FullyWired(c) && Acyclic(c, level) && !r.Last().early
    requires r.Last().main.Wiring? && 0 < k == r.Last().spawned < |c.roles| && SelfContained(c, k)
    requires Spent(c, env, k, r.Last())
    ensures Going(c, env, r') && r'.Last().early && r'.Last().main.Wiring? && r'.Last().spawned == k
    ensures w < k && r'.Last().workers[w].pc.AtStop? && SameItems(r.Last(), r'.Last())
    decreases SpentMeasure(c, env, level, r.Last())
  {
    var s := r.Last();
    NotYet(c, env, s);
    PrefixMoves(c, env, level, s, k);
    w :| 0 <= w < k && CanWork(c, s, w);
    var o := if s.workers[w].pc.AtProduce? then EndOfStream else Plain;
    var s' := Work(c, s, w, o);
    WorkFramed(c, s, w, o);
    WorkStops(c, env, s, w, o);
    SpentWork(c, env, s, k, w, o);
    r' := GoOn(c, env, r, Worked(w, o), s');
    if !s'.early {
      SpentPays(c, env, level, s, w, o);
      r', w := RunPrefixAlone(c, env, level, r', k);
    }
  }

  function Limits(c: Config, env: Env): seq<nat>
  {
    seq(|env.script|, w requires 0 <= w < |env.script| => |env.script[w]|)
  }

  ghost function SpentMeasure(c: Config, env: Env, level: seq<nat>, s: State): int
  {
    if Located(c, s) && |level| == |c.queues| && |env.script| == |c.roles| then Measure(c, level, Limits(c, env), s) else 0
  }

  lemma SpentPays(c: Config, env: Env, level: seq<nat>, s: State, w: nat, o: Outcome)
    requires Located(c, s) && AllBalanced(c, s) && AllFaithful(c, env, s) && Acyclic(c, level)
    requires w < |c.roles| && CanWork(c, s, w) && PossibleOutcome(s.workers[w].pc, o)
    requires s.workers[w].pc.AtProduce? ==> o.EndOfStream?
    ensures 0 <= SpentMeasure(c, env, level, Work(c, s, w, o)) < SpentMeasure(c, env, level, s)
  {
    var limit := Limits(c, env);
    forall v | 0 <= v < |s.workers|
      ensures |s.workers[v].made| <= limit[v]
    {
      assert Faithful(c, env, v, s.workers[v]) && Balanced(c.roles[v], s.workers[v]);
    }
    LocatedWork(c, s, w, o);
    WorkPays(c, level, limit, s, w, o);
    MeasureNonNegative(c, level, limit, Work(c, s, w, o));
  }

  /** Sources that end at once. */
  function DryEnv(c: Config): Env
  {
    Env(seq(|c.roles|, _ => []), (w, ps, p) => p)
  }

  /** If some proper prefix of the spawn order is self-contained, a clean run can stop early. */
  lemma UncoveredCanStopEarly(c: Config, level: seq<nat>, k: nat) returns (r: Run)
    requires ValidConfig(c) && c.job && FullyWired(c) && Acyclic(c, level)
    requires 0 < k < |c.roles| && SelfContained(c, k)
    ensures CleanRun(c, DryEnv(c), r) && r.Last().early
  {
    r := Start(c, DryEnv(c), k);
    var last;
    r, last := RunPrefixAlone(c, DryEnv(c), level, r, k);
  }

  /**
   Over acyclic, fully wired jobs, the count of active workers touches zero in some clean run
   before all workers are started if and only if the spawn order is not covered.
   */
  lemma EarlyStopExactly(c: Config, level: seq<nat>)
    requires ValidConfig(c) && c.job && FullyWired(c) && Acyclic(c, level)
    ensures (exists env: Env, r: Run :: CleanRun(c, env, r) && r.Last().early) <==> !Covered(c)
  {
    if !Covered(c) {
      var k :| 0 < k < |c.roles| && SelfContained(c, k);
      var r := UncoveredCanStopEarly(c, level, k);
      assert CleanRun(c, DryEnv(c), r);
    } else {
      forall env: Env, r: Run | CleanRun(c, env, r)
        ensures !r.Last().early
      {
        CoveredRun(c, env, r, |r.labels|);
      }
    }
  }
}
