/**
 Exactly when a job can end without having drained.  Over acyclic, fully wired jobs some clean
 run returns without error and undrained if and only if some first k workers of the spawn
 order read only from one another and leave something undone: a source among the others, or a
 queue they write and none of them reads.
 */
module DrainExact {
  import opened Options
  import opened Payloads
  import opened Pipeline
  import opened PipelineSafety
  import opened PipelineLiveness
  import opened PipelineRefinement
  import opened EarlyStop
  import opened RunnerSteps
  import opened Sums

  /** Every source delivered its script and every queue that is read is empty. */
  predicate Drained(c: Config, env: Env, s: State)
  {
    && Shaped(c, s) && |env.script| == |c.roles|
    && (forall w :: 0 <= w < |c.roles| && c.roles[w].Source? ==> s.workers[w].made == env.script[w])
    && (forall w, q :: 0 <= w < |c.roles| && 0 <= q < |c.queues| && Reads(c, w, q) ==> s.queues[q].items == [])
  }

  /** One of the first k workers writes the queue and none of them reads it. */
  predicate Abandoned(c: Config, k: nat, q: nat)
  {
    && (exists w :: 0 <= w < k && Writes(c, w, q))
    && (forall v :: 0 <= v < k ==> !Reads(c, v, q))
  }

  /** The first k workers can end by themselves and leave something undone. */
  predicate Leaky(c: Config, k: nat)
  {
    && 0 < k < |c.roles|
    && SelfContained(c, k)
    && (|| (exists u :: k <= u < |c.roles| && c.roles[u].Source?)
        || (exists q :: 0 <= q < |c.queues| && Abandoned(c, k, q)))
  }

  // ---------------------------------------------------------------- nothing leaks: every run drains

  /** All sources are done and nothing is anywhere. */
  predicate Emptied(c: Config, env: Env, s: State)
  {
    && Shaped(c, s) && |env.script| == |c.roles|
    && (forall q :: 0 <= q < |s.queues| ==> s.queues[q].items == [])
    && (forall w :: 0 <= w < |s.workers| ==> InHand(s.workers[w].pc) == 0)
    && (forall w :: 0 <= w < |s.workers| && c.roles[w].Source? ==>
          PastRunner(s.workers[w].pc) && s.workers[w].made == env.script[w])
  }

  lemma EmptiedWork(c: Config, env: Env, s: State, w: nat, o: Outcome)
    requires Located(c, s) && Emptied(c, env, s) && w < |c.roles| && CanWork(c, s, w)
    requires PossibleOutcome(s.workers[w].pc, o)
    ensures Emptied(c, env, Work(c, s, w, o))
  {
    var (x, e) := Act(c, s, w, o);
    assert !e.Enqueue? && !e.Dequeue? && x.made == s.workers[w].made && InHand(x.pc) == 0;
    assert PastRunner(s.workers[w].pc) ==> PastRunner(x.pc);
    SpentApply(c, s, w, e);
    LocatedWork(c, s, w, o);
    WorkFramed(c, s, w, o);
    WorkIs(c, s, w, o);
  }

  lemma EmptiedStep(c: Config, env: Env, s: State, l: Label, s': State)
    requires Located(c, s) && Emptied(c, env, s) && Next(c, s, l, s')
    ensures Emptied(c, env, s')
  {
    match l
    case Worked(w, o) => EmptiedWork(c, env, s, w, o);
    case _ =>
      LocatedStep(c, s, l, s');
      OtherManaged(c, s, l, s');
  }

  /** The moment the count of active workers touches zero with workers still to be started. */
  predicate ZeroMoment(c: Config, s: State, w: nat)
  {
    && Shaped(c, s) && w < |c.roles|
    && s.workers[w].pc.AtRelease? && s.active == 1 && s.spawned < |c.roles|
  }

  lemma LastIsAlone(c: Config, s: State, w: nat, v: nat)
    requires Inv(c, s) && ZeroMoment(c, s, w) && v < s.spawned <= |c.roles|
    ensures PastRunner(s.workers[v].pc)
  {
    if v in Live(s) && v != w {
      assert w in Live(s);
      TwoMembers(Live(s), v, w);
    }
  }

  /** All who were started are done, and they had read only from one another. */
  lemma ZeroIsSelfContained(c: Config, env: Env, s: State, w: nat)
    requires Inv(c, s) && StopsLate(c, env, s) && !s.early && ZeroMoment(c, s, w)
    ensures !s.stop && 0 < s.spawned && SelfContained(c, s.spawned)
    ensures forall v :: 0 <= v < s.spawned ==> PastRunner(s.workers[v].pc) && Complete(c, env, s, v)
  {
    NotStopped(c, env, s, w);
    forall v | 0 <= v < s.spawned
      ensures PastRunner(s.workers[v].pc)
    {
      LastIsAlone(c, s, w, v);
    }
    forall v, u, q | 0 <= v < s.spawned && s.spawned <= u < |c.roles| && 0 <= q < |c.queues| && Reads(c, v, q)
      ensures !Writes(c, u, q)
    {
      if Writes(c, u, q) {
        ReaderWaits(c, s, v, u, q);
      }
    }
  }

  /** A queue that none of the started workers writes has never held anything. */
  lemma UnwrittenEmpty(c: Config, s: State, q: nat)
    requires Inv(c, s) && q < |c.queues| && forall w :: 0 <= w < s.spawned ==> !Writes(c, w, q)
    ensures s.queues[q].items == []
  {
    forall w | 0 <= w < |s.workers|
      ensures SentTo(c, s, q)[w] == []
    {
      assert Balanced(c.roles[w], s.workers[w]);
      assert w >= s.spawned ==> s.workers[w] == FRESH_WORKER;
    }
    FlatEmpty(SentTo(c, s, q));
    assert multiset(s.queues[q].pushed) == multiset{};
    assert |s.queues[q].pushed| == |multiset(s.queues[q].pushed)|;
    assert QueueSound(c.queues[q].capacity, c.queues[q].schemaId, s.queues[q]);
  }

  /** Unless the flow leaks there, the moment finds everything done and empty. */
  lemma ZeroEmpties(c: Config, env: Env, s: State, w: nat)
    requires Inv(c, s) && StopsLate(c, env, s) && !s.early && ZeroMoment(c, s, w)
    requires !Leaky(c, s.spawned)
    ensures Emptied(c, env, s)
  {
    var k := s.spawned;
    ZeroIsSelfContained(c, env, s, w);
    forall q | 0 <= q < |s.queues|
      ensures s.queues[q].items == []
    {
      assert !Abandoned(c, k, q);
      if v :| 0 <= v < k && Reads(c, v, q) {
        assert Complete(c, env, s, v);
      } else {
        UnwrittenEmpty(c, s, q);
      }
    }
    forall v | 0 <= v < |s.workers|
      ensures InHand(s.workers[v].pc) == 0
      ensures c.roles[v].Source? ==> PastRunner(s.workers[v].pc) && s.workers[v].made == env.script[v]
    {
      if v < k {
        assert Complete(c, env, s, v);
      } else {
        assert !c.roles[v].Source?;
      }
    }
  }

  /** An early stop of a flow that does not leak comes when everything is done. */
  lemma EarlyEmpties(c: Config, env: Env, s: State, l: Label, s': State)
    requires Reached(c, s) && Placed(c, s) && StopsLate(c, env, s) && !s.early && c.job
    requires Next(c, s, l, s') && CleanLabel(env, s, l) && s'.early && forall k :: !Leaky(c, k)
    ensures Emptied(c, env, s')
  {
    ReachedInv(c, s);
    match l
    case Worked(w, o) =>
      WorkStops(c, env, s, w, o);
      ZeroEmpties(c, env, s, w);
      EmptiedStep(c, env, s, l, s');
    case Mained =>
  }

  lemma {:induction false} EarlyIsEmptied(c: Config, env: Env, r: Run, n: nat)
    requires CleanRun(c, env, r) && n < |r.states| && forall k :: !Leaky(c, k)
    ensures r.states[n].early ==> Emptied(c, env, r.states[n])
    decreases n, 1
  {
    if n > 0 {
      EarlyIsEmptiedAfter(c, env, r, n - 1);
    }
  }

  lemma {:induction false} EarlyIsEmptiedAfter(c: Config, env: Env, r: Run, i: nat)
    requires CleanRun(c, env, r) && i < |r.labels| && forall k :: !Leaky(c, k)
    ensures r.states[i + 1].early ==> Emptied(c, env, r.states[i + 1])
    decreases i + 1, 0
  {
    EarlyIsEmptied(c, env, r, i);
    CleanInv(c, env, r, i);
    CleanStepAt(c, env, r, i);
    ReachedStep(c, r, i);
    if r.states[i].early {
      EmptiedStep(c, env, r.states[i], r.labels[i], r.states[i + 1]);
    } else if r.states[i + 1].early {
      EarlyEmpties(c, env, r.states[i], r.labels[i], r.states[i + 1]);
    }
  }

  lemma EmptiedIsDrained(c: Config, env: Env, s: State)
    requires Emptied(c, env, s)
    ensures Drained(c, env, s)
  {
  }

  lemma LateIsDrained(c: Config, env: Env, s: State)
    requires Shaped(c, s) && StopsLate(c, env, s) && s.stop && !s.early
    ensures Drained(c, env, s)
  {
    forall w | 0 <= w < |c.roles| && c.roles[w].Source?
      ensures s.workers[w].made == env.script[w]
    {
      assert Complete(c, env, s, w);
    }
    forall w, q | 0 <= w < |c.roles| && 0 <= q < |c.queues| && Reads(c, w, q)
      ensures s.queues[q].items == []
    {
      assert Complete(c, env, s, w);
    }
  }

  /** A job that does not leak has drained whenever it has stopped. */
  lemma UnleakyDrains(c: Config, env: Env, r: Run, n: nat)
    requires CleanRun(c, env, r) && n < |r.states| && r.states[n].stop && forall k :: !Leaky(c, k)
    ensures Drained(c, env, r.states[n])
  {
    if r.states[n].early {
      EarlyIsEmptied(c, env, r, n);
      EmptiedIsDrained(c, env, r.states[n]);
    } else {
      CleanInv(c, env, r, n);
      LateIsDrained(c, env, r.states[n]);
    }
  }

  // ---------------------------------------------------------------- after the stop

  /** A worker that after a stop will neither produce nor pop again. */
  predicate Frozen(s: State, v: nat)
  {
    && s.stop && v < |s.workers|
    && var pc := s.workers[v].pc;
       pc.Unborn? || pc.Top? || PastRunner(pc)
  }

  /** Frozen workers stay so and make nothing, and a queue whose readers are frozen loses nothing. */
  predicate Kept(c: Config, s: State, s': State)
  {
    && |s'.workers| == |s.workers| == |c.roles| && |s'.queues| == |s.queues|
    && (forall v :: 0 <= v < |s.workers| && Frozen(s, v) ==> Frozen(s', v) && s'.workers[v].made == s.workers[v].made)
    && (forall q :: 0 <= q < |s.queues| && ReadersFrozen(c, s, q) ==> s.queues[q].items <= s'.queues[q].items)
  }

  predicate ReadersFrozen(c: Config, s: State, q: nat)
  {
    forall v :: 0 <= v < |c.roles| && Reads(c, v, q) ==> Frozen(s, v)
  }

  lemma KeptTwice(c: Config, a: State, b: State, d: State)
    requires Kept(c, a, b) && Kept(c, b, d)
    ensures Kept(c, a, d)
  {
    forall q | 0 <= q < |a.queues| && ReadersFrozen(c, a, q)
      ensures a.queues[q].items <= d.queues[q].items
    {
      assert ReadersFrozen(c, b, q);
    }
  }

  lemma KeptWork(c: Config, s: State, w: nat, o: Outcome)
    requires Placed(c, s) && w < |c.roles| && CanWork(c, s, w) && PossibleOutcome(s.workers[w].pc, o) && s.stop
    ensures Kept(c, s, Work(c, s, w, o))
  {
    var (x, e) := Act(c, s, w, o);
    WorkFramed(c, s, w, o);
    WorkIs(c, s, w, o);
    if Frozen(s, w) {
      FrozenAct(c, s, w, o);
    }
    KeptApply(c, s, w, e);
  }

  lemma FrozenAct(c: Config, s: State, w: nat, o: Outcome)
    requires Placed(c, s) && w < |c.roles| && CanWork(c, s, w) && PossibleOutcome(s.workers[w].pc, o)
    requires Frozen(s, w)
    ensures var (x, e) := Act(c, s, w, o);
            PastRunner(x.pc) && x.made == s.workers[w].made && !e.Dequeue?
  {
  }

  lemma KeptApply(c: Config, s: State, w: nat, e: Effect)
    requires Placed(c, s) && w < |c.roles| && CanApply(c, s, w, e)
    ensures var s' := Apply(c, s, w, e);
            && |s'.queues| == |s.queues|
            && forall q :: 0 <= q < |s.queues| && !(e.Dequeue? && Reads(c, w, q)) ==>
                 s.queues[q].items <= s'.queues[q].items
  {
  }

  lemma KeptStep(c: Config, s: State, l: Label, s': State)
    requires Located(c, s) && Next(c, s, l, s') && s.stop
    ensures Kept(c, s, s')
  {
    match l
    case Worked(w, o) => KeptWork(c, s, w, o);
    case _ => OtherManaged(c, s, l, s');
  }

  /** What worker w's stage does next in this environment. */
  lemma CleanChoice(c: Config, env: Env, s: State, w: nat) returns (o: Outcome)
    requires Placed(c, s) && AllFaithful(c, env, s) && w < |c.roles|
    ensures PossibleOutcome(s.workers[w].pc, o) && CleanOutcome(env, w, s.workers[w], o)
  {
    var x := s.workers[w];
    assert Faithful(c, env, w, x);
    o := match x.pc
         case AtProduce => if |x.made| < |env.script[w]| then Yield(env.script[w][|x.made|]) else EndOfStream
         case AtProcess(p) => if x.got != [] then Yield(env.xf(w, x.got[..|x.got| - 1], p)) else Plain
         case _ => Plain;
  }

  /** Some thread takes a clean step. */
  lemma CleanMove(c: Config, env: Env, r: Run) returns (r': Run, l: Label)
    requires Going(c, env, r) && r.Last().stop && !r.Last().main.Finished?
    ensures Going(c, env, r') && Next(c, r.Last(), l, r'.Last())
  {
    var s := r.Last();
    StoppedMoves(c, s);
    if CanMain(c, s) {
      l := Mained;
      r' := GoOn(c, env, r, l, Main(c, s));
    } else {
      var w :| 0 <= w < |c.roles| && CanWork(c, s, w);
      var o := CleanChoice(c, env, s, w);
      l := Worked(w, o);
      r' := GoOn(c, env, r, l, Work(c, s, w, o));
    }
  }

  /** A clean run that has been stopped can be carried on until run returns 0. */
  lemma Finish(c: Config, env: Env, r: Run) returns (r': Run)
    requires Going(c, env, r) && r.Last().stop
    ensures Going(c, env, r') && r'.Last().main == Finished(false) && Kept(c, r.Last(), r'.Last())
    decreases StopMeasure(c, r.Last())
  {
    var s := r.Last();
    StopMeasureBounds(c, s);
    if s.main.Finished? {
      r' := r;
    } else {
      var next, l := CleanMove(c, env, r);
      StopPays(c, s, l, next.Last());
      KeptStep(c, s, l, next.Last());
      r' := Finish(c, env, next);
      KeptTwice(c, s, next.Last(), r'.Last());
    }
  }

  // ---------------------------------------------------------------- a leak: some run ends undrained

  const P := Payload("", [])

  /** One source makes one payload, the others none; transforms turn every payload into a bare one. */
  function OneShot(c: Config, source: nat): Env
  {
    Env(seq(|c.roles|, w => if w == source then [P] else []), (w, ps, p) => P)
  }

  /** The worker that is about to stop the job does, with the others where they were. */
  lemma StopNow(c: Config, env: Env, r: Run, w: nat) returns (r': Run)
    requires Going(c, env, r) && w < |c.roles| && r.Last().workers[w].pc.AtStop?
    ensures Going(c, env, r') && r'.Last().stop && r'.Last().spawned == r.Last().spawned
    ensures SameItems(r.Last(), r'.Last())
  {
    var s := r.Last();
    WorkFramed(c, s, w, Plain);
    WorkIs(c, s, w, Plain);
    r' := GoOn(c, env, r, Worked(w, Plain), Work(c, s, w, Plain));
  }

  /** From spent workers on, the first k end, the job stops, and the others find it stopped. */
  lemma EndEarly(c: Config, env: Env, level: seq<nat>, r: Run, k: nat) returns (r': Run)
    requires Going(c, env, r) && FullyWired(c) && Acyclic(c, level) && !r.Last().early
    requires r.Last().main.Wiring? && 0 < k == r.Last().spawned < |c.roles| && SelfContained(c, k)
    requires Spent(c, env, k, r.Last())
    ensures CleanRun(c, env, r') && r'.Last().main == Finished(false)
    ensures var s' := r'.Last();
            && |s'.workers| == |c.roles| && |s'.queues| == |c.queues|
            && (forall u :: k <= u < |c.roles| ==> s'.workers[u].made == [])
            && (forall q :: 0 <= q < |c.queues| && (forall v :: 0 <= v < k ==> !Reads(c, v, q)) ==>
                  r.Last().queues[q].items <= s'.queues[q].items)
  {
    var ended, w := RunPrefixAlone(c, env, level, r, k);
    var stopped := StopNow(c, env, ended, w);
    r' := Finish(c, env, stopped);
    LateStay(c, stopped.Last(), r'.Last(), k);
  }

  /** Workers that were not started when the job stopped make nothing and empty nothing. */
  lemma LateStay(c: Config, s: State, s': State, k: nat)
    requires Inv(c, s) && s.stop && s.spawned == k && Kept(c, s, s')
    ensures |s'.workers| == |c.roles| && |s'.queues| == |c.queues|
    ensures forall u :: k <= u < |c.roles| ==> s'.workers[u].made == []
    ensures forall q :: 0 <= q < |c.queues| && (forall v :: 0 <= v < k ==> !Reads(c, v, q)) ==>
              s.queues[q].items <= s'.queues[q].items
  {
    forall u | k <= u < |c.roles|
      ensures Frozen(s, u) && s'.workers[u].made == []
    {
      assert Balanced(c.roles[u], s.workers[u]);
    }
    forall q | 0 <= q < |c.queues| && forall v :: 0 <= v < k ==> !Reads(c, v, q)
      ensures s.queues[q].items <= s'.queues[q].items
    {
      assert ReadersFrozen(c, s, q);
    }
  }

  /** A source among the workers not started keeps its script. */
  lemma SourceLeft(c: Config, level: seq<nat>, k: nat, u: nat) returns (r: Run)
    requires ValidConfig(c) && c.job && FullyWired(c) && Acyclic(c, level)
    requires 0 < k <= u < |c.roles| && SelfContained(c, k) && c.roles[u].Source?
    ensures var env := OneShot(c, u);
            CleanRun(c, env, r) && r.Last().main == Finished(false) && !Drained(c, env, r.Last())
  {
    var env := OneShot(c, u);
    r := Start(c, env, k);
    UntouchedSpent(c, env, k, r.Last());
    r := EndEarly(c, env, level, r, k);
    assert r.Last().workers[u].made != env.script[u];
  }

  lemma UntouchedSpent(c: Config, env: Env, k: nat, s: State)
    requires Untouched(c, s) && ValidConfig(c) && |env.script| == |c.roles| && k <= |c.roles|
    requires forall w :: 0 <= w < k ==> env.script[w] == []
    ensures Spent(c, env, k, s)
  {
    forall w | 0 <= w < k
      ensures s.workers[w].made == []
    {
      assert s.workers[w].(pc := Unborn) == FRESH_WORKER;
    }
  }

  // ---------------------------------------------------------------- a payload carried to an abandoned queue

  /** What v writes w reads and passes on. */
  predicate HandsDown(c: Config, v: nat, w: nat)
  {
    && v < |c.roles| && w < |c.roles|
    && !c.roles[v].Sink? && c.roles[w].Transform? && c.roles[v].outq == c.roles[w].inq
  }

  /** Workers among the first k that hand a payload down from a source. */
  predicate Path(c: Config, k: nat, path: seq<nat>)
  {
    && path != [] && k <= |c.roles|
    && (forall i :: 0 <= i < |path| ==> path[i] < k)
    && c.roles[path[0]].Source?
    && (forall i :: 0 < i < |path| ==> HandsDown(c, path[i - 1], path[i]))
  }

  lemma PathSnoc(c: Config, k: nat, path: seq<nat>, w: nat)
    requires Path(c, k, path) && w < k && HandsDown(c, path[|path| - 1], w)
    ensures Path(c, k, path + [w])
  {
    var longer := path + [w];
    forall i | 0 < i < |longer|
      ensures HandsDown(c, longer[i - 1], longer[i])
    {
      assert i < |path| ==> HandsDown(c, path[i - 1], path[i]);
    }
  }

  lemma {:induction false} FindPath(c: Config, level: seq<nat>, top: nat, k: nat, w: nat) returns (path: seq<nat>)
    requires ValidConfig(c) && FullyWired(c) && Acyclic(c, level) && SelfContained(c, k)
    requires forall q :: 0 <= q < |level| ==> level[q] <= top
    requires w < k <= |c.roles| && !c.roles[w].Sink?
    ensures Path(c, k, path) && path[|path| - 1] == w
    decreases top - level[c.roles[w].outq]
  {
    if c.roles[w].Source? {
      path := [w];
    } else {
      var v := Feeder(c, k, w);
      path := FindPath(c, level, top, k, v);
      PathSnoc(c, k, path, w);
      path := path + [w];
    }
  }

  lemma Feeder(c: Config, k: nat, w: nat) returns (v: nat)
    requires ValidConfig(c) && FullyWired(c) && SelfContained(c, k) && w < k <= |c.roles| && c.roles[w].Transform?
    ensures v < k && HandsDown(c, v, w)
  {
    var q := c.roles[w].inq;
    assert Reads(c, w, q);
    v :| 0 <= v < |c.roles| && Writes(c, v, q);
  }

  /** The first i workers of the path have handed one payload down; all who run are at the head of their loops. */
  predicate Handed(c: Config, k: nat, path: seq<nat>, i: nat, s: State)
    requires Path(c, k, path)
  {
    && Shaped(c, s) && i <= |path|
    && s.main.Wiring? && s.spawned == k && !s.stop && !s.early
    && (forall v :: 0 <= v < k ==> s.workers[v].pc.Top?)
    && (forall q :: 0 <= q < |s.queues| ==>
          |s.queues[q].items| == if i > 0 && q == OutQueue(c, path[i - 1]) then 1 else 0)
    && (forall v :: 0 <= v < k ==> s.workers[v].made == if i > 0 && v == path[0] then [P] else [])
  }

  function OutQueue(c: Config, w: nat): int
  {
    if w < |c.roles| && !c.roles[w].Sink? then c.roles[w].outq else -1
  }

  /** A worker in its loop takes a step: the rest of the flow, and what main knows, stay. */
  predicate OnlyWorker(s: State, s': State, w: nat)
  {
    && |s'.workers| == |s.workers| && |s'.queues| == |s.queues| && w < |s.workers|
    && s'.main == s.main && s'.spawned == s.spawned && s'.stop == s.stop && s'.early == s.early
    && (forall v :: 0 <= v < |s.workers| && v != w ==> s'.workers[v] == s.workers[v])
  }

  /** A clean run can be in this state and go on. */
  ghost predicate OnTrack(c: Config, env: Env, s: State)
  {
    exists r: Run :: Going(c, env, r) && r.Last() == s
  }

  lemma OnTrackInv(c: Config, env: Env, s: State)
    requires OnTrack(c, env, s)
    ensures Inv(c, s) && AllFaithful(c, env, s)
  {
  }

  lemma OnTrackShaped(c: Config, env: Env, s: State)
    requires OnTrack(c, env, s)
    ensures Shaped(c, s)
  {
  }

  lemma LoopStep(c: Config, env: Env, s: State, w: nat, o: Outcome)
    requires OnTrack(c, env, s) && Placed(c, s) && w < |c.roles| && CanWork(c, s, w) && InRunner(s.workers[w].pc)
    requires w < |env.script| && PossibleOutcome(s.workers[w].pc, o) && CleanOutcome(env, w, s.workers[w], o)
    ensures OnTrack(c, env, Stepped(c, s, w, o)) && OnlyWorker(s, Stepped(c, s, w, o), w)
  {
    var r: Run :| Going(c, env, r) && r.Last() == s;
    WorkFramed(c, s, w, o);
    WorkStops(c, env, s, w, o);
    WorkIs(c, s, w, o);
    assert OutcomeAt(s.workers[w].pc, o) == o;
    var r' := GoOn(c, env, r, Worked(w, o), Work(c, s, w, o));
  }

  /** What the queues hold. */
  function Held(s: State): (h: seq<seq<Payload>>)
    ensures |h| == |s.queues| && forall q :: 0 <= q < |h| ==> h[q] == s.queues[q].items
  {
    seq(|s.queues|, q requires 0 <= q < |s.queues| => s.queues[q].items)
  }

  lemma HeadStep(c: Config, env: Env, s: State, w: nat) returns (s': State)
    requires OnTrack(c, env, s) && w < |s.workers| == |c.roles| && s.workers[w].pc.Top? && !s.stop
    ensures OnTrack(c, env, s') && OnlyWorker(s, s', w) && Held(s') == Held(s)
    ensures s'.workers[w] == s.workers[w].(pc := if c.roles[w].Source? then AtProduce else AtPop)
  {
    OnTrackInv(c, env, s);
    SteppedTop(c, s, w, Plain);
    LoopStep(c, env, s, w, Plain);
    s' := Stepped(c, s, w, Plain);
  }

  lemma ProduceStep(c: Config, s: State, w: nat) returns (s': State)
    requires w < |s.workers| == |c.roles| && s.workers[w].pc.AtProduce? && s.workers[w].made == []
    requires OnTrack(c, OneShot(c, w), s)
    ensures OnTrack(c, OneShot(c, w), s') && OnlyWorker(s, s', w) && Held(s') == Held(s)
    ensures s'.workers[w].pc.AtPush? && s'.workers[w].made == [P]
  {
    OnTrackInv(c, OneShot(c, w), s);
    SteppedCall(c, s, w, Yield(P));
    LoopStep(c, OneShot(c, w), s, w, Yield(P));
    s' := Stepped(c, s, w, Yield(P));
  }

  lemma HeldSet(s: State, q: nat, queue: Queue, w: nat, x: Worker)
    requires q < |s.queues| && w < |s.workers|
    ensures Held(WithMe(SetQueue(s, q, queue), w, x)) == Held(s)[q := queue.items]
  {
  }

  lemma PopStep(c: Config, env: Env, s: State, w: nat) returns (s': State)
    requires OnTrack(c, env, s) && w < |s.workers| == |c.roles| && ValidConfig(c) && |s.queues| == |c.queues|
    requires c.roles[w].Transform? && s.workers[w].pc.AtPop? && |s.queues[c.roles[w].inq].items| == 1
    ensures OnTrack(c, env, s') && OnlyWorker(s, s', w) && Held(s') == Held(s)[c.roles[w].inq := []]
    ensures s'.workers[w].pc.AtProcess? && s'.workers[w].made == s.workers[w].made
  {
    OnTrackInv(c, env, s);
    var q := c.roles[w].inq;
    var queue := s.queues[q];
    assert QueueSound(c.queues[q].capacity, c.queues[q].schemaId, queue);
    SteppedPop(c, s, w, Plain);
    HeldSet(s, q, queue.(items := queue.items[1..], popped := queue.popped + [queue.items[0]]),
            w, Take(c, c.roles[w], s.workers[w], queue.items[0]));
    LoopStep(c, env, s, w, Plain);
    s' := Stepped(c, s, w, Plain);
  }

  lemma ProcessStep(c: Config, source: nat, s: State, w: nat) returns (s': State)
    requires OnTrack(c, OneShot(c, source), s) && w < |s.workers| == |c.roles|
    requires c.roles[w].Transform? && s.workers[w].pc.AtProcess?
    ensures OnTrack(c, OneShot(c, source), s') && OnlyWorker(s, s', w) && Held(s') == Held(s)
    ensures s'.workers[w].pc.AtPush? && s'.workers[w].made == s.workers[w].made
  {
    var env := OneShot(c, source);
    OnTrackInv(c, env, s);
    assert Faithful(c, env, w, s.workers[w]);
    SteppedCall(c, s, w, Yield(P));
    LoopStep(c, env, s, w, Yield(P));
    s' := Stepped(c, s, w, Yield(P));
  }

  lemma PushStep(c: Config, env: Env, s: State, w: nat) returns (s': State)
    requires OnTrack(c, env, s) && w < |s.workers| == |c.roles| && ValidConfig(c) && |s.queues| == |c.queues|
    requires !c.roles[w].Sink? && s.workers[w].pc.AtPush? && !s.stop && s.queues[c.roles[w].outq].items == []
    ensures OnTrack(c, env, s') && OnlyWorker(s, s', w)
    ensures Held(s') == Held(s)[c.roles[w].outq := [s.workers[w].pc.hand]]
    ensures s'.workers[w].pc.Top? && s'.workers[w].made == s.workers[w].made
  {
    OnTrackInv(c, env, s);
    var q, p := c.roles[w].outq, s.workers[w].pc.hand;
    var queue := s.queues[q];
    OpenForProducer(c, s, w);
    SteppedPush(c, s, w, Plain);
    assert queue.items + [p] == [p];
    HeldSet(s, q, queue.(items := queue.items + [p], pushed := queue.pushed + [p]), w, Pushed(s.workers[w]));
    LoopStep(c, env, s, w, Plain);
    s' := Stepped(c, s, w, Plain);
  }

  /** A round of the i-th worker that moved one payload from its input, if it has one, to its output. */
  lemma HandedOn(c: Config, k: nat, path: seq<nat>, i: nat, s: State, s': State, p: Payload)
    requires Path(c, k, path) && i < |path| && Handed(c, k, path, i, s) && OnlyWorker(s, s', path[i]) && Shaped(c, s')
    requires ValidConfig(c) && !c.roles[path[i]].Sink? && s'.workers[path[i]].pc.Top?
    requires i > 0 ==> HandsDown(c, path[i - 1], path[i])
    requires s'.workers[path[i]].made == if i == 0 then [P] else s.workers[path[i]].made
    requires Held(s') == (if i == 0 then Held(s) else Held(s)[c.roles[path[i]].inq := []])[c.roles[path[i]].outq := [p]]
    ensures Handed(c, k, path, i + 1, s')
  {
    forall q | 0 <= q < |s'.queues|
      ensures |s'.queues[q].items| == if q == OutQueue(c, path[i]) then 1 else 0
    {
      assert Held(s')[q] == s'.queues[q].items && Held(s)[q] == s.queues[q].items;
    }
  }

  /** The output of the i-th worker is empty while it has the payload in its hands. */
  lemma OutputEmpty(c: Config, level: seq<nat>, k: nat, path: seq<nat>, i: nat, s: State, s1: State)
    requires Path(c, k, path) && i < |path| && Acyclic(c, level) && Handed(c, k, path, i, s)
    requires i > 0 ==> HandsDown(c, path[i - 1], path[i])
    requires OnlyWorker(s, s1, path[i]) && !c.roles[path[i]].Sink?
    requires Held(s1) == if i == 0 then Held(s) else Held(s)[c.roles[path[i]].inq := []]
    ensures |s1.queues| == |c.queues| && |s1.workers| == |c.roles| && !s1.stop
    ensures ValidConfig(c) && s1.queues[c.roles[path[i]].outq].items == []
  {
    var q := c.roles[path[i]].outq;
    assert Held(s1)[q] == [];
    assert Held(s1)[q] == s1.queues[q].items;
  }

  /** The end of a round: from a state with the payload in the i-th worker's hands. */
  lemma PassOn(c: Config, level: seq<nat>, k: nat, path: seq<nat>, i: nat, s: State, s1: State) returns (s': State)
    requires Path(c, k, path) && i < |path| && Acyclic(c, level) && Handed(c, k, path, i, s)
    requires i > 0 ==> HandsDown(c, path[i - 1], path[i])
    requires OnTrack(c, OneShot(c, path[0]), s1) && OnlyWorker(s, s1, path[i]) && s1.workers[path[i]].pc.AtPush?
    requires Held(s1) == if i == 0 then Held(s) else Held(s)[c.roles[path[i]].inq := []]
    requires s1.workers[path[i]].made == if i == 0 then [P] else s.workers[path[i]].made
    requires !c.roles[path[i]].Sink?
    ensures OnTrack(c, OneShot(c, path[0]), s') && Handed(c, k, path, i + 1, s')
  {
    var w := path[i];
    OutputEmpty(c, level, k, path, i, s, s1);
    s' := PushStep(c, OneShot(c, path[0]), s1, w);
    OnTrackShaped(c, OneShot(c, path[0]), s');
    HandedOn(c, k, path, i, s, s', s1.workers[w].pc.hand);
  }

  lemma SourceMakes(c: Config, s: State, w: nat) returns (s': State)
    requires OnTrack(c, OneShot(c, w), s) && w < |s.workers| == |c.roles| && c.roles[w].Source?
    requires s.workers[w].pc.Top? && s.workers[w].made == [] && !s.stop
    ensures OnTrack(c, OneShot(c, w), s') && OnlyWorker(s, s', w) && Held(s') == Held(s)
    ensures s'.workers[w].pc.AtPush? && s'.workers[w].made == [P]
  {
    var s1 := HeadStep(c, OneShot(c, w), s, w);
    s' := ProduceStep(c, s1, w);
  }

  /** A source's round: one payload made and pushed. */
  lemma SourceHands(c: Config, level: seq<nat>, k: nat, path: seq<nat>, s: State) returns (s': State)
    requires Path(c, k, path) && Acyclic(c, level)
    requires OnTrack(c, OneShot(c, path[0]), s) && Handed(c, k, path, 0, s)
    ensures OnTrack(c, OneShot(c, path[0]), s') && Handed(c, k, path, 1, s')
  {
    var s1 := SourceMakes(c, s, path[0]);
    s' := PassOn(c, level, k, path, 0, s, s1);
  }

  lemma TakeStep(c: Config, env: Env, s: State, w: nat) returns (s': State)
    requires OnTrack(c, env, s) && w < |s.workers| == |c.roles| && ValidConfig(c)
    requires |s.queues| == |c.queues| && !s.stop && c.roles[w].Transform? && s.workers[w].pc.Top?
    requires |s.queues[c.roles[w].inq].items| == 1
    ensures OnTrack(c, env, s') && OnlyWorker(s, s', w) && Held(s') == Held(s)[c.roles[w].inq := []]
    ensures s'.workers[w].pc.AtProcess? && s'.workers[w].made == s.workers[w].made
  {
    var s1 := HeadStep(c, env, s, w);
    assert Held(s1)[c.roles[w].inq] == s.queues[c.roles[w].inq].items;
    s' := PopStep(c, env, s1, w);
  }

  /** A transform's round: the payload popped, turned and pushed on. */
  lemma TransformHands(c: Config, level: seq<nat>, k: nat, path: seq<nat>, i: nat, s: State) returns (s': State)
    requires Path(c, k, path) && 0 < i < |path| && Acyclic(c, level)
    requires OnTrack(c, OneShot(c, path[0]), s) && Handed(c, k, path, i, s)
    ensures OnTrack(c, OneShot(c, path[0]), s') && Handed(c, k, path, i + 1, s')
  {
    assert HandsDown(c, path[i - 1], path[i]);
    var s1 := TakeStep(c, OneShot(c, path[0]), s, path[i]);
    var s2 := ProcessStep(c, path[0], s1, path[i]);
    s' := PassOn(c, level, k, path, i, s, s2);
  }

  lemma {:induction false} HandDown(c: Config, level: seq<nat>, k: nat, path: seq<nat>, i: nat, s: State) returns (s': State)
    requires Path(c, k, path) && 0 < i <= |path| && Acyclic(c, level)
    requires OnTrack(c, OneShot(c, path[0]), s) && Handed(c, k, path, i, s)
    ensures OnTrack(c, OneShot(c, path[0]), s') && Handed(c, k, path, |path|, s')
    decreases |path| - i
  {
    if i == |path| {
      s' := s;
    } else {
      s' := TransformHands(c, level, k, path, i, s);
      s' := HandDown(c, level, k, path, i + 1, s');
    }
  }

  lemma UntouchedHanded(c: Config, k: nat, path: seq<nat>, s: State)
    requires Path(c, k, path) && Located(c, s) && Untouched(c, s) && s.main.Wiring? && s.spawned == k
    ensures Handed(c, k, path, 0, s)
  {
    forall v | 0 <= v < k
      ensures s.workers[v].made == []
    {
      assert s.workers[v].(pc := Unborn) == FRESH_WORKER;
    }
  }

  lemma HandedSpent(c: Config, k: nat, path: seq<nat>, q: nat, s: State)
    requires ValidConfig(c) && Path(c, k, path) && Handed(c, k, path, |path|, s)
    requires q == OutQueue(c, path[|path| - 1]) && forall v :: 0 <= v < k ==> !Reads(c, v, q)
    ensures Spent(c, OneShot(c, path[0]), k, s)
  {
    forall w | 0 <= w < k && !c.roles[w].Source?
      ensures s.queues[c.roles[w].inq].items == []
    {
      assert !Reads(c, w, q);
    }
  }

  /** The path's source makes its payload and the others hand it down. */
  lemma CarryDown(c: Config, level: seq<nat>, k: nat, path: seq<nat>) returns (s: State)
    requires ValidConfig(c) && c.job && Acyclic(c, level) && 0 < k < |c.roles| && Path(c, k, path)
    ensures OnTrack(c, OneShot(c, path[0]), s) && Handed(c, k, path, |path|, s)
  {
    var r := Start(c, OneShot(c, path[0]), k);
    s := r.Last();
    UntouchedHanded(c, k, path, s);
    s := SourceHands(c, level, k, path, s);
    s := HandDown(c, level, k, path, 1, s);
  }

  /** A payload can be carried to any queue that one of the first k workers writes. */
  lemma CarryTo(c: Config, level: seq<nat>, k: nat, q: nat) returns (env: Env, s: State)
    requires ValidConfig(c) && c.job && FullyWired(c) && Acyclic(c, level)
    requires 0 < k < |c.roles| && SelfContained(c, k) && q < |c.queues| && Abandoned(c, k, q)
    ensures OnTrack(c, env, s) && Spent(c, env, k, s) && s.main.Wiring? && s.spawned == k && !s.early
    ensures s.queues[q].items != []
  {
    var w :| 0 <= w < k && Writes(c, w, q);
    var path := FindPath(c, level, PipelineLiveness.Top(level), k, w);
    env := OneShot(c, path[0]);
    s := CarryAlong(c, level, k, path, q);
  }

  lemma CarryAlong(c: Config, level: seq<nat>, k: nat, path: seq<nat>, q: nat) returns (s: State)
    requires ValidConfig(c) && c.job && Acyclic(c, level) && 0 < k < |c.roles| && Path(c, k, path)
    requires q == OutQueue(c, path[|path| - 1]) && forall v :: 0 <= v < k ==> !Reads(c, v, q)
    ensures OnTrack(c, OneShot(c, path[0]), s) && Spent(c, OneShot(c, path[0]), k, s)
    ensures s.main.Wiring? && s.spawned == k && !s.early && q < |s.queues| && s.queues[q].items != []
  {
    s := CarryDown(c, level, k, path);
    HandedSpent(c, k, path, q, s);
  }

  /** A payload carried to a queue that none of the first k workers reads stays there. */
  lemma QueueLeft(c: Config, level: seq<nat>, k: nat, q: nat) returns (env: Env, r: Run)
    requires ValidConfig(c) && c.job && FullyWired(c) && Acyclic(c, level)
    requires 0 < k < |c.roles| && SelfContained(c, k) && q < |c.queues| && Abandoned(c, k, q)
    ensures CleanRun(c, env, r) && r.Last().main == Finished(false) && !Drained(c, env, r.Last())
  {
    var s;
    env, s := CarryTo(c, level, k, q);
    r := EndFrom(c, env, level, s, k);
    NotDrained(c, env, r.Last(), k, q);
  }

  lemma NotDrained(c: Config, env: Env, s: State, k: nat, q: nat)
    requires FullyWired(c) && q < |c.queues| == |s.queues| && k <= |c.roles| && Abandoned(c, k, q)
    requires s.queues[q].items != []
    ensures !Drained(c, env, s)
  {
    var w :| 0 <= w < k && Writes(c, w, q);
    var v :| 0 <= v < |c.roles| && Reads(c, v, q);
  }

  lemma EndFrom(c: Config, env: Env, level: seq<nat>, s: State, k: nat) returns (r: Run)
    requires OnTrack(c, env, s) && FullyWired(c) && Acyclic(c, level) && !s.early
    requires s.main.Wiring? && 0 < k == s.spawned < |c.roles| && SelfContained(c, k) && Spent(c, env, k, s)
    ensures CleanRun(c, env, r) && r.Last().main == Finished(false) && |r.Last().queues| == |s.queues| == |c.queues|
    ensures forall q :: 0 <= q < |c.queues| && (forall v :: 0 <= v < k ==> !Reads(c, v, q)) ==>
              s.queues[q].items <= r.Last().queues[q].items
  {
    r :| Going(c, env, r) && r.Last() == s;
    r := EndEarly(c, env, level, r, k);
  }

  /**
   The exact condition for draining, over acyclic, fully wired jobs with finite sources and
   stages that neither throw nor ask for stop: some run returns without error and undrained
   if and only if the flow leaks at some place of its spawn order.
   */
  lemma DrainsExactly(c: Config, level: seq<nat>)
    requires ValidConfig(c) && c.job && FullyWired(c) && Acyclic(c, level)
    ensures (exists env: Env, r: Run ::
               CleanRun(c, env, r) && r.Last().main == Finished(false) && !Drained(c, env, r.Last()))
            <==> exists k :: Leaky(c, k)
  {
    if k :| Leaky(c, k) {
      var env, r := LeakyLoses(c, level, k);
      assert CleanRun(c, env, r);
    } else {
      forall env: Env, r: Run | CleanRun(c, env, r) && r.Last().main == Finished(false)
        ensures Drained(c, env, r.Last())
      {
        RunInv(c, r, |r.labels|);
        UnleakyDrains(c, env, r, |r.labels|);
      }
    }
  }

  lemma LeakyLoses(c: Config, level: seq<nat>, k: nat) returns (env: Env, r: Run)
    requires ValidConfig(c) && c.job && FullyWired(c) && Acyclic(c, level) && Leaky(c, k)
    ensures CleanRun(c, env, r) && r.Last().main == Finished(false) && !Drained(c, env, r.Last())
  {
    if u :| k <= u < |c.roles| && c.roles[u].Source? {
      env := OneShot(c, u);
      r := SourceLeft(c, level, k, u);
    } else {
      var q :| 0 <= q < |c.queues| && Abandoned(c, k, q);
      env, r := QueueLeft(c, level, k, q);
    }
  }
}
