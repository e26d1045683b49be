/**
 What the labels of a run tell of its states: why stop was requested, how run ended, what a
 throwing stage or a failed wiring leaves, and in what order stages are started.
 */
module PipelineCauses {
  import opened Pipeline
  import opened PipelineSafety

  // ---------------------------------------------------------------- why stop is requested

  /** A signal or a stage asking for stop, or a stage that throws. */
  predicate AsksStop(l: Label)
  {
    l.Interrupted? || (l.Worked? && l.o.Throw?)
  }

  predicate Asked(r: Run, n: nat)
    requires n <= |r.labels|
  {
    exists i :: 0 <= i < n && AsksStop(r.labels[i])
  }

  predicate WiringFailed(r: Run, n: nat)
    requires n <= |r.labels|
  {
    exists i :: 0 <= i < n && r.labels[i].Failed?
  }

  /** Main is on its way out with an error. */
  predicate Failing(m: MainPc)
  {
    m.Abort? || (Winding(m) && m.failed)
  }

  /** Someone was started, or nobody is to be, and nobody who was started is counted any more. */
  predicate Idle(c: Config, s: State)
  {
    && (0 < s.spawned || |c.roles| == 0)
    && forall w :: 0 <= w < |s.workers| ==> s.workers[w].pc.Unborn? || (PastRunner(s.workers[w].pc) && !Counted(s.workers[w].pc))
  }

  /** A job was idle at some moment up to n. */
  ghost predicate WasIdle(c: Config, r: Run, n: nat)
    requires n < |r.states|
  {
    c.job && exists i :: 0 <= i <= n && Idle(c, r.states[i])
  }

  predicate SomeStopping(s: State)
  {
    exists w :: 0 <= w < |s.workers| && s.workers[w].pc.AtStop?
  }

  lemma NothingCounted(c: Config, s: State)
    requires Counts(c, s) && s.active == 0 && (0 < s.spawned || |c.roles| == 0)
    ensures Idle(c, s)
  {
    forall w | 0 <= w < |s.workers|
      ensures !Counted(s.workers[w].pc)
    {
      assert w !in Live(s);
    }
  }

  /** How a worker's step sets stop: the stage throws, or it is the last of a job. */
  lemma WorkStops(c: Config, s: State, w: nat, o: Outcome)
    requires Placed(c, s) && w < |c.roles| && CanWork(c, s, w) && PossibleOutcome(s.workers[w].pc, o)
    ensures var s' := Work(c, s, w, o);
            && |s'.workers| == |s.workers|
            && (s'.stop <==> s.stop || o.Throw? || s.workers[w].pc.AtStop?)
            && (s'.workers[w].pc.AtStop? ==> c.job && s'.active == 0)
  {
  }

  /** The step of a worker that becomes the one to stop the job leaves nobody counted. */
  lemma LastWorker(c: Config, s: State, w: nat, o: Outcome)
    requires Reached(c, s) && Placed(c, s) && w < |c.roles| && CanWork(c, s, w) && PossibleOutcome(s.workers[w].pc, o)
    requires Reached(c, Work(c, s, w, o)) && |s.workers| == |c.roles| == |Work(c, s, w, o).workers|
    requires Work(c, s, w, o).workers[w].pc.AtStop?
    ensures c.job && Idle(c, Work(c, s, w, o))
  {
    ReachedInv(c, s);
    ReachedInv(c, Work(c, s, w, o));
    WorkStops(c, s, w, o);
    WorkFramed(c, s, w, o);
    NothingCounted(c, Work(c, s, w, o));
  }

  /** Stop has one of three causes, and so has the worker that is about to set it. */
  predicate Caused(s: State, asked: bool, failed: bool, idle: bool)
  {
    && (Failing(s.main) <==> failed)
    && (asked || (failed && !s.main.Abort?) ==> s.stop)
    && (SomeStopping(s) ==> idle)
    && (s.stop ==> asked || (failed && !s.main.Abort?) || idle)
  }

  lemma CausedWork(c: Config, s: State, w: nat, o: Outcome, asked: bool, failed: bool, idle: bool)
    requires Reached(c, s) && Placed(c, s) && w < |c.roles| && CanWork(c, s, w) && PossibleOutcome(s.workers[w].pc, o)
    requires Reached(c, Work(c, s, w, o)) && Caused(s, asked, failed, idle)
    ensures Caused(Work(c, s, w, o), asked || o.Throw?, failed, idle || (c.job && Idle(c, Work(c, s, w, o))))
  {
    var s' := Work(c, s, w, o);
    WorkStops(c, s, w, o);
    WorkFramed(c, s, w, o);
    if s'.workers[w].pc.AtStop? {
      LastWorker(c, s, w, o);
    } else if SomeStopping(s') {
      var v :| 0 <= v < |s'.workers| && s'.workers[v].pc.AtStop?;
      assert s.workers[v].pc.AtStop?;
    }
    assert s.workers[w].pc.AtStop? ==> SomeStopping(s);
  }

  lemma MainStops(c: Config, s: State)
    requires Located(c, s) && CanMain(c, s)
    ensures var s' := Main(c, s);
            && (s'.stop <==> s.stop || s.main.Abort? || (s.main.Check? && c.job && s.active == 0))
            && (Failing(s'.main) <==> Failing(s.main)) && !s'.main.Abort?
            && (SomeStopping(s') <==> SomeStopping(s))
  {
    var s' := Main(c, s);
    assert |s'.workers| == |s.workers|;
    assert forall w :: 0 <= w < |s.workers| ==> (s'.workers[w].pc.AtStop? <==> s.workers[w].pc.AtStop?);
  }

  lemma CausedMain(c: Config, s: State, asked: bool, failed: bool, idle: bool)
    requires Reached(c, s) && Placed(c, s) && CanMain(c, s) && Caused(s, asked, failed, idle)
    requires c.job && Idle(c, s) ==> idle
    ensures Caused(Main(c, s), asked, failed, idle)
  {
    ReachedInv(c, s);
    MainStops(c, s);
    if s.main.Check? && c.job && s.active == 0 {
      NothingCounted(c, s);
    }
  }

  lemma CausedStep(c: Config, s: State, l: Label, s': State, asked: bool, failed: bool, idle: bool)
    requires Reached(c, s) && Reached(c, s') && Placed(c, s) && Next(c, s, l, s') && Caused(s, asked, failed, idle)
    requires c.job && Idle(c, s) ==> idle
    ensures Caused(s', asked || AsksStop(l), failed || l.Failed?, idle || (c.job && Idle(c, s')))
  {
    match l
    case Worked(w, o) => CausedWork(c, s, w, o, asked, failed, idle);
    case Mained => CausedMain(c, s, asked, failed, idle);
    case Failed(_) =>
      assert s'.workers == s.workers;
      ReachedInv(c, s);
    case Interrupted =>
      assert s'.workers == s.workers;
  }

  lemma {:induction false} RunCaused(c: Config, r: Run, n: nat)
    requires IsRun(c, r) && n < |r.states|
    ensures Caused(r.states[n], Asked(r, n), WiringFailed(r, n), WasIdle(c, r, n))
    decreases n
  {
    if n > 0 {
      RunCaused(c, r, n - 1);
      ReachedStep(c, r, n - 1);
      CausedStep(c, r.states[n - 1], r.labels[n - 1], r.states[n],
                 Asked(r, n - 1), WiringFailed(r, n - 1), WasIdle(c, r, n - 1));
      CausesGrow(c, r, n);
    }
  }

  lemma CausesGrow(c: Config, r: Run, n: nat)
    requires 0 < n < |r.states| == |r.labels| + 1
    ensures Asked(r, n) <==> Asked(r, n - 1) || AsksStop(r.labels[n - 1])
    ensures WiringFailed(r, n) <==> WiringFailed(r, n - 1) || r.labels[n - 1].Failed?
    ensures WasIdle(c, r, n) <==> WasIdle(c, r, n - 1) || (c.job && Idle(c, r.states[n]))
  {
  }

  /**
   A streaming flow never stops by itself: stop is set exactly when a signal or a stage asked for
   it, a stage threw, or the wiring failed and main has seen to it.  Until then run waits.
   */
  lemma StreamingStopsExactly(c: Config, r: Run, n: nat)
    requires IsRun(c, r) && n < |r.states| && !c.job
    ensures r.states[n].stop <==> Asked(r, n) || (WiringFailed(r, n) && !r.states[n].main.Abort?)
    ensures !Asked(r, n) && !WiringFailed(r, n) ==>
              var m := r.states[n].main; m.Wiring? || m.Bumped? || m.Check? || m.Monitor?
  {
    RunCaused(c, r, n);
    RunInv(c, r, n);
  }

  /** A job stops for those reasons, or because at some moment nobody who was started was at work any more. */
  lemma JobStopsWhy(c: Config, r: Run, n: nat)
    requires IsRun(c, r) && n < |r.states| && c.job
    ensures r.states[n].stop ==>
              || Asked(r, n) || WiringFailed(r, n)
              || exists i :: 0 <= i <= n && Idle(c, r.states[i])
    ensures Asked(r, n) || (WiringFailed(r, n) && !r.states[n].main.Abort?) ==> r.states[n].stop
  {
    RunCaused(c, r, n);
  }

  /**
   How run ends: it throws exactly when the wiring failed; otherwise every worker had been started.
   Either way all started threads have ended and all queues are closed.
   */
  lemma EndsExactly(c: Config, r: Run, n: nat)
    requires IsRun(c, r) && n < |r.states| && r.states[n].main.Finished?
    ensures var s := r.states[n];
            && (s.main.failed <==> WiringFailed(r, n))
            && (!s.main.failed ==> s.spawned == |c.roles|)
            && |s.workers| == |c.roles| && s.spawned <= |s.workers|
            && (forall w :: 0 <= w < s.spawned ==> s.workers[w].pc.Done?)
            && (forall w :: s.spawned <= w < |s.workers| ==> s.workers[w] == FRESH_WORKER)
            && (forall q :: 0 <= q < |s.queues| ==> s.queues[q].closed)
  {
    RunCaused(c, r, n);
    RunInv(c, r, n);
    var s := r.states[n];
    forall w | s.spawned <= w < |s.workers|
      ensures s.workers[w] == FRESH_WORKER
    {
      assert Balanced(c.roles[w], s.workers[w]);
    }
  }

  // ---------------------------------------------------------------- after a throw

  /** A worker that has left its runner takes, makes and sends nothing more. */
  predicate SameHistory(x: Worker, y: Worker)
  {
    && y.made == x.made && y.got == x.got && y.sent == x.sent && y.eaten == x.eaten
    && y.dropped == x.dropped && y.refused == x.refused && y.thrown == x.thrown && y.metrics == x.metrics
  }

  predicate LeftRunner(pc: Pc)
  {
    PastRunner(pc) || pc.AtCloseIn?
  }

  /** What a throw leaves: stop set, the worker out of its loop, a transform's input closed once it has moved on. */
  predicate ThrewBefore(c: Config, s: State, w: nat)
    requires Shaped(c, s) && w < |c.roles|
  {
    && s.stop && LeftRunner(s.workers[w].pc)
    && (c.roles[w].Transform? && !s.workers[w].pc.AtCloseIn? ==> s.queues[c.roles[w].inq].closed)
  }

  lemma ThrowsWork(c: Config, s: State, w: nat, o: Outcome)
    requires Placed(c, s) && w < |c.roles| && CanWork(c, s, w) && PossibleOutcome(s.workers[w].pc, o)
    ensures var s' := Work(c, s, w, o);
            && |s'.workers| == |s.workers| && |s'.queues| == |s.queues|
            && (o.Throw? ==> s'.stop && LeftRunner(s'.workers[w].pc)
                             && (c.roles[w].Transform? <==> s'.workers[w].pc.AtCloseIn?))
            && (LeftRunner(s.workers[w].pc) ==>
                  && PastRunner(s'.workers[w].pc) && SameHistory(s.workers[w], s'.workers[w])
                  && (s.workers[w].pc.AtCloseIn? ==> s'.queues[c.roles[w].inq].closed))
  {
  }

  lemma ThrewStays(c: Config, s: State, l: Label, s': State, w: nat)
    requires Reached(c, s) && Reached(c, s') && Placed(c, s) && Next(c, s, l, s') && w < |c.roles|
    requires ThrewBefore(c, s, w)
    ensures Shaped(c, s') && ThrewBefore(c, s', w) && SameHistory(s.workers[w], s'.workers[w])
  {
    ReachedInv(c, s);
    ReachedInv(c, s');
    match l
    case Worked(v, o) =>
      WorkFramed(c, s, v, o);
      if v == w {
        ThrowsWork(c, s, w, o);
      }
    case _ => OtherManaged(c, s, l, s');
  }

  lemma ThrewNow(c: Config, s: State, w: nat, s': State)
    requires Reached(c, s') && Placed(c, s) && Next(c, s, Worked(w, Throw), s')
    ensures w < |c.roles| && Shaped(c, s') && ThrewBefore(c, s', w)
  {
    ReachedInv(c, s');
    ThrowsWork(c, s, w, Throw);
  }

  /**
   After a stage of worker w threw at step i: stop is set for good, the worker is out of its loop
   and does nothing more with payloads, and a transform has closed its input before it moves on.
   */
  lemma {:induction false} ThrowEndsWorker(c: Config, r: Run, i: nat, n: nat, w: nat)
    requires IsRun(c, r) && i < n < |r.states| && r.labels[i] == Worked(w, Throw)
    ensures w < |c.roles| && Shaped(c, r.states[n]) && Shaped(c, r.states[i + 1])
    ensures ThrewBefore(c, r.states[n], w) && SameHistory(r.states[i + 1].workers[w], r.states[n].workers[w])
    decreases n
  {
    ReachedStep(c, r, n - 1);
    if i + 1 == n {
      ThrewNow(c, r.states[i], w, r.states[n]);
    } else {
      ThrowEndsWorker(c, r, i, n - 1, w);
      ThrewStays(c, r.states[n - 1], r.labels[n - 1], r.states[n], w);
    }
  }

  // ---------------------------------------------------------------- after a failed wiring

  /** Faults that come when all instances of the stage are made and its threads are being started. */
  predicate WhileStarting(f: Fault)
  {
    f.WorkerMistyped? || f.ThreadFails?
  }

  /**
   When the wiring fails, the instances that got no thread are destroyed at once, unless threads
   of their stage were being started: then they stay registered until the shutdown.
   */
  lemma FailureDestroysExactly(c: Config, r: Run, i: nat, w: nat)
    requires IsRun(c, r) && i < |r.labels| && r.labels[i].Failed?
    requires r.states[i].spawned <= w < |c.roles|
    ensures var s := r.states[i + 1];
            && |s.instances| == |c.roles| && s.main.Abort? && !r.states[i].main.Abort?
            && s.instances[w].registered == (WhileStarting(r.labels[i].f) && w < s.created)
            && s.instances[w].destroys == (if w < s.created && !s.instances[w].registered && !s.instances[w].leaked then 1 else 0)
  {
    RunInv(c, r, i);
    RunInv(c, r, i + 1);
    RunStep(c, r, i);
    FaultDestroys(c, r.states[i], r.labels[i].f, w);
  }

  lemma FaultDestroys(c: Config, s: State, f: Fault, w: nat)
    requires Located(c, s) && Lifecycle(c, s) && CanFault(c, s, f) && s.spawned <= w < |c.roles|
    requires Lifecycle(c, Faulted(c, s, f))
    ensures var s' := Faulted(c, s, f);
            && s'.main.Abort? && !s.main.Abort?
            && s'.instances[w].registered == (WhileStarting(f) && w < s'.created)
            && s'.instances[w].destroys
               == (if w < s'.created && !s'.instances[w].registered && !s'.instances[w].leaked then 1 else 0)
  {
    assert InstanceSound(s, w);
    assert InstanceSound(Faulted(c, s, f), w);
  }

  // ---------------------------------------------------------------- all instances of a stage, then its threads

  /** Workers are listed stage by stage. */
  predicate InStages(c: Config)
  {
    forall v, w :: 0 <= v < w < |c.stageOf| ==> c.stageOf[v] <= c.stageOf[w]
  }

  /** Worker w is counted or started. */
  predicate Begun(s: State, w: nat)
  {
    w < s.spawned || (s.main.Bumped? && w == s.spawned)
  }

  /**
   The instances of a stage are all made before any of its threads is counted or started, and no
   instance of a stage is made before all threads of the earlier stages run.
   */
  predicate StageByStage(c: Config, s: State)
    requires Shaped(c, s)
  {
    && (forall v, w :: 0 <= v < |c.roles| && 0 <= w < |c.roles| && c.stageOf[v] == c.stageOf[w] && Begun(s, w) ==>
          v < s.created)
    && (forall v, w :: 0 <= w < v < s.created && c.stageOf[w] != c.stageOf[v] ==> w < s.spawned)
  }

  lemma StageByStageMain(c: Config, s: State)
    requires Located(c, s) && InStages(c) && StageByStage(c, s) && CanMain(c, s) && Shaped(c, Main(c, s))
    ensures StageByStage(c, Main(c, s))
  {
  }

  lemma StageByStageFault(c: Config, s: State, f: Fault)
    requires Located(c, s) && InStages(c) && StageByStage(c, s) && CanFault(c, s, f) && Shaped(c, Faulted(c, s, f))
    ensures StageByStage(c, Faulted(c, s, f))
  {
  }

  lemma StageByStageSame(c: Config, s: State, s': State)
    requires Shaped(c, s) && Shaped(c, s') && StageByStage(c, s)
    requires s'.main == s.main && s'.created == s.created && s'.spawned == s.spawned
    ensures StageByStage(c, s')
  {
    assert forall w :: Begun(s', w) == Begun(s, w);
  }

  lemma StageByStageStep(c: Config, s: State, l: Label, s': State)
    requires Located(c, s) && Located(c, s') && InStages(c) && StageByStage(c, s) && Next(c, s, l, s')
    ensures StageByStage(c, s')
  {
    match l
    case Worked(w, o) =>
      WorkFramed(c, s, w, o);
      StageByStageSame(c, s, s');
    case Mained => StageByStageMain(c, s);
    case Failed(f) => StageByStageFault(c, s, f);
    case Interrupted => StageByStageSame(c, s, s');
  }

  lemma {:induction false} StartsStageByStage(c: Config, r: Run, n: nat)
    requires IsRun(c, r) && n < |r.states| && InStages(c)
    ensures Shaped(c, r.states[n]) && StageByStage(c, r.states[n])
    decreases n
  {
    if n > 0 {
      StartsStageByStage(c, r, n - 1);
      RunInv(c, r, n - 1);
      RunInv(c, r, n);
      RunStep(c, r, n - 1);
      StageByStageStep(c, r.states[n - 1], r.labels[n - 1], r.states[n]);
    }
  }
}
