/**
 A concrete clean job run that ends successfully with a payload left behind: one source
 listed before one sink, and a source fast enough to end before the sink is started.  It is
 slow to request the stop, which comes only after the spawn loop has ended.
 */
module LostPayload {
  import opened Payloads
  import opened Pipeline
  import opened PipelineSafety
  import opened PipelineRefinement

  const P := Payload("", [7])
  const FLOW := Config(true, [QueueConfig(1, "")], [Source(0), Sink(0)], [0, 1])

  function FlowEnv(): Env
  {
    Env([[P], []], (w, ps, p) => p)
  }

  /** A state of this flow; the two workers differ from fresh ones by their place and history. */
  function At(main: MainPc, created: nat, spawned: nat, active: int, stop: bool, early: bool,
              queue: Queue, source: Worker, sink: Worker, i0: Instance, i1: Instance): State
  {
    State(stop, early, active, created, spawned, main, [queue], [source, sink], [i0, i1], 0)
  }

  const FRESH_QUEUE := Queue([], false, 1, [], [])
  const FULL_QUEUE := Queue([P], false, 1, [P], [])
  const LEFT_QUEUE := Queue([P], true, 0, [P], [])
  const SENT := FRESH_WORKER.(made := [P], sent := [P], metrics := Metrics(0, 1, 0, 1))
  const LIVE := Instance(true, 0, false)
  const GONE := Instance(false, 1, false)
  const NONE := Instance(false, 0, false)

  /** Stop is not requested while the spawn loop is running. */
  predicate StopsAfterSpawning(r: Run)
  {
    forall i :: 0 <= i < |r.states| && r.states[i].stop ==> !Spawning(r.states[i].main)
  }

  ghost predicate Good(r: Run)
  {
    CleanRun(FLOW, FlowEnv(), r) && StopsAfterSpawning(r)
  }

  lemma MainStep(r: Run, s': State) returns (r': Run)
    requires Good(r) && Placed(FLOW, r.Last()) && CanMain(FLOW, r.Last())
    requires s' == Main(FLOW, r.Last()) && (s'.stop ==> !Spawning(s'.main))
    ensures Good(r') && r'.Last() == s'
  {
    r' := CleanExtend(FLOW, FlowEnv(), r, Mained, s');
  }

  lemma WorkStep(r: Run, w: nat, o: Outcome, s': State) returns (r': Run)
    requires Good(r) && Placed(FLOW, r.Last()) && w < 2 && CanWork(FLOW, r.Last(), w)
    requires PossibleOutcome(r.Last().workers[w].pc, o) && CleanOutcome(FlowEnv(), w, r.Last().workers[w], o)
    requires s' == Work(FLOW, r.Last(), w, o) && (s'.stop ==> !Spawning(s'.main))
    ensures Good(r') && r'.Last() == s'
  {
    r' := CleanExtend(FLOW, FlowEnv(), r, Worked(w, o), s');
  }

  /** Main starts the source. */
  lemma Opening() returns (r: Run)
    ensures Good(r)
    ensures r.Last() == At(Wiring, 1, 1, 1, false, false, FRESH_QUEUE, FRESH_WORKER.(pc := Top), FRESH_WORKER, LIVE, NONE)
  {
    assert Producers(FLOW, 0) == {0};
    assert Init(FLOW) == At(Wiring, 0, 0, 0, false, false, FRESH_QUEUE, FRESH_WORKER, FRESH_WORKER, NONE, NONE);
    r := Run([Init(FLOW)], []);
    r := MainStep(r, At(Wiring, 1, 0, 0, false, false, FRESH_QUEUE, FRESH_WORKER, FRESH_WORKER, LIVE, NONE));
    r := MainStep(r, At(Bumped, 1, 0, 1, false, false, FRESH_QUEUE, FRESH_WORKER, FRESH_WORKER, LIVE, NONE));
    r := MainStep(r, At(Wiring, 1, 1, 1, false, false, FRESH_QUEUE, FRESH_WORKER.(pc := Top), FRESH_WORKER, LIVE, NONE));
  }

  function WithSource(queue: Queue, source: Worker): State
  {
    At(Wiring, 1, 1, 1, false, false, queue, source, FRESH_WORKER, LIVE, NONE)
  }

  const HOLDING := FRESH_WORKER.(pc := AtPush(P), made := [P], metrics := Metrics(0, 0, 0, 1))

  lemma SourceProduces(r0: Run) returns (r: Run)
    requires Good(r0) && r0.Last() == WithSource(FRESH_QUEUE, FRESH_WORKER.(pc := Top))
    ensures Good(r) && r.Last() == WithSource(FRESH_QUEUE, HOLDING)
  {
    assert [] + [P] == [P];
    r := WorkStep(r0, 0, Plain, WithSource(FRESH_QUEUE, FRESH_WORKER.(pc := AtProduce)));
    r := WorkStep(r, 0, Yield(P), WithSource(FRESH_QUEUE, HOLDING));
  }

  lemma SourcePushes(r0: Run) returns (r: Run)
    requires Good(r0) && r0.Last() == WithSource(FRESH_QUEUE, HOLDING)
    ensures Good(r) && r.Last() == WithSource(FULL_QUEUE, SENT.(pc := AtDrop))
  {
    assert [] + [P] == [P];
    r := WorkStep(r0, 0, Plain, WithSource(FULL_QUEUE, SENT.(pc := Top)));
    r := WorkStep(r, 0, Plain, WithSource(FULL_QUEUE, SENT.(pc := AtProduce)));
    r := WorkStep(r, 0, EndOfStream, WithSource(FULL_QUEUE, SENT.(pc := AtDrop)));
  }

  /** It counts itself down and closes the queue. */
  lemma SourceCloses(r0: Run) returns (r: Run)
    requires Good(r0) && r0.Last() == WithSource(FULL_QUEUE, SENT.(pc := AtDrop))
    ensures Good(r) && r.Last() == WithSource(LEFT_QUEUE, SENT.(pc := AtDestroy))
  {
    r := WorkStep(r0, 0, Plain, WithSource(Queue([P], false, 0, [P], []), SENT.(pc := AtCloseOut)));
    r := WorkStep(r, 0, Plain, WithSource(LEFT_QUEUE, SENT.(pc := AtDestroy)));
  }

  /** Everything from the moment the count of active workers touches zero, with the source's place. */
  function Late(main: MainPc, created: nat, spawned: nat, active: int, source: Pc, sink: Worker, i1: Instance): State
  {
    At(main, created, spawned, active, source.Done?, true, LEFT_QUEUE, SENT.(pc := source), sink, GONE, i1)
  }

  /** It is the last active worker, so it is about to stop the job. */
  lemma SourceReleases(r0: Run) returns (r: Run)
    requires Good(r0) && r0.Last() == WithSource(LEFT_QUEUE, SENT.(pc := AtDestroy))
    ensures Good(r) && r.Last() == Late(Wiring, 1, 1, 0, AtStop, FRESH_WORKER, NONE)
  {
    r := WorkStep(r0, 0, Plain,
                  At(Wiring, 1, 1, 1, false, false, LEFT_QUEUE, SENT.(pc := AtRelease), FRESH_WORKER, GONE, NONE));
    r := WorkStep(r, 0, Plain, Late(Wiring, 1, 1, 0, AtStop, FRESH_WORKER, NONE));
  }

  /** Main starts the sink and ends the spawn loop. */
  lemma SinkStarts(r0: Run) returns (r: Run)
    requires Good(r0) && r0.Last() == Late(Wiring, 1, 1, 0, AtStop, FRESH_WORKER, NONE)
    ensures Good(r) && r.Last() == Late(Check, 2, 2, 1, AtStop, FRESH_WORKER.(pc := Top), LIVE)
  {
    r := MainStep(r0, Late(Wiring, 2, 1, 0, AtStop, FRESH_WORKER, LIVE));
    r := MainStep(r, Late(Bumped, 2, 1, 1, AtStop, FRESH_WORKER, LIVE));
    r := MainStep(r, Late(Wiring, 2, 2, 1, AtStop, FRESH_WORKER.(pc := Top), LIVE));
    r := MainStep(r, Late(Check, 2, 2, 1, AtStop, FRESH_WORKER.(pc := Top), LIVE));
  }

  function WithSink(main: MainPc, active: int, sink: Pc, i1: Instance): State
  {
    Late(main, 2, 2, active, Done, FRESH_WORKER.(pc := sink), i1)
  }

  /** Only now does the source request the stop; the sink sees it and leaves. */
  lemma SinkLeaves(r0: Run) returns (r: Run)
    requires Good(r0) && r0.Last() == Late(Check, 2, 2, 1, AtStop, FRESH_WORKER.(pc := Top), LIVE)
    ensures Good(r) && r.Last() == WithSink(Check, 1, AtDestroy, LIVE)
  {
    r := WorkStep(r0, 0, Plain, WithSink(Check, 1, Top, LIVE));
    r := WorkStep(r, 1, Plain, WithSink(Check, 1, AtDestroy, LIVE));
  }

  lemma SinkEnds(r0: Run) returns (r: Run)
    requires Good(r0) && r0.Last() == WithSink(Check, 1, AtDestroy, LIVE)
    ensures Good(r) && r.Last() == Ended(Check)
  {
    r := WorkStep(r0, 1, Plain, WithSink(Check, 1, AtRelease, GONE));
    r := WorkStep(r, 1, Plain, WithSink(Check, 0, AtStop, GONE));
    r := WorkStep(r, 1, Plain, Ended(Check));
  }

  function Ended(main: MainPc): State
  {
    WithSink(main, 0, Done, GONE)
  }

  lemma MainClosesQueue(r0: Run) returns (r: Run)
    requires Good(r0) && r0.Last() == Ended(Check)
    ensures Good(r) && r.Last() == Ended(Closing(1, false))
  {
    r := MainStep(r0, Ended(Monitor));
    r := MainStep(r, Ended(Closing(0, false)));
    r := MainStep(r, Ended(Closing(1, false)));
  }

  lemma MainJoins(r0: Run) returns (r: Run)
    requires Good(r0) && r0.Last() == Ended(Closing(1, false))
    ensures Good(r) && r.Last() == Ended(ShuttingDown(false))
  {
    r := MainStep(r0, Ended(Joining(0, false)));
    r := MainStep(r, Ended(Joining(1, false)));
    r := MainStep(r, Ended(Joining(2, false)));
    r := MainStep(r, Ended(ShuttingDown(false)));
  }

  /**
   A job can end without error and without draining, even when stop is requested only after
   the spawn loop: run returns 0, the source delivered its whole script, and its payload is
   still in the queue, never given to the sink.
   */
  lemma JobCanLosePayload() returns (r: Run)
    ensures CleanRun(FLOW, FlowEnv(), r) && StopsAfterSpawning(r)
    ensures var s := r.Last();
            && s.main == Finished(false)
            && |s.workers| == 2 && |s.queues| == 1
            && s.workers[0].made == FlowEnv().script[0] == [P]
            && s.queues[0].items == [P]
            && s.workers[1].eaten == []
  {
    r := Opening();
    r := SourceProduces(r);
    r := SourcePushes(r);
    r := SourceCloses(r);
    r := SourceReleases(r);
    r := SinkStarts(r);
    r := SinkLeaves(r);
    r := SinkEnds(r);
    r := MainClosesQueue(r);
    r := MainJoins(r);
    r := MainStep(r, Ended(Finished(false)).(unloads := 1));
  }
}
