/**
 Termination.  A job over an acyclic, fully wired flow whose sources end always returns
 from run, whatever the interleaving and even when stages throw; and once stop has been
 requested every flow in every mode returns.
 */
module PipelineLiveness {
  import opened Payloads
  import opened Pipeline
  import opened PipelineSafety
  import opened Sums

  // ---------------------------------------------------------------- a measure for finite sources

  /** Queues are ranked so that every transform moves payloads strictly down: no cycle. */
  predicate Acyclic(c: Config, level: seq<nat>)
  {
    && |level| == |c.queues|
    && (forall w :: 0 <= w < |c.roles| && c.roles[w].Transform? && ValidRole(c, c.roles[w]) ==>
          level[c.roles[w].outq] < level[c.roles[w].inq])
  }

  /** What one payload still has to go through below a queue. */
  function Weight(level: seq<nat>, q: nat): nat
    requires q < |level|
  {
    4 * (level[q] + 1)
  }

  /** limit[w] bounds what source worker w produces before it ends or throws. */
  predicate Bounded(limit: seq<nat>, s: State, l: Label)
  {
    l.Worked? && l.o.Yield? && l.w < |s.workers| && l.w < |limit| && s.workers[l.w].pc.AtProduce? ==>
      |s.workers[l.w].made| < limit[l.w]
  }

  function PlaceRank(level: seq<nat>, r: Role, pc: Pc): nat
    requires !r.Sink? ==> r.outq < |level|
  {
    match pc
    case Done => 0
    case AtStop => 1
    case AtRelease => 2
    case AtDestroy => 3
    case AtCloseOut => 4
    case AtDrop => 5
    case AtCloseIn => 6
    case AtProduce => 7
    case AtPop => 7
    case Top => 8
    case Unborn => 9
    case AtConsume(_) => 9
    case AtPush(_) => if r.Sink? then 9 else 9 + Weight(level, r.outq)
    case AtProcess(_) => if r.Sink? then 10 else 10 + Weight(level, r.outq)
  }

  /** What a source may still produce, each payload paying for its whole way down. */
  function Budget(level: seq<nat>, limit: nat, r: Role, x: Worker): int
    requires !r.Sink? ==> r.outq < |level|
  {
    if r.Source? then (limit - |x.made|) * (Weight(level, r.outq) + 4) else 0
  }

  function WorkerRank(level: seq<nat>, limit: nat, r: Role, x: Worker): int
    requires !r.Sink? ==> r.outq < |level|
  {
    PlaceRank(level, r, x.pc) + Budget(level, limit, r, x)
  }

  function MainRank(c: Config, s: State): int
  {
    var w, q := |c.roles|, |c.queues|;
    match s.main
    case Wiring => 2 * (w - s.spawned) + (w - s.created) + q + w + 6
    case Bumped => 2 * (w - s.spawned) - 1 + (w - s.created) + q + w + 6
    case Check => q + w + 5
    case Monitor => q + w + 4
    case Abort => q + w + 4
    case Closing(j, _) => q - j + w + 3
    case Joining(j, _) => w - j + 2
    case ShuttingDown(_) => 1
    case Finished(_) => 0
  }

  function WorkerRanks(c: Config, level: seq<nat>, limit: seq<nat>, s: State): seq<int>
    requires Shaped(c, s) && |level| == |c.queues| && |limit| == |c.roles|
  {
    seq(|c.roles|, w requires 0 <= w < |c.roles| => WorkerRank(level, limit[w], c.roles[w], s.workers[w]))
  }

  function QueueRanks(level: seq<nat>, s: State): seq<int>
    requires |level| == |s.queues|
  {
    seq(|s.queues|, q requires 0 <= q < |s.queues| => |s.queues[q].items| * Weight(level, q))
  }

  function Measure(c: Config, level: seq<nat>, limit: seq<nat>, s: State): int
    requires Shaped(c, s) && |level| == |c.queues| && |limit| == |c.roles|
  {
    Sum(WorkerRanks(c, level, limit, s)) + Sum(QueueRanks(level, s)) + MainRank(c, s) + (if s.stop then 0 else 1)
  }

  /** No source has produced more than its limit. */
  predicate WithinLimit(limit: seq<nat>, s: State)
  {
    && |limit| == |s.workers|
    && (forall w :: 0 <= w < |s.workers| ==> |s.workers[w].made| <= limit[w])
  }

  // ---------------------------------------------------------------- every step pays

  /** What an effect adds to the payloads waiting in queues. */
  function Gain(c: Config, level: seq<nat>, w: nat, e: Effect): int
    requires ValidConfig(c) && |level| == |c.queues| && w < |c.roles|
    requires (e.Enqueue? ==> !c.roles[w].Sink?) && (e.Dequeue? ==> !c.roles[w].Source?)
  {
    if e.Enqueue? then Weight(level, c.roles[w].outq)
    else if e.Dequeue? then 0 - (Weight(level, c.roles[w].inq) as int)
    else 0
  }

  lemma SourcePays(c: Config, level: seq<nat>, limit: nat, s: State, w: nat, o: Outcome)
    requires Placed(c, s) && Acyclic(c, level) && w < |c.roles| && CanWork(c, s, w)
    requires PossibleOutcome(s.workers[w].pc, o) && c.roles[w].Source?
    requires |s.workers[w].made| <= limit
    requires s.workers[w].pc.AtProduce? && o.Yield? ==> |s.workers[w].made| < limit
    ensures var (x, e) := Act(c, s, w, o);
            && |x.made| <= limit
            && WorkerRank(level, limit, c.roles[w], x) + Gain(c, level, w, e)
               < WorkerRank(level, limit, c.roles[w], s.workers[w])
  {
    var k := Weight(level, c.roles[w].outq) + 4;
    var n := limit - |s.workers[w].made|;
    assert (n - 1) * k == n * k - k;
  }

  lemma ConsumerPays(c: Config, level: seq<nat>, limit: nat, s: State, w: nat, o: Outcome)
    requires Placed(c, s) && Acyclic(c, level) && w < |c.roles| && CanWork(c, s, w)
    requires PossibleOutcome(s.workers[w].pc, o) && !c.roles[w].Source?
    ensures var (x, e) := Act(c, s, w, o);
            && x.made == s.workers[w].made
            && WorkerRank(level, limit, c.roles[w], x) + Gain(c, level, w, e)
               < WorkerRank(level, limit, c.roles[w], s.workers[w])
  {
  }

  lemma QueuesPay(c: Config, level: seq<nat>, s: State, w: nat, e: Effect)
    requires Placed(c, s) && |level| == |c.queues| && w < |c.roles| && CanApply(c, s, w, e)
    ensures var s' := Apply(c, s, w, e);
            |s'.queues| == |s.queues| && Sum(QueueRanks(level, s')) == Sum(QueueRanks(level, s)) + Gain(c, level, w, e)
  {
    var s' := Apply(c, s, w, e);
    if e.Enqueue? || e.Dequeue? {
      var q := if e.Enqueue? then c.roles[w].outq else c.roles[w].inq;
      var n, k := |s.queues[q].items|, Weight(level, q);
      assert (n + 1) * k == n * k + k && (n - 1) * k == n * k - k;
      var v := |s'.queues[q].items| * k;
      assert QueueRanks(level, s') == QueueRanks(level, s)[q := v];
      SumUpdate(QueueRanks(level, s), q, v);
    } else {
      assert QueueRanks(level, s') == QueueRanks(level, s);
    }
  }

  lemma WorkPays(c: Config, level: seq<nat>, limit: seq<nat>, s: State, w: nat, o: Outcome)
    requires Located(c, s) && Acyclic(c, level) && WithinLimit(limit, s)
    requires w < |c.roles| && CanWork(c, s, w) && PossibleOutcome(s.workers[w].pc, o)
    requires Bounded(limit, s, Worked(w, o))
    ensures var s' := Work(c, s, w, o);
            && Shaped(c, s')
            && WithinLimit(limit, s')
            && Measure(c, level, limit, s') < Measure(c, level, limit, s)
  {
    var s' := Work(c, s, w, o);
    var (x, e) := Act(c, s, w, o);
    LocatedWork(c, s, w, o);
    WorkFramed(c, s, w, o);
    if c.roles[w].Source? {
      SourcePays(c, level, limit[w], s, w, o);
    } else {
      ConsumerPays(c, level, limit[w], s, w, o);
    }
    QueuesPay(c, level, s, w, e);
    MeasureFramed(c, level, limit, s, s', w, Gain(c, level, w, e));
  }

  lemma MeasureFramed(c: Config, level: seq<nat>, limit: seq<nat>, s: State, s': State, w: nat, gain: int)
    requires Shaped(c, s) && Shaped(c, s') && w < |c.roles| && Framed(s, s', w)
    requires |level| == |c.queues| && WithinLimit(limit, s) && |s'.workers[w].made| <= limit[w]
    requires WorkerRank(level, limit[w], c.roles[w], s'.workers[w]) + gain
             < WorkerRank(level, limit[w], c.roles[w], s.workers[w])
    requires Sum(QueueRanks(level, s')) == Sum(QueueRanks(level, s)) + gain
    ensures WithinLimit(limit, s') && Measure(c, level, limit, s') < Measure(c, level, limit, s)
  {
    var v := WorkerRank(level, limit[w], c.roles[w], s'.workers[w]);
    assert WorkerRanks(c, level, limit, s') == WorkerRanks(c, level, limit, s)[w := v];
    SumUpdate(WorkerRanks(c, level, limit, s), w, v);
  }

  lemma MainRankDrops(c: Config, s: State, l: Label, s': State)
    requires Located(c, s) && Next(c, s, l, s') && !l.Worked?
    ensures MainRank(c, s') + (if s'.stop then 0 else 1) < MainRank(c, s) + (if s.stop then 0 else 1)
  {
    if l.Mained? {
      MainDrops(c, s);
    }
  }

  lemma MainDrops(c: Config, s: State)
    requires Located(c, s) && CanMain(c, s)
    ensures MainRank(c, Main(c, s)) < MainRank(c, s) && (s.stop ==> Main(c, s).stop)
  {
  }

  lemma MeasureManaged(c: Config, level: seq<nat>, limit: seq<nat>, s: State, s': State)
    requires Shaped(c, s) && Shaped(c, s') && Managed(s, s')
    requires |level| == |c.queues| && WithinLimit(limit, s)
    requires MainRank(c, s') + (if s'.stop then 0 else 1) < MainRank(c, s) + (if s.stop then 0 else 1)
    ensures WithinLimit(limit, s') && Measure(c, level, limit, s') < Measure(c, level, limit, s)
  {
    SumBelow(WorkerRanks(c, level, limit, s'), WorkerRanks(c, level, limit, s));
    assert QueueRanks(level, s') == QueueRanks(level, s);
  }

  lemma OtherPays(c: Config, level: seq<nat>, limit: seq<nat>, s: State, l: Label, s': State)
    requires Located(c, s) && Next(c, s, l, s') && !l.Worked?
    requires Acyclic(c, level) && WithinLimit(limit, s)
    ensures Shaped(c, s') && WithinLimit(limit, s') && Measure(c, level, limit, s') < Measure(c, level, limit, s)
  {
    LocatedStep(c, s, l, s');
    OtherManaged(c, s, l, s');
    MainRankDrops(c, s, l, s');
    MeasureManaged(c, level, limit, s, s');
  }

  /** Every step of every thread lowers the measure, whatever stage, signal or fault made it. */
  lemma StepPays(c: Config, level: seq<nat>, limit: seq<nat>, s: State, l: Label, s': State)
    requires Located(c, s) && Next(c, s, l, s') && Bounded(limit, s, l)
    requires Acyclic(c, level) && WithinLimit(limit, s)
    ensures Shaped(c, s') && WithinLimit(limit, s') && Measure(c, level, limit, s') < Measure(c, level, limit, s)
  {
    match l
    case Worked(w, o) => WorkPays(c, level, limit, s, w, o);
    case _ => OtherPays(c, level, limit, s, l, s');
  }

  lemma WorkerRankNonNegative(c: Config, level: seq<nat>, limit: seq<nat>, s: State, w: nat)
    requires Shaped(c, s) && Acyclic(c, level) && WithinLimit(limit, s) && w < |c.roles|
    ensures WorkerRank(level, limit[w], c.roles[w], s.workers[w]) >= 0
  {
    if c.roles[w].Source? {
      var n, k := limit[w] - |s.workers[w].made|, Weight(level, c.roles[w].outq) + 4;
      assert n * k >= 0;
    }
  }

  lemma MeasureNonNegative(c: Config, level: seq<nat>, limit: seq<nat>, s: State)
    requires Located(c, s) && Acyclic(c, level) && WithinLimit(limit, s)
    ensures Measure(c, level, limit, s) >= 0
  {
    forall w | 0 <= w < |c.roles|
      ensures WorkerRank(level, limit[w], c.roles[w], s.workers[w]) >= 0
    {
      WorkerRankNonNegative(c, level, limit, s, w);
    }
    SumNonNegative(WorkerRanks(c, level, limit, s));
    forall q | 0 <= q < |s.queues|
      ensures |s.queues[q].items| * Weight(level, q) >= 0
    {
    }
    SumNonNegative(QueueRanks(level, s));
  }

  // ---------------------------------------------------------------- no deadlock

  /** Every queue that is read has a producer and every queue that is written has a consumer. */
  predicate FullyWired(c: Config)
  {
    && (forall w, q :: 0 <= w < |c.roles| && 0 <= q < |c.queues| && Reads(c, w, q) ==>
          exists v :: 0 <= v < |c.roles| && Writes(c, v, q))
    && (forall w, q :: 0 <= w < |c.roles| && 0 <= q < |c.queues| && Writes(c, w, q) ==>
          exists v :: 0 <= v < |c.roles| && Reads(c, v, q))
  }

  /** In a job that has run out of active workers stop is set or about to be. */
  ghost predicate StopsWhenIdle(c: Config, s: State)
  {
    c.job && s.main.Monitor? && s.active == 0 ==>
      s.stop || exists w :: 0 <= w < |s.workers| && s.workers[w].pc.AtStop?
  }

  lemma WorkIdles(c: Config, s: State, w: nat, o: Outcome)
    requires Placed(c, s) && w < |c.roles| && CanWork(c, s, w) && PossibleOutcome(s.workers[w].pc, o)
    ensures var s' := Work(c, s, w, o);
            && |s'.workers| == |s.workers|
            && s'.active == s.active - (if s.workers[w].pc.AtRelease? then 1 else 0)
            && (s.workers[w].pc.AtRelease? && c.job && s.active == 1 ==> s'.workers[w].pc.AtStop?)
            && (s.workers[w].pc.AtStop? ==> s'.stop)
  {
  }

  lemma IdleStep(c: Config, s: State, l: Label, s': State)
    requires Located(c, s) && StopsWhenIdle(c, s) && Next(c, s, l, s')
    ensures StopsWhenIdle(c, s')
  {
    match l
    case Worked(w, o) =>
      WorkIdles(c, s, w, o);
      WorkFramed(c, s, w, o);
      if c.job && s'.main.Monitor? && s'.active == 0 && !s'.stop {
        if !s.workers[w].pc.AtRelease? {
          var v :| 0 <= v < |s.workers| && s.workers[v].pc.AtStop?;
          assert v != w && s'.workers[v].pc.AtStop?;
        }
      }
    case Mained =>
    case Failed(f) =>
    case Interrupted =>
  }

  lemma {:induction false} RunIdles(c: Config, r: Run, n: nat)
    requires IsRun(c, r) && n < |r.states|
    ensures StopsWhenIdle(c, r.states[n])
    decreases n
  {
    if n > 0 {
      RunIdles(c, r, n - 1);
      RunInv(c, r, n - 1);
      RunStep(c, r, n - 1);
      IdleStep(c, r.states[n - 1], r.labels[n - 1], r.states[n]);
    }
  }

  /** Some thread can take its next step. */
  ghost predicate CanMove(c: Config, s: State)
    requires Placed(c, s)
  {
    CanMain(c, s) || exists w :: 0 <= w < |c.roles| && CanWork(c, s, w)
  }

  /** All threads run and nobody has asked for stop. */
  ghost predicate Steady(c: Config, s: State)
  {
    Inv(c, s) && s.main.Monitor? && !s.stop
  }

  /** Below a blocked push there is a worker that can run: follow the full queues down. */
  lemma {:induction false} BlockedPushMoves(c: Config, level: seq<nat>, s: State, w: nat)
    requires Steady(c, s) && FullyWired(c) && Acyclic(c, level)
    requires w < |c.roles| && s.workers[w].pc.AtPush? && !CanWork(c, s, w)
    ensures CanMove(c, s)
    decreases level[c.roles[w].outq]
  {
    var q := c.roles[w].outq;
    assert Writes(c, w, q);
    var v :| 0 <= v < |c.roles| && Reads(c, v, q);
    assert Settled(c, s, v);
    if !CanWork(c, s, v) {
      BlockedPushMoves(c, level, s, v);
    }
  }

  /** While stop is unset an open queue with a producer has one that is still running or closing it. */
  lemma LiveProducer(c: Config, s: State, q: nat) returns (v: nat)
    requires Inv(c, s) && !s.stop && q < |c.queues| && !s.queues[q].closed
    requires exists p :: 0 <= p < |c.roles| && Writes(c, p, q)
    ensures v < |c.roles| && Writes(c, v, q) && (s.workers[v].pc.AtCloseOut? || !Dropped(s.workers[v].pc))
  {
    var p :| 0 <= p < |c.roles| && Writes(c, p, q);
    assert p in Producers(c, q);
    if s.queues[q].remaining == 0 {
      v :| 0 <= v < |s.workers| && s.workers[v].pc.AtCloseOut? && Writes(c, v, q);
    } else {
      assert Pending(c, s, q) != {};
      v :| v in Pending(c, s, q);
    }
  }

  /** Above a blocked pop there is a worker that can run: follow the empty queues up. */
  lemma BlockedPopMoves(c: Config, level: seq<nat>, top: nat, s: State, w: nat)
    requires Steady(c, s) && FullyWired(c) && Acyclic(c, level)
    requires forall q :: 0 <= q < |level| ==> level[q] <= top
    requires w < |c.roles| && s.workers[w].pc.AtPop? && !CanWork(c, s, w)
    ensures CanMove(c, s)
    decreases top - level[c.roles[w].inq]
  {
    assert Reads(c, w, c.roles[w].inq);
    var v := LiveProducer(c, s, c.roles[w].inq);
    if !CanWork(c, s, v) {
      if s.workers[v].pc.AtPush? {
        BlockedPushMoves(c, level, s, v);
      } else {
        BlockedPopMoves(c, level, top, s, v);
      }
    }
  }

  function Top(level: seq<nat>): (t: nat)
    ensures forall q :: 0 <= q < |level| ==> level[q] <= t
  {
    if level == [] then 0
    else
      var t := Top(level[1..]);
      assert forall q :: 0 < q < |level| ==> level[q] == level[1..][q - 1];
      if level[0] > t then level[0] else t
  }

  /** While a job has not asked for stop some worker has not ended. */
  lemma SomeoneBusy(c: Config, s: State) returns (w: nat)
    requires Steady(c, s) && StopsWhenIdle(c, s) && c.job
    ensures w < |c.roles| && !s.workers[w].pc.Done?
  {
    if s.active == 0 {
      w :| 0 <= w < |s.workers| && s.workers[w].pc.AtStop?;
    } else {
      assert Live(s) != {};
      w :| w in Live(s);
    }
  }

  lemma SteadyMoves(c: Config, level: seq<nat>, s: State)
    requires Steady(c, s) && StopsWhenIdle(c, s) && c.job && FullyWired(c) && Acyclic(c, level)
    ensures CanMove(c, s)
  {
    var w := SomeoneBusy(c, s);
    if !CanWork(c, s, w) {
      if s.workers[w].pc.AtPush? {
        BlockedPushMoves(c, level, s, w);
      } else {
        BlockedPopMoves(c, level, Top(level), s, w);
      }
    }
  }

  /** With stop set every started thread can run to its end, and main behind them. */
  lemma StoppedMoves(c: Config, s: State)
    requires Located(c, s) && (s.stop || !s.main.Monitor?)
    ensures CanMove(c, s) <==> !s.main.Finished?
  {
    if s.main.Joining? && !CanMain(c, s) {
      assert CanWork(c, s, s.main.next);
    }
  }

  /**
   Deadlock freedom: in a job over an acyclic, fully wired flow some thread can move in
   every reachable state until run has returned, and none after.
   */
  lemma JobNeverStuck(c: Config, level: seq<nat>, r: Run, n: nat)
    requires IsRun(c, r) && n < |r.states|
    requires c.job && FullyWired(c) && Acyclic(c, level)
    ensures Placed(c, r.states[n])
    ensures CanMove(c, r.states[n]) <==> !r.states[n].main.Finished?
  {
    var s := r.states[n];
    RunInv(c, r, n);
    RunIdles(c, r, n);
    if s.main.Monitor? && !s.stop {
      SteadyMoves(c, level, s);
    } else {
      StoppedMoves(c, s);
    }
  }

  ghost predicate BoundedRun(c: Config, limit: seq<nat>, r: Run)
  {
    && |limit| == |c.roles|
    && |r.states| == |r.labels| + 1
    && (forall i :: 0 <= i < |r.labels| ==> Bounded(limit, r.states[i], r.labels[i]))
  }

  lemma {:induction false} RunPays(c: Config, level: seq<nat>, limit: seq<nat>, r: Run, n: nat)
    requires IsRun(c, r) && n < |r.states| && Acyclic(c, level) && BoundedRun(c, limit, r)
    ensures Shaped(c, r.states[n]) && WithinLimit(limit, r.states[n])
    ensures Shaped(c, r.states[0])
    ensures Measure(c, level, limit, r.states[n]) + n <= Measure(c, level, limit, r.states[0])
    decreases n
  {
    if n == 0 {
      RunInv(c, r, 0);
    } else {
      RunPays(c, level, limit, r, n - 1);
      RunPaysAt(c, level, limit, r, n - 1);
    }
  }

  lemma RunPaysAt(c: Config, level: seq<nat>, limit: seq<nat>, r: Run, i: nat)
    requires IsRun(c, r) && i < |r.labels| && Acyclic(c, level) && BoundedRun(c, limit, r)
    requires Shaped(c, r.states[i]) && WithinLimit(limit, r.states[i])
    ensures Shaped(c, r.states[i + 1]) && WithinLimit(limit, r.states[i + 1])
    ensures Measure(c, level, limit, r.states[i + 1]) < Measure(c, level, limit, r.states[i])
  {
    RunInv(c, r, i);
    RunStep(c, r, i);
    StepPays(c, level, limit, r.states[i], r.labels[i], r.states[i + 1]);
  }

  /**
   run always returns: the length of every run of a job is bounded in advance, and a
   run that cannot be continued is one in which run has returned or thrown.
   */
  lemma JobReturns(c: Config, level: seq<nat>, limit: seq<nat>, r: Run)
    requires IsRun(c, r) && c.job && FullyWired(c) && Acyclic(c, level) && BoundedRun(c, limit, r)
    ensures Shaped(c, Init(c))
    ensures |r.labels| <= Measure(c, level, limit, Init(c))
    ensures Placed(c, r.Last()) && (!CanMove(c, r.Last()) <==> r.Last().main.Finished?)
  {
    RunPays(c, level, limit, r, |r.labels|);
    RunInv(c, r, |r.labels|);
    MeasureNonNegative(c, level, limit, r.Last());
    JobNeverStuck(c, level, r, |r.labels|);
  }

  // ---------------------------------------------------------------- shutdown

  /** Once stop is set a worker only goes down this list; it starts no new round of its loop. */
  function StopPlace(pc: Pc): nat
  {
    match pc
    case Done => 0
    case AtStop => 1
    case AtRelease => 2
    case AtDestroy => 3
    case AtCloseOut => 4
    case AtDrop => 5
    case AtCloseIn => 6
    case Top => 6
    case AtPush(_) => 7
    case AtConsume(_) => 7
    case AtProcess(_) => 8
    case AtProduce => 8
    case AtPop => 9
    case Unborn => 10
  }

  function StopRanks(s: State): seq<int>
  {
    seq(|s.workers|, w requires 0 <= w < |s.workers| => StopPlace(s.workers[w].pc))
  }

  function StopMeasure(c: Config, s: State): int
  {
    Sum(StopRanks(s)) + MainRank(c, s)
  }

  lemma WorkWindsDown(c: Config, s: State, w: nat, o: Outcome)
    requires Placed(c, s) && w < |c.roles| && CanWork(c, s, w) && PossibleOutcome(s.workers[w].pc, o)
    requires s.stop
    ensures StopPlace(Act(c, s, w, o).0.pc) < StopPlace(s.workers[w].pc)
  {
  }

  lemma StopPays(c: Config, s: State, l: Label, s': State)
    requires Located(c, s) && Next(c, s, l, s') && s.stop
    ensures s'.stop && StopMeasure(c, s') < StopMeasure(c, s)
  {
    match l
    case Worked(w, o) =>
      WorkFramed(c, s, w, o);
      WorkWindsDown(c, s, w, o);
      var v := StopPlace(s'.workers[w].pc);
      assert StopRanks(s') == StopRanks(s)[w := v];
      SumUpdate(StopRanks(s), w, v);
    case _ =>
      OtherManaged(c, s, l, s');
      MainRankDrops(c, s, l, s');
      SumBelow(StopRanks(s'), StopRanks(s));
  }

  lemma StopMeasureBounds(c: Config, s: State)
    requires Located(c, s)
    ensures 0 <= StopMeasure(c, s) <= 14 * |c.roles| + |c.queues| + 6
  {
    SumAtMost(StopRanks(s), 10);
  }

  lemma {:induction false} StopRunPays(c: Config, r: Run, n: nat, m: nat)
    requires IsRun(c, r) && n <= m < |r.states| && r.states[n].stop
    ensures r.states[m].stop && StopMeasure(c, r.states[m]) + (m - n) <= StopMeasure(c, r.states[n])
    decreases m
  {
    if n < m {
      StopRunPays(c, r, n, m - 1);
      StopPaysAt(c, r, m - 1);
    }
  }

  lemma StopPaysAt(c: Config, r: Run, i: nat)
    requires IsRun(c, r) && i < |r.labels| && r.states[i].stop
    ensures r.states[i + 1].stop && StopMeasure(c, r.states[i + 1]) < StopMeasure(c, r.states[i])
  {
    RunInv(c, r, i);
    RunStep(c, r, i);
    StopPays(c, r.states[i], r.labels[i], r.states[i + 1]);
  }

  /**
   Graceful shutdown, in every mode, over every flow, cyclic or unwired, with endless or
   throwing stages: after stop is set at state n, run takes a number of steps bounded by the
   size of the flow alone, and cannot get stuck before it has returned.
   */
  lemma ShutdownReturns(c: Config, r: Run, n: nat)
    requires IsRun(c, r) && n < |r.states| && r.states[n].stop
    ensures |r.labels| - n <= 14 * |c.roles| + |c.queues| + 6
    ensures Placed(c, r.Last()) && (!CanMove(c, r.Last()) <==> r.Last().main.Finished?)
  {
    RunInv(c, r, n);
    RunInv(c, r, |r.labels|);
    StopRunPays(c, r, n, |r.labels|);
    StopMeasureBounds(c, r.states[n]);
    StopMeasureBounds(c, r.Last());
    StoppedMoves(c, r.Last());
  }
}
