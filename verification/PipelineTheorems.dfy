/** The safety results for every run of every flow, in the terms of the runtime. */
module PipelineTheorems {
  import opened Payloads
  import opened Pipeline
  import opened PipelineSafety
  import opened Sums

  // ---------------------------------------------------------------- closing

  /**
   A queue that is closed before any stop has no producer left to push to it: the
   remaining count is zero and every producer's runner has returned.
   */
  lemma ClosedMeansProducersDone(c: Config, r: Run, n: nat, q: nat)
    requires IsRun(c, r) && n < |r.states| && q < |c.queues|
    ensures var s := r.states[n];
            && |s.queues| == |c.queues| && |s.workers| == |c.roles|
            && (s.queues[q].closed && !s.stop ==>
                  && s.queues[q].remaining == 0
                  && forall w :: 0 <= w < |c.roles| && Writes(c, w, q) ==> Dropped(s.workers[w].pc))
  {
    RunInv(c, r, n);
    var s := r.states[n];
    if s.queues[q].closed && !s.stop {
      forall w | 0 <= w < |c.roles| && Writes(c, w, q)
        ensures Dropped(s.workers[w].pc)
      {
        assert Pending(c, s, q) == {};
        assert w !in Pending(c, s, q);
      }
    }
  }

  /** Neither atomic counter underflows, and no payload is refused by a queue while stop is unset. */
  lemma CountersAndPushes(c: Config, r: Run, n: nat)
    requires IsRun(c, r) && n < |r.states|
    ensures var s := r.states[n];
            && Placed(c, s)
            && s.active >= 0
            && (forall q :: 0 <= q < |s.queues| ==> 0 <= s.queues[q].remaining <= |Producers(c, q)|)
            && (!s.stop ==> forall w :: 0 <= w < |s.workers| ==>
                  && s.workers[w].refused == []
                  && (s.workers[w].pc.AtPush? ==> !s.queues[c.roles[w].outq].closed))
  {
    RunInv(c, r, n);
    var s := r.states[n];
    forall q | 0 <= q < |s.queues|
      ensures 0 <= s.queues[q].remaining <= |Producers(c, q)|
    {
      CardinalitySubset(Pending(c, s, q), Producers(c, q));
    }
    if !s.stop {
      forall w | 0 <= w < |s.workers|
        ensures s.workers[w].refused == []
        ensures s.workers[w].pc.AtPush? ==> !s.queues[c.roles[w].outq].closed
      {
        assert Settled(c, s, w) && Balanced(c.roles[w], s.workers[w]);
        if s.workers[w].pc.AtPush? {
          OpenForProducer(c, s, w);
        }
      }
    }
  }

  // ---------------------------------------------------------------- conservation

  function Made(s: State): seq<int>
  {
    seq(|s.workers|, w requires 0 <= w < |s.workers| => |s.workers[w].made|)
  }

  /** Payloads a worker has consumed, rejected, had refused or lost, and the one it holds. */
  function Resting(s: State): seq<int>
  {
    seq(|s.workers|, w requires 0 <= w < |s.workers| =>
          var x := s.workers[w];
          |x.eaten| + |x.dropped| + |x.refused| + |x.thrown| + InHand(x.pc))
  }

  function Waiting(s: State): seq<int>
  {
    seq(|s.queues|, q requires 0 <= q < |s.queues| => |s.queues[q].items|)
  }

  /** What a worker has put into queues, less what it took out. */
  function Net(s: State): seq<int>
  {
    seq(|s.workers|, w requires 0 <= w < |s.workers| => |s.workers[w].sent| - |s.workers[w].got|)
  }

  /** What an effect moves into the queues. */
  function Inflow(e: Effect): int
  {
    if e.Enqueue? then 1 else if e.Dequeue? then -1 else 0
  }

  lemma NetGrows(c: Config, s: State, s': State, w: nat, e: Effect)
    requires Placed(c, s) && w < |c.roles| && CanApply(c, s, w, e)
    requires Framed(s, s', w) && Tallied(c, s, s', w, e)
    ensures Sum(Net(s')) == Sum(Net(s)) + Inflow(e)
  {
    var v := Net(s')[w];
    assert Net(s') == Net(s)[w := v];
    SumUpdate(Net(s), w, v);
  }

  lemma WaitingCounts(c: Config, s: State, q: nat)
    requires Shaped(c, s) && QueuesSound(c, s) && q < |s.queues|
    ensures Waiting(s)[q] == |s.queues[q].pushed| - |s.queues[q].popped|
  {
    assert QueueSound(c.queues[q].capacity, c.queues[q].schemaId, s.queues[q]);
  }

  /** The queue an effect puts into or takes from. */
  function Moved(c: Config, w: nat, e: Effect): int
    requires w < |c.roles| && (e.Enqueue? ==> !c.roles[w].Sink?) && (e.Dequeue? ==> !c.roles[w].Source?)
  {
    if e.Enqueue? then c.roles[w].outq else if e.Dequeue? then c.roles[w].inq else -1
  }

  lemma WaitingAt(c: Config, s: State, s': State, w: nat, e: Effect, q: nat)
    requires Placed(c, s) && QueuesSound(c, s) && QueuesSound(c, s') && w < |c.roles| && CanApply(c, s, w, e)
    requires Framed(s, s', w) && Tallied(c, s, s', w, e) && q < |s.queues|
    ensures Waiting(s')[q] == Waiting(s)[q] + if q == Moved(c, w, e) then Inflow(e) else 0
  {
    WaitingCounts(c, s, q);
    WaitingCounts(c, s', q);
  }

  lemma WaitingGrows(c: Config, s: State, s': State, w: nat, e: Effect)
    requires Placed(c, s) && QueuesSound(c, s) && QueuesSound(c, s') && w < |c.roles| && CanApply(c, s, w, e)
    requires Framed(s, s', w) && Tallied(c, s, s', w, e)
    ensures Sum(Waiting(s')) == Sum(Waiting(s)) + Inflow(e)
  {
    forall q | 0 <= q < |s.queues|
      ensures Waiting(s')[q] == Waiting(s)[q] + if q == Moved(c, w, e) then Inflow(e) else 0
    {
      WaitingAt(c, s, s', w, e, q);
    }
    if e.Enqueue? || e.Dequeue? {
      var q := Moved(c, w, e);
      var n := Waiting(s')[q];
      assert Waiting(s') == Waiting(s)[q := n];
      SumUpdate(Waiting(s), q, n);
    } else {
      assert Waiting(s') == Waiting(s);
    }
  }

  lemma NetManaged(s: State, s': State)
    requires Managed(s, s')
    ensures Net(s') == Net(s) && Waiting(s') == Waiting(s)
  {
  }

  lemma NetInit(c: Config)
    requires ValidConfig(c)
    ensures Sum(Net(Init(c))) == Sum(Waiting(Init(c)))
  {
    SumZero(Net(Init(c)));
    SumZero(Waiting(Init(c)));
  }

  lemma NetStepAt(c: Config, r: Run, i: nat)
    requires IsRun(c, r) && i < |r.labels| && Sum(Net(r.states[i])) == Sum(Waiting(r.states[i]))
    ensures Sum(Net(r.states[i + 1])) == Sum(Waiting(r.states[i + 1]))
  {
    ReachedStep(c, r, i);
    NetStep(c, r.states[i], r.labels[i], r.states[i + 1]);
  }

  lemma {:induction false} NetRun(c: Config, r: Run, n: nat)
    requires IsRun(c, r) && n < |r.states|
    ensures Sum(Net(r.states[n])) == Sum(Waiting(r.states[n]))
    decreases n
  {
    if n == 0 {
      NetInit(c);
    } else {
      NetRun(c, r, n - 1);
      NetStepAt(c, r, n - 1);
    }
  }

  lemma NetStep(c: Config, s: State, l: Label, s': State)
    requires Reached(c, s) && Reached(c, s') && Placed(c, s) && Next(c, s, l, s')
    requires Sum(Net(s)) == Sum(Waiting(s))
    ensures Sum(Net(s')) == Sum(Waiting(s'))
  {
    ReachedInv(c, s);
    match l
    case Worked(w, o) => NetWork(c, s, w, o);
    case _ =>
      OtherManaged(c, s, l, s');
      NetManaged(s, s');
  }

  lemma NetWork(c: Config, s: State, w: nat, o: Outcome)
    requires Reached(c, s) && Placed(c, s) && w < |c.roles| && CanWork(c, s, w)
    requires PossibleOutcome(s.workers[w].pc, o) && Reached(c, Work(c, s, w, o))
    requires Sum(Net(s)) == Sum(Waiting(s))
    ensures Sum(Net(Work(c, s, w, o))) == Sum(Waiting(Work(c, s, w, o)))
  {
    var s' := Work(c, s, w, o);
    ReachedInv(c, s);
    ReachedInv(c, s');
    WorkFramed(c, s, w, o);
    WorkTallied(c, s, w, o);
    NetGrows(c, s, s', w, Act(c, s, w, o).1);
    WaitingGrows(c, s, s', w, Act(c, s, w, o).1);
  }

  /**
   Conservation: at every moment of every run, the payloads ever produced are exactly
   those waiting in queues, held by workers, consumed, rejected, refused or lost to a throw.
   */
  lemma PayloadsConserved(c: Config, r: Run, n: nat)
    requires IsRun(c, r) && n < |r.states|
    ensures Sum(Made(r.states[n])) == Sum(Waiting(r.states[n])) + Sum(Resting(r.states[n]))
  {
    NetRun(c, r, n);
    RunInv(c, r, n);
    var s := r.states[n];
    forall w | 0 <= w < |s.workers|
      ensures Made(s)[w] - Resting(s)[w] == Net(s)[w]
    {
      assert Balanced(c.roles[w], s.workers[w]);
    }
    SumDifference(Made(s), Resting(s), Net(s));
  }

  /** A queue hands out a prefix of what was pushed, and both histories are those of its workers. */
  lemma QueueHistories(c: Config, r: Run, n: nat, q: nat)
    requires IsRun(c, r) && n < |r.states| && q < |c.queues|
    ensures var s := r.states[n];
            && |s.queues| == |c.queues|
            && s.queues[q].popped + s.queues[q].items == s.queues[q].pushed
            && |s.queues[q].items| <= c.queues[q].capacity
            && multiset(s.queues[q].pushed) == multiset(Flat(SentTo(c, s, q)))
            && multiset(s.queues[q].popped) == multiset(Flat(GotFrom(c, s, q)))
  {
    RunInv(c, r, n);
    assert QueueSound(c.queues[q].capacity, c.queues[q].schemaId, r.states[n].queues[q]);
  }

  /** The metric counters of one worker add up, whatever the state of the run. */
  lemma MetricsAddUp(c: Config, r: Run, n: nat, w: nat)
    requires IsRun(c, r) && n < |r.states| && w < |c.roles|
    ensures var s := r.states[n];
            && |s.workers| == |c.roles|
            && var m := s.workers[w].metrics;
               var x := s.workers[w];
               && |x.refused| <= 1
               && (c.roles[w].Transform? ==> m.dequeues == m.enqueues + m.errors + |x.refused| + InHand(x.pc))
               && (c.roles[w].Sink? ==> m.dequeues == m.latencies + m.errors + InHand(x.pc))
               && (c.roles[w].Source? ==> m.latencies == m.enqueues + |x.refused| + InHand(x.pc))
  {
    RunInv(c, r, n);
    assert Balanced(c.roles[w], r.states[n].workers[w]);
  }

  // ---------------------------------------------------------------- schema typing

  /** Everything waiting in a typed queue carries its id, so input validation accepts every pop. */
  lemma InputAlwaysValid(c: Config, r: Run, n: nat, q: nat)
    requires IsRun(c, r) && n < |r.states| && q < |c.queues|
    ensures var s := r.states[n];
            && |s.queues| == |c.queues|
            && forall i :: 0 <= i < |s.queues[q].items| ==>
                 && AcceptsInput(c.queues[q].schemaId, s.queues[q].items[i])
                 && (c.queues[q].schemaId != "" ==> s.queues[q].items[i].schemaId == c.queues[q].schemaId)
  {
    RunInv(c, r, n);
    assert QueueSound(c.queues[q].capacity, c.queues[q].schemaId, r.states[n].queues[q]);
  }

  /** Whenever worker w's process() returns, it left the schema id it was given. */
  ghost predicate KeepsSchemaId(r: Run, w: nat)
    requires |r.states| == |r.labels| + 1
  {
    forall i :: 0 <= i < |r.labels| && r.labels[i].Worked? && r.labels[i].w == w && w < |r.states[i].workers|
                && r.states[i].workers[w].pc.AtProcess? && r.labels[i].o.Yield? ==>
      r.labels[i].o.value.schemaId == r.states[i].workers[w].pc.hand.schemaId
  }

  predicate Barren(c: Config, w: nat, x: Worker)
    requires ValidConfig(c) && w < |c.roles| && c.roles[w].Transform?
  {
    && x.sent == [] && x.refused == [] && !x.pc.AtPush?
    && (x.pc.AtProcess? ==> x.pc.hand.schemaId == c.queues[c.roles[w].inq].schemaId)
  }

  lemma BarrenWork(c: Config, s: State, w: nat, o: Outcome)
    requires Placed(c, s) && QueuesSound(c, s) && w < |c.roles| && CanWork(c, s, w)
    requires PossibleOutcome(s.workers[w].pc, o) && c.roles[w].Transform? && Barren(c, w, s.workers[w])
    requires c.queues[c.roles[w].inq].schemaId != "" && c.queues[c.roles[w].outq].schemaId != ""
    requires c.queues[c.roles[w].inq].schemaId != c.queues[c.roles[w].outq].schemaId
    requires s.workers[w].pc.AtProcess? && o.Yield? ==> o.value.schemaId == s.workers[w].pc.hand.schemaId
    ensures Barren(c, w, Act(c, s, w, o).0)
  {
    var q := c.roles[w].inq;
    assert QueueSound(c.queues[q].capacity, c.queues[q].schemaId, s.queues[q]);
  }

  lemma BarrenStep(c: Config, s: State, l: Label, s': State, w: nat)
    requires Reached(c, s) && Reached(c, s') && Placed(c, s) && Next(c, s, l, s')
    requires |s.workers| == |c.roles| && ValidConfig(c)
    requires w < |c.roles| && c.roles[w].Transform? && Barren(c, w, s.workers[w])
    requires c.queues[c.roles[w].inq].schemaId != "" && c.queues[c.roles[w].outq].schemaId != ""
    requires c.queues[c.roles[w].inq].schemaId != c.queues[c.roles[w].outq].schemaId
    requires l.Worked? && l.w == w && s.workers[w].pc.AtProcess? && l.o.Yield? ==>
               l.o.value.schemaId == s.workers[w].pc.hand.schemaId
    ensures |s'.workers| == |c.roles| && Barren(c, w, s'.workers[w])
  {
    ReachedInv(c, s);
    ReachedInv(c, s');
    match l
    case Worked(v, o) =>
      if v == w {
        BarrenWork(c, s, w, o);
      } else {
        WorkFramed(c, s, v, o);
      }
    case _ => OtherManaged(c, s, l, s');
  }

  lemma {:induction false} BarrenRun(c: Config, r: Run, n: nat, w: nat)
    requires IsRun(c, r) && n < |r.states| && w < |c.roles| && c.roles[w].Transform? && KeepsSchemaId(r, w)
    requires c.queues[c.roles[w].inq].schemaId != "" && c.queues[c.roles[w].outq].schemaId != ""
    requires c.queues[c.roles[w].inq].schemaId != c.queues[c.roles[w].outq].schemaId
    ensures |r.states[n].workers| == |c.roles| && Barren(c, w, r.states[n].workers[w])
    decreases n, 1
  {
    RunInv(c, r, n);
    if n > 0 {
      BarrenAfter(c, r, n - 1, w);
    }
  }

  lemma {:induction false} BarrenAfter(c: Config, r: Run, i: nat, w: nat)
    requires IsRun(c, r) && i < |r.labels| && w < |c.roles| && c.roles[w].Transform? && KeepsSchemaId(r, w)
    requires c.queues[c.roles[w].inq].schemaId != "" && c.queues[c.roles[w].outq].schemaId != ""
    requires c.queues[c.roles[w].inq].schemaId != c.queues[c.roles[w].outq].schemaId
    ensures |r.states[i + 1].workers| == |c.roles| && Barren(c, w, r.states[i + 1].workers[w])
    decreases i + 1, 0
  {
    BarrenRun(c, r, i, w);
    ReachedStep(c, r, i);
    BarrenStep(c, r.states[i], r.labels[i], r.states[i + 1], w);
  }

  /**
   A transform that keeps the schema id, wired between queues of two different schemas,
   enqueues nothing at all and records one error for each payload it has finished with.
   */
  lemma MismatchedTransformIsBarren(c: Config, r: Run, n: nat, w: nat)
    requires IsRun(c, r) && n < |r.states| && w < |c.roles| && c.roles[w].Transform? && KeepsSchemaId(r, w)
    requires c.queues[c.roles[w].inq].schemaId != "" && c.queues[c.roles[w].outq].schemaId != ""
    requires c.queues[c.roles[w].inq].schemaId != c.queues[c.roles[w].outq].schemaId
    ensures var s := r.states[n];
            && |s.workers| == |c.roles|
            && s.workers[w].sent == []
            && s.workers[w].metrics.errors == s.workers[w].metrics.dequeues - InHand(s.workers[w].pc)
  {
    BarrenRun(c, r, n, w);
    RunInv(c, r, n);
    assert Balanced(c.roles[w], r.states[n].workers[w]);
  }

  // ---------------------------------------------------------------- stage instances

  /**
   While a worker uses its stage the instance is registered, so alive, and the plugins are
   loaded; a thread that has ended has destroyed its instance; no instance is destroyed twice; and when run is over, by return or by throw, no
   instance is registered any more, every one that ever was has been destroyed exactly once,
   and the plugins were unloaded once.
   */
  lemma StagesDestroyedOnce(c: Config, r: Run, n: nat, w: nat)
    requires IsRun(c, r) && n < |r.states| && w < |c.roles|
    ensures var s := r.states[n];
            && |s.instances| == |c.roles| && |s.workers| == |c.roles|
            && s.instances[w].destroys <= 1
            && (UsesStage(s.workers[w].pc) ==> s.instances[w] == Instance(true, 0, false) && s.unloads == 0)
            && (s.workers[w].pc.Done? ==> s.instances[w] == Instance(false, 1, false))
            && (s.main.Finished? ==>
                  && !s.instances[w].registered
                  && s.instances[w].destroys == (if w < s.created && !s.instances[w].leaked then 1 else 0)
                  && s.unloads == 1)
  {
    RunInv(c, r, n);
    assert InstanceSound(r.states[n], w);
  }

  predicate SomeLeaked(s: State)
  {
    exists w :: 0 <= w < |s.instances| && s.instances[w].leaked
  }

  /** Did configure() throw in the first n steps? */
  predicate ConfigureThrew(r: Run, n: nat)
    requires n <= |r.labels|
  {
    exists i :: 0 <= i < n && r.labels[i] == Failed(ConfigureThrows)
  }

  /** The instances that are lost stay lost, and only a throwing configure() loses one. */
  lemma LeakWork(c: Config, s: State, w: nat, o: Outcome)
    requires Placed(c, s) && w < |c.roles| && CanWork(c, s, w) && PossibleOutcome(s.workers[w].pc, o)
    ensures SomeLeaked(Work(c, s, w, o)) <==> SomeLeaked(s)
  {
    WorkInstances(c, s, w, o);
    var s' := Work(c, s, w, o);
    assert forall i :: 0 <= i < |s.instances| ==> s'.instances[i].leaked == s.instances[i].leaked;
  }

  lemma LeakMain(c: Config, s: State)
    requires Reached(c, s) && Shaped(c, s) && CanMain(c, s)
    ensures SomeLeaked(Main(c, s)) <==> SomeLeaked(s)
  {
    ReachedInv(c, s);
    var s' := Main(c, s);
    if s.created < |s.instances| {
      assert InstanceSound(s, s.created);
    }
    assert forall i :: 0 <= i < |s.instances| ==> s'.instances[i].leaked == s.instances[i].leaked;
  }

  lemma LeakFault(c: Config, s: State, f: Fault)
    requires Reached(c, s) && Shaped(c, s) && CanFault(c, s, f)
    ensures SomeLeaked(Faulted(c, s, f)) <==> SomeLeaked(s) || f.ConfigureThrows?
  {
    ReachedInv(c, s);
    var s' := Faulted(c, s, f);
    if s.created < |s.instances| {
      assert InstanceSound(s, s.created);
    }
    if f.ConfigureThrows? {
      assert s'.instances[s.created].leaked;
    } else {
      assert forall i :: 0 <= i < |s.instances| ==> s'.instances[i].leaked == s.instances[i].leaked;
    }
  }

  lemma {:induction false} LeakedExactly(c: Config, r: Run, n: nat)
    requires IsRun(c, r) && n < |r.states|
    ensures SomeLeaked(r.states[n]) <==> ConfigureThrew(r, n)
    decreases n
  {
    if n > 0 {
      LeakedExactly(c, r, n - 1);
      ReachedStep(c, r, n - 1);
      var s := r.states[n - 1];
      match r.labels[n - 1]
      case Worked(w, o) => LeakWork(c, s, w, o);
      case Mained => LeakMain(c, s);
      case Failed(f) => LeakFault(c, s, f);
      case Interrupted =>
    }
  }

  /**
   On any way out of run, every instance ever created has been destroyed exactly once, before
   its plugin was unloaded, if and only if no configure() threw.
   */
  lemma AllDestroyedExactly(c: Config, r: Run)
    requires IsRun(c, r) && r.Last().main.Finished?
    ensures var s := r.Last();
            && |s.instances| == |c.roles| && s.created <= |c.roles|
            && ((forall w :: 0 <= w < s.created ==> s.instances[w].destroys == 1)
                <==> forall i :: 0 <= i < |r.labels| ==> r.labels[i] != Failed(ConfigureThrows))
  {
    var n := |r.labels|;
    var s := r.states[n];
    RunInv(c, r, n);
    LeakedExactly(c, r, n);
    forall w | 0 <= w < |s.instances|
      ensures s.instances[w].destroys == (if w < s.created && !s.instances[w].leaked then 1 else 0)
      ensures s.instances[w].leaked ==> w < s.created
    {
      StagesDestroyedOnce(c, r, n, w);
      assert InstanceSound(s, w);
    }
  }
}
