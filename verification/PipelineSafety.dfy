/** What every reachable state of every run keeps, whatever the stages, signals and faults do. */
module PipelineSafety {
  import opened Options
  import opened Payloads
  import opened Pipeline

  // ---------------------------------------------------------------- places and phases

  /** The runner of the worker has not returned. */
  predicate InRunner(pc: Pc)
  {
    pc.Top? || pc.AtCloseIn? || pc.AtPop? || pc.AtPush? || InStage(pc)
  }

  predicate PastRunner(pc: Pc)
  {
    !pc.Unborn? && !InRunner(pc)
  }

  predicate Winding(m: MainPc)
  {
    m.Closing? || m.Joining? || m.ShuttingDown? || m.Finished?
  }

  /** Main's place agrees with the spawn count, the closed queues and the joined threads. */
  predicate MainPlaced(c: Config, s: State)
    requires Shaped(c, s)
  {
    && (s.main.Bumped? ==> s.spawned < s.created)
    && (s.main.Check? || s.main.Monitor? ==> s.spawned == |c.roles|)
    && (Winding(s.main) ==> s.stop)
    && (Winding(s.main) && !s.main.failed ==> s.spawned == |c.roles|)
    && (s.main.Closing? ==> s.main.next <= |s.queues| && forall q :: 0 <= q < s.main.next ==> s.queues[q].closed)
    && (s.main.Joining? || s.main.ShuttingDown? || s.main.Finished? ==>
          forall q :: 0 <= q < |s.queues| ==> s.queues[q].closed)
    && (s.main.Joining? ==> s.main.next <= s.spawned && forall w :: 0 <= w < s.main.next ==> s.workers[w].pc.Done?)
    && (s.main.ShuttingDown? || s.main.Finished? ==> forall w :: 0 <= w < s.spawned ==> s.workers[w].pc.Done?)
    && s.unloads == (if s.main.Finished? then 1 else 0)
  }

  predicate Located(c: Config, s: State)
  {
    && Placed(c, s)
    && MainPlaced(c, s)
    && (forall w :: 0 <= w < |s.workers| ==> (s.workers[w].pc.Unborn? <==> s.spawned <= w))
    && (forall w :: 0 <= w < |s.workers| ==> s.workers[w].pc.AtCloseIn? || s.workers[w].thrown != [] ==> s.stop)
  }

  /** What a step of worker w leaves alone, and what it can only raise. */
  predicate Framed(s: State, s': State, w: nat)
    requires w < |s.workers|
  {
    && s'.main == s.main && s'.created == s.created && s'.spawned == s.spawned && s'.unloads == s.unloads
    && |s'.queues| == |s.queues| && |s'.instances| == |s.instances| && |s'.workers| == |s.workers|
    && (s.stop ==> s'.stop)
    && (forall q :: 0 <= q < |s.queues| && s.queues[q].closed ==> s'.queues[q].closed)
    && (forall v :: 0 <= v < |s.workers| && v != w ==> s'.workers[v] == s.workers[v])
  }

  lemma WorkFramed(c: Config, s: State, w: nat, o: Outcome)
    requires Placed(c, s) && w < |c.roles| && CanWork(c, s, w) && PossibleOutcome(s.workers[w].pc, o)
    ensures Framed(s, Work(c, s, w, o), w)
  {
    var (x, e) := Act(c, s, w, o);
    ApplyFramed(c, s, w, x, e);
  }

  lemma ApplyFramed(c: Config, s: State, w: nat, x: Worker, e: Effect)
    requires Placed(c, s) && w < |c.roles| && CanApply(c, s, w, e)
    ensures Framed(s, Apply(c, s, w, e).(workers := s.workers[w := x]), w)
  {
  }

  /** Where one step can take a worker. */
  lemma WorkPlaces(c: Config, s: State, w: nat, o: Outcome)
    requires Placed(c, s) && w < |c.roles| && CanWork(c, s, w) && PossibleOutcome(s.workers[w].pc, o)
    ensures var s' := Work(c, s, w, o);
            && |s'.workers| == |s.workers|
            && Fits(c.roles[w], s'.workers[w].pc)
            && !s'.workers[w].pc.Unborn?
            && (s'.workers[w].pc.AtCloseIn? || s'.workers[w].thrown != s.workers[w].thrown ==> s'.stop)
            && (PastRunner(s.workers[w].pc) ==> PastRunner(s'.workers[w].pc))
  {
  }

  lemma LocatedFramed(c: Config, s: State, s': State, w: nat)
    requires Located(c, s) && w < |c.roles| && Framed(s, s', w)
    requires !s.workers[w].pc.Unborn? && !s.workers[w].pc.Done?
    requires Fits(c.roles[w], s'.workers[w].pc) && !s'.workers[w].pc.Unborn?
    requires s'.workers[w].pc.AtCloseIn? || s'.workers[w].thrown != s.workers[w].thrown ==> s'.stop
    ensures Located(c, s')
  {
  }

  lemma LocatedWork(c: Config, s: State, w: nat, o: Outcome)
    requires Located(c, s) && w < |c.roles| && CanWork(c, s, w) && PossibleOutcome(s.workers[w].pc, o)
    ensures Located(c, Work(c, s, w, o))
  {
    WorkFramed(c, s, w, o);
    WorkPlaces(c, s, w, o);
    LocatedFramed(c, s, Work(c, s, w, o), w);
  }

  lemma LocatedSpawn(c: Config, s: State)
    requires Located(c, s) && CanMain(c, s) && !Winding(s.main)
    ensures Located(c, Main(c, s))
  {
  }

  lemma LocatedWind(c: Config, s: State)
    requires Located(c, s) && CanMain(c, s) && Winding(s.main)
    ensures Located(c, Main(c, s))
  {
  }

  lemma LocatedFault(c: Config, s: State, f: Fault)
    requires Located(c, s) && CanFault(c, s, f)
    ensures Located(c, Faulted(c, s, f))
  {
  }

  lemma LocatedStep(c: Config, s: State, l: Label, s': State)
    requires Located(c, s) && Next(c, s, l, s')
    ensures Located(c, s')
  {
    match l
    case Worked(w, o) => LocatedWork(c, s, w, o);
    case Mained => if Winding(s.main) { LocatedWind(c, s); } else { LocatedSpawn(c, s); }
    case Failed(f) => LocatedFault(c, s, f);
    case Interrupted =>
  }

  /** What the steps that are no worker's do to workers and queues: start a thread, close after a stop. */
  predicate Managed(s: State, s': State)
  {
    && |s'.workers| == |s.workers| && |s'.queues| == |s.queues|
    && (s.stop ==> s'.stop)
    && (forall w :: 0 <= w < |s.workers| ==>
          || s'.workers[w] == s.workers[w]
          || (s.workers[w].pc.Unborn? && s'.workers[w] == s.workers[w].(pc := Top)))
    && (forall q :: 0 <= q < |s.queues| ==>
          || s'.queues[q] == s.queues[q]
          || (s'.stop && s'.queues[q] == s.queues[q].(closed := true)))
  }

  lemma OtherManaged(c: Config, s: State, l: Label, s': State)
    requires Located(c, s) && Next(c, s, l, s') && !l.Worked?
    ensures Managed(s, s')
  {
  }

  // ---------------------------------------------------------------- the two atomic counters

  /** Counted by active_workers: started and not yet counted down. */
  predicate Counted(pc: Pc)
  {
    !pc.Unborn? && !pc.AtStop? && !pc.Done?
  }

  /** A producer that has counted itself down. */
  predicate Dropped(pc: Pc)
  {
    pc.AtCloseOut? || pc.AtDestroy? || pc.AtRelease? || pc.AtStop? || pc.Done?
  }

  function Live(s: State): set<nat>
  {
    set w: nat | w < |s.workers| && Counted(s.workers[w].pc)
  }

  function Pending(c: Config, s: State, q: nat): set<nat>
    requires |s.workers| == |c.roles|
  {
    set w: nat | w < |c.roles| && Writes(c, w, q) && !Dropped(s.workers[w].pc)
  }

  /** Both counters are exact, so neither ever underflows. */
  predicate Counts(c: Config, s: State)
  {
    && Shaped(c, s)
    && s.active == |Live(s)| + (if s.main.Bumped? then 1 else 0)
    && (forall q :: 0 <= q < |s.queues| ==> s.queues[q].remaining == |Pending(c, s, q)|)
  }

  lemma CountsInit(c: Config)
    requires ValidConfig(c)
    ensures Counts(c, Init(c))
  {
    assert Live(Init(c)) == {};
    forall q | 0 <= q < |c.queues|
      ensures Pending(c, Init(c), q) == Producers(c, q)
    {
    }
  }

  /** How one worker step moves the counters. */
  lemma WorkCounters(c: Config, s: State, w: nat, o: Outcome)
    requires Placed(c, s) && w < |c.roles| && CanWork(c, s, w) && PossibleOutcome(s.workers[w].pc, o)
    ensures var s' := Work(c, s, w, o);
            && |s'.workers| == |s.workers|
            && s'.active == s.active - (if s.workers[w].pc.AtRelease? then 1 else 0)
            && Counted(s.workers[w].pc)
               == (Counted(s'.workers[w].pc) || s.workers[w].pc.AtRelease?)
            && (s.workers[w].pc.AtRelease? ==> !Counted(s'.workers[w].pc))
            && (!c.roles[w].Sink? ==> Dropped(s'.workers[w].pc) == (Dropped(s.workers[w].pc) || s.workers[w].pc.AtDrop?))
  {
  }

  lemma WorkRemaining(c: Config, s: State, w: nat, o: Outcome)
    requires Placed(c, s) && w < |c.roles| && CanWork(c, s, w) && PossibleOutcome(s.workers[w].pc, o)
    ensures var s' := Work(c, s, w, o);
            && |s'.queues| == |s.queues|
            && forall q :: 0 <= q < |s.queues| ==>
                 s'.queues[q].remaining == s.queues[q].remaining - (if s.workers[w].pc.AtDrop? && Writes(c, w, q) then 1 else 0)
  {
    var (x, e) := Act(c, s, w, o);
    assert e.DropProducer? <==> s.workers[w].pc.AtDrop?;
    ApplyRemaining(c, s, w, e);
  }

  lemma ApplyRemaining(c: Config, s: State, w: nat, e: Effect)
    requires Placed(c, s) && w < |c.roles| && CanApply(c, s, w, e)
    ensures var s' := Apply(c, s, w, e);
            && |s'.queues| == |s.queues|
            && forall q :: 0 <= q < |s.queues| ==>
                 s'.queues[q].remaining == s.queues[q].remaining - (if e.DropProducer? && Writes(c, w, q) then 1 else 0)
  {
  }

  lemma CountsWork(c: Config, s: State, w: nat, o: Outcome)
    requires Located(c, s) && Counts(c, s)
    requires w < |c.roles| && CanWork(c, s, w) && PossibleOutcome(s.workers[w].pc, o)
    ensures Counts(c, Work(c, s, w, o))
  {
    LocatedWork(c, s, w, o);
    WorkFramed(c, s, w, o);
    WorkCounters(c, s, w, o);
    WorkRemaining(c, s, w, o);
    CountsFramed(c, s, Work(c, s, w, o), w);
  }

  lemma CountsFramed(c: Config, s: State, s': State, w: nat)
    requires Shaped(c, s) && Shaped(c, s') && Counts(c, s) && w < |c.roles| && Framed(s, s', w)
    requires s'.active == s.active - (if s.workers[w].pc.AtRelease? then 1 else 0)
    requires Counted(s.workers[w].pc) == (Counted(s'.workers[w].pc) || s.workers[w].pc.AtRelease?)
    requires s.workers[w].pc.AtRelease? ==> !Counted(s'.workers[w].pc)
    requires !c.roles[w].Sink? ==> Dropped(s'.workers[w].pc) == (Dropped(s.workers[w].pc) || s.workers[w].pc.AtDrop?)
    requires forall q :: 0 <= q < |s.queues| ==>
                 s'.queues[q].remaining == s.queues[q].remaining - (if s.workers[w].pc.AtDrop? && Writes(c, w, q) then 1 else 0)
    ensures Counts(c, s')
  {
    if s.workers[w].pc.AtRelease? {
      assert Live(s') == Live(s) - {w};
    } else {
      assert Live(s') == Live(s);
    }
    forall q | 0 <= q < |s.queues|
      ensures s'.queues[q].remaining == |Pending(c, s', q)|
    {
      PendingFramed(c, s, s', w, q);
    }
  }

  lemma PendingFramed(c: Config, s: State, s': State, w: nat, q: nat)
    requires Shaped(c, s) && Shaped(c, s') && w < |c.roles| && Framed(s, s', w) && q < |s.queues|
    requires !c.roles[w].Sink? ==> Dropped(s'.workers[w].pc) == (Dropped(s.workers[w].pc) || s.workers[w].pc.AtDrop?)
    ensures |Pending(c, s', q)| == |Pending(c, s, q)| - if s.workers[w].pc.AtDrop? && Writes(c, w, q) then 1 else 0
  {
    var gone := if s.workers[w].pc.AtDrop? && Writes(c, w, q) then {w} else {};
    forall v: nat
      ensures v in Pending(c, s', q) <==> v in Pending(c, s, q) - gone
    {
      PendingAt(c, s, s', w, q, v);
    }
    assert Pending(c, s', q) == Pending(c, s, q) - gone;
    assert gone <= Pending(c, s, q);
  }

  lemma PendingAt(c: Config, s: State, s': State, w: nat, q: nat, v: nat)
    requires Shaped(c, s) && Shaped(c, s') && w < |c.roles| && Framed(s, s', w) && q < |s.queues|
    requires !c.roles[w].Sink? ==> Dropped(s'.workers[w].pc) == (Dropped(s.workers[w].pc) || s.workers[w].pc.AtDrop?)
    ensures v in Pending(c, s', q) <==> v in Pending(c, s, q) && !(v == w && s.workers[w].pc.AtDrop? && Writes(c, w, q))
  {
    if v < |c.roles| && v != w {
      assert s'.workers[v] == s.workers[v];
    }
  }

  /** A step of main or a fault: the workers' places stay, but for one thread being started. */
  lemma CountsSame(c: Config, s: State, s': State)
    requires Shaped(c, s) && Shaped(c, s') && Counts(c, s)
    requires s'.workers == s.workers
    requires forall q :: 0 <= q < |s.queues| ==> s'.queues[q].remaining == s.queues[q].remaining
    requires s'.active - (if s'.main.Bumped? then 1 else 0) == s.active - (if s.main.Bumped? then 1 else 0)
    ensures Counts(c, s')
  {
    assert Live(s') == Live(s);
    forall q | 0 <= q < |s.queues|
      ensures Pending(c, s', q) == Pending(c, s, q)
    {
    }
  }

  lemma CountsSpawn(c: Config, s: State)
    requires Located(c, s) && Counts(c, s) && CanMain(c, s) && s.main.Bumped?
    ensures Counts(c, Main(c, s))
  {
    var s' := Main(c, s);
    assert Live(s') == Live(s) + {s.spawned};
    forall q | 0 <= q < |s.queues|
      ensures Pending(c, s', q) == Pending(c, s, q)
    {
    }
  }

  lemma CountsStep(c: Config, s: State, l: Label, s': State)
    requires Located(c, s) && Counts(c, s) && Next(c, s, l, s')
    ensures Counts(c, s')
  {
    LocatedStep(c, s, l, s');
    match l
    case Worked(w, o) => CountsWork(c, s, w, o);
    case Mained => CountsMain(c, s);
    case Failed(f) => CountsSame(c, s, s');
    case Interrupted => CountsSame(c, s, s');
  }

  lemma CountsMain(c: Config, s: State)
    requires Located(c, s) && Counts(c, s) && CanMain(c, s) && Shaped(c, Main(c, s))
    ensures Counts(c, Main(c, s))
  {
    if s.main.Bumped? {
      CountsSpawn(c, s);
    } else {
      CountsSame(c, s, Main(c, s));
    }
  }

  // ---------------------------------------------------------------- close discipline

  ghost predicate Closer(c: Config, s: State, q: nat)
    requires |s.workers| == |c.roles|
  {
    exists w :: 0 <= w < |s.workers| && s.workers[w].pc.AtCloseOut? && Writes(c, w, q)
  }

  /**
   A closed queue means stop, or no producer left; and once its last producer is
   counted down a queue is closed or about to be.
   */
  ghost predicate CloseDiscipline(c: Config, s: State)
  {
    && Shaped(c, s)
    && (forall q :: 0 <= q < |s.queues| && s.queues[q].closed ==> s.stop || s.queues[q].remaining == 0)
    && (forall w :: 0 <= w < |s.workers| && s.workers[w].pc.AtCloseOut? && !c.roles[w].Sink? ==>
          s.queues[c.roles[w].outq].remaining == 0)
    && (forall q :: 0 <= q < |s.queues| && s.queues[q].remaining == 0 && Producers(c, q) != {} ==>
          s.queues[q].closed || Closer(c, s, q))
  }

  lemma CloseInit(c: Config)
    requires ValidConfig(c)
    ensures CloseDiscipline(c, Init(c))
  {
  }

  lemma WorkClosing(c: Config, s: State, w: nat, o: Outcome)
    requires Placed(c, s) && w < |c.roles| && CanWork(c, s, w) && PossibleOutcome(s.workers[w].pc, o)
    ensures var s' := Work(c, s, w, o);
            && |s'.workers| == |s.workers|
            && (s'.workers[w].pc.AtCloseOut? <==>
                s.workers[w].pc.AtDrop? && !c.roles[w].Sink? && s.queues[c.roles[w].outq].remaining == 1)
  {
  }

  lemma WorkClosed(c: Config, s: State, w: nat, o: Outcome)
    requires Placed(c, s) && w < |c.roles| && CanWork(c, s, w) && PossibleOutcome(s.workers[w].pc, o)
    ensures var s' := Work(c, s, w, o);
            && |s'.queues| == |s.queues|
            && forall q :: 0 <= q < |s.queues| ==>
                 (s'.queues[q].closed <==> s.queues[q].closed
                                           || (s.workers[w].pc.AtCloseIn? && Reads(c, w, q))
                                           || (s.workers[w].pc.AtCloseOut? && Writes(c, w, q)))
  {
    var (x, e) := Act(c, s, w, o);
    assert e.CloseInput? <==> s.workers[w].pc.AtCloseIn?;
    assert e.CloseOutput? <==> s.workers[w].pc.AtCloseOut?;
    ApplyClosed(c, s, w, e);
  }

  lemma ApplyClosed(c: Config, s: State, w: nat, e: Effect)
    requires Placed(c, s) && w < |c.roles| && CanApply(c, s, w, e)
    ensures var s' := Apply(c, s, w, e);
            && |s'.queues| == |s.queues|
            && forall q :: 0 <= q < |s.queues| ==>
                 (s'.queues[q].closed <==> s.queues[q].closed
                                           || (e.CloseInput? && Reads(c, w, q))
                                           || (e.CloseOutput? && Writes(c, w, q)))
  {
  }

  lemma CloseWork(c: Config, s: State, w: nat, o: Outcome)
    requires Located(c, s) && Counts(c, s) && CloseDiscipline(c, s)
    requires w < |c.roles| && CanWork(c, s, w) && PossibleOutcome(s.workers[w].pc, o)
    ensures CloseDiscipline(c, Work(c, s, w, o))
  {
    LocatedWork(c, s, w, o);
    WorkFramed(c, s, w, o);
    WorkClosing(c, s, w, o);
    WorkClosed(c, s, w, o);
    WorkRemaining(c, s, w, o);
    CloseFramed(c, s, Work(c, s, w, o), w);
  }

  lemma CloseFramed(c: Config, s: State, s': State, w: nat)
    requires Located(c, s) && Counts(c, s) && CloseDiscipline(c, s)
    requires Shaped(c, s') && w < |c.roles| && Framed(s, s', w)
    requires s'.workers[w].pc.AtCloseOut? <==>
             s.workers[w].pc.AtDrop? && !c.roles[w].Sink? && s.queues[c.roles[w].outq].remaining == 1
    requires forall q :: 0 <= q < |s.queues| ==>
               (s'.queues[q].closed <==> s.queues[q].closed
                                         || (s.workers[w].pc.AtCloseIn? && Reads(c, w, q))
                                         || (s.workers[w].pc.AtCloseOut? && Writes(c, w, q)))
    requires forall q :: 0 <= q < |s.queues| ==>
                 s'.queues[q].remaining == s.queues[q].remaining - (if s.workers[w].pc.AtDrop? && Writes(c, w, q) then 1 else 0)
    ensures CloseDiscipline(c, s')
  {
    if s.workers[w].pc.AtDrop? {
      assert Writes(c, w, c.roles[w].outq);
      assert w in Pending(c, s, c.roles[w].outq);
    }
    forall q | 0 <= q < |s'.queues| && s'.queues[q].remaining == 0 && Producers(c, q) != {}
      ensures s'.queues[q].closed || Closer(c, s', q)
    {
      if s.workers[w].pc.AtDrop? && Writes(c, w, q) {
        assert s'.workers[w].pc.AtCloseOut?;
      } else if !s.queues[q].closed {
        var v :| 0 <= v < |s.workers| && s.workers[v].pc.AtCloseOut? && Writes(c, v, q);
        assert v != w ==> s'.workers[v].pc.AtCloseOut?;
      }
    }
  }

  lemma CloseManaged(c: Config, s: State, s': State)
    requires CloseDiscipline(c, s) && Shaped(c, s') && Managed(s, s')
    ensures CloseDiscipline(c, s')
  {
    forall q | 0 <= q < |s'.queues| && s'.queues[q].remaining == 0 && Producers(c, q) != {}
      ensures s'.queues[q].closed || Closer(c, s', q)
    {
      if !s.queues[q].closed {
        var v :| 0 <= v < |s.workers| && s.workers[v].pc.AtCloseOut? && Writes(c, v, q);
        assert s'.workers[v].pc.AtCloseOut?;
      }
    }
  }

  lemma CloseStep(c: Config, s: State, l: Label, s': State)
    requires Located(c, s) && Counts(c, s) && CloseDiscipline(c, s) && Next(c, s, l, s')
    ensures CloseDiscipline(c, s')
  {
    LocatedStep(c, s, l, s');
    match l
    case Worked(w, o) => CloseWork(c, s, w, o);
    case _ =>
      OtherManaged(c, s, l, s');
      CloseManaged(c, s, s');
  }

  // ---------------------------------------------------------------- queue contents

  /** Every item of a queue fits its schema; the queue is first in first out and within capacity. */
  predicate QueueSound(cap: nat, schemaId: string, q: Queue)
  {
    && q.pushed == q.popped + q.items
    && |q.items| <= cap
    && (forall i :: 0 <= i < |q.items| ==> AcceptsInput(schemaId, q.items[i]))
  }

  predicate QueuesSound(c: Config, s: State)
  {
    && Shaped(c, s)
    && (forall q :: 0 <= q < |s.queues| ==> QueueSound(c.queues[q].capacity, c.queues[q].schemaId, s.queues[q]))
    && (forall w :: 0 <= w < |s.workers| && s.workers[w].pc.AtPush? && !c.roles[w].Sink? ==>
          AcceptsInput(c.queues[c.roles[w].outq].schemaId, s.workers[w].pc.hand))
  }

  lemma QueuesInit(c: Config)
    requires ValidConfig(c)
    ensures QueuesSound(c, Init(c))
  {
  }

  lemma WorkQueues(c: Config, s: State, w: nat, o: Outcome)
    requires Placed(c, s) && w < |c.roles| && CanWork(c, s, w) && PossibleOutcome(s.workers[w].pc, o)
    requires QueuesSound(c, s)
    ensures var s' := Work(c, s, w, o);
            && |s'.queues| == |s.queues|
            && forall q :: 0 <= q < |s.queues| ==>
                 QueueSound(c.queues[q].capacity, c.queues[q].schemaId, s'.queues[q])
  {
    var (x, e) := Act(c, s, w, o);
    if e.Enqueue? {
      assert s.workers[w].pc.AtPush? && e.item == s.workers[w].pc.hand;
      assert |s.queues[c.roles[w].outq].items| < c.queues[c.roles[w].outq].capacity;
    }
    ApplyQueues(c, s, w, e);
  }

  lemma ApplyQueues(c: Config, s: State, w: nat, e: Effect)
    requires Placed(c, s) && w < |c.roles| && CanApply(c, s, w, e) && QueuesSound(c, s)
    requires e.Enqueue? ==>
               && |s.queues[c.roles[w].outq].items| < c.queues[c.roles[w].outq].capacity
               && AcceptsInput(c.queues[c.roles[w].outq].schemaId, e.item)
    ensures var s' := Apply(c, s, w, e);
            && |s'.queues| == |s.queues|
            && forall q :: 0 <= q < |s.queues| ==>
                 QueueSound(c.queues[q].capacity, c.queues[q].schemaId, s'.queues[q])
  {
    if e.Enqueue? {
      var q := s.queues[c.roles[w].outq];
      assert q.pushed + [e.item] == q.popped + (q.items + [e.item]);
    } else if e.Dequeue? {
      var q := s.queues[c.roles[w].inq];
      assert q.items == [q.items[0]] + q.items[1..];
      assert q.pushed == (q.popped + [q.items[0]]) + q.items[1..];
    }
  }

  lemma WorkStamped(c: Config, s: State, w: nat, o: Outcome)
    requires Placed(c, s) && w < |c.roles| && CanWork(c, s, w) && PossibleOutcome(s.workers[w].pc, o)
    ensures var s' := Work(c, s, w, o);
            && |s'.workers| == |s.workers|
            && (s'.workers[w].pc.AtPush? && !c.roles[w].Sink? ==>
                  AcceptsInput(c.queues[c.roles[w].outq].schemaId, s'.workers[w].pc.hand))
  {
  }

  lemma QueuesStep(c: Config, s: State, l: Label, s': State)
    requires Located(c, s) && QueuesSound(c, s) && Next(c, s, l, s')
    ensures QueuesSound(c, s')
  {
    LocatedStep(c, s, l, s');
    match l
    case Worked(w, o) =>
      WorkFramed(c, s, w, o);
      WorkQueues(c, s, w, o);
      WorkStamped(c, s, w, o);
      QueuesFramed(c, s, s', w);
    case _ =>
      OtherManaged(c, s, l, s');
      QueuesManaged(c, s, s');
  }

  lemma QueuesManaged(c: Config, s: State, s': State)
    requires QueuesSound(c, s) && Shaped(c, s') && Managed(s, s')
    ensures QueuesSound(c, s')
  {
  }

  lemma QueuesFramed(c: Config, s: State, s': State, w: nat)
    requires QueuesSound(c, s) && Shaped(c, s') && w < |c.roles| && Framed(s, s', w)
    requires forall q :: 0 <= q < |s.queues| ==>
               QueueSound(c.queues[q].capacity, c.queues[q].schemaId, s'.queues[q])
    requires s'.workers[w].pc.AtPush? && !c.roles[w].Sink? ==>
               AcceptsInput(c.queues[c.roles[w].outq].schemaId, s'.workers[w].pc.hand)
    ensures QueuesSound(c, s')
  {
  }

  // ---------------------------------------------------------------- the ledger of each worker

  /** A payload between its pop (or its production) and its fate. */
  function InHand(pc: Pc): nat
  {
    if pc.AtProcess? || pc.AtConsume? || pc.AtPush? then 1 else 0
  }

  /** Every payload that entered a worker has exactly one fate, and the metrics count the fates. */
  predicate Balanced(r: Role, x: Worker)
  {
    var m := x.metrics;
    && m.enqueues == |x.sent|
    && m.dequeues == |x.got|
    && |x.refused| <= 1
    && (x.refused != [] ==> PastRunner(x.pc))
    && (x.pc.Unborn? ==> x == FRESH_WORKER)
    && match r
       case Source(_) =>
         && x.got == [] && x.eaten == [] && x.thrown == []
         && |x.made| == |x.sent| + |x.dropped| + |x.refused| + InHand(x.pc)
         && m.latencies == |x.made| - |x.dropped|
         && |x.dropped| <= m.errors <= |x.dropped| + 1
         && (InRunner(x.pc) ==> m.errors == |x.dropped|)
       case Transform(_, _) =>
         && x.made == [] && x.eaten == []
         && |x.got| == |x.sent| + |x.dropped| + |x.refused| + |x.thrown| + InHand(x.pc)
         && m.errors == |x.dropped| + |x.thrown|
       case Sink(_) =>
         && x.made == [] && x.sent == [] && x.refused == []
         && |x.got| == |x.eaten| + |x.dropped| + |x.thrown| + InHand(x.pc)
         && m.latencies == |x.eaten|
         && m.errors == |x.dropped| + |x.thrown|
  }

  predicate AllBalanced(c: Config, s: State)
  {
    && Shaped(c, s)
    && (forall w :: 0 <= w < |s.workers| ==> Balanced(c.roles[w], s.workers[w]))
  }

  lemma SourceBalanced(c: Config, s: State, w: nat, o: Outcome)
    requires Placed(c, s) && w < |c.roles| && CanWork(c, s, w) && PossibleOutcome(s.workers[w].pc, o)
    requires c.roles[w].Source? && Balanced(c.roles[w], s.workers[w])
    ensures Balanced(c.roles[w], Act(c, s, w, o).0)
  {
  }

  lemma TransformBalanced(c: Config, s: State, w: nat, o: Outcome)
    requires Placed(c, s) && w < |c.roles| && CanWork(c, s, w) && PossibleOutcome(s.workers[w].pc, o)
    requires c.roles[w].Transform? && Balanced(c.roles[w], s.workers[w])
    ensures Balanced(c.roles[w], Act(c, s, w, o).0)
  {
  }

  lemma SinkBalanced(c: Config, s: State, w: nat, o: Outcome)
    requires Placed(c, s) && w < |c.roles| && CanWork(c, s, w) && PossibleOutcome(s.workers[w].pc, o)
    requires c.roles[w].Sink? && Balanced(c.roles[w], s.workers[w])
    ensures Balanced(c.roles[w], Act(c, s, w, o).0)
  {
  }

  lemma WorkBalanced(c: Config, s: State, w: nat, o: Outcome)
    requires Placed(c, s) && w < |c.roles| && CanWork(c, s, w) && PossibleOutcome(s.workers[w].pc, o)
    requires Balanced(c.roles[w], s.workers[w])
    ensures Balanced(c.roles[w], Act(c, s, w, o).0)
  {
    match c.roles[w]
    case Source(_) => SourceBalanced(c, s, w, o);
    case Transform(_, _) => TransformBalanced(c, s, w, o);
    case Sink(_) => SinkBalanced(c, s, w, o);
  }

  lemma BalancedStep(c: Config, s: State, l: Label, s': State)
    requires Located(c, s) && AllBalanced(c, s) && Next(c, s, l, s')
    ensures AllBalanced(c, s')
  {
    LocatedStep(c, s, l, s');
    match l
    case Worked(w, o) =>
      WorkFramed(c, s, w, o);
      WorkBalanced(c, s, w, o);
    case _ => OtherManaged(c, s, l, s');
  }

  // ---------------------------------------------------------------- conservation across threads

  function Flat(parts: seq<seq<Payload>>): seq<Payload>
  {
    if parts == [] then [] else parts[0] + Flat(parts[1..])
  }

  lemma {:induction false} FlatAppend(parts: seq<seq<Payload>>, w: nat, p: Payload)
    requires w < |parts|
    ensures multiset(Flat(parts[w := parts[w] + [p]])) == multiset(Flat(parts)) + multiset{p}
  {
    if w == 0 {
      assert parts[0 := parts[0] + [p]][1..] == parts[1..];
    } else {
      FlatAppend(parts[1..], w - 1, p);
      assert parts[w := parts[w] + [p]][1..] == parts[1..][w - 1 := parts[1..][w - 1] + [p]];
    }
  }

  function SentTo(c: Config, s: State, q: nat): seq<seq<Payload>>
  {
    seq(|s.workers|, w requires 0 <= w < |s.workers| => if Writes(c, w, q) then s.workers[w].sent else [])
  }

  function GotFrom(c: Config, s: State, q: nat): seq<seq<Payload>>
  {
    seq(|s.workers|, w requires 0 <= w < |s.workers| => if Reads(c, w, q) then s.workers[w].got else [])
  }

  /** What went through a queue is exactly what its producers sent and its consumers got. */
  predicate Conserved(c: Config, s: State)
  {
    && Shaped(c, s)
    && (forall q :: 0 <= q < |s.queues| ==> multiset(s.queues[q].pushed) == multiset(Flat(SentTo(c, s, q))))
    && (forall q :: 0 <= q < |s.queues| ==> multiset(s.queues[q].popped) == multiset(Flat(GotFrom(c, s, q))))
  }

  lemma {:induction false} FlatEmpty(parts: seq<seq<Payload>>)
    requires forall w :: 0 <= w < |parts| ==> parts[w] == []
    ensures Flat(parts) == []
  {
    if parts != [] {
      FlatEmpty(parts[1..]);
    }
  }

  lemma ConservedInit(c: Config)
    requires ValidConfig(c)
    ensures Conserved(c, Init(c))
  {
    var s := Init(c);
    forall q | 0 <= q < |s.queues|
      ensures Flat(SentTo(c, s, q)) == [] && Flat(GotFrom(c, s, q)) == []
    {
      FlatEmpty(SentTo(c, s, q));
      FlatEmpty(GotFrom(c, s, q));
    }
  }

  /** A worker's histories and the queues' histories grow together. */
  predicate Tallied(c: Config, s: State, s': State, w: nat, e: Effect)
    requires Placed(c, s) && w < |c.roles| && CanApply(c, s, w, e)
    requires |s'.queues| == |s.queues| && |s'.workers| == |s.workers|
  {
    && s'.workers[w].sent == (if e.Enqueue? then s.workers[w].sent + [e.item] else s.workers[w].sent)
    && s'.workers[w].got == (if e.Dequeue? then s.workers[w].got + [s.queues[c.roles[w].inq].items[0]] else s.workers[w].got)
    && (forall q :: 0 <= q < |s.queues| ==>
          && s'.queues[q].pushed
             == (if e.Enqueue? && Writes(c, w, q) then s.queues[q].pushed + [e.item] else s.queues[q].pushed)
          && s'.queues[q].popped
             == (if e.Dequeue? && Reads(c, w, q) then s.queues[q].popped + [s.queues[q].items[0]]
                 else s.queues[q].popped))
  }

  lemma WorkTallied(c: Config, s: State, w: nat, o: Outcome)
    requires Placed(c, s) && w < |c.roles| && CanWork(c, s, w) && PossibleOutcome(s.workers[w].pc, o)
    ensures var (x, e) := Act(c, s, w, o);
            var s' := Work(c, s, w, o);
            |s'.queues| == |s.queues| && |s'.workers| == |s.workers| && Tallied(c, s, s', w, e)
  {
    var (x, e) := Act(c, s, w, o);
    assert x.sent == (if e.Enqueue? then s.workers[w].sent + [e.item] else s.workers[w].sent);
    assert x.got == (if e.Dequeue? then s.workers[w].got + [s.queues[c.roles[w].inq].items[0]] else s.workers[w].got);
    ApplyTallied(c, s, w, x, e);
  }

  lemma ApplyTallied(c: Config, s: State, w: nat, x: Worker, e: Effect)
    requires Placed(c, s) && w < |c.roles| && CanApply(c, s, w, e)
    requires x.sent == (if e.Enqueue? then s.workers[w].sent + [e.item] else s.workers[w].sent)
    requires x.got == (if e.Dequeue? then s.workers[w].got + [s.queues[c.roles[w].inq].items[0]] else s.workers[w].got)
    ensures var s' := Apply(c, s, w, e).(workers := s.workers[w := x]);
            |s'.queues| == |s.queues| && |s'.workers| == |s.workers| && Tallied(c, s, s', w, e)
  {
  }

  /** What the workers sent to a queue grows by what one of them enqueues. */
  lemma SentToGrows(c: Config, s: State, s': State, w: nat, e: Effect, q: nat)
    requires Placed(c, s) && Shaped(c, s') && w < |c.roles| && CanApply(c, s, w, e)
    requires Framed(s, s', w) && Tallied(c, s, s', w, e) && q < |s.queues|
    ensures SentTo(c, s', q) == if e.Enqueue? && Writes(c, w, q) then SentTo(c, s, q)[w := SentTo(c, s, q)[w] + [e.item]]
                                else SentTo(c, s, q)
  {
    forall v | 0 <= v < |s.workers| && v != w
      ensures SentTo(c, s', q)[v] == SentTo(c, s, q)[v]
    {
      assert s'.workers[v] == s.workers[v];
    }
  }

  lemma GotFromGrows(c: Config, s: State, s': State, w: nat, e: Effect, q: nat)
    requires Placed(c, s) && Shaped(c, s') && w < |c.roles| && CanApply(c, s, w, e)
    requires Framed(s, s', w) && Tallied(c, s, s', w, e) && q < |s.queues|
    ensures GotFrom(c, s', q)
            == if e.Dequeue? && Reads(c, w, q) then GotFrom(c, s, q)[w := GotFrom(c, s, q)[w] + [s.queues[q].items[0]]]
               else GotFrom(c, s, q)
  {
    forall v | 0 <= v < |s.workers| && v != w
      ensures GotFrom(c, s', q)[v] == GotFrom(c, s, q)[v]
    {
      assert s'.workers[v] == s.workers[v];
    }
  }

  lemma PushedWork(c: Config, s: State, s': State, w: nat, e: Effect, q: nat)
    requires Conserved(c, s) && Placed(c, s) && Shaped(c, s') && w < |c.roles| && CanApply(c, s, w, e)
    requires Framed(s, s', w) && Tallied(c, s, s', w, e) && q < |s.queues|
    ensures multiset(s'.queues[q].pushed) == multiset(Flat(SentTo(c, s', q)))
  {
    SentToGrows(c, s, s', w, e, q);
    if e.Enqueue? && Writes(c, w, q) {
      FlatAppend(SentTo(c, s, q), w, e.item);
    }
  }

  lemma PoppedWork(c: Config, s: State, s': State, w: nat, e: Effect, q: nat)
    requires Conserved(c, s) && Placed(c, s) && Shaped(c, s') && w < |c.roles| && CanApply(c, s, w, e)
    requires Framed(s, s', w) && Tallied(c, s, s', w, e) && q < |s.queues|
    ensures multiset(s'.queues[q].popped) == multiset(Flat(GotFrom(c, s', q)))
  {
    GotFromGrows(c, s, s', w, e, q);
    if e.Dequeue? && Reads(c, w, q) {
      FlatAppend(GotFrom(c, s, q), w, s.queues[q].items[0]);
    }
  }

  lemma ConservedWork(c: Config, s: State, s': State, w: nat, e: Effect)
    requires Conserved(c, s) && Placed(c, s) && Shaped(c, s') && w < |c.roles| && CanApply(c, s, w, e)
    requires Framed(s, s', w) && Tallied(c, s, s', w, e)
    ensures Conserved(c, s')
  {
    forall q | 0 <= q < |s.queues|
      ensures multiset(s'.queues[q].pushed) == multiset(Flat(SentTo(c, s', q)))
    {
      PushedWork(c, s, s', w, e, q);
    }
    forall q | 0 <= q < |s.queues|
      ensures multiset(s'.queues[q].popped) == multiset(Flat(GotFrom(c, s', q)))
    {
      PoppedWork(c, s, s', w, e, q);
    }
  }

  lemma ConservedStep(c: Config, s: State, l: Label, s': State)
    requires Located(c, s) && Conserved(c, s) && Next(c, s, l, s')
    ensures Conserved(c, s')
  {
    LocatedStep(c, s, l, s');
    match l
    case Worked(w, o) =>
      WorkFramed(c, s, w, o);
      WorkTallied(c, s, w, o);
      ConservedWork(c, s, s', w, Act(c, s, w, o).1);
    case _ =>
      OtherManaged(c, s, l, s');
      ConservedManaged(c, s, s');
  }

  lemma ConservedManaged(c: Config, s: State, s': State)
    requires Conserved(c, s) && Shaped(c, s') && Managed(s, s')
    ensures Conserved(c, s')
  {
    forall q | 0 <= q < |s.queues|
      ensures SentTo(c, s', q) == SentTo(c, s, q) && GotFrom(c, s', q) == GotFrom(c, s, q)
    {
      HistoriesManaged(c, s, s', q);
    }
  }

  lemma HistoriesManaged(c: Config, s: State, s': State, q: nat)
    requires Shaped(c, s) && Shaped(c, s') && Managed(s, s') && q < |s.queues|
    ensures SentTo(c, s', q) == SentTo(c, s, q) && GotFrom(c, s', q) == GotFrom(c, s, q)
  {
  }

  // ---------------------------------------------------------------- stage instances

  /** From the start of its thread until its destroy_stage call a worker uses its stage. */
  predicate UsesStage(pc: Pc)
  {
    InRunner(pc) || pc.AtDrop? || pc.AtCloseOut? || pc.AtDestroy?
  }

  /** After it the stage is destroyed. */
  predicate LeftStage(pc: Pc)
  {
    PastRunner(pc) && !UsesStage(pc)
  }

  /** The life of instance i agrees with the creation count and with its worker's place. */
  predicate InstanceSound(s: State, i: nat)
    requires i < |s.instances| == |s.workers|
  {
    var n := s.instances[i];
    && (n.registered ==> i < s.created && n.destroys == 0)
    && (!n.registered ==> n.destroys == if i < s.created && !n.leaked then 1 else 0)
    && (n.leaked ==> !n.registered && s.spawned <= i < s.created && !Spawning(s.main))
    && (UsesStage(s.workers[i].pc) ==> n.registered)
    && (LeftStage(s.workers[i].pc) ==> !n.registered)
    && (Spawning(s.main) && s.spawned <= i < s.created ==> n.registered)
    && (s.main.Finished? ==> !n.registered)
  }

  predicate Lifecycle(c: Config, s: State)
  {
    && Shaped(c, s)
    && (forall i :: 0 <= i < |s.instances| ==> InstanceSound(s, i))
  }

  lemma WorkInstances(c: Config, s: State, w: nat, o: Outcome)
    requires Placed(c, s) && w < |c.roles| && CanWork(c, s, w) && PossibleOutcome(s.workers[w].pc, o)
    ensures var s' := Work(c, s, w, o);
            && |s'.instances| == |s.instances| && |s'.workers| == |s.workers|
            && s'.instances == (if s.workers[w].pc.AtDestroy? then s.instances[w := DestroyInstance(s.instances[w])]
                                else s.instances)
            && (UsesStage(s'.workers[w].pc) ==> UsesStage(s.workers[w].pc) && !s.workers[w].pc.AtDestroy?)
            && (LeftStage(s'.workers[w].pc) ==> LeftStage(s.workers[w].pc) || s.workers[w].pc.AtDestroy?)
  {
    var (x, e) := Act(c, s, w, o);
    assert e.Destroy? <==> s.workers[w].pc.AtDestroy?;
    ApplyInstances(c, s, w, e);
  }

  lemma ApplyInstances(c: Config, s: State, w: nat, e: Effect)
    requires Placed(c, s) && w < |c.roles| && CanApply(c, s, w, e)
    ensures Apply(c, s, w, e).instances
            == (if e.Destroy? then s.instances[w := DestroyInstance(s.instances[w])] else s.instances)
  {
  }

  lemma LifecycleWork(c: Config, s: State, w: nat, o: Outcome)
    requires Located(c, s) && Lifecycle(c, s)
    requires w < |c.roles| && CanWork(c, s, w) && PossibleOutcome(s.workers[w].pc, o)
    ensures Lifecycle(c, Work(c, s, w, o))
  {
    LocatedWork(c, s, w, o);
    WorkFramed(c, s, w, o);
    WorkInstances(c, s, w, o);
    var s' := Work(c, s, w, o);
    forall i | 0 <= i < |s'.instances|
      ensures InstanceSound(s', i)
    {
      assert InstanceSound(s, i);
    }
  }

  lemma LifecycleMain(c: Config, s: State)
    requires Located(c, s) && Lifecycle(c, s) && CanMain(c, s)
    ensures Lifecycle(c, Main(c, s))
  {
    LocatedStep(c, s, Mained, Main(c, s));
    if s.main.ShuttingDown? {
      LifecycleShutdown(c, s);
    } else {
      forall i | 0 <= i < |s.instances|
        ensures InstanceSound(Main(c, s), i)
      {
        assert InstanceSound(s, i);
        SoundAfterMain(c, s, i);
      }
    }
  }

  lemma SoundAfterMain(c: Config, s: State, i: nat)
    requires Located(c, s) && CanMain(c, s) && !s.main.ShuttingDown? && i < |s.instances| && InstanceSound(s, i)
    ensures InstanceSound(Main(c, s), i)
  {
  }

  lemma LifecycleShutdown(c: Config, s: State)
    requires Located(c, s) && Lifecycle(c, s) && s.main.ShuttingDown?
    ensures Lifecycle(c, Main(c, s))
  {
    forall i | 0 <= i < |s.instances|
      ensures InstanceSound(Main(c, s), i)
    {
      assert InstanceSound(s, i);
    }
  }

  lemma LifecycleFault(c: Config, s: State, f: Fault)
    requires Located(c, s) && Lifecycle(c, s) && CanFault(c, s, f)
    ensures Lifecycle(c, Faulted(c, s, f))
  {
    LocatedFault(c, s, f);
    var s' := Faulted(c, s, f);
    forall i | 0 <= i < |s'.instances|
      ensures InstanceSound(s', i)
    {
      assert InstanceSound(s, i);
    }
  }

  lemma LifecycleStep(c: Config, s: State, l: Label, s': State)
    requires Located(c, s) && Lifecycle(c, s) && Next(c, s, l, s')
    ensures Lifecycle(c, s')
  {
    match l
    case Worked(w, o) => LifecycleWork(c, s, w, o);
    case Mained => LifecycleMain(c, s);
    case Failed(f) => LifecycleFault(c, s, f);
    case Interrupted =>
      assert forall i :: 0 <= i < |s.instances| ==> InstanceSound(s, i) ==> InstanceSound(s', i);
  }

  // ---------------------------------------------------------------- why a runner returned

  /** A worker that left its runner lost nothing, and its input queue is closed and empty. */
  predicate Settled(c: Config, s: State, w: nat)
    requires Shaped(c, s) && w < |c.roles|
  {
    PastRunner(s.workers[w].pc) ==>
      && s.workers[w].refused == []
      && (!c.roles[w].Source? ==> s.queues[c.roles[w].inq].closed && s.queues[c.roles[w].inq].items == [])
  }

  /** While stop is unset, runners return only at the end of their input. */
  predicate LeftClean(c: Config, s: State)
  {
    && Shaped(c, s)
    && (!s.stop ==> forall w :: 0 <= w < |s.workers| ==> Settled(c, s, w))
  }

  lemma WorkLeaves(c: Config, s: State, w: nat, o: Outcome)
    requires Located(c, s) && w < |c.roles| && CanWork(c, s, w) && PossibleOutcome(s.workers[w].pc, o)
    ensures var s' := Work(c, s, w, o);
            && |s'.workers| == |s.workers| && |s'.queues| == |s.queues|
            && (!s'.stop && s'.workers[w].refused != s.workers[w].refused ==>
                  s.workers[w].pc.AtPush? && !c.roles[w].Sink? && s.queues[c.roles[w].outq].closed)
            && (!s'.stop && PastRunner(s'.workers[w].pc) && !PastRunner(s.workers[w].pc) && !c.roles[w].Source? ==>
                  || (s.workers[w].pc.AtPush? && s.queues[c.roles[w].outq].closed)
                  || (s.workers[w].pc.AtPop? && s.queues[c.roles[w].inq].closed && s.queues[c.roles[w].inq].items == []
                      && s'.queues[c.roles[w].inq].items == []))
  {
  }

  lemma WorkKeepsEmpty(c: Config, s: State, w: nat, o: Outcome)
    requires Placed(c, s) && w < |c.roles| && CanWork(c, s, w) && PossibleOutcome(s.workers[w].pc, o)
    ensures var s' := Work(c, s, w, o);
            && |s'.queues| == |s.queues|
            && forall q :: 0 <= q < |s.queues| && s.queues[q].closed && s.queues[q].items == [] ==> s'.queues[q].items == []
  {
    var (x, e) := Act(c, s, w, o);
    assert e.Enqueue? ==> !s.queues[c.roles[w].outq].closed;
    ApplyKeepsEmpty(c, s, w, e);
  }

  lemma ApplyKeepsEmpty(c: Config, s: State, w: nat, e: Effect)
    requires Placed(c, s) && w < |c.roles| && CanApply(c, s, w, e)
    requires e.Enqueue? ==> !s.queues[c.roles[w].outq].closed
    ensures var s' := Apply(c, s, w, e);
            && |s'.queues| == |s.queues|
            && forall q :: 0 <= q < |s.queues| && s.queues[q].closed && s.queues[q].items == [] ==> s'.queues[q].items == []
  {
  }

  /** While stop is unset the queue a worker may still push to is open. */
  lemma OpenForProducer(c: Config, s: State, w: nat)
    requires Placed(c, s) && Counts(c, s) && CloseDiscipline(c, s) && !s.stop
    requires w < |c.roles| && !c.roles[w].Sink? && !Dropped(s.workers[w].pc)
    ensures !s.queues[c.roles[w].outq].closed
  {
    assert Writes(c, w, c.roles[w].outq);
    assert w in Pending(c, s, c.roles[w].outq);
  }

  lemma LeftWork(c: Config, s: State, w: nat, o: Outcome)
    requires Located(c, s) && Counts(c, s) && CloseDiscipline(c, s) && AllBalanced(c, s) && LeftClean(c, s)
    requires w < |c.roles| && CanWork(c, s, w) && PossibleOutcome(s.workers[w].pc, o)
    ensures LeftClean(c, Work(c, s, w, o))
  {
    var s' := Work(c, s, w, o);
    LocatedWork(c, s, w, o);
    WorkFramed(c, s, w, o);
    WorkKeepsEmpty(c, s, w, o);
    if !s'.stop {
      WorkLeaves(c, s, w, o);
      WorkPlaces(c, s, w, o);
      if s.workers[w].pc.AtPush? {
        OpenForProducer(c, s, w);
      }
      assert Settled(c, s, w) && Balanced(c.roles[w], s.workers[w]);
      forall v | 0 <= v < |s.workers| && v != w
        ensures Settled(c, s', v)
      {
        assert Settled(c, s, v);
      }
    }
  }

  lemma LeftStep(c: Config, s: State, l: Label, s': State)
    requires Located(c, s) && Counts(c, s) && CloseDiscipline(c, s) && AllBalanced(c, s) && LeftClean(c, s)
    requires Next(c, s, l, s')
    ensures LeftClean(c, s')
  {
    LocatedStep(c, s, l, s');
    match l
    case Worked(w, o) => LeftWork(c, s, w, o);
    case _ =>
      OtherManaged(c, s, l, s');
      LeftManaged(c, s, s');
  }

  lemma LeftManaged(c: Config, s: State, s': State)
    requires Shaped(c, s') && LeftClean(c, s) && Managed(s, s')
    ensures LeftClean(c, s')
  {
    if !s'.stop {
      forall v | 0 <= v < |s.workers|
        ensures Settled(c, s', v)
      {
        assert Settled(c, s, v);
      }
    }
  }

  // ---------------------------------------------------------------- all of it, on every run

  ghost predicate Inv(c: Config, s: State)
  {
    && Located(c, s)
    && Counts(c, s)
    && CloseDiscipline(c, s)
    && QueuesSound(c, s)
    && AllBalanced(c, s)
    && Conserved(c, s)
    && Lifecycle(c, s)
    && LeftClean(c, s)
  }

  lemma InvInit(c: Config)
    requires ValidConfig(c)
    ensures Inv(c, Init(c))
  {
    CountsInit(c);
    CloseInit(c);
    QueuesInit(c);
    ConservedInit(c);
  }

  lemma InvStep(c: Config, s: State, l: Label, s': State)
    requires Inv(c, s) && Next(c, s, l, s')
    ensures Inv(c, s')
  {
    LocatedStep(c, s, l, s');
    CountsStep(c, s, l, s');
    CloseStep(c, s, l, s');
    QueuesStep(c, s, l, s');
    BalancedStep(c, s, l, s');
    ConservedStep(c, s, l, s');
    LifecycleStep(c, s, l, s');
    LeftStep(c, s, l, s');
  }

  /** Every state of every run satisfies the invariant. */
  lemma {:induction false} RunInv(c: Config, r: Run, n: nat)
    requires IsRun(c, r) && n < |r.states|
    ensures Inv(c, r.states[n])
    decreases n, 1
  {
    if n == 0 {
      InvInit(c);
    } else {
      InvAfter(c, r, n - 1);
    }
  }

  lemma {:induction false} InvAfter(c: Config, r: Run, i: nat)
    requires IsRun(c, r) && i < |r.labels|
    ensures Inv(c, r.states[i + 1])
    decreases i + 1, 0
  {
    RunInv(c, r, i);
    RunStep(c, r, i);
    InvStep(c, r.states[i], r.labels[i], r.states[i + 1]);
  }

  /** A state that some run passes through. */
  ghost predicate Reached(c: Config, s: State)
  {
    exists r: Run, n: nat :: IsRun(c, r) && n < |r.states| && r.states[n] == s
  }

  lemma ReachedInv(c: Config, s: State)
    requires Reached(c, s)
    ensures Inv(c, s)
  {
    var r: Run, n: nat :| IsRun(c, r) && n < |r.states| && r.states[n] == s;
    RunInv(c, r, n);
  }

  lemma ReachedStep(c: Config, r: Run, i: nat)
    requires IsRun(c, r) && i < |r.labels|
    ensures Reached(c, r.states[i]) && Reached(c, r.states[i + 1])
    ensures Placed(c, r.states[i]) && Next(c, r.states[i], r.labels[i], r.states[i + 1])
  {
    RunStep(c, r, i);
  }
}
