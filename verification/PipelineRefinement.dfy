/**
 Clean job runs: finite sources, stages that neither throw nor ask for stop, no signal and
 no wiring fault.  Whatever the interleaving, a clean run delivers what running the stages
 one after the other delivers, unless the count of active workers touches zero while a
 worker is still to be started (State.early).
 */
module PipelineRefinement {
  import opened Options
  import opened Payloads
  import opened Pipeline
  import opened PipelineSafety
  import opened Sums

  // ---------------------------------------------------------------- the environment

  /**
   What the stages do: worker w's source produces script[w] and ends; worker w's transform
   maps the next payload, given all the payloads it got before.
   */
  datatype Env = Env(script: seq<seq<Payload>>, xf: (nat, seq<Payload>, Payload) -> Payload)

  ghost predicate CleanOutcome(env: Env, w: nat, x: Worker, o: Outcome)
    requires w < |env.script|
  {
    match x.pc
    case AtProduce =>
      if |x.made| < |env.script[w]| then o == Yield(env.script[w][|x.made|]) else o == EndOfStream
    case AtProcess(p) => x.got != [] && o == Yield(env.xf(w, x.got[..|x.got| - 1], p))
    case AtConsume(_) => o == Plain
    case _ => true
  }

  ghost predicate CleanLabel(env: Env, s: State, l: Label)
  {
    match l
    case Worked(w, o) => w < |s.workers| && w < |env.script| && CleanOutcome(env, w, s.workers[w], o)
    case Mained => true
    case Failed(_) => false
    case Interrupted => false
  }

  ghost predicate CleanRun(c: Config, env: Env, r: Run)
  {
    && IsRun(c, r)
    && c.job
    && |env.script| == |c.roles|
    && (forall i :: 0 <= i < |r.labels| ==> CleanLabel(env, r.states[i], r.labels[i]))
  }

  lemma CleanStepAt(c: Config, env: Env, r: Run, i: nat)
    requires CleanRun(c, env, r) && i < |r.labels|
    ensures Placed(c, r.states[i]) && Next(c, r.states[i], r.labels[i], r.states[i + 1])
    ensures CleanLabel(env, r.states[i], r.labels[i])
  {
    RunStep(c, r, i);
  }

  /** A clean step carries a clean run on. */
  lemma CleanExtend(c: Config, env: Env, r: Run, l: Label, s': State) returns (r': Run)
    requires CleanRun(c, env, r) && Placed(c, r.Last())
    requires Next(c, r.Last(), l, s') && CleanLabel(env, r.Last(), l)
    ensures CleanRun(c, env, r') && r' == Run(r.states + [s'], r.labels + [l])
  {
    r' := Run(r.states + [s'], r.labels + [l]);
    forall i | 0 <= i < |r'.labels|
      ensures StepAt(c, r', i)
      ensures CleanLabel(env, r'.states[i], r'.labels[i])
    {
      if i < |r.labels| {
        assert StepAt(c, r, i);
        assert r'.states[i] == r.states[i] && r'.states[i + 1] == r.states[i + 1];
      }
    }
  }

  // ---------------------------------------------------------------- the sequential reference

  /** The payloads that pass the output schema, stamped. */
  function Stamped(schemaId: string, ps: seq<Payload>): seq<Payload>
  {
    if ps == [] then []
    else
      Stamped(schemaId, ps[..|ps| - 1])
      + match Stamp(schemaId, ps[|ps| - 1]) { case None => [] case Some(p) => [p] }
  }

  /** A transform applied to a whole input sequence. */
  function Images(env: Env, w: nat, ps: seq<Payload>): (r: seq<Payload>)
    ensures |r| == |ps|
  {
    seq(|ps|, i requires 0 <= i < |ps| => env.xf(w, ps[..i], ps[i]))
  }

  lemma ImagesSnoc(env: Env, w: nat, ps: seq<Payload>, p: Payload)
    ensures Images(env, w, ps + [p]) == Images(env, w, ps) + [env.xf(w, ps, p)]
  {
    var r := Images(env, w, ps + [p]);
    forall i | 0 <= i < |ps|
      ensures r[i] == Images(env, w, ps)[i]
    {
      assert (ps + [p])[..i] == ps[..i];
    }
    assert (ps + [p])[..|ps|] == ps;
  }

  lemma StampedSnoc(schemaId: string, ps: seq<Payload>, p: Payload)
    ensures Stamped(schemaId, ps + [p])
            == Stamped(schemaId, ps) + match Stamp(schemaId, p) { case None => [] case Some(q) => [q] }
  {
    assert (ps + [p])[..|ps|] == ps;
  }

  // ---------------------------------------------------------------- each worker follows its reference

  /** What a worker has offered to its output queue, in order. */
  function Offered(x: Worker): seq<Payload>
  {
    x.sent + x.refused + (if x.pc.AtPush? then [x.pc.hand] else [])
  }

  ghost predicate Faithful(c: Config, env: Env, w: nat, x: Worker)
    requires ValidConfig(c) && w < |c.roles| && |env.script| == |c.roles|
  {
    && (x.pc.AtPush? ==> x.refused == [])
    && (InRunner(x.pc) || x.pc.Unborn? ==> x.refused == [])
    && !x.pc.AtCloseIn?
    && match c.roles[w]
       case Source(q) =>
         && x.made <= env.script[w]
         && Offered(x) == Stamped(c.queues[q].schemaId, x.made)
       case Transform(_, q) =>
         if x.pc.AtProcess? then
           && x.got != [] && x.got[|x.got| - 1] == x.pc.hand
           && Offered(x) == Stamped(c.queues[q].schemaId, Images(env, w, x.got[..|x.got| - 1]))
         else
           Offered(x) == Stamped(c.queues[q].schemaId, Images(env, w, x.got))
       case Sink(_) =>
         x.got == if x.pc.AtConsume? then x.eaten + [x.pc.hand] else x.eaten
  }

  /** produce() returned a payload: the next of the script. */
  lemma FaithfulProduce(c: Config, env: Env, s: State, w: nat, o: Outcome)
    requires Placed(c, s) && w < |c.roles| && s.workers[w].pc.AtProduce? && o.Yield?
    requires |env.script| == |c.roles| && CleanOutcome(env, w, s.workers[w], o)
    requires c.roles[w].Source? && Faithful(c, env, w, s.workers[w])
    ensures Faithful(c, env, w, Act(c, s, w, o).0)
  {
    var x := s.workers[w];
    StampedSnoc(c.queues[c.roles[w].outq].schemaId, x.made, o.value);
    assert env.script[w][..|x.made| + 1] == x.made + [o.value];
  }

  lemma FaithfulSource(c: Config, env: Env, s: State, w: nat, o: Outcome)
    requires Placed(c, s) && w < |c.roles| && CanWork(c, s, w) && PossibleOutcome(s.workers[w].pc, o)
    requires |env.script| == |c.roles| && CleanOutcome(env, w, s.workers[w], o)
    requires c.roles[w].Source? && Faithful(c, env, w, s.workers[w])
    ensures Faithful(c, env, w, Act(c, s, w, o).0)
  {
    if s.workers[w].pc.AtProduce? && o.Yield? {
      FaithfulProduce(c, env, s, w, o);
    }
  }

  /** process() returned: the images so far gain one, and so does what was offered. */
  lemma FaithfulProcess(c: Config, env: Env, s: State, w: nat, o: Outcome)
    requires Placed(c, s) && w < |c.roles| && s.workers[w].pc.AtProcess? && PossibleOutcome(s.workers[w].pc, o)
    requires |env.script| == |c.roles| && CleanOutcome(env, w, s.workers[w], o)
    requires c.roles[w].Transform? && Faithful(c, env, w, s.workers[w])
    ensures Faithful(c, env, w, Act(c, s, w, o).0)
  {
    var x := s.workers[w];
    var before := x.got[..|x.got| - 1];
    assert x.got == before + [x.pc.hand];
    ImagesSnoc(env, w, before, x.pc.hand);
    StampedSnoc(c.queues[c.roles[w].outq].schemaId, Images(env, w, before), o.value);
  }

  lemma FaithfulTransform(c: Config, env: Env, s: State, w: nat, o: Outcome)
    requires Placed(c, s) && QueuesSound(c, s) && w < |c.roles| && CanWork(c, s, w)
    requires PossibleOutcome(s.workers[w].pc, o)
    requires |env.script| == |c.roles| && CleanOutcome(env, w, s.workers[w], o)
    requires c.roles[w].Transform? && Faithful(c, env, w, s.workers[w])
    ensures Faithful(c, env, w, Act(c, s, w, o).0)
  {
    var x := s.workers[w];
    if x.pc.AtProcess? {
      FaithfulProcess(c, env, s, w, o);
    } else {
      var q := c.roles[w].inq;
      assert QueueSound(c.queues[q].capacity, c.queues[q].schemaId, s.queues[q]);
      if x.pc.AtPop? && s.queues[q].items != [] {
        assert (x.got + [s.queues[q].items[0]])[..|x.got|] == x.got;
      }
    }
  }

  lemma FaithfulSink(c: Config, env: Env, s: State, w: nat, o: Outcome)
    requires Placed(c, s) && QueuesSound(c, s) && w < |c.roles| && CanWork(c, s, w)
    requires PossibleOutcome(s.workers[w].pc, o)
    requires |env.script| == |c.roles| && CleanOutcome(env, w, s.workers[w], o)
    requires c.roles[w].Sink? && Faithful(c, env, w, s.workers[w])
    ensures Faithful(c, env, w, Act(c, s, w, o).0)
  {
    var q := c.roles[w].inq;
    assert QueueSound(c.queues[q].capacity, c.queues[q].schemaId, s.queues[q]);
  }

  lemma FaithfulWork(c: Config, env: Env, s: State, w: nat, o: Outcome)
    requires Placed(c, s) && QueuesSound(c, s) && w < |c.roles| && CanWork(c, s, w)
    requires PossibleOutcome(s.workers[w].pc, o)
    requires |env.script| == |c.roles| && CleanOutcome(env, w, s.workers[w], o)
    requires Faithful(c, env, w, s.workers[w])
    ensures Faithful(c, env, w, Act(c, s, w, o).0)
  {
    match c.roles[w]
    case Source(_) => FaithfulSource(c, env, s, w, o);
    case Transform(_, _) => FaithfulTransform(c, env, s, w, o);
    case Sink(_) => FaithfulSink(c, env, s, w, o);
  }

  ghost predicate AllFaithful(c: Config, env: Env, s: State)
  {
    && Shaped(c, s)
    && |env.script| == |c.roles|
    && (forall w :: 0 <= w < |c.roles| ==> Faithful(c, env, w, s.workers[w]))
  }

  lemma FaithfulStep(c: Config, env: Env, s: State, l: Label, s': State)
    requires Located(c, s) && QueuesSound(c, s) && AllFaithful(c, env, s)
    requires Next(c, s, l, s') && CleanLabel(env, s, l)
    ensures AllFaithful(c, env, s')
  {
    LocatedStep(c, s, l, s');
    match l
    case Worked(w, o) =>
      WorkFramed(c, s, w, o);
      FaithfulWork(c, env, s, w, o);
    case _ => OtherManaged(c, s, l, s');
  }

  // ---------------------------------------------------------------- when a clean job stops

  /** Every worker has counted itself down. */
  predicate AllOut(s: State)
  {
    forall w :: 0 <= w < |s.workers| ==> s.workers[w].pc.AtStop? || s.workers[w].pc.Done?
  }

  predicate SomeStopper(s: State)
  {
    exists w :: 0 <= w < |s.workers| && s.workers[w].pc.AtStop?
  }

  /** Worker w did all its work: nothing refused, its whole script produced, its input drained. */
  ghost predicate Complete(c: Config, env: Env, s: State, w: nat)
    requires Shaped(c, s) && w < |c.roles| && |env.script| == |c.roles|
  {
    && s.workers[w].refused == []
    && (c.roles[w].Source? ==> s.workers[w].made == env.script[w])
    && (!c.roles[w].Source? ==> s.queues[c.roles[w].inq].closed && s.queues[c.roles[w].inq].items == [])
  }

  /**
   Before a stop, workers leave their runners only when their work is complete; and a stop
   that is not early finds every worker out with its work complete.
   */
  ghost predicate StopsLate(c: Config, env: Env, s: State)
  {
    && Shaped(c, s)
    && |env.script| == |c.roles|
    && !s.main.Abort? && (Winding(s.main) ==> !s.main.failed)
    && (!s.stop ==> forall w :: 0 <= w < |c.roles| && PastRunner(s.workers[w].pc) ==> Complete(c, env, s, w))
    && (!s.early && SomeStopper(s) ==> AllOut(s))
    && (!s.early && s.stop ==> AllOut(s) && forall w :: 0 <= w < |c.roles| ==> Complete(c, env, s, w))
  }

  /** A worker step's part in stopping a clean run. */
  lemma WorkStops(c: Config, env: Env, s: State, w: nat, o: Outcome)
    requires Located(c, s) && w < |c.roles| && CanWork(c, s, w) && PossibleOutcome(s.workers[w].pc, o)
    requires c.job && |env.script| == |c.roles| && CleanOutcome(env, w, s.workers[w], o)
    ensures var s' := Work(c, s, w, o);
            && |s'.workers| == |s.workers|
            && (s'.stop ==> s.stop || s.workers[w].pc.AtStop?)
            && (s'.workers[w].pc.AtStop? <==> s.workers[w].pc.AtRelease? && s.active == 1)
            && (s.workers[w].pc.AtStop? ==> s'.workers[w].pc.Done?)
            && (s'.early <==> s.early || (s.workers[w].pc.AtRelease? && s.active == 1 && s.spawned < |c.roles|))
  {
  }

  /** A source that leaves its runner before a stop has come to the end of its script. */
  lemma WorkFinishes(c: Config, env: Env, s: State, w: nat, o: Outcome)
    requires Located(c, s) && w < |c.roles| && CanWork(c, s, w) && PossibleOutcome(s.workers[w].pc, o)
    requires |env.script| == |c.roles| && CleanOutcome(env, w, s.workers[w], o)
    requires Faithful(c, env, w, s.workers[w]) && !s.stop && c.roles[w].Source?
    requires s.workers[w].pc.AtPush? ==> !s.queues[c.roles[w].outq].closed
    requires PastRunner(s.workers[w].pc) ==> s.workers[w].made == env.script[w]
    ensures var (x, e) := Act(c, s, w, o);
            PastRunner(x.pc) ==> x.made == env.script[w]
  {
  }

  /** When the last active worker counts down outside the spawn loop, no other is left. */
  lemma LastOut(c: Config, s: State, w: nat)
    requires Located(c, s) && Counts(c, s) && w < |c.roles|
    requires s.workers[w].pc.AtRelease? && s.active == 1 && s.spawned == |c.roles|
    ensures forall v :: 0 <= v < |c.roles| && v != w ==> s.workers[v].pc.AtStop? || s.workers[v].pc.Done?
  {
    assert w in Live(s);
    forall v | 0 <= v < |c.roles| && v != w
      ensures s.workers[v].pc.AtStop? || s.workers[v].pc.Done?
    {
      if v in Live(s) {
        TwoMembers(Live(s), v, w);
      }
    }
  }

  lemma StopsLateWork(c: Config, env: Env, s: State, w: nat, o: Outcome)
    requires Reached(c, s) && Placed(c, s) && AllFaithful(c, env, s) && StopsLate(c, env, s) && c.job
    requires w < |c.roles| && CanWork(c, s, w) && PossibleOutcome(s.workers[w].pc, o)
    requires CleanOutcome(env, w, s.workers[w], o)
    ensures StopsLate(c, env, Work(c, s, w, o))
  {
    ReachedInv(c, s);
    var s' := Work(c, s, w, o);
    InvStep(c, s, Worked(w, o), s');
    WorkFramed(c, s, w, o);
    WorkStops(c, env, s, w, o);
    WorkKeepsEmpty(c, s, w, o);
    if !s.stop && s.workers[w].pc.AtPush? {
      OpenForProducer(c, s, w);
    }
    if s.workers[w].pc.AtRelease? && s.active == 1 && s.spawned == |c.roles| {
      LastOut(c, s, w);
    }
    if !s.stop && c.roles[w].Source? {
      WorkFinishes(c, env, s, w, o);
    }
    StopsLateFramed(c, env, s, s', w);
  }

  lemma StopsLateFramed(c: Config, env: Env, s: State, s': State, w: nat)
    requires Located(c, s) && LeftClean(c, s') && StopsLate(c, env, s) && Located(c, s')
    requires w < |c.roles| && Framed(s, s', w)
    requires !s.workers[w].pc.Unborn? && !s.workers[w].pc.Done?
    requires s'.stop ==> s.stop || s.workers[w].pc.AtStop?
    requires s'.workers[w].pc.AtStop? <==> s.workers[w].pc.AtRelease? && s.active == 1
    requires s.workers[w].pc.AtStop? ==> s'.workers[w].pc.Done? && s'.queues == s.queues
                                         && s'.workers[w].made == s.workers[w].made
                                         && s'.workers[w].refused == s.workers[w].refused
    requires s'.early <==> s.early || (s.workers[w].pc.AtRelease? && s.active == 1 && s.spawned < |c.roles|)
    requires s.workers[w].pc.AtRelease? && s.active == 1 && s.spawned == |c.roles| ==>
               forall v :: 0 <= v < |c.roles| && v != w ==> s.workers[v].pc.AtStop? || s.workers[v].pc.Done?
    requires !s.stop && c.roles[w].Source? && PastRunner(s'.workers[w].pc) ==> s'.workers[w].made == env.script[w]
    ensures StopsLate(c, env, s')
  {
    if !s'.stop {
      forall v | 0 <= v < |c.roles| && PastRunner(s'.workers[v].pc)
        ensures Complete(c, env, s', v)
      {
        assert Settled(c, s', v);
        assert v != w ==> Complete(c, env, s, v);
      }
    }
    if !s'.early && SomeStopper(s') {
      if !s'.workers[w].pc.AtStop? {
        var v :| 0 <= v < |s'.workers| && s'.workers[v].pc.AtStop?;
        assert s.workers[v].pc.AtStop?;
      }
      assert AllOut(s');
    }
    if !s'.early && s'.stop {
      assert s.workers[w].pc.AtStop?;
      assert SomeStopper(s) && AllOut(s);
      forall v | 0 <= v < |c.roles|
        ensures Complete(c, env, s', v)
      {
        assert Complete(c, env, s, v);
      }
    }
  }

  lemma StopsLateMain(c: Config, env: Env, s: State)
    requires Inv(c, s) && StopsLate(c, env, s) && CanMain(c, s)
    ensures StopsLate(c, env, Main(c, s))
  {
    var s' := Main(c, s);
    InvStep(c, s, Mained, s');
    OtherManaged(c, s, Mained, s');
    if s.main.Check? && s.active == 0 {
      assert Live(s) == {};
      forall w | 0 <= w < |s.workers|
        ensures s.workers[w].pc.AtStop? || s.workers[w].pc.Done?
      {
        assert w !in Live(s);
      }
    }
    StopsLateManaged(c, env, s, s');
  }

  lemma StopsLateManaged(c: Config, env: Env, s: State, s': State)
    requires Located(c, s) && StopsLate(c, env, s) && Located(c, s') && LeftClean(c, s') && Managed(s, s')
    requires s'.early == s.early
    requires !s'.main.Abort? && (Winding(s'.main) ==> !s'.main.failed)
    requires s'.stop && !s.stop ==> AllOut(s)
    ensures StopsLate(c, env, s')
  {
    if !s'.stop {
      forall v | 0 <= v < |c.roles| && PastRunner(s'.workers[v].pc)
        ensures Complete(c, env, s', v)
      {
        assert Complete(c, env, s, v);
      }
    }
    if !s'.early && SomeStopper(s') {
      assert SomeStopper(s);
      assert AllOut(s');
    }
    if !s'.early && s'.stop {
      assert AllOut(s);
      forall v | 0 <= v < |c.roles|
        ensures Complete(c, env, s', v)
      {
        assert Complete(c, env, s, v);
      }
    }
  }

  lemma {:induction false} CleanInv(c: Config, env: Env, r: Run, n: nat)
    requires CleanRun(c, env, r) && n < |r.states|
    ensures Inv(c, r.states[n]) && AllFaithful(c, env, r.states[n]) && StopsLate(c, env, r.states[n])
    decreases n, 1
  {
    RunInv(c, r, n);
    if n > 0 {
      CleanAfter(c, env, r, n - 1);
    }
  }

  lemma {:induction false} CleanAfter(c: Config, env: Env, r: Run, i: nat)
    requires CleanRun(c, env, r) && i < |r.labels|
    ensures AllFaithful(c, env, r.states[i + 1]) && StopsLate(c, env, r.states[i + 1])
    decreases i + 1, 0
  {
    CleanInv(c, env, r, i);
    CleanStepAt(c, env, r, i);
    ReachedStep(c, r, i);
    CleanStep(c, env, r.states[i], r.labels[i], r.states[i + 1]);
  }

  lemma CleanStep(c: Config, env: Env, s: State, l: Label, s': State)
    requires Reached(c, s) && Placed(c, s) && AllFaithful(c, env, s) && StopsLate(c, env, s) && c.job
    requires Next(c, s, l, s') && CleanLabel(env, s, l)
    ensures AllFaithful(c, env, s') && StopsLate(c, env, s')
  {
    ReachedInv(c, s);
    FaithfulStep(c, env, s, l, s');
    match l
    case Worked(w, o) => StopsLateWork(c, env, s, w, o);
    case Mained => StopsLateMain(c, env, s);
  }
}
