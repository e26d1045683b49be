/**
 What each worker did, told by the answers of its stage: in every run of a flow, and in every
 execution of a runner among arbitrary neighbours, that may also hand it payloads of a wrong schema.
 */
module WorkerAccounts {
  import opened Options
  import opened Payloads
  import opened Pipeline
  import opened PipelineSafety
  import opened PipelineRefinement
  import opened RunnerSteps

  /** What worker w's stage returned in the first n steps. */
  function Yields(r: Run, w: nat, n: nat): seq<Payload>
    requires n <= |r.labels|
  {
    if n == 0 then []
    else
      Yields(r, w, n - 1)
      + (match r.labels[n - 1]
         case Worked(v, Yield(p)) => if v == w then [p] else []
         case _ => [])
  }

  /** How often it threw. */
  function Throws(r: Run, w: nat, n: nat): nat
    requires n <= |r.labels|
  {
    if n == 0 then 0 else Throws(r, w, n - 1) + if r.labels[n - 1] == Worked(w, Throw) then 1 else 0
  }

  /** The payloads a runner lets through to its stage: all when the queue has no schema, else those that carry its id. */
  function Admitted(schemaId: string, ps: seq<Payload>): seq<Payload>
  {
    if ps == [] then []
    else
      var p := ps[|ps| - 1];
      Admitted(schemaId, ps[..|ps| - 1]) + if schemaId == "" || p.schemaId == schemaId then [p] else []
  }

  lemma AdmittedSnoc(schemaId: string, ps: seq<Payload>, p: Payload)
    ensures Admitted(schemaId, ps + [p]) == Admitted(schemaId, ps) + if schemaId == "" || p.schemaId == schemaId then [p] else []
  {
    assert (ps + [p])[..|ps|] == ps;
  }

  /**
   A worker by the answers of its stage, ys in order and throws in number: what it made or offered
   to its queue, what it lost, and its four counters.
   */
  predicate Accounted(c: Config, r: Role, x: Worker, ys: seq<Payload>, throws: nat)
    requires ValidConfig(c) && ValidRole(c, r)
  {
    var m := x.metrics;
    && m.dequeues == |x.got| && m.enqueues == |x.sent|
    && throws <= 1 && (throws == 1 ==> PastRunner(x.pc) || x.pc.AtCloseIn?)
    && match r
       case Source(q) =>
         var out := Stamped(c.queues[q].schemaId, ys);
         && x.made == ys && x.got == []
         && Offered(x) == out
         && m.latencies == |out| && m.errors == |ys| - |out| + throws
       case Transform(p, q) =>
         var taken, out := Admitted(c.queues[p].schemaId, x.got), Stamped(c.queues[q].schemaId, ys);
         && Offered(x) == out
         && |taken| == |ys| + throws + (if x.pc.AtProcess? then 1 else 0)
         && m.latencies == |ys|
         && m.errors == |x.got| - |taken| + |ys| - |out| + throws
         && (x.pc.AtProcess? ==> taken[|taken| - 1] == x.pc.hand)
       case Sink(p) =>
         var taken := Admitted(c.queues[p].schemaId, x.got);
         && ys == [] && x.sent == []
         && taken == x.eaten + x.thrown + (if x.pc.AtConsume? then [x.pc.hand] else [])
         && |x.thrown| == throws
         && m.latencies == |x.eaten|
         && m.errors == |x.got| - |taken| + throws
  }

  /** The stage answered o: what ys and throws become. */
  function MoreYields(ys: seq<Payload>, o: Outcome): seq<Payload>
  {
    if o.Yield? then ys + [o.value] else ys
  }

  /** A step other than the return of a payload. */
  lemma SourceAccounted(c: Config, s: State, w: nat, o: Outcome, ys: seq<Payload>, throws: nat)
    requires Placed(c, s) && w < |c.roles| && CanWork(c, s, w) && PossibleOutcome(s.workers[w].pc, o) && !o.Yield?
    requires c.roles[w].Source? && Balanced(c.roles[w], s.workers[w]) && Accounted(c, c.roles[w], s.workers[w], ys, throws)
    ensures Accounted(c, c.roles[w], Act(c, s, w, o).0, ys, throws + if o.Throw? then 1 else 0)
  {
  }

  /** A pop, and what the runner makes of the payload. */
  lemma PopAccounted(c: Config, s: State, w: nat, ys: seq<Payload>, throws: nat)
    requires Placed(c, s) && w < |c.roles| && CanWork(c, s, w) && s.workers[w].pc.AtPop?
    requires Balanced(c.roles[w], s.workers[w]) && Accounted(c, c.roles[w], s.workers[w], ys, throws)
    ensures Accounted(c, c.roles[w], Act(c, s, w, Plain).0, ys, throws)
  {
    var q := s.queues[c.roles[w].inq];
    if q.items != [] {
      TakeAccounted(c, c.roles[w], s.workers[w], q.items[0], ys, throws);
    }
  }

  lemma TakeAccounted(c: Config, r: Role, x: Worker, p: Payload, ys: seq<Payload>, throws: nat)
    requires ValidConfig(c) && ValidRole(c, r) && !r.Source? && x.pc.AtPop?
    requires Balanced(r, x) && Accounted(c, r, x, ys, throws)
    ensures Accounted(c, r, Take(c, r, x, p), ys, throws)
  {
    var y := Take(c, r, x, p);
    var schemaId := c.queues[r.inq].schemaId;
    assert y.got == x.got + [p] && Offered(y) == Offered(x);
    AdmittedSnoc(schemaId, x.got, p);
    assert y.pc.Top? <==> Admitted(schemaId, y.got) == Admitted(schemaId, x.got);
  }

  lemma TransformAccounted(c: Config, s: State, w: nat, o: Outcome, ys: seq<Payload>, throws: nat)
    requires Placed(c, s) && w < |c.roles| && CanWork(c, s, w) && !s.workers[w].pc.AtPop?
    requires PossibleOutcome(s.workers[w].pc, o) && !o.Yield?
    requires c.roles[w].Transform? && Balanced(c.roles[w], s.workers[w])
    requires Accounted(c, c.roles[w], s.workers[w], ys, throws)
    ensures Accounted(c, c.roles[w], Act(c, s, w, o).0, ys, throws + if o.Throw? then 1 else 0)
  {
  }

  lemma SinkAccounted(c: Config, s: State, w: nat, o: Outcome, ys: seq<Payload>, throws: nat)
    requires Placed(c, s) && w < |c.roles| && CanWork(c, s, w) && !s.workers[w].pc.AtPop?
    requires PossibleOutcome(s.workers[w].pc, o)
    requires c.roles[w].Sink? && Balanced(c.roles[w], s.workers[w])
    requires Accounted(c, c.roles[w], s.workers[w], ys, throws)
    ensures Accounted(c, c.roles[w], Act(c, s, w, o).0, ys, throws + if o.Throw? then 1 else 0)
  {
  }

  /** The stage returned a payload. */
  lemma YieldAccounted(c: Config, s: State, w: nat, o: Outcome, ys: seq<Payload>, throws: nat)
    requires Placed(c, s) && w < |c.roles| && CanWork(c, s, w) && PossibleOutcome(s.workers[w].pc, o) && o.Yield?
    requires Balanced(c.roles[w], s.workers[w]) && Accounted(c, c.roles[w], s.workers[w], ys, throws)
    ensures !c.roles[w].Sink?
    ensures Accounted(c, c.roles[w], Act(c, s, w, o).0, ys + [o.value], throws)
  {
    StampedSnoc(c.queues[c.roles[w].outq].schemaId, ys, o.value);
  }

  lemma AccountedWork(c: Config, s: State, w: nat, o: Outcome, ys: seq<Payload>, throws: nat)
    requires Placed(c, s) && w < |c.roles| && CanWork(c, s, w) && PossibleOutcome(s.workers[w].pc, o)
    requires Balanced(c.roles[w], s.workers[w]) && Accounted(c, c.roles[w], s.workers[w], ys, throws)
    ensures Accounted(c, c.roles[w], Act(c, s, w, o).0, MoreYields(ys, o), throws + if o.Throw? then 1 else 0)
  {
    if o.Yield? {
      YieldAccounted(c, s, w, o, ys, throws);
    } else if s.workers[w].pc.AtPop? {
      PopAccounted(c, s, w, ys, throws);
    } else {
      match c.roles[w]
      case Source(_) => SourceAccounted(c, s, w, o, ys, throws);
      case Transform(_, _) => TransformAccounted(c, s, w, o, ys, throws);
      case Sink(_) => SinkAccounted(c, s, w, o, ys, throws);
    }
  }

  /** What label l adds to the answers of worker w's stage. */
  function AnswerAt(l: Label, w: nat): Outcome
  {
    if l.Worked? && l.w == w then l.o else Plain
  }

  lemma ReachedBalanced(c: Config, s: State, w: nat)
    requires Reached(c, s) && w < |c.roles| == |s.workers|
    ensures Balanced(c.roles[w], s.workers[w])
  {
    ReachedInv(c, s);
  }

  /** The step of another thread starts worker w or leaves it. */
  lemma OthersStep(c: Config, s: State, l: Label, s': State, w: nat)
    requires Reached(c, s) && Placed(c, s) && Next(c, s, l, s') && w < |c.roles| && !(l.Worked? && l.w == w)
    ensures |s'.workers| == |s.workers|
    ensures s'.workers[w] == s.workers[w] || (s.workers[w].pc.Unborn? && s'.workers[w] == s.workers[w].(pc := Top))
  {
    ReachedInv(c, s);
    OthersLeaveIt(c, s, l, s', w);
  }

  lemma AccountedStep(c: Config, s: State, l: Label, s': State, w: nat, ys: seq<Payload>, throws: nat)
    requires Reached(c, s) && Placed(c, s) && Next(c, s, l, s') && w < |c.roles| == |s.workers|
    requires Accounted(c, c.roles[w], s.workers[w], ys, throws)
    ensures |s'.workers| == |c.roles|
    ensures Accounted(c, c.roles[w], s'.workers[w], MoreYields(ys, AnswerAt(l, w)),
                      throws + if AnswerAt(l, w).Throw? then 1 else 0)
  {
    if l.Worked? && l.w == w {
      ReachedBalanced(c, s, w);
      WorkIsActs(c, s, w, l.o);
      AccountedWork(c, s, w, l.o, ys, throws);
    } else {
      OthersStep(c, s, l, s', w);
      AccountedStart(c, c.roles[w], s.workers[w], ys, throws);
    }
  }

  lemma AccountedStart(c: Config, r: Role, x: Worker, ys: seq<Payload>, throws: nat)
    requires ValidConfig(c) && ValidRole(c, r) && Accounted(c, r, x, ys, throws)
    ensures x.pc.Unborn? ==> Accounted(c, r, x.(pc := Top), ys, throws)
  {
  }

  lemma AccountedInit(c: Config, r: Role)
    requires ValidConfig(c) && ValidRole(c, r)
    ensures Accounted(c, r, FRESH_WORKER, [], 0)
  {
  }

  /**
   The account of every worker at every moment of every run, from the answers of its stage: a
   source or transform has offered its queue exactly what the stage returned, stamped and less
   schema errors, in order; a sink has consumed in order what it popped; and all four counters
   are counts of those answers.
   */
  lemma {:induction false} WorkersAccounted(c: Config, r: Run, n: nat, w: nat)
    requires IsRun(c, r) && n < |r.states| && w < |c.roles|
    ensures |r.states[n].workers| == |c.roles|
    ensures Accounted(c, c.roles[w], r.states[n].workers[w], Yields(r, w, n), Throws(r, w, n))
    decreases n, 1
  {
    if n == 0 {
      AccountedInit(c, c.roles[w]);
    } else {
      AccountedAfter(c, r, n - 1, w);
    }
  }

  lemma AnswersGrow(r: Run, w: nat, i: nat)
    requires i < |r.labels|
    ensures Yields(r, w, i + 1) == MoreYields(Yields(r, w, i), AnswerAt(r.labels[i], w))
    ensures Throws(r, w, i + 1) == Throws(r, w, i) + if AnswerAt(r.labels[i], w).Throw? then 1 else 0
  {
    assert Yields(r, w, i) + [] == Yields(r, w, i);
  }

  lemma {:induction false} AccountedAfter(c: Config, r: Run, i: nat, w: nat)
    requires IsRun(c, r) && i < |r.labels| && w < |c.roles|
    ensures |r.states[i + 1].workers| == |c.roles|
    ensures Accounted(c, c.roles[w], r.states[i + 1].workers[w], Yields(r, w, i + 1), Throws(r, w, i + 1))
    decreases i + 1, 0
  {
    WorkersAccounted(c, r, i, w);
    ReachedStep(c, r, i);
    AnswersGrow(r, w, i);
    AccountedStep(c, r.states[i], r.labels[i], r.states[i + 1], w, Yields(r, w, i), Throws(r, w, i));
  }

  // ---------------------------------------------------------------- among arbitrary neighbours

  /** What its stage answered a runner that was carried through these moves. */
  function AnswersIn(c: Config, w: nat, ms: seq<Move>): seq<Outcome>
    requires ValidConfig(c) && w < |c.roles| && AllMovable(c, ms)
  {
    if ms == [] then []
    else
      var before, m := ms[..|ms| - 1], ms[|ms| - 1];
      var pc := Follow(c, Entry(c, w), w, before).workers[w].pc;
      AnswersIn(c, w, before) + if InStage(pc) && Answers(c.roles[w], m.outcome) then [m.outcome] else []
  }

  function YieldedIn(os: seq<Outcome>): seq<Payload>
  {
    if os == [] then [] else MoreYields(YieldedIn(os[..|os| - 1]), os[|os| - 1])
  }

  function ThrownIn(os: seq<Outcome>): nat
  {
    if os == [] then 0 else ThrownIn(os[..|os| - 1]) + if os[|os| - 1].Throw? then 1 else 0
  }

  lemma AnswersSnoc(os: seq<Outcome>, o: Outcome)
    ensures YieldedIn(os + [o]) == MoreYields(YieldedIn(os), o)
    ensures ThrownIn(os + [o]) == ThrownIn(os) + if o.Throw? then 1 else 0
  {
    assert (os + [o])[..|os|] == os;
  }

  /** Balanced, and accounted for by these answers of the stage. */
  predicate AccountedBy(c: Config, r: Role, x: Worker, os: seq<Outcome>)
    requires ValidConfig(c) && ValidRole(c, r)
  {
    Balanced(r, x) && Accounted(c, r, x, YieldedIn(os), ThrownIn(os))
  }

  /** One step of the runner, whatever the others left it. */
  lemma SteppedAccounted(c: Config, t: State, w: nat, o: Outcome, os: seq<Outcome>)
    requires Placed(c, t) && w < |c.roles| && AccountedBy(c, c.roles[w], t.workers[w], os)
    ensures AccountedBy(c, c.roles[w], Stepped(c, t, w, o).workers[w],
                        if InStage(t.workers[w].pc) && Answers(c.roles[w], o) then os + [o] else os)
  {
    AnswerPossible(c.roles[w], t.workers[w].pc, o);
    if Moves(c, t, w, o) {
      MovedAccounted(c, t, w, o, os);
    }
  }

  lemma MovedAccounted(c: Config, t: State, w: nat, o: Outcome, os: seq<Outcome>)
    requires Placed(c, t) && w < |c.roles| && AccountedBy(c, c.roles[w], t.workers[w], os) && Moves(c, t, w, o)
    ensures AccountedBy(c, c.roles[w], Stepped(c, t, w, o).workers[w],
                        if InStage(t.workers[w].pc) && Answers(c.roles[w], o) then os + [o] else os)
  {
    var now := OutcomeAt(t.workers[w].pc, o);
    AnswersSnoc(os, o);
    AnswerPossible(c.roles[w], t.workers[w].pc, o);
    WorkBalanced(c, t, w, now);
    WorkIsActs(c, t, w, now);
    AccountedWork(c, t, w, now, YieldedIn(os), ThrownIn(os));
  }

  lemma AnswerPossible(r: Role, pc: Pc, o: Outcome)
    requires Fits(r, pc)
    ensures InStage(pc) ==> (PossibleOutcome(pc, o) <==> Answers(r, o))
    ensures !InStage(pc) ==> OutcomeAt(pc, o) == Plain
  {
  }

  /**
   The same account for a runner by itself, whatever flag, queues and payloads it meets: a payload
   of a wrong schema costs one error and never reaches the stage, and every other does.
   */
  lemma {:induction false} RunnerAccounted(c: Config, w: nat, ms: seq<Move>)
    requires ValidConfig(c) && w < |c.roles| && AllMovable(c, ms)
    ensures AccountedBy(c, c.roles[w], Follow(c, Entry(c, w), w, ms).workers[w], AnswersIn(c, w, ms))
    decreases |ms|, 1
  {
    if ms == [] {
      AccountedInit(c, c.roles[w]);
      AccountedStart(c, c.roles[w], FRESH_WORKER, [], 0);
    } else {
      AccountedMove(c, w, ms[..|ms| - 1], ms[|ms| - 1]);
      assert ms == ms[..|ms| - 1] + [ms[|ms| - 1]];
    }
  }

  lemma OneMoreMove(c: Config, w: nat, ms: seq<Move>, m: Move)
    requires ValidConfig(c) && w < |c.roles| && AllMovable(c, ms) && Movable(c, m)
    ensures AllMovable(c, ms + [m])
    ensures var t := Disturb(Follow(c, Entry(c, w), w, ms), m);
            && Placed(c, t) && t.workers[w] == Follow(c, Entry(c, w), w, ms).workers[w]
            && Follow(c, Entry(c, w), w, ms + [m]) == Stepped(c, t, w, m.outcome)
            && AnswersIn(c, w, ms + [m])
               == if InStage(t.workers[w].pc) && Answers(c.roles[w], m.outcome) then AnswersIn(c, w, ms) + [m.outcome]
                  else AnswersIn(c, w, ms)
  {
    assert (ms + [m])[..|ms|] == ms;
  }

  lemma {:induction false} AccountedMove(c: Config, w: nat, ms: seq<Move>, m: Move)
    requires ValidConfig(c) && w < |c.roles| && AllMovable(c, ms) && Movable(c, m)
    ensures AllMovable(c, ms + [m])
    ensures AccountedBy(c, c.roles[w], Follow(c, Entry(c, w), w, ms + [m]).workers[w], AnswersIn(c, w, ms + [m]))
    decreases |ms|, 2
  {
    RunnerAccounted(c, w, ms);
    OneMoreMove(c, w, ms, m);
    SteppedAccounted(c, Disturb(Follow(c, Entry(c, w), w, ms), m), w, m.outcome, AnswersIn(c, w, ms));
  }
}
