/**
 The whole flow with its waits at the level of condition variables.  A worker at a push or pop
 whose guard is false goes to sleep and cannot move until it is notified or wakes spuriously;
 stop alone wakes nobody.  On each queue every step is a locked section of CondQueue or nothing,
 so no wakeup is lost, and the flow is never stuck before run has returned.
 */
module SleepingFlow {
  import opened Payloads
  import opened Pipeline
  import opened PipelineSafety
  import opened PipelineLiveness
  import opened CondQueue

  /** A state of the flow, the workers that sleep un-notified, and those notified and yet to run. */
  datatype Deep = Deep(s: State, asleep: set<nat>, woken: set<nat>)

  datatype DeepLabel =
    | Took(l: Label, pick: nat)    // a step of the flow; pick is whom notify_one would wake
    | Slept(w: nat)                // a push or pop finds its guard false
    | Spurious(w: nat)

  predicate PopsFrom(c: Config, s: State, w: nat, q: nat)
  {
    w < |s.workers| && s.workers[w].pc.AtPop? && Reads(c, w, q)
  }

  predicate PushesTo(c: Config, s: State, w: nat, q: nat)
  {
    w < |s.workers| && s.workers[w].pc.AtPush? && Writes(c, w, q)
  }

  function PopWaiters(c: Config, s: State, ws: set<nat>, q: nat): set<nat>
  {
    set w | w in ws && PopsFrom(c, s, w, q)
  }

  function PushWaiters(c: Config, s: State, ws: set<nat>, q: nat): map<nat, Payload>
  {
    map w | w in ws && PushesTo(c, s, w, q) :: s.workers[w].pc.hand
  }

  /** One queue of the flow with its waiters. */
  function Slice(c: Config, d: Deep, q: nat): CondState<Payload>
    requires Shaped(c, d.s) && q < |c.queues|
  {
    var queue := d.s.queues[q];
    CondState(c.queues[q].capacity, queue.items, queue.closed, d.s.stop,
              PopWaiters(c, d.s, d.asleep, q), PopWaiters(c, d.s, d.woken, q),
              PushWaiters(c, d.s, d.asleep, q), PushWaiters(c, d.s, d.woken, q))
  }

  /** Those who sleep on a queue, on either condition variable. */
  function Sleepers(c: Config, d: Deep, q: nat): set<nat>
  {
    set w | w in d.asleep && (PopsFrom(c, d.s, w, q) || PushesTo(c, d.s, w, q))
  }

  /** notify_one: any one of them, if there is one. */
  predicate OneOf(sleepers: set<nat>, pick: nat, n: set<nat>)
  {
    if sleepers == {} then n == {} else pick in sleepers && n == {pick}
  }

  /** Whom a step of the flow notifies. */
  ghost predicate Notifies(c: Config, d: Deep, l: Label, pick: nat, n: set<nat>)
    requires Placed(c, d.s)
  {
    match l
    case Worked(w, o) =>
      && w < |c.roles| && CanWork(c, d.s, w) && PossibleOutcome(d.s.workers[w].pc, o)
      && (match Act(c, d.s, w, o).1
          case Enqueue(_) => OneOf(PopWaiters(c, d.s, d.asleep, c.roles[w].outq), pick, n)
          case Dequeue => OneOf(PushWaiters(c, d.s, d.asleep, c.roles[w].inq).Keys, pick, n)
          case CloseInput => n == Sleepers(c, d, c.roles[w].inq)
          case CloseOutput => n == Sleepers(c, d, c.roles[w].outq)
          case _ => n == {})
    case Mained =>
      if d.s.main.Closing? && d.s.main.next < |d.s.queues| then n == Sleepers(c, d, d.s.main.next) else n == {}
    case _ => n == {}
  }

  predicate Waits(pc: Pc)
  {
    pc.AtPop? || pc.AtPush?
  }

  ghost predicate DeepNext(c: Config, d: Deep, l: DeepLabel, d': Deep)
    requires Placed(c, d.s)
  {
    match l
    case Took(l, pick) =>
      && Next(c, d.s, l, d'.s)
      && (l.Worked? ==> l.w !in d.asleep)
      && exists n :: Notifies(c, d, l, pick, n)
           && d'.asleep == d.asleep - n
           && d'.woken == (if l.Worked? then d.woken - {l.w} else d.woken) + n
    case Slept(w) =>
      && w < |c.roles| && w !in d.asleep && Waits(d.s.workers[w].pc) && !CanWork(c, d.s, w)
      && d' == d.(asleep := d.asleep + {w}, woken := d.woken - {w})
    case Spurious(w) =>
      w in d.asleep && d' == d.(asleep := d.asleep - {w}, woken := d.woken + {w})
  }

  // ---------------------------------------------------------------- each queue is a CondQueue

  /** Sleeping and notified workers are inside a push or a pop. */
  ghost predicate Waiting(c: Config, d: Deep)
  {
    && Shaped(c, d.s)
    && d.asleep !! d.woken
    && (forall w :: w in d.asleep || w in d.woken ==> w < |c.roles| && Waits(d.s.workers[w].pc))
  }

  /** What a step means for one queue: one locked section on it, or nothing. */
  ghost predicate SectionOrNothing(a: CondState<Payload>, b: CondState<Payload>)
  {
    b == a || exists l :: CondEnabled(a, l) && b == CondNext(a, l)
  }

  lemma PopJoin(c: Config, s: State, ws: set<nat>, w: nat, q: nat)
    ensures PopWaiters(c, s, ws + {w}, q) == PopWaiters(c, s, ws, q) + (if PopsFrom(c, s, w, q) then {w} else {})
    ensures PopWaiters(c, s, ws - {w}, q) == PopWaiters(c, s, ws, q) - {w}
    ensures !PopsFrom(c, s, w, q) ==> w !in PopWaiters(c, s, ws, q)
  {
  }

  lemma PushJoin(c: Config, s: State, ws: set<nat>, w: nat, q: nat)
    ensures PushWaiters(c, s, ws + {w}, q)
            == if PushesTo(c, s, w, q) then PushWaiters(c, s, ws, q)[w := s.workers[w].pc.hand] else PushWaiters(c, s, ws, q)
    ensures PushWaiters(c, s, ws - {w}, q) == PushWaiters(c, s, ws, q) - {w}
    ensures !PushesTo(c, s, w, q) ==> w !in PushWaiters(c, s, ws, q)
  {
  }

  lemma DropAbsent<T>(m: map<nat, T>, w: nat)
    requires w !in m
    ensures m - {w} == m
  {
  }

  lemma SleepIsSection(c: Config, d: Deep, w: nat, q: nat)
    requires Placed(c, d.s) && d.asleep !! d.woken && q < |c.queues|
    requires w < |c.roles| && w !in d.asleep && Waits(d.s.workers[w].pc) && !CanWork(c, d.s, w)
    ensures SectionOrNothing(Slice(c, d, q), Slice(c, d.(asleep := d.asleep + {w}, woken := d.woken - {w}), q))
  {
    var a, b := Slice(c, d, q), Slice(c, d.(asleep := d.asleep + {w}, woken := d.woken - {w}), q);
    PopJoin(c, d.s, d.asleep, w, q);
    PopJoin(c, d.s, d.woken, w, q);
    PushJoin(c, d.s, d.asleep, w, q);
    PushJoin(c, d.s, d.woken, w, q);
    if PopsFrom(c, d.s, w, q) {
      PopSleeps(a, b, w, w in d.woken);
    } else if PushesTo(c, d.s, w, q) {
      PushSleeps(a, b, w, d.s.workers[w].pc.hand, w in d.woken);
    } else {
      DropAbsent(PushWaiters(c, d.s, d.woken, q), w);
    }
  }

  lemma PopSleeps(a: CondState<Payload>, b: CondState<Payload>, w: nat, woken: bool)
    requires !PopReady(a) && w !in a.sleepPop && (woken <==> w in a.wokenPop)
    requires w !in a.wokenPush && w !in a.sleepPush
    requires b == a.(sleepPop := a.sleepPop + {w}, wokenPop := a.wokenPop - {w}, wokenPush := b.wokenPush)
    requires b.wokenPush == a.wokenPush - {w}
    ensures SectionOrNothing(a, b)
  {
    var pick: nat := if k :| k in a.sleepPush then k else 0;
    var l := if woken then ResumePop(w, pick) else EnterPop(w, pick);
    DropAbsent(a.wokenPush, w);
    assert !woken ==> a.wokenPop - {w} == a.wokenPop;
    assert CondEnabled(a, l) && b == CondNext(a, l);
  }

  lemma PushSleeps(a: CondState<Payload>, b: CondState<Payload>, w: nat, p: Payload, woken: bool)
    requires !PushReady(a) && w !in a.sleepPush && (woken <==> w in a.wokenPush) && (woken ==> a.wokenPush[w] == p)
    requires w !in a.wokenPop && w !in a.sleepPop
    requires b == a.(sleepPush := a.sleepPush[w := p], wokenPush := a.wokenPush - {w}, wokenPop := b.wokenPop)
    requires b.wokenPop == a.wokenPop - {w}
    ensures SectionOrNothing(a, b)
  {
    var pick: nat := if k :| k in a.sleepPop then k else 0;
    var l := if woken then ResumePush(w, pick) else EnterPush(w, p, pick);
    assert a.wokenPop - {w} == a.wokenPop;
    if !woken {
      DropAbsent(a.wokenPush, w);
    }
    assert CondEnabled(a, l) && b == CondNext(a, l);
  }

  lemma SpuriousIsSection(c: Config, d: Deep, w: nat, q: nat)
    requires Placed(c, d.s) && d.asleep !! d.woken && q < |c.queues| && w in d.asleep
    ensures SectionOrNothing(Slice(c, d, q), Slice(c, d.(asleep := d.asleep - {w}, woken := d.woken + {w}), q))
  {
    var a, b := Slice(c, d, q), Slice(c, d.(asleep := d.asleep - {w}, woken := d.woken + {w}), q);
    PopJoin(c, d.s, d.asleep, w, q);
    PopJoin(c, d.s, d.woken, w, q);
    PushJoin(c, d.s, d.asleep, w, q);
    PushJoin(c, d.s, d.woken, w, q);
    if PopsFrom(c, d.s, w, q) {
      DropAbsent(PushWaiters(c, d.s, d.asleep, q), w);
      assert CondEnabled(a, SpuriousPop(w)) && b == CondNext(a, SpuriousPop(w));
    } else if PushesTo(c, d.s, w, q) {
      assert a.sleepPop - {w} == a.sleepPop;
      assert CondEnabled(a, SpuriousPush(w)) && b == CondNext(a, SpuriousPush(w));
    } else {
      DropAbsent(PushWaiters(c, d.s, d.asleep, q), w);
    }
  }

  // ---------------------------------------------------------------- the steps of the flow

  /** Waking n leaves those who wait elsewhere alone. */
  lemma PopNotified(c: Config, s: State, asleep: set<nat>, woken: set<nat>, n: set<nat>, q: nat)
    requires n <= asleep
    ensures PopWaiters(c, s, asleep - n, q) == PopWaiters(c, s, asleep, q) - PopWaiters(c, s, n, q)
    ensures PopWaiters(c, s, woken + n, q) == PopWaiters(c, s, woken, q) + PopWaiters(c, s, n, q)
  {
  }

  lemma PushNotified(c: Config, s: State, asleep: set<nat>, woken: set<nat>, n: set<nat>, q: nat)
    requires n <= asleep
    ensures PushWaiters(c, s, asleep - n, q) == PushWaiters(c, s, asleep, q) - PushWaiters(c, s, n, q).Keys
    ensures PushWaiters(c, s, woken + n, q) == PushWaiters(c, s, woken, q) + PushWaiters(c, s, n, q)
  {
  }

  /** Waiters other than w are as they were when only worker w has moved. */
  lemma SameWaiters(c: Config, s: State, s': State, w: nat, ws: set<nat>, q: nat)
    requires |s'.workers| == |s.workers| && w !in ws
    requires forall v :: 0 <= v < |s.workers| && v != w ==> s'.workers[v] == s.workers[v]
    ensures PopWaiters(c, s', ws, q) == PopWaiters(c, s, ws, q)
    ensures PushWaiters(c, s', ws, q) == PushWaiters(c, s, ws, q)
  {
  }

  /** The slice after a step that woke n and after which worker w, if it waited, does not any more. */
  function Woken(a: CondState<Payload>, s': State, q: nat, w: nat, pops: set<nat>, pushes: map<nat, Payload>): CondState<Payload>
    requires q < |s'.queues|
  {
    CondState(a.capacity, s'.queues[q].items, s'.queues[q].closed, s'.stop,
              a.sleepPop - pops, (a.wokenPop - {w}) + pops,
              a.sleepPush - pushes.Keys, (a.wokenPush - {w}) + pushes)
  }

  lemma SliceAfter(c: Config, d: Deep, s': State, w: nat, n: set<nat>, q: nat)
    requires Shaped(c, d.s) && Shaped(c, s') && q < |c.queues| && n <= d.asleep && w !in d.asleep
    requires forall v :: 0 <= v < |s'.workers| && v != w ==> s'.workers[v] == d.s.workers[v]
    ensures Slice(c, Deep(s', d.asleep - n, (d.woken - {w}) + n), q)
            == Woken(Slice(c, d, q), s', q, w, PopWaiters(c, d.s, n, q), PushWaiters(c, d.s, n, q))
  {
    SameWaiters(c, d.s, s', w, d.asleep - n, q);
    SameWaiters(c, d.s, s', w, (d.woken - {w}) + n, q);
    PopNotified(c, d.s, d.asleep, d.woken - {w}, n, q);
    PushNotified(c, d.s, d.asleep, d.woken - {w}, n, q);
    PopJoin(c, d.s, d.woken, w, q);
    PushJoin(c, d.s, d.woken, w, q);
  }

  /** A pop that finds its guard true. */
  lemma PopPasses(a: CondState<Payload>, b: CondState<Payload>, w: nat, pick: nat, pops: set<nat>, pushes: map<nat, Payload>)
    requires PopReady(a) && w !in a.sleepPop && w !in a.wokenPush
    requires pops == {} && pushes.Keys <= a.sleepPush.Keys && forall v :: v in pushes ==> pushes[v] == a.sleepPush[v]
    requires if a.items != [] then OneOf(a.sleepPush.Keys, pick, pushes.Keys) else pushes == map[]
    requires b == CondState(a.capacity, if a.items != [] then a.items[1..] else a.items, a.closed, a.stop,
                            a.sleepPop - pops, (a.wokenPop - {w}) + pops,
                            a.sleepPush - pushes.Keys, (a.wokenPush - {w}) + pushes)
    ensures SectionOrNothing(a, b)
  {
    var k: nat := if a.items != [] then pick else if v :| v in a.sleepPush then v else 0;
    var l := if w in a.wokenPop then ResumePop(w, k) else EnterPop(w, k);
    DropAbsent(a.wokenPush, w);
    assert w !in a.wokenPop ==> a.wokenPop - {w} == a.wokenPop;
    if pushes == map[] {
      assert a.sleepPush - pushes.Keys == a.sleepPush && a.wokenPush + pushes == a.wokenPush;
      assert a.items != [] ==> a.sleepPush == map[];
    } else {
      assert a.wokenPush + pushes == a.wokenPush[pick := a.sleepPush[pick]];
    }
    assert CondEnabled(a, l) && b == CondNext(a, l);
  }

  /** A push that finds its guard true. */
  lemma PushPasses(a: CondState<Payload>, b: CondState<Payload>, w: nat, p: Payload, pick: nat,
                   pops: set<nat>, pushes: map<nat, Payload>)
    requires PushReady(a) && w !in a.sleepPush && w !in a.wokenPop && (w in a.wokenPush ==> a.wokenPush[w] == p)
    requires pushes == map[] && pops <= a.sleepPop
    requires if !a.stop && !a.closed then OneOf(a.sleepPop, pick, pops) else pops == {}
    requires b == CondState(a.capacity, if !a.stop && !a.closed then a.items + [p] else a.items, a.closed, a.stop,
                            a.sleepPop - pops, (a.wokenPop - {w}) + pops,
                            a.sleepPush - pushes.Keys, (a.wokenPush - {w}) + pushes)
    ensures SectionOrNothing(a, b)
  {
    var k: nat := if !a.stop && !a.closed then pick else if v :| v in a.sleepPop then v else 0;
    var l := if w in a.wokenPush then ResumePush(w, k) else EnterPush(w, p, k);
    assert a.wokenPop - {w} == a.wokenPop;
    if w !in a.wokenPush {
      DropAbsent(a.wokenPush, w);
    }
    assert a.sleepPush - pushes.Keys == a.sleepPush && (a.wokenPush - {w}) + pushes == a.wokenPush - {w};
    assert CondEnabled(a, l) && b == CondNext(a, l);
  }

  /** Closing wakes all who sleep on the queue. */
  lemma CloseWakes(a: CondState<Payload>, b: CondState<Payload>, w: nat)
    requires w !in a.wokenPop && w !in a.wokenPush
    requires b == CondState(a.capacity, a.items, true, a.stop,
                            a.sleepPop - a.sleepPop, (a.wokenPop - {w}) + a.sleepPop,
                            a.sleepPush - a.sleepPush.Keys, (a.wokenPush - {w}) + a.sleepPush)
    ensures SectionOrNothing(a, b)
  {
    DropAbsent(a.wokenPush, w);
    assert a.sleepPush - a.sleepPush.Keys == map[];
    assert CondEnabled(a, Close) && b == CondNext(a, Close);
  }

  /** A step elsewhere, that may set the stop flag. */
  lemma StopsOrNothing(a: CondState<Payload>, b: CondState<Payload>, w: nat)
    requires w !in a.wokenPop && w !in a.wokenPush && (a.stop ==> b.stop)
    requires b == CondState(a.capacity, a.items, a.closed, b.stop,
                            a.sleepPop - {}, (a.wokenPop - {w}) + {},
                            a.sleepPush - {}, (a.wokenPush - {w}) + map[])
    ensures SectionOrNothing(a, b)
  {
    DropAbsent(a.wokenPush, w);
    assert a.wokenPop - {w} + {} == a.wokenPop && a.sleepPush - {} == a.sleepPush && a.wokenPush + map[] == a.wokenPush;
    if b.stop {
      assert CondEnabled(a, Stop) && b == CondNext(a, Stop);
    }
  }

  /** What a worker's step does to one queue and to the flag. */
  lemma WorkOnQueue(c: Config, s: State, w: nat, o: Outcome, q: nat)
    requires Placed(c, s) && w < |c.roles| && CanWork(c, s, w) && PossibleOutcome(s.workers[w].pc, o) && q < |c.queues|
    ensures var e := Act(c, s, w, o).1;
            var s' := Work(c, s, w, o);
            && |s'.queues| == |s.queues|
            && s'.queues[q].items == (if e.Enqueue? && Writes(c, w, q) then s.queues[q].items + [e.item]
                                      else if e.Dequeue? && Reads(c, w, q) then s.queues[q].items[1..]
                                      else s.queues[q].items)
            && s'.queues[q].closed
               == (s.queues[q].closed || (e.CloseInput? && Reads(c, w, q)) || (e.CloseOutput? && Writes(c, w, q)))
            && s'.stop == (s.stop || e.Halt?)
  {
    var (x, e) := Act(c, s, w, o);
    ApplyOnQueue(c, s, w, e, q);
  }

  lemma ApplyOnQueue(c: Config, s: State, w: nat, e: Effect, q: nat)
    requires Placed(c, s) && w < |c.roles| && CanApply(c, s, w, e) && q < |c.queues|
    ensures var s' := Apply(c, s, w, e);
            && |s'.queues| == |s.queues|
            && s'.queues[q].items == (if e.Enqueue? && Writes(c, w, q) then s.queues[q].items + [e.item]
                                      else if e.Dequeue? && Reads(c, w, q) then s.queues[q].items[1..]
                                      else s.queues[q].items)
            && s'.queues[q].closed
               == (s.queues[q].closed || (e.CloseInput? && Reads(c, w, q)) || (e.CloseOutput? && Writes(c, w, q)))
            && s'.stop == (s.stop || e.Halt?)
  {
  }

  /** What a waiting worker's step does, and what it can notify. */
  lemma WaitingActs(c: Config, s: State, w: nat, o: Outcome)
    requires Placed(c, s) && w < |c.roles| && CanWork(c, s, w) && PossibleOutcome(s.workers[w].pc, o)
    ensures var e := Act(c, s, w, o).1;
            && (s.workers[w].pc.AtPop? ==> e == if s.queues[c.roles[w].inq].items != [] then Dequeue else Quiet)
            && (s.workers[w].pc.AtPush? ==>
                  e == if s.stop || s.queues[c.roles[w].outq].closed then Quiet else Enqueue(s.workers[w].pc.hand))
            && (!Waits(s.workers[w].pc) ==> !e.Enqueue? && !e.Dequeue?)
  {
  }

  /** A set of waiters of one kind on one queue has no others. */
  lemma WaitersOn(c: Config, s: State, asleep: set<nat>, q0: nat, n: set<nat>, q: nat)
    ensures n <= PopWaiters(c, s, asleep, q0) ==>
              && PushWaiters(c, s, n, q) == map[] && PopWaiters(c, s, n, q) == (if q == q0 then n else {})
    ensures n <= PushWaiters(c, s, asleep, q0).Keys ==>
              && PopWaiters(c, s, n, q) == {} && PushWaiters(c, s, n, q).Keys == (if q == q0 then n else {})
    ensures n == {} ==> PopWaiters(c, s, n, q) == {} && PushWaiters(c, s, n, q) == map[]
  {
  }

  lemma SleepersOn(c: Config, d: Deep, q0: nat, q: nat)
    ensures var n := Sleepers(c, d, q0);
            && n <= d.asleep
            && (q == q0 ==> PopWaiters(c, d.s, n, q) == PopWaiters(c, d.s, d.asleep, q)
                            && PushWaiters(c, d.s, n, q) == PushWaiters(c, d.s, d.asleep, q))
            && (q != q0 ==> PopWaiters(c, d.s, n, q) == {} && PushWaiters(c, d.s, n, q) == map[])
  {
  }

  lemma PopWork(c: Config, d: Deep, w: nat, o: Outcome, pick: nat, n: set<nat>, q: nat)
    requires Placed(c, d.s) && Waiting(c, d) && q < |c.queues| && w < |c.roles| && w !in d.asleep
    requires CanWork(c, d.s, w) && PossibleOutcome(d.s.workers[w].pc, o) && Notifies(c, d, Worked(w, o), pick, n)
    requires d.s.workers[w].pc.AtPop?
    requires Shaped(c, Work(c, d.s, w, o))
    ensures SectionOrNothing(Slice(c, d, q), Slice(c, Deep(Work(c, d.s, w, o), d.asleep - n, (d.woken - {w}) + n), q))
  {
    var s', q0 := Work(c, d.s, w, o), c.roles[w].inq;
    var a := Slice(c, d, q);
    WorkFramed(c, d.s, w, o);
    WaitingActs(c, d.s, w, o);
    WorkOnQueue(c, d.s, w, o, q);
    WaitersOn(c, d.s, d.asleep, q0, n, q);
    SliceAfter(c, d, s', w, n, q);
    var pops, pushes := PopWaiters(c, d.s, n, q), PushWaiters(c, d.s, n, q);
    if q == q0 {
      PopPasses(a, Woken(a, s', q, w, pops, pushes), w, pick, pops, pushes);
    } else {
      StopsOrNothing(a, Woken(a, s', q, w, pops, pushes), w);
    }
  }

  lemma PushWork(c: Config, d: Deep, w: nat, o: Outcome, pick: nat, n: set<nat>, q: nat)
    requires Placed(c, d.s) && Waiting(c, d) && q < |c.queues| && w < |c.roles| && w !in d.asleep
    requires CanWork(c, d.s, w) && PossibleOutcome(d.s.workers[w].pc, o) && Notifies(c, d, Worked(w, o), pick, n)
    requires d.s.workers[w].pc.AtPush?
    requires Shaped(c, Work(c, d.s, w, o))
    ensures SectionOrNothing(Slice(c, d, q), Slice(c, Deep(Work(c, d.s, w, o), d.asleep - n, (d.woken - {w}) + n), q))
  {
    var s', q0 := Work(c, d.s, w, o), c.roles[w].outq;
    var a := Slice(c, d, q);
    WorkFramed(c, d.s, w, o);
    WaitingActs(c, d.s, w, o);
    WorkOnQueue(c, d.s, w, o, q);
    WaitersOn(c, d.s, d.asleep, q0, n, q);
    SliceAfter(c, d, s', w, n, q);
    var pops, pushes := PopWaiters(c, d.s, n, q), PushWaiters(c, d.s, n, q);
    if q == q0 {
      PushPasses(a, Woken(a, s', q, w, pops, pushes), w, d.s.workers[w].pc.hand, pick, pops, pushes);
    } else {
      StopsOrNothing(a, Woken(a, s', q, w, pops, pushes), w);
    }
  }

  lemma OtherWork(c: Config, d: Deep, w: nat, o: Outcome, pick: nat, n: set<nat>, q: nat)
    requires Placed(c, d.s) && Waiting(c, d) && q < |c.queues| && w < |c.roles| && w !in d.asleep
    requires CanWork(c, d.s, w) && PossibleOutcome(d.s.workers[w].pc, o) && Notifies(c, d, Worked(w, o), pick, n)
    requires !Waits(d.s.workers[w].pc)
    requires Shaped(c, Work(c, d.s, w, o))
    ensures SectionOrNothing(Slice(c, d, q), Slice(c, Deep(Work(c, d.s, w, o), d.asleep - n, (d.woken - {w}) + n), q))
  {
    var s', e := Work(c, d.s, w, o), Act(c, d.s, w, o).1;
    var a := Slice(c, d, q);
    WorkFramed(c, d.s, w, o);
    WaitingActs(c, d.s, w, o);
    WorkOnQueue(c, d.s, w, o, q);
    var q0 := if e.CloseInput? then c.roles[w].inq else if e.CloseOutput? then c.roles[w].outq else 0;
    SliceAfter(c, d, s', w, n, q);
    ClosesOrStops(c, d, s', w, n, q, e.CloseInput? || e.CloseOutput?, q0);
  }

  /** The step of a thread that waits for nothing: it closes q0, or may set the stop flag. */
  lemma ClosesOrStops(c: Config, d: Deep, s': State, w: nat, n: set<nat>, q: nat, closes: bool, q0: nat)
    requires Shaped(c, d.s) && Shaped(c, s') && Waiting(c, d) && q < |c.queues| && w !in d.asleep && w !in d.woken
    requires n == if closes then Sleepers(c, d, q0) else {}
    requires s'.queues[q].items == d.s.queues[q].items
    requires s'.queues[q].closed == (d.s.queues[q].closed || (closes && q == q0))
    requires (d.s.stop ==> s'.stop) && (closes ==> s'.stop == d.s.stop)
    ensures SectionOrNothing(Slice(c, d, q),
                             Woken(Slice(c, d, q), s', q, w, PopWaiters(c, d.s, n, q), PushWaiters(c, d.s, n, q)))
  {
    var a := Slice(c, d, q);
    SleepersOn(c, d, q0, q);
    WaitersOn(c, d.s, d.asleep, q0, n, q);
    var b := Woken(a, s', q, w, PopWaiters(c, d.s, n, q), PushWaiters(c, d.s, n, q));
    if closes && q == q0 {
      CloseWakes(a, b, w);
    } else {
      StopsOrNothing(a, b, w);
    }
  }

  /** The worker that a step of main or a fault may change: the one being started, or none. */
  function Started(c: Config, s: State): nat
  {
    if s.main.Bumped? then s.spawned else |c.roles|
  }

  /** What a step that is no worker's does to one queue and to the flag. */
  lemma MainOnQueue(c: Config, s: State, l: Label, s': State, q: nat)
    requires Located(c, s) && Next(c, s, l, s') && !l.Worked? && q < |c.queues|
    ensures |s'.queues| == |s.queues| && |s'.workers| == |s.workers| && (s.stop ==> s'.stop)
    ensures forall v :: 0 <= v < |s.workers| && v != Started(c, s) ==> s'.workers[v] == s.workers[v]
    ensures s'.queues[q].items == s.queues[q].items
    ensures s'.queues[q].closed == (s.queues[q].closed || (l.Mained? && s.main.Closing? && s.main.next == q))
    ensures l.Mained? && s.main.Closing? && s.main.next == q ==> s'.stop == s.stop
  {
  }

  lemma MainWork(c: Config, d: Deep, l: Label, s': State, pick: nat, n: set<nat>, q: nat)
    requires Located(c, d.s) && Waiting(c, d) && q < |c.queues| && !l.Worked? && Next(c, d.s, l, s')
    requires Notifies(c, d, l, pick, n) && Shaped(c, s')
    ensures SectionOrNothing(Slice(c, d, q), Slice(c, Deep(s', d.asleep - n, d.woken + n), q))
  {
    var w := Started(c, d.s);
    MainOnQueue(c, d.s, l, s', q);
    assert w !in d.asleep && w !in d.woken;
    assert d.woken - {w} == d.woken;
    var closes := l.Mained? && d.s.main.Closing? && d.s.main.next < |d.s.queues|;
    var q0 := if closes then d.s.main.next else 0;
    NotifiesSleepers(c, d, l, pick, n);
    SliceAfter(c, d, s', w, n, q);
    ClosesOrStops(c, d, s', w, n, q, closes, q0);
  }

  lemma NotifiesSleepers(c: Config, d: Deep, l: Label, pick: nat, n: set<nat>)
    requires Placed(c, d.s) && Notifies(c, d, l, pick, n)
    ensures n <= d.asleep
  {
  }

  /** After a step all who sleep or were notified are still at their push or pop. */
  lemma WaitingTook(c: Config, d: Deep, l: Label, pick: nat, d': Deep)
    requires Located(c, d.s) && Waiting(c, d) && DeepNext(c, d, Took(l, pick), d')
    ensures Waiting(c, d')
  {
    LocatedStep(c, d.s, l, d'.s);
    var n :| Notifies(c, d, l, pick, n) && d'.asleep == d.asleep - n
             && d'.woken == (if l.Worked? then d.woken - {l.w} else d.woken) + n;
    NotifiesSleepers(c, d, l, pick, n);
    match l
    case Worked(w, o) => WorkFramed(c, d.s, w, o);
    case _ => OtherManaged(c, d.s, l, d'.s);
  }

  lemma TookIsSection(c: Config, d: Deep, l: Label, pick: nat, d': Deep, q: nat)
    requires Located(c, d.s) && Waiting(c, d) && DeepNext(c, d, Took(l, pick), d') && q < |c.queues| && Shaped(c, d'.s)
    ensures SectionOrNothing(Slice(c, d, q), Slice(c, d', q))
  {
    var n :| Notifies(c, d, l, pick, n) && d'.asleep == d.asleep - n
             && d'.woken == (if l.Worked? then d.woken - {l.w} else d.woken) + n;
    match l
    case Worked(w, o) =>
      assert d' == Deep(Work(c, d.s, w, o), d.asleep - n, (d.woken - {w}) + n);
      if d.s.workers[w].pc.AtPop? {
        PopWork(c, d, w, o, pick, n, q);
      } else if d.s.workers[w].pc.AtPush? {
        PushWork(c, d, w, o, pick, n, q);
      } else {
        OtherWork(c, d, w, o, pick, n, q);
      }
    case _ =>
      assert d' == Deep(d'.s, d.asleep - n, d.woken + n);
      MainWork(c, d, l, d'.s, pick, n, q);
  }

  /** Every step of the flow is, on each of its queues, one locked section or nothing. */
  lemma StepIsSection(c: Config, d: Deep, l: DeepLabel, d': Deep, q: nat)
    requires Located(c, d.s) && Waiting(c, d) && DeepNext(c, d, l, d') && q < |c.queues|
    ensures Waiting(c, d') && SectionOrNothing(Slice(c, d, q), Slice(c, d', q))
  {
    match l
    case Took(l, pick) =>
      WaitingTook(c, d, l, pick, d');
      TookIsSection(c, d, l, pick, d', q);
    case Slept(w) => SleepIsSection(c, d, w, q);
    case Spurious(w) => SpuriousIsSection(c, d, w, q);
  }

  // ---------------------------------------------------------------- runs

  datatype DeepRun = DeepRun(states: seq<Deep>, labels: seq<DeepLabel>)

  ghost predicate DeepStepAt(c: Config, r: DeepRun, i: nat)
    requires i < |r.labels| && |r.states| == |r.labels| + 1
  {
    Placed(c, r.states[i].s) && DeepNext(c, r.states[i], r.labels[i], r.states[i + 1])
  }

  ghost predicate IsDeepRun(c: Config, r: DeepRun)
  {
    && ValidConfig(c)
    && |r.states| == |r.labels| + 1
    && r.states[0] == Deep(Init(c), {}, {})
    && (forall i :: 0 <= i < |r.labels| ==> DeepStepAt(c, r, i))
  }

  /** What holds in every state of every such run. */
  ghost predicate DeepInv(c: Config, d: Deep)
  {
    && Reached(c, d.s) && Waiting(c, d)
    && forall q :: 0 <= q < |c.queues| ==> NoLostWakeup(Slice(c, d, q))
  }

  lemma ReachedNext(c: Config, s: State, l: Label, s': State)
    requires Reached(c, s) && Placed(c, s) && Next(c, s, l, s')
    ensures Reached(c, s')
  {
    var r: Run, n: nat :| IsRun(c, r) && n < |r.states| && r.states[n] == s;
    var longer := Run(r.states[..n + 1] + [s'], r.labels[..n] + [l]);
    forall i | 0 <= i < |longer.labels|
      ensures StepAt(c, longer, i)
    {
      if i < n {
        assert StepAt(c, r, i);
        assert longer.states[i] == r.states[i] && longer.states[i + 1] == r.states[i + 1] && longer.labels[i] == r.labels[i];
      }
    }
    assert IsRun(c, longer) && longer.states[n + 1] == s';
  }

  lemma SectionKeeps(a: CondState<Payload>, b: CondState<Payload>)
    requires NoLostWakeup(a) && SectionOrNothing(a, b)
    ensures NoLostWakeup(b)
  {
    if b != a {
      var l :| CondEnabled(a, l) && b == CondNext(a, l);
      CondKeeps(a, l);
    }
  }

  lemma DeepInit(c: Config)
    requires ValidConfig(c)
    ensures DeepInv(c, Deep(Init(c), {}, {}))
  {
    var r := Run([Init(c)], []);
    assert IsRun(c, r) && r.states[0] == Init(c);
  }

  lemma DeepKeeps(c: Config, d: Deep, l: DeepLabel, d': Deep)
    requires DeepInv(c, d) && Placed(c, d.s) && DeepNext(c, d, l, d')
    ensures DeepInv(c, d')
  {
    ReachedInv(c, d.s);
    if l.Took? {
      ReachedNext(c, d.s, l.l, d'.s);
    }
    WaitingKeeps(c, d, l, d');
    forall q | 0 <= q < |c.queues|
      ensures NoLostWakeup(Slice(c, d', q))
    {
      StepIsSection(c, d, l, d', q);
      SectionKeeps(Slice(c, d, q), Slice(c, d', q));
    }
  }

  lemma WaitingKeeps(c: Config, d: Deep, l: DeepLabel, d': Deep)
    requires Located(c, d.s) && Waiting(c, d) && DeepNext(c, d, l, d')
    ensures Waiting(c, d')
  {
    match l
    case Took(l, pick) => WaitingTook(c, d, l, pick, d');
    case _ =>
  }

  /** In every run of the whole flow no wakeup is lost on any queue. */
  lemma {:induction false} DeepRunInv(c: Config, r: DeepRun, n: nat)
    requires IsDeepRun(c, r) && n < |r.states|
    ensures DeepInv(c, r.states[n])
    decreases n, 1
  {
    if n == 0 {
      DeepInit(c);
    } else {
      DeepRunAfter(c, r, n - 1);
    }
  }

  lemma {:induction false} DeepRunAfter(c: Config, r: DeepRun, i: nat)
    requires IsDeepRun(c, r) && i < |r.labels|
    ensures DeepInv(c, r.states[i + 1])
    decreases i + 1, 0
  {
    DeepRunInv(c, r, i);
    assert DeepStepAt(c, r, i);
    DeepKeeps(c, r.states[i], r.labels[i], r.states[i + 1]);
  }

  // ---------------------------------------------------------------- progress

  /** Some thread that is not asleep can take a step of the flow. */
  ghost predicate AwakeCanMove(c: Config, d: Deep)
    requires Placed(c, d.s)
  {
    CanMain(c, d.s) || exists w :: 0 <= w < |c.roles| && w !in d.asleep && CanWork(c, d.s, w)
  }

  lemma AwakeToPop(c: Config, d: Deep, w: nat)
    requires DeepInv(c, d) && Placed(c, d.s) && w in d.asleep && w < |c.roles| && CanWork(c, d.s, w)
    requires d.s.workers[w].pc.AtPop? && !d.s.stop
    ensures AwakeCanMove(c, d)
  {
    var q := c.roles[w].inq;
    var a := Slice(c, d, q);
    assert NoLostWakeup(a) && w in a.sleepPop;
    assert a.wokenPop != {};
    var v :| v in a.wokenPop;
    assert CanWork(c, d.s, v);
  }

  lemma AwakeToPush(c: Config, d: Deep, w: nat)
    requires DeepInv(c, d) && Placed(c, d.s) && w in d.asleep && w < |c.roles| && CanWork(c, d.s, w)
    requires d.s.workers[w].pc.AtPush? && !d.s.stop
    ensures AwakeCanMove(c, d)
  {
    var q := c.roles[w].outq;
    var a := Slice(c, d, q);
    assert NoLostWakeup(a) && w in a.sleepPush;
    assert a.wokenPush.Keys != {};
    var v :| v in a.wokenPush.Keys;
    assert CanWork(c, d.s, v);
  }

  /** What main has closed by the time it is where it is. */
  predicate ClosedBehind(s: State)
  {
    match s.main
    case Closing(j, _) => forall q :: 0 <= q < |s.queues| && q < j ==> s.queues[q].closed
    case Joining(_, _) => forall q :: 0 <= q < |s.queues| ==> s.queues[q].closed
    case ShuttingDown(_) => forall q :: 0 <= q < |s.queues| ==> s.queues[q].closed
    case Finished(_) => forall q :: 0 <= q < |s.queues| ==> s.queues[q].closed
    case _ => true
  }

  lemma ClosedStep(c: Config, s: State, l: Label, s': State)
    requires Located(c, s) && ClosedBehind(s) && Next(c, s, l, s')
    ensures ClosedBehind(s')
  {
    match l
    case Worked(w, o) => WorkFramed(c, s, w, o);
    case Mained => ClosedMain(c, s);
    case Failed(_) =>
    case Interrupted =>
  }

  lemma ClosedMain(c: Config, s: State)
    requires Located(c, s) && ClosedBehind(s) && CanMain(c, s)
    ensures ClosedBehind(Main(c, s))
  {
  }

  lemma {:induction false} ClosedRun(c: Config, r: Run, n: nat)
    requires IsRun(c, r) && n < |r.states|
    ensures ClosedBehind(r.states[n])
    decreases n, 1
  {
    if n > 0 {
      ClosedAfter(c, r, n - 1);
    }
  }

  lemma {:induction false} ClosedAfter(c: Config, r: Run, i: nat)
    requires IsRun(c, r) && i < |r.labels|
    ensures ClosedBehind(r.states[i + 1])
    decreases i + 1, 0
  {
    ClosedRun(c, r, i);
    RunInv(c, r, i);
    RunStep(c, r, i);
    ClosedStep(c, r.states[i], r.labels[i], r.states[i + 1]);
  }

  /** Whoever sleeps, sleeps on an open queue. */
  lemma SleepsOnOpen(c: Config, d: Deep, w: nat)
    requires DeepInv(c, d) && Placed(c, d.s) && w in d.asleep
    ensures exists q :: 0 <= q < |d.s.queues| && !d.s.queues[q].closed
  {
    var q := if d.s.workers[w].pc.AtPop? then c.roles[w].inq else c.roles[w].outq;
    assert NoLostWakeup(Slice(c, d, q));
    assert w in Slice(c, d, q).sleepPop || w in Slice(c, d, q).sleepPush;
    assert !d.s.queues[q].closed;
  }

  /** On closed queues nobody sleeps. */
  lemma AllClosedNoneAsleep(c: Config, d: Deep)
    requires DeepInv(c, d) && Placed(c, d.s) && forall q :: 0 <= q < |d.s.queues| ==> d.s.queues[q].closed
    ensures d.asleep == {}
  {
    forall w | w in d.asleep
      ensures false
    {
      SleepsOnOpen(c, d, w);
    }
  }

  /**
   In any mode, from the request to stop on and whenever main is not just waiting for it, some
   thread that is awake can move until run has returned.
   */
  lemma StoppedFlowMoves(c: Config, r: DeepRun, n: nat)
    requires IsDeepRun(c, r) && n < |r.states|
    requires r.states[n].s.stop || !r.states[n].s.main.Monitor?
    ensures Placed(c, r.states[n].s)
    ensures AwakeCanMove(c, r.states[n]) <==> !r.states[n].s.main.Finished?
  {
    DeepRunInv(c, r, n);
    StoppedDeepMoves(c, r.states[n]);
  }

  lemma StoppedDeepMoves(c: Config, d: Deep)
    requires DeepInv(c, d) && (d.s.stop || !d.s.main.Monitor?)
    ensures Placed(c, d.s)
    ensures AwakeCanMove(c, d) <==> !d.s.main.Finished?
  {
    var r: Run, n: nat :| IsRun(c, r) && n < |r.states| && r.states[n] == d.s;
    ClosedRun(c, r, n);
    ReachedInv(c, d.s);
    StoppedMoves(c, d.s);
    if d.s.main.Joining? || d.s.main.Finished? {
      AllClosedNoneAsleep(c, d);
    }
  }

  /**
   Deadlock freedom with sleeping threads: in a job over an acyclic, fully wired flow, in every
   reachable state, some thread that is not asleep can move until run has returned, and none after.
   */
  lemma SleepingJobNeverStuck(c: Config, level: seq<nat>, r: DeepRun, n: nat)
    requires IsDeepRun(c, r) && n < |r.states|
    requires c.job && FullyWired(c) && Acyclic(c, level)
    ensures Placed(c, r.states[n].s)
    ensures AwakeCanMove(c, r.states[n]) <==> !r.states[n].s.main.Finished?
  {
    var d := r.states[n];
    DeepRunInv(c, r, n);
    if d.s.stop || !d.s.main.Monitor? {
      StoppedDeepMoves(c, d);
    } else {
      SteadyDeepMoves(c, level, d);
    }
  }

  lemma SteadyDeepMoves(c: Config, level: seq<nat>, d: Deep)
    requires DeepInv(c, d) && d.s.main.Monitor? && !d.s.stop
    requires c.job && FullyWired(c) && Acyclic(c, level)
    ensures Placed(c, d.s) && AwakeCanMove(c, d)
  {
    var r: Run, n: nat :| IsRun(c, r) && n < |r.states| && r.states[n] == d.s;
    JobNeverStuck(c, level, r, n);
    var w :| 0 <= w < |c.roles| && CanWork(c, d.s, w);
    if w in d.asleep {
      if d.s.workers[w].pc.AtPop? {
        AwakeToPop(c, d, w);
      } else {
        AwakeToPush(c, d, w);
      }
    }
  }
}
