/**
 The three runner loops over the objects they share with other threads.  Others.Act is the
 scheduling point: it lets the neighbours do anything to the flag and the queues.  Each ghost
 Commit claims that what the runner then did is its step of the transition system.
 */
module StageRunner {
  import opened Options
  import opened Payloads
  import opened Pipeline
  import opened PipelineSafety
  import opened RunnerSteps

  class StopToken {
    var requested: bool

    constructor ()
      ensures !requested
    {
      requested := false;
    }
  }

  class BoundedQueue {
    const capacity: nat
    var items: seq<Payload>
    var closed: bool

    constructor (capacity: nat)
      ensures this.capacity == capacity && items == [] && !closed
    {
      this.capacity := capacity;
      items, closed := [], false;
    }
  }

  /** A queue as the stages see it. */
  datatype QueueRuntime = QueueRuntime(schemaId: string, queue: BoundedQueue)

  /** One worker's share of the metrics of its stage. */
  class StageMetrics {
    var dequeues: nat
    var enqueues: nat
    var errors: nat
    var latencies: nat

    constructor ()
      ensures View() == Metrics(0, 0, 0, 0)
    {
      dequeues, enqueues, errors, latencies := 0, 0, 0, 0;
    }

    ghost function View(): Metrics
      reads this
    {
      Metrics(dequeues, enqueues, errors, latencies)
    }
  }

  /** What a call that may block came to in the time there was. */
  datatype Wait<+T> = Waiting | Returned(value: T)

  // ---------------------------------------------------------------- the runner among the other threads

  class Others {
    const c: Config
    const w: nat
    const moves: seq<Move>
    const stop: StopToken
    const queues: seq<BoundedQueue>
    ghost const start: State
    var next: nat
    ghost var s: State

    ghost predicate Wired() {
      && Placed(c, start) && w < |c.roles| && AllMovable(c, moves)
      && |queues| == |c.queues|
      && (forall q :: 0 <= q < |queues| ==> queues[q].capacity == c.queues[q].capacity)
      && (forall p, q :: 0 <= p < q < |queues| ==> queues[p] != queues[q])
    }

    /** The shared objects are as a state says. */
    ghost predicate Agrees(t: State)
      reads stop, queues
    {
      && stop.requested == t.stop
      && |t.queues| == |queues|
      && (forall q :: 0 <= q < |queues| ==> queues[q].items == t.queues[q].items && queues[q].closed == t.queues[q].closed)
    }

    /** The runner is between two steps. */
    ghost predicate Valid()
      reads this, stop, queues
    {
      && Wired() && next <= |moves| && s == Follow(c, start, w, moves[..next]) && Agrees(s)
    }

    /** The others have acted and the runner is about to. */
    ghost predicate Mid()
      reads this
    {
      && Wired() && 0 < next <= |moves|
      && s == Disturb(Follow(c, start, w, moves[..next - 1]), moves[next - 1])
    }

    ghost predicate Acting()
      reads this, stop, queues
    {
      Mid() && Agrees(s)
    }

    ghost function Me(): Worker
      requires w < |s.workers|
      reads this
    {
      s.workers[w]
    }

    constructor (c: Config, w: nat, moves: seq<Move>, stop: StopToken, queues: seq<BoundedQueue>, ghost start: State)
      requires Placed(c, start) && w < |c.roles| && AllMovable(c, moves)
      requires |queues| == |c.queues| && |start.queues| == |queues| && stop.requested == start.stop
      requires forall q :: 0 <= q < |queues| ==>
                 && queues[q].capacity == c.queues[q].capacity
                 && queues[q].items == start.queues[q].items && queues[q].closed == start.queues[q].closed
      requires forall p, q :: 0 <= p < q < |queues| ==> queues[p] != queues[q]
      ensures Valid() && next == 0 && s == start
      ensures this.c == c && this.w == w && this.moves == moves && this.stop == stop && this.queues == queues
      ensures this.start == start
    {
      this.c, this.w, this.moves, this.stop, this.queues := c, w, moves, stop, queues;
      this.start := start;
      next, s := 0, start;
    }

    /** The neighbours run until this worker's next access to what it shares with them. */
    method Act()
      requires Valid() && next < |moves|
      modifies this, stop, queues
      ensures Acting() && next == old(next) + 1 && |s.workers| == |old(s).workers| && Me() == old(Me())
      ensures s.stop == stop.requested
    {
      ghost var t := Disturb(s, moves[next]);
      stop.requested := moves[next].stop;
      for q := 0 to |queues|
        invariant Wired() && next == old(next) && s == old(s) && stop.requested == moves[next].stop
        invariant forall p :: 0 <= p < q ==>
                    queues[p].items == t.queues[p].items && queues[p].closed == t.queues[p].closed
      {
        queues[q].items := moves[next].queues[q].items;
        queues[q].closed := moves[next].queues[q].closed;
      }
      s := t;
      next := next + 1;
    }

    /** What the called stage does, when the runner's step is a call. */
    function Answer(): Outcome
      requires 0 < next <= |moves|
      reads this
    {
      moves[next - 1].outcome
    }

    /** The runner has taken its step, or, having to wait, has left everything alone. */
    ghost method Commit()
      requires Mid() && Agrees(Stepped(c, s, w, Answer()))
      modifies this`s
      ensures Valid() && s == Stepped(c, old(s), w, old(Answer()))
    {
      assert moves[..next][..next - 1] == moves[..next - 1];
      s := Stepped(c, s, w, Answer());
    }

    // -------------------------------------------------------------- the accesses of a runner

    /** ctx.stop.stop_requested() at the head of the loop. */
    method StopRequested() returns (r: bool)
      requires Valid() && next < |moves| && Me().pc.Top?
      modifies this, stop, queues
      ensures Valid() && old(next) < next
      ensures var role := c.roles[w];
              Me() == old(Me()).(pc := if r then Leave(role) else if role.Source? then AtProduce else AtPop)
    {
      Act();
      SteppedTop(c, s, w, Answer());
      r := stop.requested;
      Commit();
    }

    /** The front item leaves the input queue. */
    method TakeFront(input: BoundedQueue) returns (item: Payload)
      requires Acting() && Me().pc.AtPop? && input == queues[c.roles[w].inq] && input.items != []
      modifies this`s, input
      ensures Valid() && Me() == Take(c, c.roles[w], old(Me()), item)
    {
      SteppedPop(c, s, w, Answer());
      item := input.items[0];
      input.items := input.items[1..];
      Commit();
    }

    /** The predicate of the wait is evaluated once, under the lock. */
    method TryPop(input: BoundedQueue) returns (r: Wait<Option<Payload>>)
      requires Valid() && next < |moves| && Me().pc.AtPop? && input == queues[c.roles[w].inq]
      modifies this, stop, queues
      ensures Valid() && old(next) < next
      ensures match r
              case Waiting => Me() == old(Me())
              case Returned(None) => Me() == old(Me()).(pc := Leave(c.roles[w]))
              case Returned(Some(p)) => Me() == Take(c, c.roles[w], old(Me()), p)
    {
      Act();
      if input.items != [] {
        var item := TakeFront(input);
        return Returned(Some(item));
      }
      SteppedPop(c, s, w, Answer());
      Commit();
      r := if stop.requested || input.closed then Returned(None) else Waiting;
    }

    /** BoundedQueue::pop on the input queue: waits until stop, closing or an item. */
    method Pop(input: BoundedQueue) returns (r: Wait<Option<Payload>>)
      requires Valid() && Me().pc.AtPop? && input == queues[c.roles[w].inq]
      modifies this, stop, queues
      ensures Valid() && old(next) <= next
      ensures match r
              case Waiting => next == |moves| && Me() == old(Me())
              case Returned(None) => Me() == old(Me()).(pc := Leave(c.roles[w]))
              case Returned(Some(p)) => Me() == Take(c, c.roles[w], old(Me()), p)
    {
      while next < |moves|
        invariant Valid() && old(next) <= next && Me() == old(Me())
      {
        r := TryPop(input);
        if r.Returned? {
          return;
        }
      }
      r := Waiting;
    }

    method TryPush(output: BoundedQueue, item: Payload) returns (r: Wait<bool>)
      requires Valid() && next < |moves| && Me().pc == AtPush(item) && output == queues[c.roles[w].outq]
      modifies this, stop, queues
      ensures Valid() && old(next) < next
      ensures match r
              case Waiting => Me() == old(Me())
              case Returned(true) => Me() == Pushed(old(Me()))
              case Returned(false) => Me() == Refused(old(Me()))
    {
      Act();
      SteppedPush(c, s, w, Answer());
      if stop.requested || output.closed {
        Commit();
        return Returned(false);
      }
      if |output.items| < output.capacity {
        output.items := output.items + [item];
        Commit();
        return Returned(true);
      }
      Commit();
      return Waiting;
    }

    /** BoundedQueue::push on the output queue: waits until stop, closing or a free slot. */
    method Push(output: BoundedQueue, item: Payload) returns (r: Wait<bool>)
      requires Valid() && Me().pc == AtPush(item) && output == queues[c.roles[w].outq]
      modifies this, stop, queues
      ensures Valid() && old(next) <= next
      ensures match r
              case Waiting => next == |moves| && Me() == old(Me())
              case Returned(true) => Me() == Pushed(old(Me()))
              case Returned(false) => Me() == Refused(old(Me()))
    {
      while next < |moves|
        invariant Valid() && old(next) <= next && Me() == old(Me())
      {
        r := TryPush(output, item);
        if r.Returned? {
          return;
        }
      }
      r := Waiting;
    }

    method TryCall() returns (r: Wait<Outcome>)
      requires Valid() && next < |moves| && InStage(Me().pc)
      modifies this, stop, queues
      ensures old(next) < next <= |moves|
      ensures r.Waiting? ==> Valid() && Me() == old(Me())
      ensures r.Returned? ==> Answers(c.roles[w], r.value) && Wired() && |s.workers| == |c.roles|
      ensures r.Returned? && !r.value.Throw? ==> Valid() && Me() == Answered(c, c.roles[w], old(Me()), r.value)
      ensures r.Returned? && r.value.Throw? ==> Acting() && Answer() == Throw && Me() == old(Me())
    {
      Act();
      var o := Answer();
      SteppedCall(c, s, w, o);
      if Answers(c.roles[w], o) {
        if !o.Throw? {
          Commit();
        }
        return Returned(o);
      }
      Commit();
      return Waiting;
    }

    /**
     A call into the stage.  A throwing call returns in the catch block, with the request to
     stop still to be made.
     */
    method Call() returns (r: Wait<Outcome>)
      requires Valid() && InStage(Me().pc)
      modifies this, stop, queues
      ensures old(next) <= next <= |moves|
      ensures r.Waiting? ==> Valid() && next == |moves| && Me() == old(Me())
      ensures r.Returned? ==> Answers(c.roles[w], r.value) && Wired() && |s.workers| == |c.roles|
      ensures r.Returned? && !r.value.Throw? ==> Valid() && Me() == Answered(c, c.roles[w], old(Me()), r.value)
      ensures r.Returned? && r.value.Throw? ==> Acting() && Answer() == Throw && Me() == old(Me())
    {
      while next < |moves|
        invariant Valid() && old(next) <= next && Me() == old(Me())
      {
        r := TryCall();
        if r.Returned? {
          return;
        }
      }
      r := Waiting;
    }

    /** ctx.request_stop() in a catch block. */
    method RequestStop()
      requires Acting() && InStage(Me().pc) && Answer() == Throw
      modifies this`s, stop
      ensures Valid() && Me() == Answered(c, c.roles[w], old(Me()), Throw)
    {
      SteppedCall(c, s, w, Throw);
      stop.requested := true;
      Commit();
    }

    /** input.queue->close() in the catch block of a transform. */
    method Close(input: BoundedQueue)
      requires Valid() && next < |moves| && Me().pc.AtCloseIn? && input == queues[c.roles[w].inq]
      modifies this, stop, queues
      ensures Valid() && old(next) < next && Me() == old(Me()).(pc := AtDrop)
    {
      Act();
      SteppedClose(c, s, w, Answer());
      input.closed := true;
      Commit();
    }
  }

  // ---------------------------------------------------------------- the loops

  /** A worker of the given role stands at the head of its loop, with its metrics recorded. */
  ghost predicate Ready(x: Others, metrics: StageMetrics)
    reads x, x.stop, x.queues, metrics
  {
    x.Valid() && x.Me().pc.Top? && metrics.View() == x.Me().metrics
  }

  /** An execution of a runner: it follows the moves, records its metrics, and if it returned it is past its loop. */
  ghost predicate Ran(x: Others, metrics: StageMetrics, returned: bool)
    reads x, x.stop, x.queues, metrics
  {
    && x.Valid()
    && x.s == Follow(x.c, x.start, x.w, x.moves[..x.next])
    && metrics.View() == x.Me().metrics
    && (if returned then x.Me().pc == Leave(x.c.roles[x.w]) else InRunner(x.Me().pc) && x.next == |x.moves|)
  }

  /** How one round of a loop ends: back at its head, returned, or cut short while waiting. */
  datatype Round = Again | Left | Cut

  ghost predicate Rounded(x: Others, metrics: StageMetrics, r: Round)
    reads x, x.stop, x.queues, metrics
  {
    && x.Valid()
    && metrics.View() == x.Me().metrics
    && match r
       case Again => x.Me().pc.Top?
       case Left => x.Me().pc == Leave(x.c.roles[x.w])
       case Cut => InRunner(x.Me().pc) && x.next == |x.moves|
  }

  /** The end of a round that has a payload for the output queue. */
  method Emit(x: Others, output: QueueRuntime, payload: Payload, metrics: StageMetrics) returns (r: Round)
    requires x.Valid() && x.Me().pc == AtPush(payload) && metrics.View() == x.Me().metrics
    requires output.queue == x.queues[x.c.roles[x.w].outq]
    modifies x, x.stop, x.queues, metrics
    ensures Rounded(x, metrics, r) && old(x.next) <= x.next
  {
    var pushed := x.Push(output.queue, payload);
    if pushed.Waiting? {
      return Cut;
    }
    if !pushed.value {
      return Left;
    }
    metrics.enqueues := metrics.enqueues + 1;
    return Again;
  }

  /** Where a popped payload takes a worker, and what it has counted by then. */
  lemma TakenTo(c: Config, role: Role, x: Worker, p: Payload)
    requires !role.Source? && ValidRole(c, role)
    ensures var y := Take(c, role, x, p);
            if !AcceptsInput(c.queues[role.inq].schemaId, p) then
              y.pc.Top? && y.metrics == x.metrics.(dequeues := x.metrics.dequeues + 1, errors := x.metrics.errors + 1)
            else
              && y.metrics == x.metrics.(dequeues := x.metrics.dequeues + 1)
              && y.pc == if role.Transform? then AtProcess(p) else AtConsume(p)
  {
  }

  /** The start of a round that reads: a valid payload in hand, or the round is over. */
  method Receive(x: Others, input: QueueRuntime, metrics: StageMetrics) returns (r: Round, hand: Option<Payload>)
    requires x.Valid() && x.Me().pc.AtPop? && metrics.View() == x.Me().metrics && !x.c.roles[x.w].Source?
    requires var q := x.c.roles[x.w].inq; input == QueueRuntime(x.c.queues[q].schemaId, x.queues[q])
    modifies x, x.stop, x.queues, metrics
    ensures old(x.next) <= x.next
    ensures hand.None? ==> Rounded(x, metrics, r)
    ensures hand.Some? ==> x.Valid() && metrics.View() == x.Me().metrics
    ensures hand.Some? ==> x.Me().pc == if x.c.roles[x.w].Transform? then AtProcess(hand.value) else AtConsume(hand.value)
  {
    ghost var before := x.Me();
    var item := x.Pop(input.queue);
    if item.Waiting? {
      return Cut, None;
    }
    if item.value.None? {
      return Left, None;
    }
    TakenTo(x.c, x.c.roles[x.w], before, item.value.value);
    metrics.dequeues := metrics.dequeues + 1;
    if !AcceptsInput(input.schemaId, item.value.value) {
      metrics.errors := metrics.errors + 1;
      return Again, None;
    }
    return Again, item.value;
  }

  /** Where a stage's answer takes a worker, and what it has counted by then. */
  lemma AnsweredTo(c: Config, role: Role, x: Worker, o: Outcome)
    requires ValidRole(c, role) && InStage(x.pc) && Fits(role, x.pc) && Answers(role, o)
    ensures var y := Answered(c, role, x, o);
            var m := x.metrics;
            match o
            case Throw =>
              && y.metrics == m.(errors := m.errors + 1)
              && y.pc == if role.Transform? then AtCloseIn else Leave(role)
            case EndOfStream => y.metrics == m && y.pc == AtDrop
            case Plain => y.metrics == m.(latencies := m.latencies + 1) && y.pc.Top?
            case Yield(p) =>
              match Stamp(c.queues[role.outq].schemaId, p)
              case None =>
                && y.pc.Top?
                && y.metrics == m.(errors := m.errors + 1,
                                   latencies := if role.Transform? then m.latencies + 1 else m.latencies)
              case Some(p') => y.pc == AtPush(p') && y.metrics == m.(latencies := m.latencies + 1)
  {
  }

  /** The catch block around a stage call: the error is counted and stop requested. */
  method Catch(x: Others, metrics: StageMetrics)
    requires x.Acting() && InStage(x.Me().pc) && x.Answer() == Throw && metrics.View() == x.Me().metrics
    modifies x`s, x.stop, metrics
    ensures x.Valid() && metrics.View() == x.Me().metrics
    ensures var role := x.c.roles[x.w]; x.Me().pc == if role.Transform? then AtCloseIn else Leave(role)
  {
    AnsweredTo(x.c, x.c.roles[x.w], x.Me(), Throw);
    metrics.errors := metrics.errors + 1;
    x.RequestStop();
  }

  /** The rest of a sink's round, with a payload in hand. */
  method Deliver(x: Others, metrics: StageMetrics) returns (r: Round)
    requires x.Valid() && x.Me().pc.AtConsume? && metrics.View() == x.Me().metrics && x.c.roles[x.w].Sink?
    modifies x, x.stop, x.queues, metrics
    ensures Rounded(x, metrics, r) && old(x.next) <= x.next
  {
    ghost var before := x.Me();
    var answer := x.Call();
    if answer.Waiting? {
      return Cut;
    }
    if answer.value.Throw? {
      Catch(x, metrics);
      return Left;
    }
    AnsweredTo(x.c, x.c.roles[x.w], before, answer.value);
    metrics.latencies := metrics.latencies + 1;
    return Again;
  }

  /** The end of a source's round: a payload of the wrong schema counts as an error, not as a latency. */
  method Launch(x: Others, output: QueueRuntime, made: Payload, metrics: StageMetrics) returns (r: Round)
    requires x.Valid() && x.c.roles[x.w].Source? && output.queue == x.queues[x.c.roles[x.w].outq]
    requires match Stamp(output.schemaId, made)
             case None => x.Me().pc.Top? && x.Me().metrics == metrics.View().(errors := metrics.errors + 1)
             case Some(p) => x.Me().pc == AtPush(p) && x.Me().metrics == metrics.View().(latencies := metrics.latencies + 1)
    modifies x, x.stop, x.queues, metrics
    ensures Rounded(x, metrics, r) && old(x.next) <= x.next
  {
    var stamped := Stamp(output.schemaId, made);
    if stamped.None? {
      metrics.errors := metrics.errors + 1;
      return Again;
    }
    metrics.latencies := metrics.latencies + 1;
    r := Emit(x, output, stamped.value, metrics);
  }

  /** The rest of a source's round, from produce() on. */
  method Originate(x: Others, output: QueueRuntime, metrics: StageMetrics) returns (r: Round)
    requires x.Valid() && x.Me().pc.AtProduce? && metrics.View() == x.Me().metrics && x.c.roles[x.w].Source?
    requires var q := x.c.roles[x.w].outq; output == QueueRuntime(x.c.queues[q].schemaId, x.queues[q])
    modifies x, x.stop, x.queues, metrics
    ensures Rounded(x, metrics, r) && old(x.next) <= x.next
  {
    ghost var before := x.Me();
    var answer := x.Call();
    if answer.Waiting? {
      return Cut;
    }
    if answer.value.Throw? {
      Catch(x, metrics);
      return Left;
    }
    AnsweredTo(x.c, x.c.roles[x.w], before, answer.value);
    if answer.value.EndOfStream? {
      return Left;
    }
    r := Launch(x, output, answer.value.value, metrics);
  }

  /** A throwing process(): the catch block, which also closes the input queue to wake the peers. */
  method Abandon(x: Others, input: QueueRuntime, metrics: StageMetrics) returns (r: Round)
    requires x.Acting() && x.Me().pc.AtProcess? && x.Answer() == Throw && metrics.View() == x.Me().metrics
    requires x.c.roles[x.w].Transform? && input.queue == x.queues[x.c.roles[x.w].inq]
    modifies x, x.stop, x.queues, metrics
    ensures Rounded(x, metrics, r) && old(x.next) <= x.next
  {
    Catch(x, metrics);
    if x.next == |x.moves| {
      return Cut;
    }
    x.Close(input.queue);
    return Left;
  }

  /** The end of a transform's round: the output schema is applied to what process() made. */
  method Ship(x: Others, output: QueueRuntime, made: Payload, metrics: StageMetrics) returns (r: Round)
    requires x.Valid() && x.c.roles[x.w].Transform? && output.queue == x.queues[x.c.roles[x.w].outq]
    requires match Stamp(output.schemaId, made)
             case None => x.Me().pc.Top? && x.Me().metrics == metrics.View().(errors := metrics.errors + 1)
             case Some(p) => x.Me().pc == AtPush(p) && x.Me().metrics == metrics.View()
    modifies x, x.stop, x.queues, metrics
    ensures Rounded(x, metrics, r) && old(x.next) <= x.next
  {
    var stamped := Stamp(output.schemaId, made);
    if stamped.None? {
      metrics.errors := metrics.errors + 1;
      return Again;
    }
    r := Emit(x, output, stamped.value, metrics);
  }

  /** The rest of a transform's round, with a payload in hand; a throw closes the input queue. */
  method Convert(x: Others, input: QueueRuntime, output: QueueRuntime, metrics: StageMetrics) returns (r: Round)
    requires x.Valid() && x.Me().pc.AtProcess? && metrics.View() == x.Me().metrics && x.c.roles[x.w].Transform?
    requires var q := x.c.roles[x.w].inq; input == QueueRuntime(x.c.queues[q].schemaId, x.queues[q])
    requires var q := x.c.roles[x.w].outq; output == QueueRuntime(x.c.queues[q].schemaId, x.queues[q])
    modifies x, x.stop, x.queues, metrics
    ensures Rounded(x, metrics, r) && old(x.next) <= x.next
  {
    ghost var before := x.Me();
    var answer := x.Call();
    if answer.Waiting? {
      return Cut;
    }
    if answer.value.Throw? {
      r := Abandon(x, input, metrics);
      return;
    }
    AnsweredTo(x.c, x.c.roles[x.w], before, answer.value);
    metrics.latencies := metrics.latencies + 1;
    r := Ship(x, output, answer.value.value, metrics);
  }

  method SourceRound(x: Others, output: QueueRuntime, metrics: StageMetrics) returns (r: Round)
    requires Ready(x, metrics) && x.next < |x.moves| && x.c.roles[x.w].Source?
    requires var q := x.c.roles[x.w].outq; output == QueueRuntime(x.c.queues[q].schemaId, x.queues[q])
    modifies x, x.stop, x.queues, metrics
    ensures Rounded(x, metrics, r) && old(x.next) < x.next
  {
    var stopped := x.StopRequested();
    if stopped {
      return Left;
    }
    r := Originate(x, output, metrics);
  }

  method TransformRound(x: Others, input: QueueRuntime, output: QueueRuntime, metrics: StageMetrics)
    returns (r: Round)
    requires Ready(x, metrics) && x.next < |x.moves| && x.c.roles[x.w].Transform?
    requires var q := x.c.roles[x.w].inq; input == QueueRuntime(x.c.queues[q].schemaId, x.queues[q])
    requires var q := x.c.roles[x.w].outq; output == QueueRuntime(x.c.queues[q].schemaId, x.queues[q])
    modifies x, x.stop, x.queues, metrics
    ensures Rounded(x, metrics, r) && old(x.next) < x.next
  {
    var stopped := x.StopRequested();
    if stopped {
      return Left;
    }
    var hand;
    r, hand := Receive(x, input, metrics);
    if hand.Some? {
      r := Convert(x, input, output, metrics);
    }
  }

  method SinkRound(x: Others, input: QueueRuntime, metrics: StageMetrics) returns (r: Round)
    requires Ready(x, metrics) && x.next < |x.moves| && x.c.roles[x.w].Sink?
    requires var q := x.c.roles[x.w].inq; input == QueueRuntime(x.c.queues[q].schemaId, x.queues[q])
    modifies x, x.stop, x.queues, metrics
    ensures Rounded(x, metrics, r) && old(x.next) < x.next
  {
    var stopped := x.StopRequested();
    if stopped {
      return Left;
    }
    var hand;
    r, hand := Receive(x, input, metrics);
    if hand.Some? {
      r := Deliver(x, metrics);
    }
  }

  /** RunSourceStage: rounds until one does not come back to the head of the loop. */
  method RunSourceStage(x: Others, output: QueueRuntime, metrics: StageMetrics) returns (returned: bool)
    requires Ready(x, metrics) && x.c.roles[x.w].Source?
    requires var q := x.c.roles[x.w].outq; output == QueueRuntime(x.c.queues[q].schemaId, x.queues[q])
    modifies x, x.stop, x.queues, metrics
    ensures Ran(x, metrics, returned)
  {
    while x.next < |x.moves|
      invariant Ready(x, metrics)
    {
      var r := SourceRound(x, output, metrics);
      if r != Again {
        return r.Left?;
      }
    }
    return false;
  }

  method RunTransformStage(x: Others, input: QueueRuntime, output: QueueRuntime, metrics: StageMetrics)
    returns (returned: bool)
    requires Ready(x, metrics) && x.c.roles[x.w].Transform?
    requires var q := x.c.roles[x.w].inq; input == QueueRuntime(x.c.queues[q].schemaId, x.queues[q])
    requires var q := x.c.roles[x.w].outq; output == QueueRuntime(x.c.queues[q].schemaId, x.queues[q])
    modifies x, x.stop, x.queues, metrics
    ensures Ran(x, metrics, returned)
  {
    while x.next < |x.moves|
      invariant Ready(x, metrics)
    {
      var r := TransformRound(x, input, output, metrics);
      if r != Again {
        return r.Left?;
      }
    }
    return false;
  }

  method RunSinkStage(x: Others, input: QueueRuntime, metrics: StageMetrics) returns (returned: bool)
    requires Ready(x, metrics) && x.c.roles[x.w].Sink?
    requires var q := x.c.roles[x.w].inq; input == QueueRuntime(x.c.queues[q].schemaId, x.queues[q])
    modifies x, x.stop, x.queues, metrics
    ensures Ran(x, metrics, returned)
  {
    while x.next < |x.moves|
      invariant Ready(x, metrics)
    {
      var r := SinkRound(x, input, metrics);
      if r != Again {
        return r.Left?;
      }
    }
    return false;
  }

  // ---------------------------------------------------------------- a run, reenacted

  method Queues(c: Config) returns (queues: seq<BoundedQueue>)
    ensures |queues| == |c.queues| && fresh(queues)
    ensures forall q :: 0 <= q < |queues| ==>
              queues[q].capacity == c.queues[q].capacity && queues[q].items == [] && !queues[q].closed
    ensures forall p, q :: 0 <= p < q < |queues| ==> queues[p] != queues[q]
  {
    queues := [];
    for n := 0 to |c.queues|
      invariant |queues| == n && fresh(queues)
      invariant forall q :: 0 <= q < n ==>
                  queues[q].capacity == c.queues[q].capacity && queues[q].items == [] && !queues[q].closed
      invariant forall p, q :: 0 <= p < q < n ==> queues[p] != queues[q]
    {
      var queue := new BoundedQueue(c.queues[n].capacity);
      queues := queues + [queue];
    }
  }

  /** An execution that used what it could of the moves of a worker counted what the worker counted. */
  lemma RanAsInRun(x: Others, metrics: StageMetrics, returned: bool, r: Run, n: nat)
    requires IsRun(x.c, r) && n < |r.states| && x.w < |x.c.roles|
    requires x.moves == MovesOf(r, x.w, n) && x.start == Entry(x.c, x.w) && Ran(x, metrics, returned)
    ensures |r.states[n].workers| == |x.c.roles| && metrics.View() == r.states[n].workers[x.w].metrics
  {
    WorkerFollowsRunner(x.c, r, x.w, n);
    if returned {
      ReturnedStays(x.c, x.start, x.w, x.moves, x.next);
    } else {
      assert x.moves[..x.next] == x.moves;
    }
  }

  /**
   Give a worker's runner the moves that worker made in any run of the whole flow: it executes
   them, and its metrics end as that run's metrics for the worker.
   */
  method Reenact(c: Config, w: nat, moves: seq<Move>, ghost r: Run, ghost n: nat) returns (metrics: StageMetrics)
    requires IsRun(c, r) && n < |r.states| && w < |c.roles| && moves == MovesOf(r, w, n)
    ensures |r.states[n].workers| == |c.roles| && metrics.View() == r.states[n].workers[w].metrics
  {
    WorkerFollowsRunner(c, r, w, n);
    var queues := Queues(c);
    var stop := new StopToken();
    var x := new Others(c, w, moves, stop, queues, Entry(c, w));
    metrics := new StageMetrics();
    var returned;
    match c.roles[w] {
      case Source(q) =>
        returned := RunSourceStage(x, QueueRuntime(c.queues[q].schemaId, queues[q]), metrics);
      case Transform(p, q) =>
        returned := RunTransformStage(x, QueueRuntime(c.queues[p].schemaId, queues[p]),
                                      QueueRuntime(c.queues[q].schemaId, queues[q]), metrics);
      case Sink(q) =>
        returned := RunSinkStage(x, QueueRuntime(c.queues[q].schemaId, queues[q]), metrics);
    }
    RanAsInRun(x, metrics, returned, r, n);
  }
}
