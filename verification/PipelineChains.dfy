/** What a clean job run delivers: draining, and the sequential result of a chain of stages. */
module PipelineChains {
  import opened Options
  import opened Payloads
  import opened Pipeline
  import opened PipelineSafety
  import opened PipelineRefinement

  /**
   Drain: if a clean job run stops, and not early, then at the stop and ever after every
   worker has left its runner, every source has delivered its whole script, no payload was
   refused, and every queue that is read is empty with all it was given handed out.
   */
  lemma JobDrains(c: Config, env: Env, r: Run, n: nat)
    requires CleanRun(c, env, r) && n < |r.states| && r.states[n].stop && !r.states[n].early
    ensures var s := r.states[n];
            && Shaped(c, s)
            && (forall w :: 0 <= w < |c.roles| ==> PastRunner(s.workers[w].pc) && s.workers[w].refused == [])
            && (forall w :: 0 <= w < |c.roles| && c.roles[w].Source? ==> s.workers[w].made == env.script[w])
            && (forall w :: 0 <= w < |c.roles| && c.roles[w].Sink? ==> s.workers[w].eaten == s.workers[w].got)
            && (forall w, q :: 0 <= w < |c.roles| && 0 <= q < |c.queues| && Reads(c, w, q) ==>
                  s.queues[q].items == [] && s.queues[q].pushed == s.queues[q].popped)
  {
    CleanInv(c, env, r, n);
    var s := r.states[n];
    forall w | 0 <= w < |c.roles|
      ensures Complete(c, env, s, w) && Faithful(c, env, w, s.workers[w])
    {
    }
    forall w, q | 0 <= w < |c.roles| && 0 <= q < |c.queues| && Reads(c, w, q)
      ensures s.queues[q].items == [] && s.queues[q].pushed == s.queues[q].popped
    {
      assert Complete(c, env, s, w);
      assert QueueSound(c.queues[q].capacity, c.queues[q].schemaId, s.queues[q]);
    }
  }

  // ---------------------------------------------------------------- one worker on each side of a queue

  predicate SoleWriter(c: Config, w: nat, q: nat)
  {
    Writes(c, w, q) && forall v :: 0 <= v < |c.roles| && Writes(c, v, q) ==> v == w
  }

  predicate SoleReader(c: Config, w: nat, q: nat)
  {
    Reads(c, w, q) && forall v :: 0 <= v < |c.roles| && Reads(c, v, q) ==> v == w
  }

  /** With one worker on a side, the queue's history is that worker's, in order. */
  predicate Ordered(c: Config, s: State, w: nat, q: nat)
  {
    && w < |s.workers| && q < |s.queues|
    && (SoleWriter(c, w, q) ==> s.queues[q].pushed == s.workers[w].sent)
    && (SoleReader(c, w, q) ==> s.queues[q].popped == s.workers[w].got)
  }

  lemma OrderedStep(c: Config, s: State, l: Label, s': State, w: nat, q: nat)
    requires Reached(c, s) && Placed(c, s) && Next(c, s, l, s') && Ordered(c, s, w, q)
    ensures Ordered(c, s', w, q)
  {
    ReachedInv(c, s);
    match l
    case Worked(v, o) =>
      WorkFramed(c, s, v, o);
      WorkTallied(c, s, v, o);
      OrderedTallied(c, s, s', v, Act(c, s, v, o).1, w, q);
    case _ => OtherManaged(c, s, l, s');
  }

  lemma OrderedTallied(c: Config, s: State, s': State, v: nat, e: Effect, w: nat, q: nat)
    requires Placed(c, s) && v < |c.roles| && CanApply(c, s, v, e) && Framed(s, s', v) && Tallied(c, s, s', v, e)
    requires Ordered(c, s, w, q)
    ensures Ordered(c, s', w, q)
  {
  }

  lemma OrderedInit(c: Config, w: nat, q: nat)
    requires ValidConfig(c) && w < |c.roles| && q < |c.queues|
    ensures Ordered(c, Init(c), w, q)
  {
  }

  lemma {:induction false} OrderedRun(c: Config, r: Run, n: nat, w: nat, q: nat)
    requires IsRun(c, r) && n < |r.states| && w < |c.roles| && q < |c.queues|
    ensures Ordered(c, r.states[n], w, q)
    decreases n
  {
    if n == 0 {
      OrderedInit(c, w, q);
    } else {
      OrderedRun(c, r, n - 1, w, q);
      ReachedStep(c, r, n - 1);
      OrderedStep(c, r.states[n - 1], r.labels[n - 1], r.states[n], w, q);
    }
  }

  // ---------------------------------------------------------------- chains of single-worker stages

  /** A chain of workers from a source to a sink, each queue between two of them and no others. */
  predicate Chain(c: Config, path: seq<nat>)
  {
    && |path| >= 2
    && (forall i :: 0 <= i < |path| ==> path[i] < |c.roles|)
    && c.roles[path[0]].Source?
    && c.roles[path[|path| - 1]].Sink?
    && (forall i :: 0 < i < |path| - 1 ==> c.roles[path[i]].Transform?)
    && (forall i :: 0 < i < |path| ==> Link(c, path[i - 1], path[i]))
  }

  predicate Link(c: Config, v: nat, w: nat)
  {
    && v < |c.roles| && w < |c.roles|
    && !c.roles[v].Sink? && !c.roles[w].Source? && c.roles[v].outq == c.roles[w].inq
    && SoleWriter(c, v, c.roles[v].outq)
    && SoleReader(c, w, c.roles[w].inq)
  }

  /** The sequential result: what the i-th worker of the chain emits when the stages run one by one. */
  function ChainOut(c: Config, env: Env, path: seq<nat>, i: nat): seq<Payload>
    requires ValidConfig(c) && Chain(c, path) && i < |path| - 1 && |env.script| == |c.roles|
  {
    var w := path[i];
    Stamped(c.queues[c.roles[w].outq].schemaId,
            if i == 0 then env.script[w] else Images(env, w, ChainOut(c, env, path, i - 1)))
  }

  lemma {:induction false} StampedPrefix(schemaId: string, a: seq<Payload>, b: seq<Payload>)
    requires a <= b
    ensures Stamped(schemaId, a) <= Stamped(schemaId, b)
    decreases |b|
  {
    if |a| < |b| {
      StampedPrefix(schemaId, a, b[..|b| - 1]);
    } else {
      assert a == b;
    }
  }

  lemma ImagesPrefix(env: Env, w: nat, a: seq<Payload>, b: seq<Payload>)
    requires a <= b
    ensures Images(env, w, a) <= Images(env, w, b)
  {
    forall i | 0 <= i < |a|
      ensures Images(env, w, a)[i] == Images(env, w, b)[i]
    {
      assert a[..i] == b[..i];
    }
  }

  /** A source has sent a prefix of its stamped script, and all of it when its work is complete. */
  lemma SourceSent(c: Config, env: Env, w: nat, x: Worker)
    requires ValidConfig(c) && w < |c.roles| && |env.script| == |c.roles| && c.roles[w].Source?
    requires Faithful(c, env, w, x)
    ensures var all := Stamped(c.queues[c.roles[w].outq].schemaId, env.script[w]);
            && x.sent <= all
            && (!x.pc.AtPush? && x.refused == [] && x.made == env.script[w] ==> x.sent == all)
  {
    StampedPrefix(c.queues[c.roles[w].outq].schemaId, x.made, env.script[w]);
    assert x.sent <= Offered(x);
  }

  /** The same for a transform, relative to the input it is to get in all. */
  lemma TransformSent(c: Config, env: Env, w: nat, x: Worker, input: seq<Payload>)
    requires ValidConfig(c) && w < |c.roles| && |env.script| == |c.roles| && c.roles[w].Transform?
    requires Faithful(c, env, w, x) && x.got <= input
    ensures var all := Stamped(c.queues[c.roles[w].outq].schemaId, Images(env, w, input));
            && x.sent <= all
            && (!x.pc.AtPush? && !x.pc.AtProcess? && x.refused == [] && x.got == input ==> x.sent == all)
  {
    var done := if x.pc.AtProcess? then x.got[..|x.got| - 1] else x.got;
    ImagesPrefix(env, w, done, input);
    StampedPrefix(c.queues[c.roles[w].outq].schemaId, Images(env, w, done), Images(env, w, input));
    assert x.sent <= Offered(x);
  }

  lemma {:induction false} ChainSent(c: Config, env: Env, r: Run, n: nat, path: seq<nat>, i: nat)
    requires CleanRun(c, env, r) && n < |r.states| && Chain(c, path) && i < |path| - 1
    ensures |r.states[n].workers| == |c.roles|
    ensures r.states[n].workers[path[i]].sent <= ChainOut(c, env, path, i)
    ensures r.states[n].stop && !r.states[n].early ==>
              r.states[n].workers[path[i]].sent == ChainOut(c, env, path, i)
    decreases i
  {
    var s, w := r.states[n], path[i];
    CleanInv(c, env, r, n);
    assert Faithful(c, env, w, s.workers[w]);
    if s.stop && !s.early {
      assert Complete(c, env, s, w);
    }
    if i == 0 {
      SourceSent(c, env, w, s.workers[w]);
    } else {
      ChainSent(c, env, r, n, path, i - 1);
      ChainGot(c, env, r, n, path, i);
      TransformSent(c, env, w, s.workers[w], ChainOut(c, env, path, i - 1));
    }
  }

  /** What a worker of the chain got is what the one before it sent, less what still waits. */
  lemma ChainGot(c: Config, env: Env, r: Run, n: nat, path: seq<nat>, i: nat)
    requires CleanRun(c, env, r) && n < |r.states| && Chain(c, path) && 0 < i < |path|
    ensures |r.states[n].workers| == |c.roles|
    ensures r.states[n].workers[path[i]].got <= r.states[n].workers[path[i - 1]].sent
    ensures r.states[n].stop && !r.states[n].early ==>
              r.states[n].workers[path[i]].got == r.states[n].workers[path[i - 1]].sent
  {
    var s := r.states[n];
    var v, w := path[i - 1], path[i];
    assert Link(c, v, w);
    var q := c.roles[w].inq;
    CleanInv(c, env, r, n);
    OrderedRun(c, r, n, v, q);
    OrderedRun(c, r, n, w, q);
    assert QueueSound(c.queues[q].capacity, c.queues[q].schemaId, s.queues[q]);
    if s.stop && !s.early {
      assert Complete(c, env, s, w);
    }
  }

  /**
   The concurrent chain refines the sequential one.  At every moment of every clean job run,
   even one that stops early, the sink has consumed a prefix of the sequential result; and
   once the run has stopped, and not early, it has consumed all of it.
   */
  lemma ChainRefinesSequential(c: Config, env: Env, r: Run, n: nat, path: seq<nat>)
    requires CleanRun(c, env, r) && n < |r.states| && Chain(c, path)
    ensures |r.states[n].workers| == |c.roles|
    ensures var s := r.states[n];
            var sink := path[|path| - 1];
            var all := ChainOut(c, env, path, |path| - 2);
            && s.workers[sink].eaten <= all
            && (s.stop && !s.early ==> s.workers[sink].eaten == all)
  {
    var k := |path| - 1;
    ChainSent(c, env, r, n, path, k - 1);
    ChainGot(c, env, r, n, path, k);
    SinkAte(c, env, r, n, path[k]);
  }

  /** What a sink got it has consumed, but for the payload in its hands; after a late stop, all of it. */
  lemma SinkAte(c: Config, env: Env, r: Run, n: nat, w: nat)
    requires CleanRun(c, env, r) && n < |r.states| && w < |c.roles| && c.roles[w].Sink?
    ensures |r.states[n].workers| == |c.roles|
    ensures var s := r.states[n];
            && s.workers[w].eaten <= s.workers[w].got
            && (s.stop && !s.early ==> s.workers[w].eaten == s.workers[w].got)
  {
    CleanInv(c, env, r, n);
    assert Faithful(c, env, w, r.states[n].workers[w]);
    if r.states[n].stop && !r.states[n].early {
      assert Complete(c, env, r.states[n], w);
    }
  }

  // ---------------------------------------------------------------- many workers to a stage

  /** One stage applied to a sequence, payload by payload. */
  function Through(schemaId: string, f: Payload -> Payload, ps: seq<Payload>): seq<Payload>
  {
    if ps == [] then []
    else
      (match Stamp(schemaId, f(ps[0])) { case None => [] case Some(p) => [p] })
      + Through(schemaId, f, ps[1..])
  }

  lemma {:induction false} ThroughConcat(schemaId: string, f: Payload -> Payload, a: seq<Payload>, b: seq<Payload>)
    ensures Through(schemaId, f, a + b) == Through(schemaId, f, a) + Through(schemaId, f, b)
  {
    if a == [] {
      assert a + b == b;
    } else {
      assert (a + b)[1..] == a[1..] + b;
      ThroughConcat(schemaId, f, a[1..], b);
    }
  }

  /** Taking the same payload out of two sequences with the same contents. */
  lemma TakeOut(a: seq<Payload>, b: seq<Payload>) returns (i: nat)
    requires a != [] && multiset(a) == multiset(b)
    ensures i < |b| && b[i] == a[0] && multiset(a[1..]) == multiset(b[..i] + b[i + 1..])
  {
    assert a[0] in multiset(a);
    assert a[0] in b;
    i :| 0 <= i < |b| && b[i] == a[0];
    assert multiset(a[1..]) == multiset(a) - multiset{a[0]} by {
      assert a == [a[0]] + a[1..];
    }
    assert multiset(b[..i] + b[i + 1..]) == multiset(b) - multiset{b[i]} by {
      assert b == b[..i] + ([b[i]] + b[i + 1..]);
    }
  }

  lemma {:induction false} ThroughPermutes(schemaId: string, f: Payload -> Payload, a: seq<Payload>, b: seq<Payload>)
    requires multiset(a) == multiset(b)
    ensures multiset(Through(schemaId, f, a)) == multiset(Through(schemaId, f, b))
    decreases |a|
  {
    if a == [] {
      assert |b| == |multiset(b)|;
    } else {
      var i := TakeOut(a, b);
      ThroughPermutes(schemaId, f, a[1..], b[..i] + b[i + 1..]);
      ThroughWithout(schemaId, f, a, 0);
      assert a[..0] + a[1..] == a[1..];
      ThroughWithout(schemaId, f, b, i);
    }
  }

  /** What one payload adds to the result of a stage does not depend on where it stands. */
  lemma ThroughWithout(schemaId: string, f: Payload -> Payload, b: seq<Payload>, i: nat)
    requires i < |b|
    ensures multiset(Through(schemaId, f, b))
            == multiset(Through(schemaId, f, b[..i] + b[i + 1..]))
               + (match Stamp(schemaId, f(b[i])) { case None => multiset{} case Some(p) => multiset{p} })
  {
    ThroughConcat(schemaId, f, b[..i], b[i + 1..]);
    assert b == b[..i] + b[i..] && b[i..][1..] == b[i + 1..];
    ThroughConcat(schemaId, f, b[..i], b[i..]);
  }

  /** A stage of any number of workers that map each payload by f, alone on both of its queues. */
  ghost predicate Layer(c: Config, env: Env, qin: nat, qout: nat, f: Payload -> Payload)
  {
    && qin < |c.queues| && qout < |c.queues|
    && (forall w :: 0 <= w < |c.roles| ==> (Reads(c, w, qin) <==> Writes(c, w, qout)))
    && (forall w :: 0 <= w < |c.roles| && Reads(c, w, qin) ==> c.roles[w].Transform?)
    && (forall w, ps, p :: Reads(c, w, qin) ==> env.xf(w, ps, p) == f(p))
  }

  lemma {:induction false} StampedThrough(schemaId: string, env: Env, w: nat, f: Payload -> Payload, ps: seq<Payload>)
    requires forall qs, p :: env.xf(w, qs, p) == f(p)
    ensures Stamped(schemaId, Images(env, w, ps)) == Through(schemaId, f, ps)
    decreases |ps|
  {
    if ps != [] {
      var before, p := ps[..|ps| - 1], ps[|ps| - 1];
      assert ps == before + [p];
      StampedThrough(schemaId, env, w, f, before);
      ImagesSnoc(env, w, before, p);
      StampedSnoc(schemaId, Images(env, w, before), f(p));
      ThroughConcat(schemaId, f, before, [p]);
    }
  }

  lemma {:induction false} FlatThrough(schemaId: string, f: Payload -> Payload,
                                       ins: seq<seq<Payload>>, outs: seq<seq<Payload>>)
    requires |ins| == |outs| && forall w :: 0 <= w < |ins| ==> outs[w] == Through(schemaId, f, ins[w])
    ensures Flat(outs) == Through(schemaId, f, Flat(ins))
  {
    if ins != [] {
      FlatThrough(schemaId, f, ins[1..], outs[1..]);
      ThroughConcat(schemaId, f, ins[0], Flat(ins[1..]));
    }
  }

  /** After a late stop, a stage's output is its function mapped over its input, up to order. */
  lemma LayerMaps(c: Config, env: Env, r: Run, n: nat, qin: nat, qout: nat, f: Payload -> Payload)
    requires CleanRun(c, env, r) && n < |r.states| && r.states[n].stop && !r.states[n].early
    requires Layer(c, env, qin, qout, f)
    requires exists w :: 0 <= w < |c.roles| && Reads(c, w, qin)
    ensures |r.states[n].queues| == |c.queues|
    ensures multiset(r.states[n].queues[qout].pushed)
            == multiset(Through(c.queues[qout].schemaId, f, r.states[n].queues[qin].pushed))
  {
    var s, schemaId := r.states[n], c.queues[qout].schemaId;
    CleanInv(c, env, r, n);
    JobDrains(c, env, r, n);
    var ins, outs := GotFrom(c, s, qin), SentTo(c, s, qout);
    forall w | 0 <= w < |c.roles|
      ensures outs[w] == Through(schemaId, f, ins[w])
    {
      assert Faithful(c, env, w, s.workers[w]) && Complete(c, env, s, w);
      if Reads(c, w, qin) {
        StampedThrough(schemaId, env, w, f, s.workers[w].got);
      }
    }
    FlatThrough(schemaId, f, ins, outs);
    ThroughPermutes(schemaId, f, Flat(ins), s.queues[qin].popped);
  }

  function ScriptsTo(c: Config, env: Env, q: nat): seq<seq<Payload>>
    requires |env.script| == |c.roles| && q < |c.queues|
  {
    seq(|c.roles|, w requires 0 <= w < |c.roles| =>
          if Writes(c, w, q) then Stamped(c.queues[q].schemaId, env.script[w]) else [])
  }

  function EatenFrom(c: Config, s: State, q: nat): seq<seq<Payload>>
  {
    seq(|s.workers|, w requires 0 <= w < |s.workers| => if Reads(c, w, q) then s.workers[w].eaten else [])
  }

  /**
   Queues qs[0], ..., qs[k] with stages of any number of workers: sources into the first, one
   layer of transforms between each two, and sinks at the last.
   */
  ghost predicate Layered(c: Config, env: Env, qs: seq<nat>, fs: seq<Payload -> Payload>)
  {
    && |qs| == |fs| + 1
    && (forall i :: 0 <= i < |qs| ==> qs[i] < |c.queues|)
    && (forall w :: 0 <= w < |c.roles| && Writes(c, w, qs[0]) ==> c.roles[w].Source?)
    && (forall i :: 0 <= i < |fs| ==> Layer(c, env, qs[i], qs[i + 1], fs[i]))
    && (forall i :: 0 <= i < |qs| ==> exists w :: 0 <= w < |c.roles| && Reads(c, w, qs[i]))
    && (forall w :: 0 <= w < |c.roles| && Reads(c, w, qs[|fs|]) ==> c.roles[w].Sink?)
  }

  /** All the sources' payloads put through the stages one after the other. */
  function Sequential(c: Config, env: Env, qs: seq<nat>, fs: seq<Payload -> Payload>, i: nat): seq<Payload>
    requires |env.script| == |c.roles| && i < |qs| == |fs| + 1
    requires forall j :: 0 <= j < |qs| ==> qs[j] < |c.queues|
  {
    if i == 0 then Flat(ScriptsTo(c, env, qs[0]))
    else Through(c.queues[qs[i]].schemaId, fs[i - 1], Sequential(c, env, qs, fs, i - 1))
  }

  lemma SourcesPushed(c: Config, env: Env, r: Run, n: nat, q: nat)
    requires CleanRun(c, env, r) && n < |r.states| && r.states[n].stop && !r.states[n].early
    requires q < |c.queues| && forall w :: 0 <= w < |c.roles| && Writes(c, w, q) ==> c.roles[w].Source?
    ensures |r.states[n].queues| == |c.queues|
    ensures multiset(r.states[n].queues[q].pushed) == multiset(Flat(ScriptsTo(c, env, q)))
  {
    var s := r.states[n];
    CleanInv(c, env, r, n);
    forall w | 0 <= w < |c.roles|
      ensures SentTo(c, s, q)[w] == ScriptsTo(c, env, q)[w]
    {
      assert Complete(c, env, s, w);
      if Writes(c, w, q) {
        SourceSent(c, env, w, s.workers[w]);
      }
    }
    assert SentTo(c, s, q) == ScriptsTo(c, env, q);
  }

  lemma SequentialStep(c: Config, env: Env, qs: seq<nat>, fs: seq<Payload -> Payload>, i: nat,
                       above: seq<Payload>, below: seq<Payload>)
    requires |env.script| == |c.roles| && 0 < i < |qs| == |fs| + 1
    requires forall j :: 0 <= j < |qs| ==> qs[j] < |c.queues|
    requires multiset(above) == multiset(Sequential(c, env, qs, fs, i - 1))
    requires multiset(below) == multiset(Through(c.queues[qs[i]].schemaId, fs[i - 1], above))
    ensures multiset(below) == multiset(Sequential(c, env, qs, fs, i))
  {
    ThroughPermutes(c.queues[qs[i]].schemaId, fs[i - 1], above, Sequential(c, env, qs, fs, i - 1));
  }

  lemma {:induction false} LayeredPushed(c: Config, env: Env, r: Run, n: nat,
                                         qs: seq<nat>, fs: seq<Payload -> Payload>, i: nat)
    requires CleanRun(c, env, r) && n < |r.states| && r.states[n].stop && !r.states[n].early
    requires Layered(c, env, qs, fs) && i < |qs|
    ensures |r.states[n].queues| == |c.queues|
    ensures multiset(r.states[n].queues[qs[i]].pushed) == multiset(Sequential(c, env, qs, fs, i))
    decreases i, 1
  {
    if i == 0 {
      LayeredFirst(c, env, r, n, qs, fs);
    } else {
      LayeredStep(c, env, r, n, qs, fs, i - 1, i);
    }
  }

  lemma LayeredFirst(c: Config, env: Env, r: Run, n: nat, qs: seq<nat>, fs: seq<Payload -> Payload>)
    requires CleanRun(c, env, r) && n < |r.states| && r.states[n].stop && !r.states[n].early
    requires Layered(c, env, qs, fs)
    ensures |r.states[n].queues| == |c.queues|
    ensures multiset(r.states[n].queues[qs[0]].pushed) == multiset(Sequential(c, env, qs, fs, 0))
  {
    SourcesPushed(c, env, r, n, qs[0]);
  }

  lemma {:induction false} LayeredStep(c: Config, env: Env, r: Run, n: nat,
                                       qs: seq<nat>, fs: seq<Payload -> Payload>, k: nat, i: nat)
    requires CleanRun(c, env, r) && n < |r.states| && r.states[n].stop && !r.states[n].early
    requires Layered(c, env, qs, fs) && i == k + 1 < |qs|
    ensures |r.states[n].queues| == |c.queues|
    ensures multiset(r.states[n].queues[qs[i]].pushed) == multiset(Sequential(c, env, qs, fs, i))
    decreases i, 0
  {
    LayeredPushed(c, env, r, n, qs, fs, k);
    assert Layer(c, env, qs[k], qs[k + 1], fs[k]);
    LayerMaps(c, env, r, n, qs[k], qs[i], fs[k]);
    SequentialStep(c, env, qs, fs, i, r.states[n].queues[qs[k]].pushed, r.states[n].queues[qs[i]].pushed);
  }

  /** Sinks have consumed all they got once a late stop has come. */
  lemma SinksAte(c: Config, env: Env, r: Run, n: nat, q: nat)
    requires CleanRun(c, env, r) && n < |r.states| && r.states[n].stop && !r.states[n].early
    requires q < |c.queues| && (exists w :: 0 <= w < |c.roles| && Reads(c, w, q))
    requires forall w :: 0 <= w < |c.roles| && Reads(c, w, q) ==> c.roles[w].Sink?
    ensures |r.states[n].queues| == |c.queues|
    ensures multiset(r.states[n].queues[q].pushed) == multiset(Flat(EatenFrom(c, r.states[n], q)))
  {
    var s := r.states[n];
    CleanInv(c, env, r, n);
    JobDrains(c, env, r, n);
    assert EatenFrom(c, s, q) == GotFrom(c, s, q);
  }

  /**
   With any number of workers per stage, the payloads consumed by the sinks after a late stop
   are, up to order, the sequential result: none lost, none invented, none duplicated.
   */
  lemma LayersRefineSequential(c: Config, env: Env, r: Run, n: nat, qs: seq<nat>, fs: seq<Payload -> Payload>)
    requires CleanRun(c, env, r) && n < |r.states| && r.states[n].stop && !r.states[n].early
    requires Layered(c, env, qs, fs)
    ensures multiset(Flat(EatenFrom(c, r.states[n], qs[|fs|]))) == multiset(Sequential(c, env, qs, fs, |fs|))
  {
    LayeredPushed(c, env, r, n, qs, fs, |fs|);
    SinksAte(c, env, r, n, qs[|fs|]);
  }
}
