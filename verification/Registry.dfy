/** The stage registry: loads plugins on demand, owns stage instances, tears both down. */
module Registry {
  import opened Options
  import opened Collections

  /** What happens to plugins and stages, in order. */
  datatype Event =
    | Loaded(plugin: string)
    | Created(stage: nat, plugin: string)
    | Destroyed(stage: nat)
    | Unloaded(plugin: string)

  // ---------------------------------------------------------------- the discipline

  /** Where a disciplined trace has got to; stages are numbered in the order of their creation. */
  datatype Ledger = Ledger(loaded: set<string>, alive: map<nat, string>, next: nat)

  /**
   A plugin is loaded only while it is not; a stage is created once, by a loaded plugin;
   destroyed once, while its plugin is loaded; and a plugin with live stages is not unloaded,
   but for the stages that were lost.
   */
  predicate Permits(a: Ledger, lost: set<nat>, e: Event)
  {
    match e
    case Loaded(p) => p !in a.loaded
    case Created(s, p) => p in a.loaded && a.next <= s
    case Destroyed(s) => s in a.alive && s !in lost && a.alive[s] in a.loaded
    case Unloaded(p) => p in a.loaded && forall s :: s in a.alive && s !in lost ==> a.alive[s] != p
  }

  function Enter(a: Ledger, e: Event): Ledger
  {
    match e
    case Loaded(p) => a.(loaded := a.loaded + {p})
    case Created(s, p) => a.(alive := a.alive[s := p], next := s + 1)
    case Destroyed(s) => a.(alive := a.alive - {s})
    case Unloaded(p) => a.(loaded := a.loaded - {p})
  }

  /** The ledger after a trace, None if the trace breaks the discipline. */
  function Replay(trace: seq<Event>, lost: set<nat>): Option<Ledger>
  {
    if trace == [] then Some(Ledger({}, map[], 0))
    else
      match Replay(trace[..|trace| - 1], lost)
      case None => None
      case Some(a) =>
        if Permits(a, lost, trace[|trace| - 1]) then Some(Enter(a, trace[|trace| - 1])) else None
  }

  lemma ReplaySnoc(trace: seq<Event>, lost: set<nat>, e: Event)
    requires Replay(trace, lost).Some? && Permits(Replay(trace, lost).value, lost, e)
    ensures Replay(trace + [e], lost) == Some(Enter(Replay(trace, lost).value, e))
  {
    assert (trace + [e])[..|trace|] == trace;
  }

  lemma {:induction false} ReplayPrefix(trace: seq<Event>, lost: set<nat>, n: nat)
    requires Replay(trace, lost).Some? && n <= |trace|
    ensures Replay(trace[..n], lost).Some?
    decreases |trace|
  {
    if n < |trace| {
      ReplayPrefix(trace[..|trace| - 1], lost, n);
      assert trace[..|trace| - 1][..n] == trace[..n];
    } else {
      assert trace[..n] == trace;
    }
  }

  lemma ReplayAt(trace: seq<Event>, lost: set<nat>, n: nat)
    requires Replay(trace, lost).Some? && n < |trace|
    ensures Replay(trace[..n], lost).Some? && Permits(Replay(trace[..n], lost).value, lost, trace[n])
    ensures Replay(trace[..n + 1], lost) == Some(Enter(Replay(trace[..n], lost).value, trace[n]))
  {
    ReplayPrefix(trace, lost, n + 1);
    assert trace[..n + 1][..n] == trace[..n];
  }

  lemma {:induction false} AliveWasCreated(trace: seq<Event>, lost: set<nat>, n: nat, s: nat)
    requires Replay(trace, lost).Some? && n <= |trace|
    ensures Replay(trace[..n], lost).Some?
    ensures s in Replay(trace[..n], lost).value.alive ==> s < Replay(trace[..n], lost).value.next
    decreases n
  {
    ReplayPrefix(trace, lost, n);
    if n > 0 {
      ReplayAt(trace, lost, n - 1);
      AliveWasCreated(trace, lost, n - 1, s);
    }
  }

  /** A stage once destroyed does not come alive again. */
  lemma {:induction false} DeadStaysDead(trace: seq<Event>, lost: set<nat>, i: nat, n: nat, s: nat)
    requires Replay(trace, lost).Some? && i < n <= |trace| && trace[i] == Destroyed(s)
    ensures Replay(trace[..n], lost).Some?
    ensures s < Replay(trace[..n], lost).value.next && s !in Replay(trace[..n], lost).value.alive
    decreases n
  {
    ReplayAt(trace, lost, n - 1);
    if i == n - 1 {
      AliveWasCreated(trace, lost, i, s);
    } else {
      DeadStaysDead(trace, lost, i, n - 1, s);
    }
  }

  /** In a disciplined trace no stage is destroyed twice. */
  lemma DestroyedAtMostOnce(trace: seq<Event>, lost: set<nat>, i: nat, j: nat, s: nat)
    requires Replay(trace, lost).Some? && i < j < |trace| && trace[i] == Destroyed(s)
    ensures trace[j] != Destroyed(s)
  {
    DeadStaysDead(trace, lost, i, j, s);
    ReplayAt(trace, lost, j);
  }

  /** Until it is destroyed a stage that was created is alive, and the plugin of one not lost is not unloaded. */
  lemma {:induction false} PluginOutlivesStage(trace: seq<Event>, lost: set<nat>, i: nat, n: nat, s: nat, p: string)
    requires Replay(trace, lost).Some? && i < n <= |trace| && trace[i] == Created(s, p)
    requires forall k :: i < k < n ==> trace[k] != Destroyed(s)
    ensures Replay(trace[..n], lost).Some?
    ensures var a := Replay(trace[..n], lost).value; s in a.alive && a.alive[s] == p && (s !in lost ==> p in a.loaded)
    ensures s !in lost ==> forall k :: i < k < n ==> trace[k] != Unloaded(p)
    decreases n
  {
    ReplayAt(trace, lost, n - 1);
    if i < n - 1 {
      PluginOutlivesStage(trace, lost, i, n - 1, s, p);
      AliveWasCreated(trace, lost, n - 1, s);
      OutlivesStep(Replay(trace[..n - 1], lost).value, lost, trace[n - 1], s, p);
    }
  }

  lemma OutlivesStep(a: Ledger, lost: set<nat>, e: Event, s: nat, p: string)
    requires Permits(a, lost, e) && e != Destroyed(s) && s < a.next
    requires s in a.alive && a.alive[s] == p && (s !in lost ==> p in a.loaded)
    ensures var b := Enter(a, e); s in b.alive && b.alive[s] == p && (s !in lost ==> p in b.loaded && e != Unloaded(p))
  {
  }

  /** Every stage that is alive was created. */
  lemma {:induction false} AliveHasBirth(trace: seq<Event>, lost: set<nat>, s: nat)
    requires Replay(trace, lost).Some? && s in Replay(trace, lost).value.alive
    ensures exists i :: 0 <= i < |trace| && trace[i] == Created(s, Replay(trace, lost).value.alive[s])
  {
    var before, e := trace[..|trace| - 1], trace[|trace| - 1];
    if s in Replay(before, lost).value.alive && !(e.Created? && e.stage == s) {
      AliveHasBirth(before, lost, s);
      var i :| 0 <= i < |before| && before[i] == Created(s, Replay(before, lost).value.alive[s]);
      assert trace[i] == before[i];
    }
  }

  /** The stage created at i is destroyed later, once, and its plugin is not unloaded before. */
  predicate DestroyedInTime(trace: seq<Event>, i: nat)
    requires i < |trace| && trace[i].Created?
  {
    exists j ::
      && i < j < |trace| && trace[j] == Destroyed(trace[i].stage)
      && (forall k :: i < k < j ==> trace[k] != Unloaded(trace[i].plugin) && trace[k] != Destroyed(trace[i].stage))
      && (forall k :: j < k < |trace| ==> trace[k] != Destroyed(trace[i].stage))
  }

  lemma FirstDestroyed(trace: seq<Event>, lost: set<nat>, i: nat, n: nat)
    requires Replay(trace, lost).Some? && i < n <= |trace| && trace[i].Created? && trace[i].stage !in lost
    requires exists j :: i < j < n && trace[j] == Destroyed(trace[i].stage)
    ensures DestroyedInTime(trace, i)
  {
    var s, p := trace[i].stage, trace[i].plugin;
    var j :| i < j < n && trace[j] == Destroyed(s);
    forall k | i < k < j
      ensures trace[k] != Destroyed(s)
    {
      if trace[k] == Destroyed(s) {
        DestroyedAtMostOnce(trace, lost, k, j, s);
      }
    }
    forall k | j < k < |trace|
      ensures trace[k] != Destroyed(s)
    {
      DestroyedAtMostOnce(trace, lost, j, k, s);
    }
    PluginOutlivesStage(trace, lost, i, j, s, p);
  }

  /**
   When only the lost stages are alive, every stage ever created has been destroyed exactly
   once, before its plugin was unloaded, if and only if none was lost.
   */
  lemma AllDestroyedInTime(trace: seq<Event>, lost: set<nat>)
    requires Replay(trace, lost).Some? && Replay(trace, lost).value.alive.Keys == lost
    ensures (forall i :: 0 <= i < |trace| && trace[i].Created? ==> DestroyedInTime(trace, i)) <==> lost == {}
  {
    assert trace[..|trace|] == trace;
    if s :| s in lost {
      AliveHasBirth(trace, lost, s);
      var i :| 0 <= i < |trace| && trace[i] == Created(s, Replay(trace, lost).value.alive[s]);
      forall j | i < j < |trace|
        ensures trace[j] != Destroyed(s)
      {
        ReplayAt(trace, lost, j);
      }
      assert !DestroyedInTime(trace, i);
    } else {
      forall i | 0 <= i < |trace| && trace[i].Created?
        ensures DestroyedInTime(trace, i)
      {
        if forall k :: i < k < |trace| ==> trace[k] != Destroyed(trace[i].stage) {
          PluginOutlivesStage(trace, lost, i, |trace|, trace[i].stage, trace[i].plugin);
        } else {
          FirstDestroyed(trace, lost, i, |trace|);
        }
      }
    }
  }

  /** A stage lost from now on, alive and as yet untouched, does not change what came before. */
  lemma {:induction false} LosingKeeps(trace: seq<Event>, lost: set<nat>, s: nat)
    requires Replay(trace, lost).Some? && s !in lost && Replay(trace, lost).value.next <= s
    ensures Replay(trace, lost + {s}) == Replay(trace, lost)
  {
    if trace != [] {
      var n := |trace| - 1;
      ReplayAt(trace, lost, n);
      assert trace[..n + 1] == trace;
      AliveWasCreated(trace, lost, n, s);
      LosingKeeps(trace[..n], lost, s);
      forall d | d in Replay(trace[..n], lost).value.alive
        ensures d < Replay(trace[..n], lost).value.next
      {
        AliveWasCreated(trace, lost, n, d);
      }
    }
  }

  // ---------------------------------------------------------------- the registry

  /** A registered instance; its stage stands for the pointer. */
  datatype StageInstance = StageInstance(plugin: string, stage: nat)

  /** The registered instances are exactly the live stages, with their plugins. */
  ghost predicate Matches(xs: seq<StageInstance>, alive: map<nat, string>)
  {
    && (forall i, j :: 0 <= i < j < |xs| ==> xs[i].stage != xs[j].stage)
    && (forall i :: 0 <= i < |xs| ==> xs[i].stage in alive && alive[xs[i].stage] == xs[i].plugin)
    && (forall s :: s in alive ==> exists i :: 0 <= i < |xs| && xs[i].stage == s)
  }

  lemma MatchesSnoc(xs: seq<StageInstance>, alive: map<nat, string>, x: StageInstance)
    requires Matches(xs, alive) && x.stage !in alive
    ensures Matches(xs + [x], alive[x.stage := x.plugin])
  {
    var ys := xs + [x];
    forall s | s in alive
      ensures exists i :: 0 <= i < |ys| && ys[i].stage == s
    {
      var i :| 0 <= i < |xs| && xs[i].stage == s;
      assert ys[i].stage == s;
    }
    assert ys[|xs|].stage == x.stage;
  }

  lemma MatchesErase(xs: seq<StageInstance>, alive: map<nat, string>, i: nat)
    requires Matches(xs, alive) && i < |xs|
    ensures Matches(Without(xs, i), alive - {xs[i].stage})
  {
    var ys, gone := Without(xs, i), xs[i].stage;
    forall k | 0 <= k < |ys|
      ensures ys[k].stage in alive - {gone} && alive[ys[k].stage] == ys[k].plugin
    {
      var j := Skip(i, k);
      assert xs[j] == ys[k] && (j < i || i < j);
    }
    forall j, k | 0 <= j < k < |ys|
      ensures ys[j].stage != ys[k].stage
    {
      assert Skip(i, j) < Skip(i, k);
    }
    forall s | s in alive && s != gone
      ensures exists k :: 0 <= k < |ys| && ys[k].stage == s
    {
      StillThere(xs, i, s);
    }
  }

  lemma StillThere(xs: seq<StageInstance>, i: nat, s: nat)
    requires i < |xs| && xs[i].stage != s && exists j :: 0 <= j < |xs| && xs[j].stage == s
    ensures exists k :: 0 <= k < |Without(xs, i)| && Without(xs, i)[k].stage == s
  {
    var j :| 0 <= j < |xs| && xs[j].stage == s;
    var k := if j < i then j else j - 1;
    assert Skip(i, k) == j && Without(xs, i)[k].stage == s;
  }

  lemma DropFirst(xs: seq<StageInstance>)
    requires xs != []
    ensures Without(xs, 0) == xs[1..]
  {
  }

  lemma TailOf(xs: seq<StageInstance>, n: nat)
    requires n < |xs|
    ensures xs[n..][0] == xs[n] && xs[n..][1..] == xs[n + 1..]
  {
  }

  lemma NothingLeft(alive: map<nat, string>)
    requires Matches([], alive)
    ensures alive == map[]
  {
    forall s | s in alive
      ensures false
    {
    }
  }

  function Destructions(xs: seq<StageInstance>): (r: seq<Event>)
    ensures |r| == |xs|
  {
    seq(|xs|, i requires 0 <= i < |xs| => Destroyed(xs[i].stage))
  }

  lemma DestructionsSnoc(xs: seq<StageInstance>, n: nat)
    requires n < |xs|
    ensures Destructions(xs[..n + 1]) == Destructions(xs[..n]) + [Destroyed(xs[n].stage)]
  {
  }

  function Unloads(ps: seq<string>): (r: seq<Event>)
    ensures |r| == |ps|
  {
    seq(|ps|, i requires 0 <= i < |ps| => Unloaded(ps[i]))
  }

  lemma UnloadsSnoc(ps: seq<string>, p: string)
    ensures Unloads(ps + [p]) == Unloads(ps) + [Unloaded(p)]
  {
  }

  /** What the plugin does in one create_stage call; whether it loads is another matter. */
  datatype Outcome =
    | CreateFails        // create() throws or returns null
    | RejectsConfig      // configure() returns false
    | ConfigureThrows    // configure() throws
    | Works

  class StageRegistry {
    var plugins: set<string>
    var instances: seq<StageInstance>
    var nextStage: nat
    ghost var trace: seq<Event>
    ghost var alive: map<nat, string>    // the registered stages
    ghost var lost: map<nat, string>     // created, never registered, never destroyed

    /** The trace is disciplined, and the containers are what it adds up to. */
    ghost predicate Valid()
      reads this
    {
      && alive.Keys !! lost.Keys
      && Replay(trace, lost.Keys) == Some(Ledger(plugins, alive + lost, nextStage))
      && Matches(instances, alive)
      && (forall s :: s in alive ==> s < nextStage && alive[s] in plugins)
      && (forall s :: s in lost ==> s < nextStage)
    }

    constructor ()
      ensures Valid() && plugins == {} && instances == [] && trace == [] && alive == map[] && lost == map[]
    {
      plugins, instances, nextStage, trace, alive, lost := {}, [], 0, [], map[], map[];
      new;
      assert alive + lost == map[];
    }

    method Load(plugin: string)
      requires Valid() && plugin !in plugins
      modifies this`plugins, this`trace
      ensures Valid() && plugins == old(plugins) + {plugin} && trace == old(trace) + [Loaded(plugin)]
    {
      ReplaySnoc(trace, lost.Keys, Loaded(plugin));
      assert Replay(trace + [Loaded(plugin)], lost.Keys) == Some(Ledger(plugins + {plugin}, alive + lost, nextStage));
      trace := trace + [Loaded(plugin)];
      plugins := plugins + {plugin};
    }

    /**
     Creates a stage.  A plugin that is not loaded is loaded first, if that succeeds, and stays
     loaded whatever happens then.  A stage whose configure() throws is lost.
     */
    method CreateStage(plugin: string, loads: bool, o: Outcome) returns (r: Option<nat>)
      requires Valid()
      modifies this
      ensures Valid()
      ensures var usable := loads || plugin in old(plugins);
              && (r.Some? <==> usable && o.Works?)
              && plugins == old(plugins) + (if usable then {plugin} else {})
              && lost == (if usable && o.ConfigureThrows? then old(lost)[old(nextStage) := plugin] else old(lost))
              && var loading := if usable && plugin !in old(plugins) then [Loaded(plugin)] else [];
                 trace == old(trace) + loading + (if !usable || o.CreateFails? then []
                                                  else if o.RejectsConfig? then [Created(old(nextStage), plugin),
                                                                                 Destroyed(old(nextStage))]
                                                  else [Created(old(nextStage), plugin)])
      ensures r.None? ==> instances == old(instances) && alive == old(alive)
      ensures r.Some? ==>
                && r.value == old(nextStage)
                && instances == old(instances) + [StageInstance(plugin, r.value)]
                && alive == old(alive)[r.value := plugin]
    {
      r := None;
      if plugin !in plugins {
        if !loads {
          return;
        }
        Load(plugin);
      }
      match o {
        case CreateFails =>
        case RejectsConfig => Reject(plugin);
        case ConfigureThrows => Lose(plugin);
        case Works =>
          var created := Register(plugin);
          r := Some(created);
      }
    }

    /** A stage that rejects its configuration is destroyed at once and never registered. */
    method Reject(plugin: string)
      requires Valid() && plugin in plugins
      modifies this`trace, this`nextStage
      ensures Valid() && nextStage == old(nextStage) + 1
      ensures trace == old(trace) + [Created(old(nextStage), plugin), Destroyed(old(nextStage))]
    {
      var stage := nextStage;
      ReplaySnoc(trace, lost.Keys, Created(stage, plugin));
      ReplaySnoc(trace + [Created(stage, plugin)], lost.Keys, Destroyed(stage));
      assert (alive + lost)[stage := plugin] - {stage} == alive + lost;
      assert trace + [Created(stage, plugin), Destroyed(stage)] == trace + [Created(stage, plugin)] + [Destroyed(stage)];
      trace := trace + [Created(stage, plugin)] + [Destroyed(stage)];
      nextStage := nextStage + 1;
    }

    /** A stage whose configure() throws: nobody holds it any more. */
    method Lose(plugin: string)
      requires Valid() && plugin in plugins
      modifies this`trace, this`nextStage, this`lost
      ensures Valid() && nextStage == old(nextStage) + 1 && lost == old(lost)[old(nextStage) := plugin]
      ensures trace == old(trace) + [Created(old(nextStage), plugin)]
    {
      var stage := nextStage;
      LosingKeeps(trace, lost.Keys, stage);
      assert lost[stage := plugin].Keys == lost.Keys + {stage};
      ReplaySnoc(trace, lost.Keys + {stage}, Created(stage, plugin));
      assert (alive + lost)[stage := plugin] == alive + lost[stage := plugin];
      trace := trace + [Created(stage, plugin)];
      nextStage := nextStage + 1;
      lost := lost[stage := plugin];
    }

    method Register(plugin: string) returns (stage: nat)
      requires Valid() && plugin in plugins
      modifies this`instances, this`trace, this`alive, this`nextStage
      ensures Valid() && stage == old(nextStage)
      ensures instances == old(instances) + [StageInstance(plugin, stage)]
      ensures alive == old(alive)[stage := plugin]
      ensures trace == old(trace) + [Created(stage, plugin)]
    {
      stage := nextStage;
      ReplaySnoc(trace, lost.Keys, Created(stage, plugin));
      MatchesSnoc(instances, alive, StageInstance(plugin, stage));
      assert (alive + lost)[stage := plugin] == alive[stage := plugin] + lost;
      trace := trace + [Created(stage, plugin)];
      nextStage := nextStage + 1;
      alive := alive[stage := plugin];
      instances := instances + [StageInstance(plugin, stage)];
    }

    method Erase(i: nat)
      requires Valid() && i < |instances|
      modifies this`instances, this`trace, this`alive
      ensures Valid() && trace == old(trace) + [Destroyed(old(instances)[i].stage)]
      ensures instances == Without(old(instances), i)
      ensures alive == old(alive) - {old(instances)[i].stage}
    {
      var stage := instances[i].stage;
      ReplaySnoc(trace, lost.Keys, Destroyed(stage));
      assert (alive + lost) - {stage} == (alive - {stage}) + lost;
      MatchesErase(instances, alive, i);
      trace := trace + [Destroyed(stage)];
      alive := alive - {stage};
      instances := Without(instances, i);
    }

    /** Destroys a registered stage once; a stage that is not registered is left alone. */
    method DestroyStage(stage: nat)
      requires Valid()
      modifies this`instances, this`trace, this`alive
      ensures Valid() && alive == old(alive) - {stage}
      ensures stage in old(alive) ==> trace == old(trace) + [Destroyed(stage)]
      ensures stage in old(alive) ==>
                exists i :: && 0 <= i < |old(instances)| && old(instances)[i].stage == stage
                            && instances == Without(old(instances), i)
      ensures stage !in old(alive) ==> trace == old(trace) && instances == old(instances)
    {
      for i := 0 to |instances|
        invariant Valid() && unchanged(this)
        invariant forall k :: 0 <= k < i ==> instances[k].stage != stage
      {
        if instances[i].stage == stage {
          Erase(i);
          return;
        }
      }
      assert alive == alive - {stage};
    }

    method DestroyFirst()
      requires Valid() && instances != []
      modifies this`instances, this`trace, this`alive
      ensures Valid() && instances == old(instances)[1..]
      ensures trace == old(trace) + [Destroyed(old(instances)[0].stage)]
    {
      DropFirst(instances);
      Erase(0);
    }

    method DestroyAll()
      requires Valid()
      modifies this`instances, this`trace, this`alive
      ensures Valid() && instances == [] && alive == map[]
      ensures trace == old(trace) + Destructions(old(instances))
    {
      ghost var n := 0;
      ghost var was := instances;
      while instances != []
        invariant Valid() && n <= |was| && instances == was[n..]
        invariant trace == old(trace) + Destructions(was[..n])
        decreases |instances|
      {
        ghost var before := trace;
        TailOf(was, n);
        DestroyFirst();
        assert trace == before + [Destroyed(was[n].stage)];
        DestructionsSnoc(was, n);
        n := n + 1;
      }
      assert was[..n] == was;
      NothingLeft(alive);
    }

    method UnloadAll() returns (ghost order: seq<string>)
      requires Valid() && alive == map[]
      modifies this`plugins, this`trace
      ensures Valid() && plugins == {}
      ensures |order| == |old(plugins)| && forall p :: p in order <==> p in old(plugins)
      ensures trace == old(trace) + Unloads(order)
    {
      order := [];
      while plugins != {}
        invariant Valid()
        invariant trace == old(trace) + Unloads(order)
        invariant |order| + |plugins| == |old(plugins)|
        invariant forall p :: p in old(plugins) <==> p in order || p in plugins
        decreases |plugins|
      {
        var p :| p in plugins;
        ReplaySnoc(trace, lost.Keys, Unloaded(p));
        UnloadsSnoc(order, p);
        trace := trace + [Unloaded(p)];
        order := order + [p];
        plugins := plugins - {p};
      }
    }

    /**
     Destroys every registered stage in order, then unloads every plugin, each once.
     A second call finds nothing and does nothing.  Every stage ever created has then been
     destroyed exactly once, before its plugin was unloaded, if and only if none was lost.
     */
    method Shutdown() returns (ghost order: seq<string>)
      requires Valid()
      modifies this
      ensures Valid() && plugins == {} && instances == [] && alive == map[]
      ensures |order| == |old(plugins)| && forall p :: p in order <==> p in old(plugins)
      ensures trace == old(trace) + Destructions(old(instances)) + Unloads(order)
      ensures old(instances) == [] && old(plugins) == {} ==> trace == old(trace)
      ensures lost == old(lost)
      ensures (forall i :: 0 <= i < |trace| && trace[i].Created? ==> DestroyedInTime(trace, i)) <==> lost == map[]
    {
      DestroyAll();
      order := UnloadAll();
      assert alive + lost == lost;
      AllDestroyedInTime(trace, lost.Keys);
      assert lost.Keys == {} <==> lost == map[];
    }
  }
}
