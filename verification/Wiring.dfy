/** How the runtime turns a spec into queues, producer counts and workers, and what can go wrong. */
module Wiring {
  import opened FlowSpecs
  import opened NameOrder
  import opened Options
  import opened Pipeline
  import opened PipelineCauses

  datatype WiringError =
    | ZeroCapacity(queue: string)
    | SchemaIdRequired(queue: string)
    | QueueTwice(queue: string)
    | UnsupportedKind(queue: string)
    | ThreadsBelowOne(stage: string)
    | BadWiring(stage: string)
    | NoInterface(stage: string)
    | NoSuchQueue(queue: string)    // queues.at() throws
    | InvalidPinning(stage: string)
    | DuplicatePinning(stage: string)
    | InvalidPriority(stage: string)
    | CreateThrows(stage: string)   // create_stage throws
    | WorkerMistyped(stage: string)

  // ---------------------------------------------------------------- queues

  predicate Supported(q: QueueSpec) {
    q.schemaId != Some("") && (q.kind == UNSPECIFIED || q.kind == IN_MEMORY)
  }

  ghost predicate Buildable(qs: seq<QueueSpec>) {
    Distinct(qs, QueueName) && forall i :: 0 <= i < |qs| ==> qs[i].capacity > 0 && Supported(qs[i])
  }

  function ConfigOf(q: QueueSpec): QueueConfig {
    QueueConfig(q.capacity, match q.schemaId { case None => "" case Some(id) => id })
  }

  /** The queue has the capacity of its spec, and its schema id, "" for no schema. */
  predicate Configures(q: QueueSpec, c: QueueConfig) {
    c.capacity == q.capacity && (if q.schemaId.None? then c.schemaId == "" else c.schemaId == q.schemaId.value)
  }

  /** What an error of queue construction says is wrong. */
  ghost predicate Unbuildable(qs: seq<QueueSpec>, e: WiringError) {
    match e
    case ZeroCapacity(n) => exists i :: 0 <= i < |qs| && qs[i].name == n && qs[i].capacity == 0
    case SchemaIdRequired(n) => exists i :: 0 <= i < |qs| && qs[i].name == n && qs[i].schemaId == Some("")
    case QueueTwice(n) => exists i, j :: 0 <= i < j < |qs| && qs[i].name == qs[j].name == n
    case UnsupportedKind(n) => exists i :: 0 <= i < |qs| && qs[i].name == n && qs[i].kind > IN_MEMORY
    case _ => false
  }

  /** Queues can be built exactly when no error is justified. */
  lemma BuildableExactly(qs: seq<QueueSpec>)
    ensures Buildable(qs) <==> forall e :: !Unbuildable(qs, e)
  {
    if !Distinct(qs, QueueName) {
      var i, j :| 0 <= i < j < |qs| && QueueName(qs[i]) == QueueName(qs[j]);
      assert Unbuildable(qs, QueueTwice(qs[i].name));
    }
    if i :| 0 <= i < |qs| && !(qs[i].capacity > 0 && Supported(qs[i])) {
      assert || Unbuildable(qs, ZeroCapacity(qs[i].name))
             || Unbuildable(qs, SchemaIdRequired(qs[i].name))
             || Unbuildable(qs, UnsupportedKind(qs[i].name));
    }
    forall e | Unbuildable(qs, e)
      ensures !Buildable(qs)
    {
    }
  }

  method BuildQueues(qs: seq<QueueSpec>) returns (r: Result<map<string, QueueConfig>, WiringError>)
    ensures r.Ok? <==> Buildable(qs)
    ensures r.Ok? ==> forall n :: n in r.value <==> Known(qs, Some(n))
    ensures r.Ok? ==> forall i :: 0 <= i < |qs| ==> qs[i].name in r.value && Configures(qs[i], r.value[qs[i].name])
    ensures r.Err? ==> Unbuildable(qs, r.error)
  {
    var queues: map<string, QueueConfig> := map[];
    for i := 0 to |qs|
      invariant Buildable(qs[..i])
      invariant forall n :: n in queues <==> exists k :: 0 <= k < i && qs[k].name == n
      invariant forall k :: 0 <= k < i ==> qs[k].name in queues && Configures(qs[k], queues[qs[k].name])
    {
      var q := qs[i];
      if q.capacity == 0 {
        return Err(ZeroCapacity(q.name));
      }
      if q.schemaId == Some("") {
        return Err(SchemaIdRequired(q.name));
      }
      if q.name in queues {
        return Err(QueueTwice(q.name));
      }
      if q.kind != UNSPECIFIED && q.kind != IN_MEMORY {
        return Err(UnsupportedKind(q.name));
      }
      assert qs[..i + 1] == qs[..i] + [q];
      queues := queues[q.name := ConfigOf(q)];
    }
    assert qs[..|qs|] == qs;
    return Ok(queues);
  }

  // ---------------------------------------------------------------- producer counts

  /** How many workers of these stages write a queue. */
  function ThreadsTo(ss: seq<StageSpec>, queue: string): nat {
    if ss == [] then 0
    else
      var s := ss[|ss| - 1];
      ThreadsTo(ss[..|ss| - 1], queue) + if s.output == Some(queue) then s.threads else 0
  }

  method CountProducers(ss: seq<StageSpec>) returns (counts: map<string, nat>)
    ensures forall n :: n in counts <==> exists i :: 0 <= i < |ss| && ss[i].output == Some(n)
    ensures forall n :: n in counts ==> counts[n] == ThreadsTo(ss, n)
  {
    counts := map[];
    for i := 0 to |ss|
      invariant forall n :: n in counts <==> exists k :: 0 <= k < i && ss[k].output == Some(n)
      invariant forall n :: ThreadsTo(ss[..i], n) == if n in counts then counts[n] else 0
    {
      assert ss[..i + 1][..i] == ss[..i];
      if ss[i].output.Some? {
        var n := ss[i].output.value;
        counts := counts[n := (if n in counts then counts[n] else 0) + ss[i].threads];
      }
    }
    assert ss[..|ss|] == ss;
  }

  // ---------------------------------------------------------------- stages

  /** The interface a plugin's stage turns out to have. */
  datatype Interface = IsSource | IsTransform | IsSink | IsNothing

  /** Does a stage declare the queues its interface needs, and no others? */
  predicate Fitting(s: StageSpec, k: Interface) {
    match k
    case IsSource => s.input.None? && s.output.Some?
    case IsTransform => s.input.Some? && s.output.Some?
    case IsSink => s.input.Some? && s.output.None?
    case IsNothing => false
  }

  function IndexOf(qs: seq<QueueSpec>, name: string): (r: Option<nat>)
    ensures r.Some? ==> r.value < |qs| && qs[r.value].name == name
    ensures r.None? <==> !Known(qs, Some(name))
  {
    if qs == [] then None
    else if qs[|qs| - 1].name == name then Some(|qs| - 1)
    else IndexOf(qs[..|qs| - 1], name)
  }

  function Resolve(qs: seq<QueueSpec>, name: Option<string>): Result<nat, WiringError> {
    if name.None? then Err(NoSuchQueue(""))
    else match IndexOf(qs, name.value) { case None => Err(NoSuchQueue(name.value)) case Some(q) => Ok(q) }
  }

  /** The role every worker of a stage gets, or what the wiring code throws. */
  function RoleOf(qs: seq<QueueSpec>, s: StageSpec, k: Interface): Result<Role, WiringError> {
    if s.threads < 1 then Err(ThreadsBelowOne(s.name))
    else if k.IsNothing? then Err(NoInterface(s.name))
    else if !Fitting(s, k) then Err(BadWiring(s.name))
    else
      match k
      case IsSource =>
        (match Resolve(qs, s.output) { case Err(e) => Err(e) case Ok(q) => Ok(Source(q)) })
      case IsSink =>
        (match Resolve(qs, s.input) { case Err(e) => Err(e) case Ok(q) => Ok(Sink(q)) })
      case IsTransform =>
        match Resolve(qs, s.input)
        case Err(e) => Err(e)
        case Ok(p) => match Resolve(qs, s.output) { case Err(e) => Err(e) case Ok(q) => Ok(Transform(p, q)) }
  }

  lemma SameSupport(given: seq<QueueSpec>, qs: seq<QueueSpec>)
    requires multiset(qs) == multiset(AllCapped(given))
    ensures (forall i :: 0 <= i < |qs| ==> Supported(qs[i])) <==> (forall i :: 0 <= i < |given| ==> Supported(given[i]))
  {
    if i :| 0 <= i < |qs| && !Supported(qs[i]) {
      assert qs[i] in multiset(AllCapped(given));
      var j :| 0 <= j < |given| && AllCapped(given)[j] == qs[i];
      assert !Supported(given[j]);
    }
    if j :| 0 <= j < |given| && !Supported(given[j]) {
      assert AllCapped(given)[j] in multiset(qs);
      var i :| 0 <= i < |qs| && qs[i] == AllCapped(given)[j];
      assert !Supported(qs[i]);
    }
  }

  /**
   Accepted and in canonical form, a spec gives queues unless one has a schema without an id
   or a type other than in-memory: capacity and duplicates are no reason any more.
   */
  lemma AcceptedQueuesBuild(name: string, given: seq<QueueSpec>, qs: seq<QueueSpec>, ss: seq<StageSpec>)
    requires NormalQueues(given, qs) && SoundSpec(name, qs, ss)
    ensures Buildable(qs) <==> forall i :: 0 <= i < |given| ==> Supported(given[i])
    ensures forall e :: Unbuildable(qs, e) ==> e.SchemaIdRequired? || e.UnsupportedKind?
  {
    NormalFormFixed(given, qs);
    SameSupport(given, qs);
  }

  // ---------------------------------------------------------------- the whole flow

  /** A wired stage: the role of its workers, and how many there are. */
  datatype Wired = Wired(role: Role, threads: nat)

  /** The workers in spawn order. */
  function Spawned(plan: seq<Wired>): seq<Role> {
    if plan == [] then []
    else Spawned(plan[..|plan| - 1]) + seq(plan[|plan| - 1].threads, _ => plan[|plan| - 1].role)
  }

  function StagesOf(plan: seq<Wired>): (r: seq<nat>)
    ensures |r| == |Spawned(plan)|
  {
    if plan == [] then []
    else StagesOf(plan[..|plan| - 1]) + seq(plan[|plan| - 1].threads, _ => |plan| - 1)
  }

  function ConfigFor(job: bool, qs: seq<QueueSpec>, plan: seq<Wired>): Config {
    Config(job, seq(|qs|, i requires 0 <= i < |qs| => ConfigOf(qs[i])), Spawned(plan), StagesOf(plan))
  }

  /** The plan for these stages, stage by stage. */
  predicate Planned(qs: seq<QueueSpec>, ss: seq<StageSpec>, ks: seq<Interface>, plan: seq<Wired>)
    requires |ss| == |ks|
  {
    && |plan| == |ss|
    && forall i :: 0 <= i < |ss| ==> RoleOf(qs, ss[i], ks[i]) == Ok(plan[i].role) && plan[i].threads == ss[i].threads
  }

  predicate InBounds(r: Role, n: nat) {
    (!r.Sink? ==> r.outq < n) && (!r.Source? ==> r.inq < n)
  }

  lemma {:induction false} SpawnedInBounds(plan: seq<Wired>, n: nat)
    requires forall i :: 0 <= i < |plan| ==> InBounds(plan[i].role, n)
    ensures forall w :: 0 <= w < |Spawned(plan)| ==> InBounds(Spawned(plan)[w], n)
  {
    if plan != [] {
      SpawnedInBounds(plan[..|plan| - 1], n);
    }
  }

  /** The workers among these that write a queue. */
  function WritersIn(roles: seq<Role>, q: nat): set<nat> {
    set w: nat | w < |roles| && !roles[w].Sink? && roles[w].outq == q
  }

  /** How many workers of a plan write a queue. */
  function PlannedTo(plan: seq<Wired>, q: nat): nat {
    if plan == [] then 0
    else
      var x := plan[|plan| - 1];
      PlannedTo(plan[..|plan| - 1], q) + if !x.role.Sink? && x.role.outq == q then x.threads else 0
  }

  lemma {:induction false} WritersCounted(roles: seq<Role>, role: Role, n: nat, q: nat)
    ensures |WritersIn(roles + seq(n, _ => role), q)|
            == |WritersIn(roles, q)| + if !role.Sink? && role.outq == q then n else 0
    decreases n
  {
    if n == 0 {
      assert roles + seq(n, _ => role) == roles;
    } else {
      var before := roles + seq(n - 1, _ => role);
      var after := roles + seq(n, _ => role);
      WritersCounted(roles, role, n - 1, q);
      assert after == before + [role];
      if !role.Sink? && role.outq == q {
        assert WritersIn(after, q) == WritersIn(before, q) + {|before|};
      } else {
        assert WritersIn(after, q) == WritersIn(before, q);
      }
    }
  }

  lemma {:induction false} PlanCounted(plan: seq<Wired>, q: nat)
    ensures |WritersIn(Spawned(plan), q)| == PlannedTo(plan, q)
  {
    if plan == [] {
      assert WritersIn(Spawned(plan), q) == {};
    } else {
      var x := plan[|plan| - 1];
      PlanCounted(plan[..|plan| - 1], q);
      WritersCounted(Spawned(plan[..|plan| - 1]), x.role, x.threads, q);
    }
  }

  lemma RoleInBounds(qs: seq<QueueSpec>, s: StageSpec, k: Interface)
    requires RoleOf(qs, s, k).Ok?
    ensures InBounds(RoleOf(qs, s, k).value, |qs|)
  {
  }

  lemma PlanInBounds(qs: seq<QueueSpec>, ss: seq<StageSpec>, ks: seq<Interface>, plan: seq<Wired>)
    requires |ss| == |ks| && Planned(qs, ss, ks, plan)
    ensures forall i :: 0 <= i < |plan| ==> InBounds(plan[i].role, |qs|)
  {
    forall i | 0 <= i < |plan|
      ensures InBounds(plan[i].role, |qs|)
    {
      RoleInBounds(qs, ss[i], ks[i]);
    }
  }

  lemma WritesIts(qs: seq<QueueSpec>, s: StageSpec, k: Interface, q: nat)
    requires Distinct(qs, QueueName) && q < |qs| && RoleOf(qs, s, k).Ok?
    ensures var role := RoleOf(qs, s, k).value;
            !role.Sink? && role.outq == q <==> s.output == Some(qs[q].name)
  {
    if s.output == Some(qs[q].name) {
      var i := IndexOf(qs, qs[q].name).value;
      assert QueueName(qs[i]) == QueueName(qs[q]);
    }
  }

  lemma {:induction false} CountsAgree(qs: seq<QueueSpec>, ss: seq<StageSpec>, ks: seq<Interface>, plan: seq<Wired>, q: nat)
    requires |ss| == |ks| && Planned(qs, ss, ks, plan) && Distinct(qs, QueueName) && q < |qs|
    ensures PlannedTo(plan, q) == ThreadsTo(ss, qs[q].name)
    decreases |ss|
  {
    if ss != [] {
      var n := |ss| - 1;
      WritesIts(qs, ss[n], ks[n], q);
      CountsAgree(qs, ss[..n], ks[..n], plan[..n], q);
    }
  }

  lemma ReadsIts(qs: seq<QueueSpec>, s: StageSpec, k: Interface, q: nat)
    requires Distinct(qs, QueueName) && q < |qs| && RoleOf(qs, s, k).Ok?
    ensures var role := RoleOf(qs, s, k).value;
            !role.Source? && role.inq == q <==> s.input == Some(qs[q].name)
  {
    if s.input == Some(qs[q].name) {
      var i := IndexOf(qs, qs[q].name).value;
      assert QueueName(qs[i]) == QueueName(qs[q]);
    }
  }

  /** Each worker has the role of its stage, and workers are listed stage by stage. */
  lemma {:induction false} SpawnedByStage(plan: seq<Wired>)
    ensures forall w :: 0 <= w < |Spawned(plan)| ==>
              StagesOf(plan)[w] < |plan| && Spawned(plan)[w] == plan[StagesOf(plan)[w]].role
    ensures forall v, w :: 0 <= v < w < |Spawned(plan)| ==> StagesOf(plan)[v] <= StagesOf(plan)[w]
  {
    if plan != [] {
      SpawnedByStage(plan[..|plan| - 1]);
    }
  }

  /** The workers of stage i. */
  function WorkersOf(stageOf: seq<nat>, i: nat): set<nat> {
    set w: nat | w < |stageOf| && stageOf[w] == i
  }

  lemma {:induction false} WorkersCounted(plan: seq<Wired>, i: nat)
    requires i < |plan|
    ensures |WorkersOf(StagesOf(plan), i)| == plan[i].threads
  {
    var n := |plan| - 1;
    var before := plan[..n];
    SpawnedByStage(before);
    if i < n {
      WorkersCounted(before, i);
      assert WorkersOf(StagesOf(plan), i) == WorkersOf(StagesOf(before), i);
    } else {
      var from := |StagesOf(before)|;
      assert WorkersOf(StagesOf(plan), i) == Range(from, plan[n].threads);
    }
  }

  /** The n numbers from a start on. */
  function Range(from: nat, n: nat): (r: set<nat>)
    ensures |r| == n && forall w :: w in r <==> from <= w < from + n
  {
    if n == 0 then {} else Range(from, n - 1) + {from + n - 1}
  }

  /**
   A flow that wires is a valid configuration: queue by queue with the capacity and schema of its
   spec, stage by stage with as many workers as its spec has threads; the workers that read or
   write a queue are exactly those of the stages that name it as their input or output; and the
   count each queue's producers start from, taken from the spec, is the number of its writers.
   */
  lemma {:induction false} WiredConfig(job: bool, qs: seq<QueueSpec>, ss: seq<StageSpec>, ks: seq<Interface>, plan: seq<Wired>)
    requires Buildable(qs) && |ss| == |ks| && Planned(qs, ss, ks, plan)
    ensures var c := ConfigFor(job, qs, plan);
            && ValidConfig(c) && c.job == job && |c.queues| == |qs|
            && (forall q :: 0 <= q < |qs| ==> Configures(qs[q], c.queues[q]))
            && (forall q :: 0 <= q < |qs| ==> |Producers(c, q)| == ThreadsTo(ss, qs[q].name))
    ensures ByStage(ConfigFor(job, qs, plan), qs, ss)
  {
    var c := ConfigFor(job, qs, plan);
    PlanInBounds(qs, ss, ks, plan);
    SpawnedInBounds(plan, |qs|);
    forall q | 0 <= q < |qs|
      ensures |Producers(c, q)| == ThreadsTo(ss, qs[q].name)
    {
      assert Producers(c, q) == WritersIn(c.roles, q);
      PlanCounted(plan, q);
      CountsAgree(qs, ss, ks, plan, q);
    }
    WiredByStage(job, qs, ss, ks, plan);
  }

  /** The workers of the configuration, stage by stage of the spec. */
  ghost predicate ByStage(c: Config, qs: seq<QueueSpec>, ss: seq<StageSpec>) {
    && |c.stageOf| == |c.roles| && InStages(c)
    && (forall w :: 0 <= w < |c.roles| ==> c.stageOf[w] < |ss|)
    && (forall i :: 0 <= i < |ss| ==> |WorkersOf(c.stageOf, i)| == ss[i].threads)
    && (forall w, q :: 0 <= w < |c.roles| && 0 <= q < |qs| ==> WiredTo(c, qs, ss, w, q))
  }

  /** Worker w reads and writes queue q exactly as its stage says. */
  predicate WiredTo(c: Config, qs: seq<QueueSpec>, ss: seq<StageSpec>, w: nat, q: nat)
    requires w < |c.roles| == |c.stageOf| && c.stageOf[w] < |ss| && q < |qs|
  {
    && (Reads(c, w, q) <==> ss[c.stageOf[w]].input == Some(qs[q].name))
    && (Writes(c, w, q) <==> ss[c.stageOf[w]].output == Some(qs[q].name))
  }

  lemma WiredByStage(job: bool, qs: seq<QueueSpec>, ss: seq<StageSpec>, ks: seq<Interface>, plan: seq<Wired>)
    requires Buildable(qs) && |ss| == |ks| && Planned(qs, ss, ks, plan)
    ensures ByStage(ConfigFor(job, qs, plan), qs, ss)
  {
    var c := ConfigFor(job, qs, plan);
    SpawnedByStage(plan);
    forall i | 0 <= i < |ss|
      ensures |WorkersOf(c.stageOf, i)| == ss[i].threads
    {
      WorkersCounted(plan, i);
    }
    forall w, q | 0 <= w < |c.roles| && 0 <= q < |qs|
      ensures WiredTo(c, qs, ss, w, q)
    {
      var i := c.stageOf[w];
      assert c.roles[w] == plan[i].role;
      ReadsIts(qs, ss[i], ks[i], q);
      WritesIts(qs, ss[i], ks[i], q);
    }
  }

  lemma SpawnedSnoc(plan: seq<Wired>, x: Wired)
    ensures Spawned(plan + [x]) == Spawned(plan) + seq(x.threads, _ => x.role)
    ensures StagesOf(plan + [x]) == StagesOf(plan) + seq(x.threads, _ => |plan|)
  {
    assert (plan + [x])[..|plan|] == plan;
  }

  // ---------------------------------------------------------------- CPUs and priorities

  /** What the wiring code asks of the machine and of the spec's Kubernetes settings. */
  datatype Host = Host(pinning: Option<map<string, seq<nat>>>, maxCpu: nat, priorities: Option<(int, int)>)

  function PinnedTo(h: Host, s: StageSpec): seq<nat> {
    if h.pinning.Some? && s.name in h.pinning.value then h.pinning.value[s.name] else []
  }

  predicate CpusOk(h: Host, cpus: seq<nat>) {
    && (forall i :: 0 <= i < |cpus| ==> cpus[i] < h.maxCpu)
    && forall i, j :: 0 <= i < j < |cpus| ==> cpus[i] != cpus[j]
  }

  /** A priority is cast from 32 unsigned bits to a signed int. */
  function AsInt(p: nat): int {
    if p % 0x1_0000_0000 < 0x8000_0000 then p % 0x1_0000_0000 else p % 0x1_0000_0000 - 0x1_0000_0000
  }

  predicate PriorityOk(h: Host, s: StageSpec) {
    s.priority.Some? && h.priorities.Some? ==> h.priorities.value.0 <= AsInt(s.priority.value) <= h.priorities.value.1
  }

  /**
   A priority that fits an int is compared as it is; one that does not is cast to a negative
   number, which no range of valid priorities holds.
   */
  lemma PriorityExactly(h: Host, s: StageSpec)
    requires s.priority.Some? && h.priorities.Some? && 0 <= h.priorities.value.0
    ensures var p := s.priority.value;
            && (p < 0x8000_0000 ==> (PriorityOk(h, s) <==> h.priorities.value.0 <= p <= h.priorities.value.1))
            && (0x8000_0000 <= p < 0x1_0000_0000 ==> !PriorityOk(h, s))
  {
  }

  /** ValidateCpuPinning: the first CPU that is no CPU of the machine or was listed before decides. */
  method ValidateCpuPinning(h: Host, s: StageSpec) returns (e: Option<WiringError>)
    ensures e.None? <==> CpusOk(h, PinnedTo(h, s))
    ensures e == Some(InvalidPinning(s.name)) ==> exists i :: 0 <= i < |PinnedTo(h, s)| && PinnedTo(h, s)[i] >= h.maxCpu
    ensures e == Some(DuplicatePinning(s.name)) ==>
              exists i, j :: 0 <= i < j < |PinnedTo(h, s)| && PinnedTo(h, s)[i] == PinnedTo(h, s)[j]
    ensures e.Some? ==> e.value == InvalidPinning(s.name) || e.value == DuplicatePinning(s.name)
  {
    var cpus := PinnedTo(h, s);
    var seen: set<nat> := {};
    for i := 0 to |cpus|
      invariant CpusOk(h, cpus[..i])
      invariant forall cpu :: cpu in seen <==> cpu in cpus[..i]
    {
      if cpus[i] >= h.maxCpu {
        return Some(InvalidPinning(s.name));
      }
      if cpus[i] in seen {
        return Some(DuplicatePinning(s.name));
      }
      seen := seen + {cpus[i]};
      assert cpus[..i + 1] == cpus[..i] + [cpus[i]];
    }
    assert cpus[..|cpus|] == cpus;
    return None;
  }

  // ---------------------------------------------------------------- the instances of a stage

  /** The interfaces that an instance implements. */
  datatype Made = Made(source: bool, transform: bool, sink: bool)

  /** The first interface, in the order of the casts, decides what the stage is. */
  function KindOf(x: Made): Interface {
    if x.source then IsSource else if x.transform then IsTransform else if x.sink then IsSink else IsNothing
  }

  predicate Implements(x: Made, k: Interface) {
    match k
    case IsSource => x.source
    case IsTransform => x.transform
    case IsSink => x.sink
    case IsNothing => false
  }

  /** What create_stage returns for each worker of a stage in turn; None when it throws. */
  type Makes = seq<Option<Made>>

  function StageKind(made: Makes): Interface {
    if made != [] && made[0].Some? then KindOf(made[0].value) else IsNothing
  }

  function Kinds(makes: seq<Makes>): (ks: seq<Interface>)
    ensures |ks| == |makes|
  {
    seq(|makes|, i requires 0 <= i < |makes| => StageKind(makes[i]))
  }

  predicate AllMade(made: Makes) {
    forall i :: 0 <= i < |made| ==> made[i].Some?
  }

  /** The first n workers implement the interface of the stage. */
  predicate WellTyped(made: Makes, n: nat)
    requires n <= |made|
  {
    forall i :: 0 <= i < n ==> made[i].Some? && Implements(made[i].value, StageKind(made))
  }

  /** A stage gets all its workers. */
  predicate Wires(qs: seq<QueueSpec>, s: StageSpec, h: Host, made: Makes) {
    && CpusOk(h, PinnedTo(h, s)) && PriorityOk(h, s)
    && WellTyped(made, |made|)
    && RoleOf(qs, s, StageKind(made)).Ok?
  }

  /** How many of its workers are started, and how many of its instances are left registered, by a stage that throws e. */
  datatype Remains = Remains(started: nat, instances: nat)

  /** What is wrong with a stage that throws e, and what it leaves. */
  predicate Faulty(qs: seq<QueueSpec>, s: StageSpec, h: Host, made: Makes, e: WiringError, left: Remains)
  {
    match e
    case ThreadsBelowOne(_) => s.threads == 0 && left == Remains(0, 0)
    case InvalidPinning(_) =>
      (exists i :: 0 <= i < |PinnedTo(h, s)| && PinnedTo(h, s)[i] >= h.maxCpu) && left == Remains(0, 0)
    case DuplicatePinning(_) =>
      && (exists i, j :: 0 <= i < j < |PinnedTo(h, s)| && PinnedTo(h, s)[i] == PinnedTo(h, s)[j])
      && left == Remains(0, 0)
    case InvalidPriority(_) =>
      && s.priority.Some? && h.priorities.Some? && left == Remains(0, 0)
      && (AsInt(s.priority.value) < h.priorities.value.0 || h.priorities.value.1 < AsInt(s.priority.value))
    case CreateThrows(_) => !AllMade(made) && left == Remains(0, 0)
    case NoInterface(_) => made != [] && made[0].Some? && StageKind(made).IsNothing? && left == Remains(0, 0)
    case BadWiring(_) => !StageKind(made).IsNothing? && !Fitting(s, StageKind(made)) && left == Remains(0, 0)
    case NoSuchQueue(_) =>
      && AllMade(made) && Fitting(s, StageKind(made))
      && RoleOf(qs, s, StageKind(made)) == Err(e) && left == Remains(0, |made|)
    case WorkerMistyped(_) =>
      && AllMade(made) && RoleOf(qs, s, StageKind(made)).Ok? && left.instances == |made|
      && left.started < |made| && WellTyped(made, left.started)
      && !Implements(made[left.started].value, StageKind(made))
    case _ => false
  }

  /** For an accepted stage: the machine, the plugin and the interface alone decide, and no queue is missing. */
  lemma AcceptedStagesWire(qs: seq<QueueSpec>, s: StageSpec, h: Host, made: Makes)
    requires SoundStage(qs, s) && |made| == s.threads
    ensures Wires(qs, s, h, made) <==>
              CpusOk(h, PinnedTo(h, s)) && PriorityOk(h, s) && WellTyped(made, |made|) && Fitting(s, StageKind(made))
    ensures forall e, left :: Faulty(qs, s, h, made, e, left) ==> !e.ThreadsBelowOne? && !e.NoSuchQueue?
  {
  }

  /**
   The queues and interfaces of a role, spelled out: a source writes the stage's output, a
   transform reads its input and writes its output, a sink reads its input; a stage whose first
   instance is a source is one, else a transform, else a sink; and the worker's own instance x
   can play that role.
   */
  predicate Plays(qs: seq<QueueSpec>, s: StageSpec, first: Made, x: Made, role: Role) {
    match role
    case Source(out) =>
      && first.source && x.source
      && out < |qs| && s.input == None && s.output == Some(qs[out].name)
    case Transform(inq, out) =>
      && !first.source && first.transform && x.transform
      && inq < |qs| && out < |qs| && s.input == Some(qs[inq].name) && s.output == Some(qs[out].name)
    case Sink(inq) =>
      && !first.source && !first.transform && first.sink && x.sink
      && inq < |qs| && s.input == Some(qs[inq].name) && s.output == None
  }

  predicate AllPlay(qs: seq<QueueSpec>, s: StageSpec, made: Makes, role: Role)
    requires AllMade(made)
  {
    forall i :: 0 <= i < |made| ==> Plays(qs, s, made[0].value, made[i].value, role)
  }

  lemma RoleOfPlays(qs: seq<QueueSpec>, s: StageSpec, first: Made, role: Role)
    ensures RoleOf(qs, s, KindOf(first)) == Ok(role) ==> s.threads >= 1 && Plays(qs, s, first, first, role)
    ensures s.threads >= 1 && Plays(qs, s, first, first, role) ==> RoleOf(qs, s, KindOf(first)).Ok?
  {
    if s.threads >= 1 && Plays(qs, s, first, first, role) {
      assert s.input.Some? ==> Known(qs, s.input);
      assert s.output.Some? ==> Known(qs, s.output);
    }
  }

  lemma PlayedBy(qs: seq<QueueSpec>, s: StageSpec, first: Made, x: Made, role: Role)
    requires Plays(qs, s, first, first, role)
    ensures Implements(x, KindOf(first)) <==> Plays(qs, s, first, x, role)
  {
  }

  /** A stage wires exactly when the machine accepts its settings and there is one role that all its instances play. */
  lemma WiresExactly(qs: seq<QueueSpec>, s: StageSpec, h: Host, made: Makes)
    requires |made| == s.threads
    ensures Wires(qs, s, h, made) <==>
              && CpusOk(h, PinnedTo(h, s)) && PriorityOk(h, s) && s.threads >= 1 && AllMade(made)
              && exists role :: AllPlay(qs, s, made, role)
    ensures Wires(qs, s, h, made) ==> AllMade(made) && AllPlay(qs, s, made, RoleOf(qs, s, StageKind(made)).value)
  {
    if Wires(qs, s, h, made) {
      var role := RoleOf(qs, s, StageKind(made)).value;
      RoleOfPlays(qs, s, made[0].value, role);
      forall i | 0 <= i < |made|
        ensures Plays(qs, s, made[0].value, made[i].value, role)
      {
        PlayedBy(qs, s, made[0].value, made[i].value, role);
      }
      assert AllPlay(qs, s, made, role);
    }
    if s.threads >= 1 && AllMade(made) {
      forall role | AllPlay(qs, s, made, role)
        ensures RoleOf(qs, s, StageKind(made)).Ok? && WellTyped(made, |made|)
      {
        assert Plays(qs, s, made[0].value, made[0].value, role);
        RoleOfPlays(qs, s, made[0].value, role);
        forall i | 0 <= i < |made|
          ensures Implements(made[i].value, StageKind(made))
        {
          PlayedBy(qs, s, made[0].value, made[i].value, role);
        }
      }
    }
  }

  /** No stage that wires has a fault. */
  lemma FaultyNeverWires(qs: seq<QueueSpec>, s: StageSpec, h: Host, made: Makes, e: WiringError, left: Remains)
    requires |made| == s.threads && Faulty(qs, s, h, made, e, left)
    ensures !Wires(qs, s, h, made)
  {
  }

  /** One stage of the wiring loop: every instance made for it is destroyed again unless its workers were being started. */
  method WireStage(qs: seq<QueueSpec>, s: StageSpec, h: Host, made: Makes)
    returns (r: Result<Role, WiringError>, left: Remains)
    requires |made| == s.threads
    ensures r.Ok? <==> Wires(qs, s, h, made)
    ensures r.Ok? ==> r == RoleOf(qs, s, StageKind(made)) && left == Remains(s.threads, s.threads)
    ensures r.Ok? ==> AllMade(made) && made != [] && AllPlay(qs, s, made, r.value)
    ensures r.Err? ==> Faulty(qs, s, h, made, r.error, left)
  {
    left := Remains(0, 0);
    WiresExactly(qs, s, h, made);
    if s.threads < 1 {
      return Err(ThreadsBelowOne(s.name)), left;
    }
    var pinned := ValidateCpuPinning(h, s);
    if pinned.Some? {
      return Err(pinned.value), left;
    }
    if !PriorityOk(h, s) {
      return Err(InvalidPriority(s.name)), left;
    }
    if made[0].None? {
      return Err(CreateThrows(s.name)), left;
    }
    var kind := KindOf(made[0].value);
    if kind.IsNothing? {
      return Err(NoInterface(s.name)), left;
    }
    if !Fitting(s, kind) {
      return Err(BadWiring(s.name)), left;
    }
    for i := 1 to |made|
      invariant forall j :: 0 <= j < i ==> made[j].Some?
    {
      if made[i].None? {
        return Err(CreateThrows(s.name)), left;
      }
    }
    left := Remains(0, |made|);
    r := RoleOf(qs, s, kind);
    if r.Err? {
      return;
    }
    for i := 0 to |made|
      invariant WellTyped(made, i) && left == Remains(i, |made|)
    {
      if !Implements(made[i].value, kind) {
        return Err(WiringError.WorkerMistyped(s.name)), left;
      }
      left := Remains(i + 1, |made|);
    }
  }

  predicate Shaped(ss: seq<StageSpec>, makes: seq<Makes>) {
    |makes| == |ss| && forall i :: 0 <= i < |ss| ==> |makes[i]| == ss[i].threads
  }

  /** What a stage that wires becomes. */
  function WiredStage(qs: seq<QueueSpec>, s: StageSpec, made: Makes): Wired
    requires RoleOf(qs, s, StageKind(made)).Ok?
  {
    Wired(RoleOf(qs, s, StageKind(made)).value, s.threads)
  }

  predicate WiredAs(qs: seq<QueueSpec>, s: StageSpec, h: Host, made: Makes, x: Wired) {
    Wires(qs, s, h, made) && x == WiredStage(qs, s, made)
  }

  /** The first stages all wire, and this is their plan. */
  predicate WiredSoFar(qs: seq<QueueSpec>, ss: seq<StageSpec>, h: Host, makes: seq<Makes>, plan: seq<Wired>)
    requires Shaped(ss, makes)
  {
    |plan| <= |ss| && forall k :: 0 <= k < |plan| ==> WiredAs(qs, ss[k], h, makes[k], plan[k])
  }

  /**
   The stage after the wired ones threw e: started are the workers by then, the wired stages' first,
   and instances how many are registered, those of the workers included.
   */
  ghost predicate ThrewAfter(qs: seq<QueueSpec>, ss: seq<StageSpec>, h: Host, makes: seq<Makes>, plan: seq<Wired>,
                             e: WiringError, started: seq<Role>, instances: nat)
    requires Shaped(ss, makes)
  {
    var i := |plan|;
    && i < |ss|
    && exists left ::
         && Faulty(qs, ss[i], h, makes[i], e, left)
         && instances == |Spawned(plan)| + left.instances
         && started == Spawned(plan) + StartedOf(qs, ss[i], makes[i], left.started)
  }

  /** The first n workers of a stage. */
  function StartedOf(qs: seq<QueueSpec>, s: StageSpec, made: Makes, n: nat): seq<Role> {
    match RoleOf(qs, s, StageKind(made))
    case Ok(role) => seq(n, _ => role)
    case Err(_) => []
  }

  method WireStages(qs: seq<QueueSpec>, ss: seq<StageSpec>, h: Host, makes: seq<Makes>)
    returns (e: Option<WiringError>, started: seq<Role>, stageOf: seq<nat>, instances: nat, ghost plan: seq<Wired>)
    requires Shaped(ss, makes)
    ensures WiredSoFar(qs, ss, h, makes, plan)
    ensures e.None? ==> |plan| == |ss| && started == Spawned(plan) && stageOf == StagesOf(plan) && instances == |started|
    ensures e.Some? ==> ThrewAfter(qs, ss, h, makes, plan, e.value, started, instances)
    ensures e.Some? ==> !Wires(qs, ss[|plan|], h, makes[|plan|])
  {
    plan, started, stageOf, instances := [], [], [], 0;
    for i := 0 to |ss|
      invariant |plan| == i && WiredSoFar(qs, ss, h, makes, plan)
      invariant started == Spawned(plan) && stageOf == StagesOf(plan) && instances == |started|
    {
      var role, left := WireStage(qs, ss[i], h, makes[i]);
      instances := instances + left.instances;
      if role.Err? {
        started := started + StartedOf(qs, ss[i], makes[i], left.started);
        return Some(role.error), started, stageOf, instances, plan;
      }
      assert WiredAs(qs, ss[i], h, makes[i], Wired(role.value, ss[i].threads));
      SpawnedSnoc(plan, Wired(role.value, ss[i].threads));
      plan := plan + [Wired(role.value, ss[i].threads)];
      started := started + seq(ss[i].threads, _ => role.value);
      stageOf := stageOf + seq(ss[i].threads, _ => i);
    }
    e := None;
  }

  lemma AllPlanned(qs: seq<QueueSpec>, ss: seq<StageSpec>, h: Host, makes: seq<Makes>, plan: seq<Wired>)
    requires Shaped(ss, makes) && WiredSoFar(qs, ss, h, makes, plan) && |plan| == |ss|
    ensures Planned(qs, ss, Kinds(makes), plan)
    ensures forall i :: 0 <= i < |ss| ==> Wires(qs, ss[i], h, makes[i])
  {
    forall i | 0 <= i < |ss|
      ensures Wires(qs, ss[i], h, makes[i])
      ensures RoleOf(qs, ss[i], Kinds(makes)[i]) == Ok(plan[i].role) && plan[i].threads == ss[i].threads
    {
      assert WiredAs(qs, ss[i], h, makes[i], plan[i]);
    }
  }

  /** The wiring of a flow, up to the first thing that throws. */
  method Wire(job: bool, qs: seq<QueueSpec>, ss: seq<StageSpec>, h: Host, makes: seq<Makes>)
    returns (r: Result<Config, WiringError>, started: seq<Role>, instances: nat, ghost plan: seq<Wired>)
    requires Shaped(ss, makes)
    ensures r.Ok? <==> Buildable(qs) && forall i :: 0 <= i < |ss| ==> Wires(qs, ss[i], h, makes[i])
    ensures r.Ok? ==> Planned(qs, ss, Kinds(makes), plan) && r.value == ConfigFor(job, qs, plan) && ValidConfig(r.value)
    ensures r.Ok? ==> started == r.value.roles && instances == |started| && ByStage(r.value, qs, ss)
    ensures r.Ok? ==> r.value.job == job && |r.value.queues| == |qs| && forall q :: 0 <= q < |qs| ==> Configures(qs[q], r.value.queues[q])
    ensures r.Err? && !Buildable(qs) ==> Unbuildable(qs, r.error) && started == [] && instances == 0
    ensures r.Err? && Buildable(qs) ==>
              WiredSoFar(qs, ss, h, makes, plan) && ThrewAfter(qs, ss, h, makes, plan, r.error, started, instances)
  {
    var built := BuildQueues(qs);
    if built.Err? {
      return Err(built.error), [], 0, [];
    }
    var e, stageOf;
    e, started, stageOf, instances, plan := WireStages(qs, ss, h, makes);
    if e.Some? {
      return Err(e.value), started, instances, plan;
    }
    AllPlanned(qs, ss, h, makes, plan);
    WiredConfig(job, qs, ss, Kinds(makes), plan);
    r := Ok(Config(job, seq(|qs|, i requires 0 <= i < |qs| => ConfigOf(qs[i])), started, stageOf));
  }
}
