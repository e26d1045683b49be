/** Flow specs: their canonical form and the rules that validation checks. */
module FlowSpecs {
  import opened NameOrder
  import opened Options
  import opened Collections

  const UNSPECIFIED: nat := 0
  const IN_MEMORY: nat := 1
  const DEFAULT_CAPACITY: nat := 128

  /** schemaId is None when the queue has no schema; kind is the number of its queue type. */
  datatype QueueSpec = QueueSpec(name: string, capacity: nat, schemaId: Option<string>, kind: nat)

  datatype StageSpec =
    StageSpec(name: string, stageType: string, threads: nat, input: Option<string>, output: Option<string>,
              priority: Option<nat>)

  /** A spec; its two lists are shared by whoever copies it. */
  class FlowSpec {
    var name: string
    var queues: array<QueueSpec>
    var stages: array<StageSpec>

    constructor (name: string, queues: array<QueueSpec>, stages: array<StageSpec>)
      ensures this.name == name && this.queues == queues && this.stages == stages
    {
      this.name, this.queues, this.stages := name, queues, stages;
    }
  }

  // ---------------------------------------------------------------- canonical form

  function QueueName(q: QueueSpec): string { q.name }

  function StageName(s: StageSpec): string { s.name }

  function Capped(q: QueueSpec): QueueSpec {
    if q.capacity == 0 then q.(capacity := DEFAULT_CAPACITY) else q
  }

  function AllCapped(qs: seq<QueueSpec>): (r: seq<QueueSpec>)
    ensures |r| == |qs| && forall i :: 0 <= i < |qs| ==> r[i] == Capped(qs[i])
  {
    seq(|qs|, i requires 0 <= i < |qs| => Capped(qs[i]))
  }

  /** What a list of queues may be normalised to: sorting is not stable, so there may be several. */
  ghost predicate NormalQueues(qs: seq<QueueSpec>, r: seq<QueueSpec>) {
    Arranges(AllCapped(qs), r, QueueName)
  }

  ghost predicate NormalStages(ss: seq<StageSpec>, r: seq<StageSpec>) {
    Arranges(ss, r, StageName)
  }

  lemma WithoutCapped(qs: seq<QueueSpec>, i: nat)
    requires i < |qs|
    ensures AllCapped(Without(qs, i)) == Without(AllCapped(qs), i)
  {
  }

  lemma {:induction false} CappedPermutes(a: seq<QueueSpec>, b: seq<QueueSpec>)
    requires multiset(a) == multiset(b)
    ensures multiset(AllCapped(a)) == multiset(AllCapped(b))
    decreases |a|, 1
  {
    assert |multiset(a)| == |a| && |multiset(b)| == |b|;
    if a == [] {
      assert AllCapped(a) == AllCapped(b);
    } else {
      assert a[0] in multiset(b);
      var i :| 0 <= i < |b| && b[i] == a[0];
      CappedPermutesFrom(a, b, i);
    }
  }

  lemma {:induction false} CappedPermutesFrom(a: seq<QueueSpec>, b: seq<QueueSpec>, i: nat)
    requires multiset(a) == multiset(b) && a != [] && i < |b| && b[i] == a[0]
    ensures multiset(AllCapped(a)) == multiset(AllCapped(b))
    decreases |a|, 0
  {
    WithoutCounts(a, 0);
    WithoutCounts(b, i);
    assert multiset(Without(a, 0)) == multiset(Without(b, i));
    CappedPermutes(Without(a, 0), Without(b, i));
    WithoutCapped(a, 0);
    WithoutCapped(b, i);
    WithoutCounts(AllCapped(a), 0);
    WithoutCounts(AllCapped(b), i);
  }

  /** Sorting before the capacities are filled in, as the code does, is sorting after. */
  lemma SortThenCap(qs: seq<QueueSpec>, sorted: seq<QueueSpec>)
    requires Sorted(sorted, QueueName) && multiset(sorted) == multiset(qs)
    ensures NormalQueues(qs, AllCapped(sorted))
  {
    CappedPermutes(sorted, qs);
  }

  /**
   With distinct names the canonical form is one: the same for every order of the input,
   for every correct sort, and for input that is canonical already.
   */
  lemma NormalFormUnique(qs: seq<QueueSpec>, qs': seq<QueueSpec>, r: seq<QueueSpec>, r': seq<QueueSpec>)
    requires multiset(qs) == multiset(qs') && Distinct(r, QueueName)
    requires NormalQueues(qs, r) && NormalQueues(qs', r')
    ensures r == r'
  {
    CappedPermutes(qs, qs');
    DistinctAgree(r, QueueName);
    SortedUnique(r, r', QueueName);
  }

  /** Every canonical form has its capacities, and is its own canonical form. */
  lemma NormalFormFixed(qs: seq<QueueSpec>, r: seq<QueueSpec>)
    requires NormalQueues(qs, r)
    ensures forall i :: 0 <= i < |r| ==> r[i].capacity > 0
    ensures NormalQueues(r, r)
  {
    forall i | 0 <= i < |r|
      ensures r[i].capacity > 0
    {
      assert r[i] in multiset(AllCapped(qs));
    }
    assert AllCapped(r) == r;
  }

  lemma NormalTwice(qs: seq<QueueSpec>, r: seq<QueueSpec>, r': seq<QueueSpec>)
    requires NormalQueues(qs, r) && NormalQueues(r, r') && Distinct(r, QueueName)
    ensures r' == r
  {
    NormalFormFixed(qs, r);
    NormalFormUnique(r, r, r, r');
  }

  /**
   The exact condition: a list of queues has one canonical form if and only if any two of its
   queues that have one name are the same once their capacities are filled in.
   */
  lemma NormalFormExactly(qs: seq<QueueSpec>)
    ensures (forall r, r' :: NormalQueues(qs, r) && NormalQueues(qs, r') ==> r == r')
            <==> forall i, j :: 0 <= i < |qs| && 0 <= j < |qs| && qs[i].name == qs[j].name ==> Capped(qs[i]) == Capped(qs[j])
  {
    var all := AllCapped(qs);
    assert forall i :: 0 <= i < |qs| ==> QueueName(all[i]) == qs[i].name && all[i] == Capped(qs[i]);
    if Agreeing(all, QueueName) {
      forall r, r' | NormalQueues(qs, r) && NormalQueues(qs, r')
        ensures r == r'
      {
        OneArrangement(all, r, r', QueueName);
      }
    } else {
      var r, r' := TwoArrangements(all, QueueName);
      assert NormalQueues(qs, r) && NormalQueues(qs, r');
    }
  }

  /** And a list of stages has one if and only if any two of its stages that have one name are the same. */
  lemma NormalStagesExactly(ss: seq<StageSpec>)
    ensures (forall r, r' :: NormalStages(ss, r) && NormalStages(ss, r') ==> r == r')
            <==> forall i, j :: 0 <= i < |ss| && 0 <= j < |ss| && ss[i].name == ss[j].name ==> ss[i] == ss[j]
  {
    assert forall i :: 0 <= i < |ss| ==> StageName(ss[i]) == ss[i].name;
    if Agreeing(ss, StageName) {
      forall r, r' | NormalStages(ss, r) && NormalStages(ss, r')
        ensures r == r'
      {
        OneArrangement(ss, r, r', StageName);
      }
    } else {
      var r, r' := TwoArrangements(ss, StageName);
      assert NormalStages(ss, r) && NormalStages(ss, r');
    }
  }

  lemma NormalStagesUnique(ss: seq<StageSpec>, ss': seq<StageSpec>, r: seq<StageSpec>, r': seq<StageSpec>)
    requires multiset(ss) == multiset(ss') && Distinct(r, StageName)
    requires NormalStages(ss, r) && NormalStages(ss', r')
    ensures r == r'
  {
    DistinctAgree(r, StageName);
    SortedUnique(r, r', StageName);
  }

  /** r is a list with its missing capacities set to 128 and nothing else changed. */
  predicate FilledIn(sorted: seq<QueueSpec>, r: seq<QueueSpec>) {
    && |r| == |sorted|
    && forall i :: 0 <= i < |r| ==>
         && r[i].name == sorted[i].name && r[i].schemaId == sorted[i].schemaId && r[i].kind == sorted[i].kind
         && r[i].capacity == (if sorted[i].capacity == 0 then 128 else sorted[i].capacity)
  }

  /** Sorted by name, then filled in. */
  ghost predicate SortedAndFilled(qs: seq<QueueSpec>, r: seq<QueueSpec>) {
    exists sorted :: Arranges(qs, sorted, QueueName) && FilledIn(sorted, r)
  }

  /** Sorting and filling in gives a canonical form, and a canonical form has the given queues, the missing capacities at 128. */
  lemma NormalQueuesExactly(qs: seq<QueueSpec>, r: seq<QueueSpec>)
    ensures SortedAndFilled(qs, r) ==> NormalQueues(qs, r)
    ensures NormalQueues(qs, r) ==> forall i :: 0 <= i < |r| ==>
              r[i].capacity > 0 && (r[i] in qs || (r[i].capacity == 128 && r[i].(capacity := 0) in qs))
  {
    forall sorted | Arranges(qs, sorted, QueueName) && FilledIn(sorted, r)
      ensures NormalQueues(qs, r)
    {
      assert r == AllCapped(sorted);
      SortThenCap(qs, sorted);
    }
    if NormalQueues(qs, r) {
      forall i | 0 <= i < |r|
        ensures r[i].capacity > 0 && (r[i] in qs || (r[i].capacity == 128 && r[i].(capacity := 0) in qs))
      {
        assert r[i] in multiset(AllCapped(qs));
      }
    }
  }

  /** Normalize: sorts and fills in, in the caller's own lists; the copy shares them. */
  method Normalize(spec: FlowSpec?) returns (r: FlowSpec?)
    modifies if spec == null then {} else {spec.queues, spec.stages}
    ensures spec == null <==> r == null
    ensures r != null ==> fresh(r) && r.name == spec.name && r.queues == spec.queues && r.stages == spec.stages
    ensures spec != null ==> NormalQueues(old(spec.queues[..]), spec.queues[..])
    ensures spec != null ==> SortedAndFilled(old(spec.queues[..]), spec.queues[..])
    ensures spec != null ==> NormalStages(old(spec.stages[..]), spec.stages[..])
  {
    if spec == null {
      return null;
    }
    SortByName(spec.queues, QueueName);
    ghost var sorted := spec.queues[..];
    for i := 0 to spec.queues.Length
      modifies spec.queues
      invariant forall k :: 0 <= k < i ==> spec.queues[k] == Capped(sorted[k])
      invariant forall k :: i <= k < spec.queues.Length ==> spec.queues[k] == sorted[k]
    {
      if spec.queues[i].capacity == 0 {
        spec.queues[i] := spec.queues[i].(capacity := DEFAULT_CAPACITY);
      }
    }
    assert spec.queues[..] == AllCapped(sorted);
    SortThenCap(old(spec.queues[..]), sorted);
    ghost var filled := spec.queues[..];
    assert Arranges(old(spec.queues[..]), sorted, QueueName) && FilledIn(sorted, filled);
    assert spec.stages[..] == old(spec.stages[..]);
    SortByName(spec.stages, StageName);
    r := new FlowSpec(spec.name, spec.queues, spec.stages);
  }

  // ---------------------------------------------------------------- validation

  datatype SpecError =
    | NilSpec
    | FlowNameRequired
    | NoStages
    | QueueNameRequired
    | DuplicateQueue(name: string)
    | StageNameRequired
    | DuplicateStage(name: string)
    | MissingType(stage: string)
    | NoThreads(stage: string)
    | UnknownInput(stage: string, queue: string)
    | UnknownOutput(stage: string, queue: string)

  predicate Known(qs: seq<QueueSpec>, name: Option<string>) {
    name.None? || exists i :: 0 <= i < |qs| && qs[i].name == name.value
  }

  predicate SoundStage(qs: seq<QueueSpec>, s: StageSpec) {
    s.name != "" && s.stageType != "" && s.threads >= 1 && Known(qs, s.input) && Known(qs, s.output)
  }

  /** The rules a flow spec must meet. */
  ghost predicate SoundSpec(name: string, qs: seq<QueueSpec>, ss: seq<StageSpec>) {
    && name != "" && ss != []
    && (forall i :: 0 <= i < |qs| ==> qs[i].name != "")
    && Distinct(qs, QueueName)
    && (forall i :: 0 <= i < |ss| ==> SoundStage(qs, ss[i]))
    && Distinct(ss, StageName)
  }

  /** What an error says is wrong. */
  ghost predicate Wrong(name: string, qs: seq<QueueSpec>, ss: seq<StageSpec>, e: SpecError) {
    match e
    case NilSpec => false
    case FlowNameRequired => name == ""
    case NoStages => ss == []
    case QueueNameRequired => exists i :: 0 <= i < |qs| && qs[i].name == ""
    case DuplicateQueue(n) => exists i, j :: 0 <= i < j < |qs| && qs[i].name == qs[j].name == n
    case StageNameRequired => exists i :: 0 <= i < |ss| && ss[i].name == ""
    case DuplicateStage(n) => exists i, j :: 0 <= i < j < |ss| && ss[i].name == ss[j].name == n
    case MissingType(n) => exists i :: 0 <= i < |ss| && ss[i].name == n && ss[i].stageType == ""
    case NoThreads(n) => exists i :: 0 <= i < |ss| && ss[i].name == n && ss[i].threads < 1
    case UnknownInput(n, q) =>
      !Known(qs, Some(q)) && exists i :: 0 <= i < |ss| && ss[i].name == n && ss[i].input == Some(q)
    case UnknownOutput(n, q) =>
      !Known(qs, Some(q)) && exists i :: 0 <= i < |ss| && ss[i].name == n && ss[i].output == Some(q)
  }

  lemma WrongIsUnsound(name: string, qs: seq<QueueSpec>, ss: seq<StageSpec>, e: SpecError)
    requires Wrong(name, qs, ss, e)
    ensures !SoundSpec(name, qs, ss)
  {
  }

  method CheckQueues(qs: array<QueueSpec>) returns (names: set<string>, r: Option<SpecError>)
    ensures r.None? ==> Distinct(qs[..], QueueName) && forall i :: 0 <= i < qs.Length ==> qs[i].name != ""
    ensures r.None? ==> forall n :: n in names <==> Known(qs[..], Some(n))
    ensures r.Some? ==> r.value.QueueNameRequired? || r.value.DuplicateQueue?
    ensures r.Some? ==> forall name, ss :: Wrong(name, qs[..], ss, r.value)
  {
    names := {};
    for i := 0 to qs.Length
      invariant forall k :: 0 <= k < i ==> qs[k].name != ""
      invariant Distinct(qs[..i], QueueName)
      invariant forall n :: n in names <==> Known(qs[..i], Some(n))
    {
      var q := qs[i];
      if q.name == "" {
        assert qs[..][i].name == "";
        return names, Some(QueueNameRequired);
      }
      if q.name in names {
        var k :| 0 <= k < |qs[..i]| && qs[..i][k].name == q.name;
        assert qs[..][k].name == qs[..][i].name == q.name;
        return names, Some(DuplicateQueue(q.name));
      }
      assert forall k :: 0 <= k < i ==> QueueName(qs[..i][k]) in names by {
        forall k | 0 <= k < i ensures Known(qs[..i], Some(qs[..i][k].name)) {}
      }
      assert qs[..i + 1] == qs[..i] + [q];
      names := names + {q.name};
    }
    assert qs[..qs.Length] == qs[..];
    r := None;
  }

  method CheckStage(s: StageSpec, names: set<string>, ghost qs: seq<QueueSpec>) returns (r: Option<SpecError>)
    requires s.name != "" && forall n :: n in names <==> Known(qs, Some(n))
    ensures r.None? <==> SoundStage(qs, s)
    ensures r.Some? ==> forall name, ss :: s in ss ==> Wrong(name, qs, ss, r.value)
  {
    if s.stageType == "" {
      return Some(MissingType(s.name));
    }
    if s.threads < 1 {
      return Some(NoThreads(s.name));
    }
    if s.input.Some? && s.input.value !in names {
      return Some(UnknownInput(s.name, s.input.value));
    }
    if s.output.Some? && s.output.value !in names {
      return Some(UnknownOutput(s.name, s.output.value));
    }
    return None;
  }

  method CheckStages(ss: array<StageSpec>, names: set<string>, ghost qs: seq<QueueSpec>)
    returns (r: Option<SpecError>)
    requires forall n :: n in names <==> Known(qs, Some(n))
    ensures r.None? ==> Distinct(ss[..], StageName) && forall i :: 0 <= i < ss.Length ==> SoundStage(qs, ss[i])
    ensures r.Some? ==> forall name :: Wrong(name, qs, ss[..], r.value)
  {
    var stageNames: set<string> := {};
    for i := 0 to ss.Length
      invariant forall k :: 0 <= k < i ==> SoundStage(qs, ss[k])
      invariant Distinct(ss[..i], StageName)
      invariant forall n :: n in stageNames <==> exists k :: 0 <= k < i && ss[k].name == n
    {
      var s := ss[i];
      if s.name == "" {
        assert ss[..][i].name == "";
        return Some(StageNameRequired);
      }
      if s.name in stageNames {
        var k :| 0 <= k < i && ss[k].name == s.name;
        assert ss[..][k].name == ss[..][i].name == s.name;
        return Some(DuplicateStage(s.name));
      }
      stageNames := stageNames + {s.name};
      r := CheckStage(s, names, qs);
      if r.Some? {
        assert s == ss[..][i];
        return;
      }
      assert ss[..i + 1] == ss[..i] + [s];
    }
    assert ss[..ss.Length] == ss[..];
    r := None;
  }

  /** Validate: accepts exactly the sound specs, and a refusal names something that is wrong. */
  method Validate(spec: FlowSpec?) returns (r: Option<SpecError>)
    ensures spec == null ==> r == Some(NilSpec)
    ensures spec != null ==> (r.None? <==> SoundSpec(spec.name, spec.queues[..], spec.stages[..]))
    ensures spec != null && r.Some? ==> Wrong(spec.name, spec.queues[..], spec.stages[..], r.value)
  {
    if spec == null {
      return Some(NilSpec);
    }
    if spec.name == "" {
      return Some(FlowNameRequired);
    }
    if spec.stages.Length == 0 {
      return Some(NoStages);
    }
    var names;
    names, r := CheckQueues(spec.queues);
    if r.None? {
      r := CheckStages(spec.stages, names, spec.queues[..]);
    }
    if r.Some? {
      WrongIsUnsound(spec.name, spec.queues[..], spec.stages[..], r.value);
    }
  }

  lemma NamesCarry(qs: seq<QueueSpec>, qs': seq<QueueSpec>)
    requires multiset(AllCapped(qs)) == multiset(AllCapped(qs'))
    ensures forall n :: Known(qs, n) ==> Known(qs', n)
    ensures Distinct(qs, QueueName) ==> Distinct(qs', QueueName)
  {
    forall n | Known(qs, n)
      ensures Known(qs', n)
    {
      if n.Some? {
        var i :| 0 <= i < |qs| && qs[i].name == n.value;
        assert AllCapped(qs)[i] in multiset(AllCapped(qs'));
        var j :| 0 <= j < |qs'| && AllCapped(qs')[j] == AllCapped(qs)[i];
        assert qs'[j].name == n.value;
      }
    }
    if Distinct(qs, QueueName) {
      assert forall i :: 0 <= i < |qs| ==> QueueName(AllCapped(qs)[i]) == QueueName(qs[i]);
      DistinctPermutes(AllCapped(qs), AllCapped(qs'), QueueName);
      forall i, j | 0 <= i < j < |qs'|
        ensures QueueName(qs'[i]) != QueueName(qs'[j])
      {
        assert QueueName(AllCapped(qs')[i]) != QueueName(AllCapped(qs')[j]);
      }
    }
  }

  lemma SoundCarries(name: string, qs: seq<QueueSpec>, ss: seq<StageSpec>, qs': seq<QueueSpec>, ss': seq<StageSpec>)
    requires multiset(AllCapped(qs)) == multiset(AllCapped(qs')) && multiset(ss) == multiset(ss')
    requires SoundSpec(name, qs, ss)
    ensures SoundSpec(name, qs', ss')
  {
    NamesCarry(qs, qs');
    DistinctPermutes(ss, ss', StageName);
    forall i | 0 <= i < |qs'|
      ensures qs'[i].name != ""
    {
      assert AllCapped(qs')[i] in multiset(AllCapped(qs));
    }
    forall i | 0 <= i < |ss'|
      ensures SoundStage(qs', ss'[i])
    {
      assert ss'[i] in multiset(ss);
    }
    assert |multiset(ss)| == |ss| && |multiset(ss')| == |ss'|;
  }

  /** Normalising neither repairs nor breaks a spec: validation says the same before and after. */
  lemma NormalSpecsAgree(name: string, qs: seq<QueueSpec>, ss: seq<StageSpec>, qs': seq<QueueSpec>, ss': seq<StageSpec>)
    requires NormalQueues(qs, qs') && NormalStages(ss, ss')
    ensures SoundSpec(name, qs, ss) <==> SoundSpec(name, qs', ss')
  {
    CappedPermutes(qs', AllCapped(qs));
    assert AllCapped(AllCapped(qs)) == AllCapped(qs);
    if SoundSpec(name, qs, ss) {
      SoundCarries(name, qs, ss, qs', ss');
    }
    if SoundSpec(name, qs', ss') {
      SoundCarries(name, qs', ss', qs, ss);
    }
  }
}
