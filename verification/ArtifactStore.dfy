/** The artifact stores: two maps in memory, or one shared bucket holding query packs and results together. */
module ArtifactStore {
  import opened Common
  import opened Decimal
  import opened Text

  // Packs and results are configured to live in one bucket.
  const BUCKET := "mrvabucket"

  function PackKey(session: int): string {
    Itoa(session) + "-packs"
  }

  /** The repository is printed the way a two-field record is: `{owner repo}`. */
  function Printed(n: NameWithOwner): string {
    "{" + n.owner + " " + n.repo + "}"
  }

  function ResultKey(js: JobSpec): string {
    Itoa(js.sessionId) + "-results-" + Printed(js.nwo)
  }

  function PackLocation(session: int): ArtifactLocation {
    ArtifactLocation(PackKey(session), BUCKET)
  }

  function ResultLocation(js: JobSpec): ArtifactLocation {
    ArtifactLocation(ResultKey(js), BUCKET)
  }

  predicate SpaceFree(s: string) {
    ' ' !in s
  }

  lemma PackKeyInjective(a: int, b: int)
    ensures PackKey(a) == PackKey(b) <==> a == b
  {
    if PackKey(a) == PackKey(b) {
      ItoaPrefixUnique(a, "-packs", b, "-packs");
    }
  }

  lemma TailsDiffer(rest: string)
    ensures "-packs" != "-results-" + rest
  {
    assert ("-results-" + rest)[1] == 'r';
  }

  lemma PackKeyNeverResultKey(session: int, js: JobSpec)
    ensures PackKey(session) != ResultKey(js)
  {
    var tail := "-results-" + Printed(js.nwo);
    TailsDiffer(Printed(js.nwo));
    assert ResultKey(js) == Itoa(js.sessionId) + tail;
    if Itoa(session) + "-packs" == Itoa(js.sessionId) + tail {
      ItoaPrefixUnique(session, "-packs", js.sessionId, tail);
    }
  }

  /** Two result keys meet exactly when the sessions agree and the repositories print alike. */
  lemma ResultKeyEqualIff(a: JobSpec, b: JobSpec)
    ensures ResultKey(a) == ResultKey(b)
       <==> a.sessionId == b.sessionId && a.nwo.owner + " " + a.nwo.repo == b.nwo.owner + " " + b.nwo.repo
  {
    var x, y := a.nwo.owner + " " + a.nwo.repo, b.nwo.owner + " " + b.nwo.repo;
    assert Printed(a.nwo) == "{" + x + "}" && Printed(b.nwo) == "{" + y + "}";
    var ra, rb := "-results-" + Printed(a.nwo), "-results-" + Printed(b.nwo);
    assert ResultKey(a) == Itoa(a.sessionId) + ra && ResultKey(b) == Itoa(b.sessionId) + rb;
    if ResultKey(a) == ResultKey(b) {
      ItoaPrefixUnique(a.sessionId, ra, b.sessionId, rb);
      assert ra[10..|ra| - 1] == x && rb[10..|rb| - 1] == y;
    }
  }

  /** For owners without spaces the key determines the job. */
  lemma ResultKeyInjective(a: JobSpec, b: JobSpec)
    requires SpaceFree(a.nwo.owner) && SpaceFree(b.nwo.owner)
    ensures ResultKey(a) == ResultKey(b) <==> a == b
  {
    ResultKeyEqualIff(a, b);
    if ResultKey(a) == ResultKey(b) {
      FirstCharUnique(a.nwo.owner, a.nwo.repo, b.nwo.owner, b.nwo.repo, ' ');
    }
  }

  /** With a space in the owner, two different repositories of a session share one result. */
  lemma SpacesCollide(session: int)
    ensures var a := JobSpec(session, NameWithOwner("a b", "c"));
            var b := JobSpec(session, NameWithOwner("a", "b c"));
            a != b && ResultKey(a) == ResultKey(b)
  {
    ResultKeyEqualIff(JobSpec(session, NameWithOwner("a b", "c")), JobSpec(session, NameWithOwner("a", "b c")));
    assert "a b" + " " + "c" == "a" + " " + "b c";
  }

  // ----- The stores as values

  datatype Memory = Memory(packs: map<string, Bytes>, results: map<string, Bytes>)

  type Objects = map<ArtifactLocation, Bytes>

  datatype SaveOp = SavePack(session: int, data: Bytes) | SaveResult(js: JobSpec, data: Bytes)

  function Target(op: SaveOp): ArtifactLocation {
    match op
    case SavePack(session, _) => PackLocation(session)
    case SaveResult(js, _) => ResultLocation(js)
  }

  function MemorySave(m: Memory, op: SaveOp): Memory {
    match op
    case SavePack(session, data) => m.(packs := m.packs[PackKey(session) := data])
    case SaveResult(js, data) => m.(results := m.results[ResultKey(js) := data])
  }

  function ObjectSave(o: Objects, op: SaveOp): Objects {
    o[Target(op) := op.data]
  }

  function MemoryRun(ops: seq<SaveOp>): Memory {
    if ops == [] then Memory(map[], map[]) else MemorySave(MemoryRun(ops[..|ops| - 1]), ops[|ops| - 1])
  }

  function ObjectRun(ops: seq<SaveOp>): Objects {
    if ops == [] then map[] else ObjectSave(ObjectRun(ops[..|ops| - 1]), ops[|ops| - 1])
  }

  function Lookup<K>(m: map<K, Bytes>, k: K): Option<Bytes> {
    if k in m then Some(m[k]) else None
  }

  /** The last data a history saved at the given location. */
  function LastSaved(ops: seq<SaveOp>, at: ArtifactLocation): Option<Bytes> {
    if ops == [] then None
    else if Target(ops[|ops| - 1]) == at then Some(ops[|ops| - 1].data)
    else LastSaved(ops[..|ops| - 1], at)
  }

  /** The bucket holds the last data saved at each location, whichever kind it is. */
  lemma {:induction false} BucketKeepsLast(ops: seq<SaveOp>, at: ArtifactLocation)
    ensures Lookup(ObjectRun(ops), at) == LastSaved(ops, at)
  {
    if ops != [] {
      BucketKeepsLast(ops[..|ops| - 1], at);
    }
  }

  /** Each getter of the in-memory store agrees with the bucket on the locations its own saver returns. */
  lemma {:induction false} MatchingGettersAgree(ops: seq<SaveOp>, session: int, js: JobSpec)
    ensures Lookup(MemoryRun(ops).packs, PackKey(session)) == LastSaved(ops, PackLocation(session))
    ensures Lookup(MemoryRun(ops).results, ResultKey(js)) == LastSaved(ops, ResultLocation(js))
    ensures Lookup(ObjectRun(ops), PackLocation(session)) == Lookup(MemoryRun(ops).packs, PackKey(session))
    ensures Lookup(ObjectRun(ops), ResultLocation(js)) == Lookup(MemoryRun(ops).results, ResultKey(js))
  {
    BucketKeepsLast(ops, PackLocation(session));
    BucketKeepsLast(ops, ResultLocation(js));
    if ops != [] {
      var n := |ops| - 1;
      MatchingGettersAgree(ops[..n], session, js);
      match ops[n]
      case SavePack(s, _) =>
        PackKeyInjective(s, session);
        PackKeyNeverResultKey(s, js);
      case SaveResult(j, _) =>
        PackKeyNeverResultKey(session, j);
    }
  }

  /** The last data saved for exactly this job. */
  function LastSavedFor(ops: seq<SaveOp>, js: JobSpec): Option<Bytes> {
    if ops == [] then None
    else if ops[|ops| - 1].SaveResult? && ops[|ops| - 1].js == js then Some(ops[|ops| - 1].data)
    else LastSavedFor(ops[..|ops| - 1], js)
  }

  lemma TargetIsOwn(op: SaveOp, js: JobSpec)
    requires SpaceFree(js.nwo.owner) && (op.SaveResult? ==> SpaceFree(op.js.nwo.owner))
    ensures Target(op) == ResultLocation(js) <==> op.SaveResult? && op.js == js
  {
    match op
    case SavePack(s, _) => PackKeyNeverResultKey(s, js);
    case SaveResult(j, _) => ResultKeyInjective(j, js);
  }

  lemma {:induction false} LastSavedAgrees(ops: seq<SaveOp>, at: ArtifactLocation, js: JobSpec)
    requires forall i :: 0 <= i < |ops| ==> (Target(ops[i]) == at <==> ops[i].SaveResult? && ops[i].js == js)
    ensures LastSaved(ops, at) == LastSavedFor(ops, js)
  {
    if ops != [] {
      LastSavedAgrees(ops[..|ops| - 1], at, js);
    }
  }

  /** When no owner contains a space, a result location resolves to the last data saved for its own job. */
  lemma ResultIsOwn(ops: seq<SaveOp>, js: JobSpec)
    requires SpaceFree(js.nwo.owner)
    requires forall i :: 0 <= i < |ops| && ops[i].SaveResult? ==> SpaceFree(ops[i].js.nwo.owner)
    ensures LastSaved(ops, ResultLocation(js)) == LastSavedFor(ops, js)
  {
    forall i | 0 <= i < |ops| ensures Target(ops[i]) == ResultLocation(js) <==> ops[i].SaveResult? && ops[i].js == js {
      TargetIsOwn(ops[i], js);
    }
    LastSavedAgrees(ops, ResultLocation(js), js);
  }

  lemma {:induction false} LastSavedNoneIff(ops: seq<SaveOp>, at: ArtifactLocation)
    ensures LastSaved(ops, at) == None <==> forall op :: op in ops ==> Target(op) != at
  {
    if ops != [] {
      var n := |ops| - 1;
      LastSavedNoneIff(ops[..n], at);
      assert ops == ops[..n] + [ops[n]];
    }
  }

  /** In memory the map of packs never holds a result key, nor the map of results a pack key. */
  lemma {:induction false} MapsStayApart(ops: seq<SaveOp>, session: int, js: JobSpec)
    ensures ResultKey(js) !in MemoryRun(ops).packs && PackKey(session) !in MemoryRun(ops).results
  {
    if ops != [] {
      var n := |ops| - 1;
      MapsStayApart(ops[..n], session, js);
      match ops[n]
      case SavePack(other, _) => PackKeyNeverResultKey(other, js);
      case SaveResult(other, _) => PackKeyNeverResultKey(session, other);
    }
  }

  /**
   * Through the wrong getter the in-memory store finds nothing, while the bucket hands out whatever is there: the two
   * agree exactly as long as nothing was saved at the location.
   */
  lemma WrongGetterAgreesIff(ops: seq<SaveOp>, session: int, js: JobSpec)
    ensures Lookup(MemoryRun(ops).packs, ResultKey(js)) == Lookup(ObjectRun(ops), ResultLocation(js))
       <==> forall op :: op in ops ==> Target(op) != ResultLocation(js)
    ensures Lookup(MemoryRun(ops).results, PackKey(session)) == Lookup(ObjectRun(ops), PackLocation(session))
       <==> forall op :: op in ops ==> Target(op) != PackLocation(session)
  {
    MapsStayApart(ops, session, js);
    BucketKeepsLast(ops, ResultLocation(js));
    BucketKeepsLast(ops, PackLocation(session));
    LastSavedNoneIff(ops, ResultLocation(js));
    LastSavedNoneIff(ops, PackLocation(session));
  }

  // ----- The stores as objects

  class InMemoryArtifactStore {
    var packs: map<string, Bytes>
    var results: map<string, Bytes>

    ghost function Data(): Memory
      reads this
    {
      Memory(packs, results)
    }

    constructor ()
      ensures Data() == MemoryRun([])
    {
      packs, results := map[], map[];
    }

    method GetQueryPack(location: ArtifactLocation) returns (r: Option<Bytes>)
      ensures r == Lookup(packs, location.key)
    {
      if location.key !in packs { return None; }
      return Some(packs[location.key]);
    }

    method SaveQueryPack(session: int, data: Bytes) returns (location: ArtifactLocation)
      modifies this
      ensures Data() == MemorySave(old(Data()), SavePack(session, data)) && location == PackLocation(session)
    {
      var key := PackKey(session);
      packs := packs[key := data];
      location := ArtifactLocation(key, BUCKET);
    }

    method GetResult(location: ArtifactLocation) returns (r: Option<Bytes>)
      ensures r == Lookup(results, location.key)
    {
      if location.key !in results { return None; }
      return Some(results[location.key]);
    }

    method GetResultSize(location: ArtifactLocation) returns (r: Option<nat>)
      ensures r == if Lookup(results, location.key) == None then None else Some(|results[location.key]|)
    {
      if location.key !in results { return None; }
      return Some(|results[location.key]|);
    }

    method SaveResult(js: JobSpec, data: Bytes) returns (location: ArtifactLocation)
      modifies this
      ensures Data() == MemorySave(old(Data()), SaveOp.SaveResult(js, data)) && location == ResultLocation(js)
    {
      var key := ResultKey(js);
      results := results[key := data];
      location := ArtifactLocation(key, BUCKET);
    }
  }

  class MinIOArtifactStore {
    var objects: Objects

    constructor ()
      ensures objects == ObjectRun([])
    {
      objects := map[];
    }

    method GetArtifact(location: ArtifactLocation) returns (r: Option<Bytes>)
      ensures r == Lookup(objects, location)
    {
      if location !in objects { return None; }
      return Some(objects[location]);
    }

    method GetQueryPack(location: ArtifactLocation) returns (r: Option<Bytes>)
      ensures r == Lookup(objects, location)
    {
      r := GetArtifact(location);
    }

    method GetResult(location: ArtifactLocation) returns (r: Option<Bytes>)
      ensures r == Lookup(objects, location)
    {
      r := GetArtifact(location);
    }

    method GetResultSize(location: ArtifactLocation) returns (r: Option<nat>)
      ensures r == if Lookup(objects, location) == None then None else Some(|objects[location]|)
    {
      if location !in objects { return None; }
      return Some(|objects[location]|);
    }

    method SaveArtifact(bucket: string, key: string, data: Bytes) returns (location: ArtifactLocation)
      modifies this
      ensures location == ArtifactLocation(key, bucket) && objects == old(objects)[location := data]
    {
      location := ArtifactLocation(key, bucket);
      objects := objects[location := data];
    }

    method SaveQueryPack(session: int, data: Bytes) returns (location: ArtifactLocation)
      modifies this
      ensures objects == ObjectSave(old(objects), SavePack(session, data)) && location == PackLocation(session)
    {
      location := SaveArtifact(BUCKET, PackKey(session), data);
    }

    method SaveResult(js: JobSpec, data: Bytes) returns (location: ArtifactLocation)
      modifies this
      ensures objects == ObjectSave(old(objects), SaveOp.SaveResult(js, data)) && location == ResultLocation(js)
    {
      location := SaveArtifact(BUCKET, ResultKey(js), data);
    }
  }
}
