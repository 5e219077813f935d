/** The remote side the organisation data store talks to: a content-addressed object
    store (structured "DAG" nodes and raw files) and the storage app's on-chain
    registry of `key -> cid`. Every put mints a fresh content identifier. */
module ContentStore {
  import opened Js

  type Cid = string

  datatype Blob = Blob(bytes: seq<bv8>)

  datatype Content = DagNode(value: Value) | FileNode(blob: Blob)

  /** `content` is the object store, `registry` the on-chain key/value map
      (keys are the hex-encoded setting names), `next` the cid allocator. */
  datatype Remote = Remote(content: map<Cid, Content>, registry: map<string, Cid>, next: nat)

  /** The identifier the allocator hands out for its `n`-th put. */
  function CidOf(n: nat): (c: Cid)
    ensures c != ""
  {
    Decimal(n)
  }

  lemma CidOfInjective(m: nat, n: nat)
    ensures CidOf(m) == CidOf(n) <==> m == n
  {
    if CidOf(m) == CidOf(n) {
      DecimalInjective(m, n);
    }
  }

  /** The allocator has not yet handed out any identifier from `next` on, and every
      registered pointer names stored content. */
  ghost predicate Valid(r: Remote) {
    && (forall n: nat {:trigger CidOf(n)} :: n >= r.next ==> CidOf(n) !in r.content)
    && (forall k :: k in r.registry ==> r.registry[k] in r.content)
  }

  /** Store `c` under a fresh identifier; nothing already stored is touched. */
  function Put(r: Remote, c: Content): (res: (Remote, Cid))
    requires Valid(r)
    ensures Valid(res.0)
    ensures res.1 !in r.content && res.1 != ""
    ensures res.0.content == r.content[res.1 := c]
    ensures res.0.registry == r.registry
  {
    var cid := CidOf(r.next);
    var r' := Remote(r.content[cid := c], r.registry, r.next + 1);
    forall n: nat | n >= r'.next
      ensures CidOf(n) !in r'.content
    {
      CidOfInjective(n, r.next);
    }
    (r', cid)
  }

  /** `registerData(key, cid)`: overwrite the registry entry for `key`. */
  function Register(r: Remote, key: string, cid: Cid): (r': Remote)
    requires Valid(r) && cid in r.content
    ensures Valid(r')
    ensures r'.registry == r.registry[key := cid]
    ensures r'.content == r.content && r'.next == r.next
  {
    r.(registry := r.registry[key := cid])
  }

  /** `getRegisteredData(key)`: the registered pointer, or None (null) if never written. */
  function Resolve(r: Remote, key: string): (p: Option<Cid>)
    ensures p.Some? <==> key in r.registry
    ensures p.Some? ==> p.value == r.registry[key]
  {
    if key in r.registry then Some(r.registry[key]) else None
  }

  /** `dag.get(cid)`: the structured node stored under `cid`, if there is one. */
  function FetchDag(r: Remote, cid: Cid): (v: Option<Value>)
    ensures v.Some? <==> cid in r.content && r.content[cid].DagNode?
    ensures v.Some? ==> r.content[cid] == DagNode(v.value)
  {
    if cid in r.content && r.content[cid].DagNode? then Some(r.content[cid].value) else None
  }

  /** `cat(cid)`: the file stored under `cid`, if there is one. */
  function FetchFile(r: Remote, cid: Cid): (b: Option<Blob>)
    ensures b.Some? <==> cid in r.content && r.content[cid].FileNode?
    ensures b.Some? ==> r.content[cid] == FileNode(b.value)
  {
    if cid in r.content && r.content[cid].FileNode? then Some(r.content[cid].blob) else None
  }

  /** Round trip: a put followed by registering its pointer makes the key resolve to
      that pointer, and the pointer fetch back the value. */
  lemma PutRegisterRoundTrip(r: Remote, key: string, v: Value)
    requires Valid(r)
    ensures var (r1, cid) := Put(r, DagNode(v));
            Resolve(Register(r1, key, cid), key) == Some(cid)
            && FetchDag(Register(r1, key, cid), cid) == Some(v)
  {
  }

  /** Writing one key never changes what any other key resolves to, nor the content
      reachable from it. */
  lemma {:induction false} PutRegisterIsolated(r: Remote, key: string, other: string, c: Content)
    requires Valid(r) && other != key && other in r.registry
    ensures var (r1, cid) := Put(r, c);
            var r2 := Register(r1, key, cid);
            Resolve(r2, other) == Resolve(r, other)
            && r2.content[r.registry[other]] == r.content[r.registry[other]]
  {
    var (r1, cid) := Put(r, c);
    assert r.registry[other] in r.content;
    assert cid !in r.content;
  }
}
