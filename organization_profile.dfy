/** The organisation profile hook: once the storage connection has succeeded, read the
    basic-info record and the logo file once, and merge them into the profile record. */
module OrganizationProfile {
  import opened Js
  import opened ContentStore
  import opened IpfsStorageContext

  const BasicInfoKey := "ORG_SETTINGS_BASIC_INFO"
  const LogoKey := "ORG_SETTINGS_LOGO"

  /** The record `fetchOrgInfo` passes to `setInfo`, given the basic-info node (None for
      null), the logo file and the object URL minted for it. The node is replaced by
      `{}` when falsy; the logo, when present, is assigned to `image` in place, which
      throws (None) on a truthy primitive node. */
  function MergeProfile(dag: Option<Value>, file: Option<Blob>, logoUrl: string): (r: Option<Value>)
    ensures r.None? <==> file.Some? && dag.Some? && Truthy(dag.value) && !dag.value.Obj?
    ensures dag.None? || !Truthy(dag.value) ==>
      r == Some(Obj(if file.Some? then map["image" := Str(logoUrl)] else map[]))
    ensures r.Some? && file.Some? ==> r.value.Obj? && Get(r.value, "image") == Str(logoUrl)
    ensures file.None? && dag.Some? && Truthy(dag.value) ==> r == dag
    ensures r.Some? && dag.Some? && dag.value.Obj? ==>
      && r.value.Obj?
      && r.value.props.Keys == dag.value.props.Keys + (if file.Some? then {"image"} else {})
      && forall k :: k in dag.value.props && k != "image" ==> r.value.props[k] == dag.value.props[k]
  {
    var data := if dag.Some? && Truthy(dag.value) then dag.value else Obj(map[]);
    if file.Some? then SetProp(data, "image", Str(logoUrl)) else Some(data)
  }

  /** A saved record of fields keeps every field; the logo adds `image` and nothing else. */
  lemma ProfileOfSavedRecord(props: map<string, Value>, file: Option<Blob>, logoUrl: string)
    ensures MergeProfile(Some(Obj(props)), file, logoUrl)
         == Some(Obj(if file.Some? then props["image" := Str(logoUrl)] else props))
  {
  }

  /** Where no logo was ever saved, a record without an `image` field stays without one. */
  lemma NoLogoNoImage(dag: Option<Value>, logoUrl: string)
    requires dag.Some? && dag.value.Obj? ==> "image" !in dag.value.props
    ensures var r := MergeProfile(dag, None, logoUrl);
      r.Some? && (r.value.Obj? ==> "image" !in r.value.props)
  {
  }

  /** What `getDagFromOrgDataStore(key)` yields once connected. */
  function StoredDag(r: Remote, k: string): (res: Result<Option<Value>>)
    ensures res == Ok(None) <==> k !in r.registry
    ensures res.Ok? && res.value.Some? ==>
      k in r.registry && r.registry[k] in r.content && r.content[r.registry[k]] == DagNode(res.value.value)
    ensures k in r.registry && r.registry[k] in r.content && r.content[r.registry[k]].DagNode? ==>
      res == Ok(Some(r.content[r.registry[k]].value))
  {
    match Resolve(r, k)
    case None => Ok(None)
    case Some(c) =>
      match FetchDag(r, c)
      case Some(v) => Ok(Some(v))
      case None => Err(Unresolvable)
  }

  /** What `getFileFromOrgDataStore(key)` yields once connected, on a provider object
      that has `cat` or not. */
  function StoredFile(r: Remote, k: string, hasCat: bool): (res: Result<Option<Blob>>)
    ensures res == Ok(None) <==> k !in r.registry
    ensures k in r.registry && !hasCat ==> res == Err(NotAFunction)
    ensures res.Ok? && res.value.Some? ==>
      k in r.registry && r.registry[k] in r.content && r.content[r.registry[k]] == FileNode(res.value.value)
    ensures hasCat && k in r.registry && r.registry[k] in r.content && r.content[r.registry[k]].FileNode? ==>
      res == Ok(Some(r.content[r.registry[k]].blob))
  {
    match Resolve(r, k)
    case None => Ok(None)
    case Some(c) =>
      if !hasCat then Err(NotAFunction)
      else match FetchFile(r, c)
      case Some(b) => Ok(Some(b))
      case None => Err(Unresolvable)
  }

  /** The external calls one connected read issues: the registry lookup, then the
      content read when a pointer is registered and the read method exists (`dag.get`
      always does; `cat` only when `canRead`). */
  function ReadCalls(r: Remote, k: string, file: bool, canRead: bool): (cs: seq<Call>)
    ensures |cs| >= 1 && cs[0] == GetRegisteredData(k)
    ensures |cs| == 1 <==> k !in r.registry || (file && !canRead)
    ensures k in r.registry && (file ==> canRead) ==>
      |cs| == 2 && cs[1] == (if file then Cat(r.registry[k]) else DagGet(r.registry[k]))
  {
    match Resolve(r, k)
    case None => [GetRegisteredData(k)]
    case Some(c) =>
      if file && !canRead then [GetRegisteredData(k)]
      else [GetRegisteredData(k), if file then Cat(c) else DagGet(c)]
  }

  /** The hook instance: `info` is undefined (None) until a fetch completes. */
  class OrgData {
    var info: Option<Value>
    var fetchedData: bool

    ghost predicate Valid()
      reads this
    {
      fetchedData <==> info.Some?
    }

    constructor ()
      ensures Valid() && info.None? && !fetchedData
    {
      info := None;
      fetchedData := false;
    }

    /** One run of the effect. It fetches only if nothing was fetched yet and the
        connection has succeeded; basic info is read before the logo; a failed read
        or a throwing merge leaves the hook as it was. */
    method Effect(p: IpfsStorageProvider, logoUrl: string)
      requires Valid() && p.Valid()
      modifies this, p`calls
      ensures Valid() && p.Valid()
      ensures old(fetchedData) || !p.store.success ==>
        info == old(info) && fetchedData == old(fetchedData) && p.calls == old(p.calls)
      ensures !old(fetchedData) && p.store.success ==>
        var dag := StoredDag(p.remote, p.fromAscii(BasicInfoKey));
        var file := StoredFile(p.remote, p.fromAscii(LogoKey), HasFileApi(p.store));
        && p.calls == old(p.calls) + ReadCalls(p.remote, p.fromAscii(BasicInfoKey), false, true)
                        + (if dag.Ok? then ReadCalls(p.remote, p.fromAscii(LogoKey), true, HasFileApi(p.store)) else [])
        && if dag.Ok? && file.Ok? && MergeProfile(dag.value, file.value, logoUrl).Some?
           then fetchedData && info == MergeProfile(dag.value, file.value, logoUrl)
           else !fetchedData && info == old(info)
    {
      if fetchedData || !p.store.success {
        return;
      }
      ghost var calls0 := p.calls;
      var dag := p.GetDag(BasicInfoKey);
      assert dag == StoredDag(p.remote, p.fromAscii(BasicInfoKey));
      assert p.calls == calls0 + ReadCalls(p.remote, p.fromAscii(BasicInfoKey), false, true);
      if dag.Err? {
        return;
      }
      ghost var calls1 := p.calls;
      var file := p.GetFile(LogoKey);
      assert file == StoredFile(p.remote, p.fromAscii(LogoKey), HasFileApi(p.store));
      assert p.calls == calls1 + ReadCalls(p.remote, p.fromAscii(LogoKey), true, HasFileApi(p.store));
      if file.Err? {
        return;
      }
      var data := MergeProfile(dag.value, file.value, logoUrl);
      if data.None? {
        return;
      }
      info := data;
      fetchedData := true;
    }
  }
}
