/** The basic-info settings screen: a record of name, website and description that the
    form edits one field at a time, loads from the profile and saves to the store. */
module BasicInfo {
  import opened Js
  import opened ContentStore
  import opened IpfsStorageContext
  import OrganizationProfile

  const Fields := {"name", "website", "description"}

  const InitialBasicInfo: map<string, Value> :=
    map["name" := Str(""), "website" := Str(""), "description" := Str("")]

  /** `{...basicInfo}` followed by `newBasicInfo[name] = value`. */
  function WithField(rec: map<string, Value>, name: string, value: Value): (r: map<string, Value>)
    ensures r.Keys == rec.Keys + {name}
    ensures r[name] == value
    ensures forall k :: k in rec && k != name ==> r[k] == rec[k]
  {
    rec[name := value]
  }

  /** Setting a field twice keeps the second value; setting two different fields
      commutes; setting a field to its current value changes nothing. */
  lemma WithFieldLaws(rec: map<string, Value>, a: string, b: string, u: Value, v: Value)
    ensures WithField(WithField(rec, a, u), a, v) == WithField(rec, a, v)
    ensures a != b ==> WithField(WithField(rec, a, u), b, v) == WithField(WithField(rec, b, v), a, u)
    ensures a in rec ==> WithField(rec, a, rec[a]) == rec
  {
  }

  /** The three fields copied out of `orgInfo`. */
  function FromOrgInfo(orgInfo: Value): (r: map<string, Value>)
    requires !orgInfo.Undefined? && !orgInfo.Null?
    ensures r.Keys == Fields
    ensures forall k :: k in Fields ==> r[k] == Get(orgInfo, k)
  {
    map["name" := Get(orgInfo, "name"), "website" := Get(orgInfo, "website"),
        "description" := Get(orgInfo, "description")]
  }

  /** A profile record that carries the three fields yields them back unchanged. */
  lemma LoadOfSavedRecord(rec: map<string, Value>)
    requires rec.Keys == Fields
    ensures FromOrgInfo(Obj(rec)) == rec
  {
  }

  class BasicInfoForm {
    var basicInfo: map<string, Value>

    /** The three fields are always present. */
    ghost predicate Valid()
      reads this
    {
      Fields <= basicInfo.Keys
    }

    constructor ()
      ensures Valid() && basicInfo == InitialBasicInfo
    {
      basicInfo := InitialBasicInfo;
    }

    /** `changeBasicInfo` for an input named `name` holding `value`. */
    method Change(name: string, value: string)
      requires Valid()
      modifies this`basicInfo
      ensures Valid()
      ensures basicInfo == WithField(old(basicInfo), name, Str(value))
    {
      basicInfo := WithField(basicInfo, name, Str(value));
    }

    /** The `orgInfo` effect: a truthy `orgInfo` replaces the record by exactly its three
        fields; otherwise the record is untouched. */
    method Load(orgInfo: Value)
      requires Valid()
      modifies this`basicInfo
      ensures Valid()
      ensures Truthy(orgInfo) ==> basicInfo == FromOrgInfo(orgInfo)
      ensures !Truthy(orgInfo) ==> basicInfo == old(basicInfo)
    {
      if Truthy(orgInfo) {
        basicInfo := FromOrgInfo(orgInfo);
      }
    }

    /** `saveBasicInfo`: the current record under `ORG_SETTINGS_BASIC_INFO`. A
        successful save is what the profile read then finds under that key. */
    method Save(p: IpfsStorageProvider, putAccepted: bool, registerAccepted: bool) returns (r: Outcome)
      requires Valid() && p.Valid()
      modifies p`remote, p`calls
      ensures Valid() && p.Valid()
      ensures r == Pass <==>
        Installed(p.store) && p.store.ipfsEndpoints.Some? && putAccepted && registerAccepted
      ensures Installed(p.store) && p.store.ipfsEndpoints.Some? ==>
        |p.calls| > |old(p.calls)| && p.calls[|old(p.calls)|] == DagPut(Obj(basicInfo))
      ensures r.Fail? ==> p.remote.registry == old(p.remote.registry)
      ensures r == Pass ==>
        OrganizationProfile.StoredDag(p.remote, p.fromAscii(OrganizationProfile.BasicInfoKey))
          == Ok(Some(Obj(basicInfo)))
    {
      r := p.SetDag(OrganizationProfile.BasicInfoKey, Obj(basicInfo), putAccepted, registerAccepted);
    }
  }
}
