/** An entry of the organisation switcher: which organisation record it uses and the
    name it shows. */
module OrganizationItem {
  import opened Js
  import OrganizationProfile

  /** The entry's organisation: its name (possibly missing) and address. */
  datatype Dao = Dao(name: Value, address: string)

  /** `getOrgData() || getKnownOrganization(network.type, dao.address)`: `orgData` is the
      profile of the organisation whose store is connected. */
  function KnownOrg(orgData: Value, known: Value): (k: Value)
    ensures Truthy(orgData) ==> k == orgData
    ensures !Truthy(orgData) ==> k == known
  {
    Or(orgData, known)
  }

  /** `knownOrg ? knownOrg.name : dao.name || dao.address` */
  function DisplayName(knownOrg: Value, dao: Dao): (n: Value)
    ensures Truthy(knownOrg) ==> n == Get(knownOrg, "name")
    ensures !Truthy(knownOrg) ==> n == Or(dao.name, Str(dao.address))
  {
    if Truthy(knownOrg) then Get(knownOrg, "name") else Or(dao.name, Str(dao.address))
  }

  /** A fetch that found nothing saved yields `{}`, which is truthy and has no name:
      the entry shows nothing, although the organisation has a name and an address. */
  lemma EmptyProfileHidesName(dao: Dao, known: Value, logoUrl: string)
    requires Truthy(dao.name)
    ensures OrganizationProfile.MergeProfile(None, None, logoUrl) == Some(Obj(map[]))
    ensures DisplayName(KnownOrg(Obj(map[]), known), dao) == Undefined
    ensures !Truthy(DisplayName(KnownOrg(Obj(map[]), known), dao))
  {
  }

  /** The profile comes from the connected organisation's store and ignores `dao`: once
      it has a name, every entry of the switcher shows that same name. */
  lemma ProfileNameOnEveryEntry(profile: Value, a: Dao, b: Dao, knownA: Value, knownB: Value)
    requires Truthy(profile) && a.address != b.address
    ensures DisplayName(KnownOrg(profile, knownA), a) == DisplayName(KnownOrg(profile, knownB), b)
  {
  }

  /** The evidently intended name: the record's name when it has a truthy one, else the
      entry's own name or address. */
  function DisplayNameIntended(knownOrg: Value, dao: Dao): (n: Value)
    ensures Truthy(knownOrg) && Truthy(Get(knownOrg, "name")) ==> n == Get(knownOrg, "name")
    ensures !(Truthy(knownOrg) && Truthy(Get(knownOrg, "name"))) ==> n == Or(dao.name, Str(dao.address))
  {
    if Truthy(knownOrg) && Truthy(Get(knownOrg, "name")) then Get(knownOrg, "name")
    else Or(dao.name, Str(dao.address))
  }

  /** The intended name is never blank for an entry with an address, and it agrees with
      the code whenever the selected record has a name. */
  lemma DisplayNameIntendedProperties(knownOrg: Value, dao: Dao)
    ensures dao.address != "" ==> Truthy(DisplayNameIntended(knownOrg, dao))
    ensures Truthy(knownOrg) && Truthy(Get(knownOrg, "name")) ==>
      DisplayNameIntended(knownOrg, dao) == DisplayName(knownOrg, dao)
    ensures !Truthy(knownOrg) ==> DisplayNameIntended(knownOrg, dao) == DisplayName(knownOrg, dao)
  {
  }

  /** The evidently intended selection: the connected organisation's profile only for
      the entry of that organisation, the known-organisation record for the others. */
  function KnownOrgIntended(orgData: Value, connectedAddress: string, known: Value, dao: Dao): (k: Value)
    ensures dao.address == connectedAddress && Truthy(orgData) ==> k == orgData
    ensures dao.address != connectedAddress || !Truthy(orgData) ==> k == known
  {
    if dao.address == connectedAddress then Or(orgData, known) else known
  }

  /** An entry of another organisation never shows the connected organisation's
      profile, and its own entry shows what the code shows. */
  lemma KnownOrgIntendedProperties(orgData: Value, connectedAddress: string, known: Value, dao: Dao)
    ensures dao.address != connectedAddress ==>
      DisplayNameIntended(KnownOrgIntended(orgData, connectedAddress, known, dao), dao)
        == DisplayNameIntended(known, dao)
    ensures dao.address == connectedAddress ==>
      KnownOrgIntended(orgData, connectedAddress, known, dao) == KnownOrg(orgData, known)
  {
  }
}
