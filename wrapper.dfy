/** The organisation shell: grouping installed app instances by app, choosing the view
    for the current instance id, and the loading, upgrade-panel and upgrade-modal state
    of the shell component. */
module Wrapper {
  import opened Js

  // ---- Grouping app instances ----

  /** An installed app as the shell receives it (the fields the shell reads). */
  datatype App = App(
    appId: string,
    codeAddress: string,
    identifier: string,
    proxyAddress: string,
    name: string,
    hasWebApp: bool,
    appName: string)

  /** What instances of one app share: the app without `codeAddress`, `identifier`
      and `proxyAddress`. */
  datatype SharedAppInfo = SharedAppInfo(appId: string, name: string, hasWebApp: bool, appName: string)

  datatype Instance = Instance(codeAddress: string, identifier: string, instanceId: string, proxyAddress: string)

  datatype Group = Group(
    app: SharedAppInfo,
    appId: string,
    name: string,
    instances: seq<Instance>,
    hasWebApp: bool,
    repoName: string)

  function InstanceOf(app: App): (inst: Instance)
    ensures inst.instanceId == app.proxyAddress && inst.proxyAddress == app.proxyAddress
  {
    Instance(app.codeAddress, app.identifier, app.proxyAddress, app.proxyAddress)
  }

  /** The group built for the first app of an id, holding the given instances. */
  function GroupOf(first: App, instances: seq<Instance>): (g: Group)
    ensures g.appId == first.appId && g.instances == instances
  {
    Group(SharedAppInfo(first.appId, first.name, first.hasWebApp, first.appName),
          first.appId, first.name, instances, first.hasWebApp, first.appName)
  }

  /** The app ids in order of first appearance. */
  function FirstAppearances(apps: seq<App>): seq<string>
    decreases |apps|
  {
    if apps == [] then []
    else
      var ids := FirstAppearances(apps[..|apps| - 1]);
      var id := apps[|apps| - 1].appId;
      if id in ids then ids else ids + [id]
  }

  /** The instances of the apps with id `id`, in input order. */
  function InstancesOf(apps: seq<App>, id: string): seq<Instance>
    decreases |apps|
  {
    if apps == [] then []
    else
      var last := apps[|apps| - 1];
      InstancesOf(apps[..|apps| - 1], id) + (if last.appId == id then [InstanceOf(last)] else [])
  }

  /** The first app with id `id`. */
  function FirstWith(apps: seq<App>, id: string): Option<App>
    decreases |apps|
  {
    if apps == [] then None
    else
      var p := FirstWith(apps[..|apps| - 1], id);
      if p.Some? then p
      else if apps[|apps| - 1].appId == id then Some(apps[|apps| - 1])
      else None
  }

  /** The grouping the shell promises: one group per distinct app id in order of
      first appearance, each holding all instances of that id in input order, with the
      shared info of the first app of that id. */
  ghost predicate IsGrouping(apps: seq<App>, groups: seq<Group>) {
    var ids := FirstAppearances(apps);
    && |groups| == |ids|
    && forall j :: 0 <= j < |groups| ==>
         && FirstWith(apps, ids[j]).Some?
         && groups[j] == GroupOf(FirstWith(apps, ids[j]).value, InstancesOf(apps, ids[j]))
  }

  /** An id appears in the id list iff some app has it, and then `FirstWith` finds an
      app with that id. */
  lemma {:induction false} FirstAppearancesMembership(apps: seq<App>, id: string)
    ensures id in FirstAppearances(apps) <==> exists i :: 0 <= i < |apps| && apps[i].appId == id
    ensures id in FirstAppearances(apps) <==> FirstWith(apps, id).Some?
    ensures FirstWith(apps, id).Some? ==> FirstWith(apps, id).value.appId == id
    ensures id !in FirstAppearances(apps) ==> InstancesOf(apps, id) == []
    decreases |apps|
  {
    if apps != [] {
      var n := |apps| - 1;
      FirstAppearancesMembership(apps[..n], id);
      if id in FirstAppearances(apps[..n]) {
        var i :| 0 <= i < n && apps[..n][i].appId == id;
        assert apps[i].appId == id;
      } else if apps[n].appId != id {
        forall i | 0 <= i < |apps|
          ensures apps[i].appId != id
        {
          if i < n { assert apps[..n][i] == apps[i]; }
        }
      }
    }
  }

  /** The id list has no repetitions: one group per distinct id. */
  lemma {:induction false} FirstAppearancesDistinct(apps: seq<App>)
    ensures forall i, j :: 0 <= i < j < |FirstAppearances(apps)| ==>
      FirstAppearances(apps)[i] != FirstAppearances(apps)[j]
    decreases |apps|
  {
    if apps != [] {
      FirstAppearancesDistinct(apps[..|apps| - 1]);
    }
  }

  /** `groups.find(({ appId }) => appId === id)`: the index of the first group with
      that app id. */
  function FindGroup(groups: seq<Group>, id: string): (j: Option<nat>)
    ensures j.Some? ==> j.value < |groups| && groups[j.value].appId == id
    ensures j.None? ==> forall k :: 0 <= k < |groups| ==> groups[k].appId != id
    decreases |groups|
  {
    if groups == [] then None
    else if groups[0].appId == id then Some(0)
    else
      var j := FindGroup(groups[1..], id);
      if j.Some? then Some(j.value + 1) else None
  }

  function TotalInstances(groups: seq<Group>): nat
    decreases |groups|
  {
    if groups == [] then 0 else TotalInstances(groups[..|groups| - 1]) + |groups[|groups| - 1].instances|
  }

  lemma {:induction false} TotalInstancesUpdate(groups: seq<Group>, j: nat, g: Group)
    requires j < |groups|
    ensures TotalInstances(groups[j := g]) == TotalInstances(groups) - |groups[j].instances| + |g.instances|
    decreases |groups|
  {
    var n := |groups| - 1;
    if j < n {
      assert groups[j := g][..n] == groups[..n][j := g];
      TotalInstancesUpdate(groups[..n], j, g);
    } else {
      assert groups[j := g][..n] == groups[..n];
    }
  }

  lemma TotalInstancesAppend(groups: seq<Group>, g: Group)
    ensures TotalInstances(groups + [g]) == TotalInstances(groups) + |g.instances|
  {
    assert (groups + [g])[..|groups|] == groups;
  }

  /** The reduce callback: append the app's instance to the group of its id, or open
      a new group at the end. */
  function AddInstance(groups: seq<Group>, app: App): (r: seq<Group>)
    ensures FindGroup(groups, app.appId).Some? ==> |r| == |groups|
    ensures FindGroup(groups, app.appId).None? ==>
      |r| == |groups| + 1 && r[|groups|] == GroupOf(app, [InstanceOf(app)])
    ensures forall k :: 0 <= k < |groups| ==> r[k].appId == groups[k].appId && r[k].app == groups[k].app
    ensures exists j :: (0 <= j < |r| && r[j].appId == app.appId
                         && |r[j].instances| > 0 && r[j].instances[|r[j].instances| - 1] == InstanceOf(app))
  {
    var j := FindGroup(groups, app.appId);
    if j.Some? then groups[j.value := groups[j.value].(instances := groups[j.value].instances + [InstanceOf(app)])]
    else groups + [GroupOf(app, [InstanceOf(app)])]
  }

  /** One step of the reduce keeps the grouping and adds exactly one instance. */
  lemma GroupingStep(apps: seq<App>, app: App, groups: seq<Group>)
    requires IsGrouping(apps, groups)
    ensures IsGrouping(apps + [app], AddInstance(groups, app))
    ensures TotalInstances(AddInstance(groups, app)) == TotalInstances(groups) + 1
  {
    var apps' := apps + [app];
    var id := app.appId;
    assert apps'[..|apps|] == apps;
    var ids := FirstAppearances(apps);
    var ids' := FirstAppearances(apps');
    FirstAppearancesDistinct(apps);
    FirstAppearancesMembership(apps, id);
    forall k | 0 <= k < |ids|
      ensures groups[k].appId == ids[k]
    {
      FirstAppearancesMembership(apps, ids[k]);
    }
    var j := FindGroup(groups, id);
    if j.Some? {
      var jj := j.value;
      assert ids[jj] == id;
      assert ids' == ids;
      var groups' := groups[jj := groups[jj].(instances := groups[jj].instances + [InstanceOf(app)])];
      TotalInstancesUpdate(groups, jj, groups'[jj]);
      forall k | 0 <= k < |groups'|
        ensures FirstWith(apps', ids'[k]).Some?
        ensures groups'[k] == GroupOf(FirstWith(apps', ids'[k]).value, InstancesOf(apps', ids'[k]))
      {
        assert FirstWith(apps', ids[k]) == FirstWith(apps, ids[k]);
        if k != jj {
          assert ids[k] != id;
          assert InstancesOf(apps', ids[k]) == InstancesOf(apps, ids[k]);
        } else {
          assert InstancesOf(apps', id) == InstancesOf(apps, id) + [InstanceOf(app)];
        }
      }
    } else {
      assert id !in ids;
      assert ids' == ids + [id];
      var groups' := groups + [GroupOf(app, [InstanceOf(app)])];
      TotalInstancesAppend(groups, GroupOf(app, [InstanceOf(app)]));
      forall k | 0 <= k < |groups'|
        ensures FirstWith(apps', ids'[k]).Some?
        ensures groups'[k] == GroupOf(FirstWith(apps', ids'[k]).value, InstancesOf(apps', ids'[k]))
      {
        if k < |ids| {
          assert ids'[k] == ids[k] && ids[k] != id;
          assert FirstWith(apps', ids[k]) == FirstWith(apps, ids[k]);
          assert InstancesOf(apps', ids[k]) == InstancesOf(apps, ids[k]);
        } else {
          assert ids'[k] == id;
          assert FirstWith(apps', id) == Some(app);
          assert InstancesOf(apps', id) == [] + [InstanceOf(app)];
        }
      }
    }
  }

  /** `apps.reduce(AddInstance, [])` */
  function Reduced(apps: seq<App>): seq<Group>
    decreases |apps|
  {
    if apps == [] then [] else AddInstance(Reduced(apps[..|apps| - 1]), apps[|apps| - 1])
  }

  /** The reduce computes the grouping, and every app contributes exactly one instance. */
  lemma {:induction false} ReducedIsGrouping(apps: seq<App>)
    ensures IsGrouping(apps, Reduced(apps))
    ensures TotalInstances(Reduced(apps)) == |apps|
    decreases |apps|
  {
    if apps == [] {
      assert IsGrouping([], []);
    } else {
      var prefix, last := apps[..|apps| - 1], apps[|apps| - 1];
      assert prefix + [last] == apps;
      ReducedIsGrouping(prefix);
      GroupingStep(prefix, last, Reduced(prefix));
      assert Reduced(apps) == AddInstance(Reduced(prefix), last);
    }
  }

  /** `getAppInstancesGroups(apps)`: the reduce, with the found group's instance list
      extended in place. */
  method GetAppInstancesGroups(apps: seq<App>) returns (groups: seq<Group>)
    ensures IsGrouping(apps, groups)
    ensures TotalInstances(groups) == |apps|
  {
    groups := [];
    var i := 0;
    while i < |apps|
      invariant 0 <= i <= |apps|
      invariant groups == Reduced(apps[..i])
    {
      var app := apps[i];
      assert apps[..i + 1][..i] == apps[..i];
      var j := FindGroup(groups, app.appId);
      if j.Some? {
        var g := groups[j.value];
        groups := groups[j.value := g.(instances := g.instances + [InstanceOf(app)])];
      } else {
        groups := groups + [GroupOf(app, [InstanceOf(app)])];
      }
      i := i + 1;
    }
    assert apps[..|apps|] == apps;
    ReducedIsGrouping(apps);
  }

  /** What the grouping means for one id: its group's instances are exactly the
      instances of the apps with that id, each identified by its proxy address. */
  lemma GroupContents(apps: seq<App>, groups: seq<Group>, j: nat)
    requires IsGrouping(apps, groups) && j < |groups|
    ensures groups[j].appId == FirstAppearances(apps)[j]
    ensures forall k :: 0 <= k < |groups| && k != j ==> groups[k].appId != groups[j].appId
    ensures forall inst :: inst in groups[j].instances ==> inst.instanceId == inst.proxyAddress
  {
    var ids := FirstAppearances(apps);
    FirstAppearancesDistinct(apps);
    forall k | 0 <= k < |groups|
      ensures groups[k].appId == ids[k]
    {
      FirstAppearancesMembership(apps, ids[k]);
    }
    InstanceIds(apps, ids[j]);
  }

  lemma {:induction false} InstanceIds(apps: seq<App>, id: string)
    ensures forall inst :: inst in InstancesOf(apps, id) ==> inst.instanceId == inst.proxyAddress
    decreases |apps|
  {
    if apps != [] {
      InstanceIds(apps[..|apps| - 1], id);
    }
  }

  // ---- Choosing the view ----

  datatype AppsStatus = AppsLoading | AppsReady | AppsError

  datatype View =
    | HomeView
    | PermissionsView
    | AppCenterView
    | OrganizationView
    | ProfileView
    | NoView            // null: the app loader shows its loading screen
    | IframeView(app: App)
    | NotFoundView

  /** `apps.find(app => addressesEqual(app.proxyAddress, instanceId))` */
  function FindApp(apps: seq<App>, instanceId: string, addressesEqual: (string, string) -> bool): (r: Option<App>)
    ensures r.Some? ==> r.value in apps && addressesEqual(r.value.proxyAddress, instanceId)
    ensures r.None? ==> forall a :: a in apps ==> !addressesEqual(a.proxyAddress, instanceId)
    ensures r.Some? ==> exists i :: (0 <= i < |apps| && apps[i] == r.value
              && forall k :: 0 <= k < i ==> !addressesEqual(apps[k].proxyAddress, instanceId))
    decreases |apps|
  {
    if apps == [] then None
    else if addressesEqual(apps[0].proxyAddress, instanceId) then
      assert apps[0] in apps;
      Some(apps[0])
    else
      var r := FindApp(apps[1..], instanceId, addressesEqual);
      if r.Some? then
        var i :| 0 <= i < |apps[1..]| && apps[1..][i] == r.value
                 && forall k :: 0 <= k < i ==> !addressesEqual(apps[1..][k].proxyAddress, instanceId);
        assert apps[i + 1] == r.value;
        Some(r.value)
      else None
  }

  predicate IsInternal(instanceId: string) {
    instanceId in {"home", "permissions", "apps", "organization", "profile"}
  }

  /** `renderApp(instanceId)`; None is the TypeError of reading `currentProvider` from
      a missing `walletWeb3` on the profile view. */
  function RenderApp(instanceId: string, wrapperReady: bool, appsStatus: AppsStatus, apps: seq<App>,
                     addressesEqual: (string, string) -> bool, hasWalletWeb3: bool): (v: Option<View>)
    ensures instanceId == "home" ==> v == Some(HomeView)
    ensures instanceId == "permissions" ==> v == Some(PermissionsView)
    ensures instanceId == "apps" ==> v == Some(AppCenterView)
    ensures instanceId == "organization" ==> v == Some(OrganizationView)
    ensures instanceId == "profile" ==> v == (if hasWalletWeb3 then Some(ProfileView) else None)
    ensures !IsInternal(instanceId) && (!wrapperReady || appsStatus == AppsLoading) ==> v == Some(NoView)
    ensures !IsInternal(instanceId) && wrapperReady && appsStatus != AppsLoading ==>
      v == Some(match FindApp(apps, instanceId, addressesEqual) {
                  case Some(a) => IframeView(a)
                  case None => NotFoundView })
  {
    if instanceId == "home" then Some(HomeView)
    else if instanceId == "permissions" then Some(PermissionsView)
    else if instanceId == "apps" then Some(AppCenterView)
    else if instanceId == "organization" then Some(OrganizationView)
    else if instanceId == "profile" then (if hasWalletWeb3 then Some(ProfileView) else None)
    else if !wrapperReady || appsStatus == AppsLoading then Some(NoView)
    else
      var app := FindApp(apps, instanceId, addressesEqual);
      Some(if app.Some? then IframeView(app.value) else NotFoundView)
  }

  /** The internal views do not depend on the loading state; an iframe is shown only
      for an installed app whose proxy address matches. */
  lemma RenderAppProperties(instanceId: string, w1: bool, s1: AppsStatus, w2: bool, s2: AppsStatus,
                            apps: seq<App>, eq: (string, string) -> bool, hasWalletWeb3: bool)
    ensures IsInternal(instanceId) ==>
      RenderApp(instanceId, w1, s1, apps, eq, hasWalletWeb3) == RenderApp(instanceId, w2, s2, apps, eq, hasWalletWeb3)
    ensures var v := RenderApp(instanceId, w1, s1, apps, eq, hasWalletWeb3);
      v.Some? && v.value.IframeView? ==>
        && !IsInternal(instanceId) && w1 && s1 != AppsLoading
        && v.value.app in apps && eq(v.value.app.proxyAddress, instanceId)
  {
  }

  /** `reposLoading`: apps are loading, or there are apps but no repos yet. */
  function ReposLoading(appsStatus: AppsStatus, appCount: nat, repoCount: nat): (b: bool)
    ensures b <==> appsStatus == AppsLoading || (appCount > 0 && repoCount == 0)
  {
    appsStatus == AppsLoading || Truthy(if appCount == 0 then Num(0) else Bool(repoCount == 0))
  }

  // ---- The shell's state ----

  const ShowUpgradeModalKey := "SHOW_UPGRADE_MODAL_FIRST_TIME"

  /** `new Date('October 1 2019 00:00').getTime()`: local midnight, so the instant
      depends on the zone; `timezoneOffsetMs` is UTC minus local time. */
  function OctoberFirst2019(timezoneOffsetMs: int): int {
    1569888000000 + timezoneOffsetMs
  }

  /** The first-visit condition of `showOrgUpgradePanelIfFirstVisit`. */
  predicate FirstVisitGate(orgMode: bool, storage: map<string, string>, now: int, timezoneOffsetMs: int) {
    && orgMode
    && (ShowUpgradeModalKey !in storage || storage[ShowUpgradeModalKey] != "false")
    && now < OctoberFirst2019(timezoneOffsetMs)
  }

  /** Once the flag is stored, the gate stays shut whatever the mode and the time. */
  lemma GateClosesAfterOpening(storage: map<string, string>, orgMode: bool, now: int, tz: int)
    ensures !FirstVisitGate(orgMode, storage[ShowUpgradeModalKey := "false"], now, tz)
  {
  }

  datatype ShellEffect =
    | ConsoleError(message: string)
    | ConnectAppIFrame(instanceId: string)
    | SendReady   // `{from: 'wrapper', name: 'ready', value: true}` to the app iframe

  class WrapperShell {
    const timezoneOffsetMs: int
    var appLoading: bool
    var orgUpgradePanelOpened: bool
    var upgradeModalOpened: bool
    /** The origin's `localStorage`. */
    var storage: map<string, string>
    var effects: seq<ShellEffect>

    constructor (timezoneOffsetMs: int, storage: map<string, string>)
      ensures this.timezoneOffsetMs == timezoneOffsetMs && this.storage == storage
      ensures !appLoading && !orgUpgradePanelOpened && !upgradeModalOpened && effects == []
    {
      this.timezoneOffsetMs := timezoneOffsetMs;
      this.storage := storage;
      appLoading := false;
      orgUpgradePanelOpened := false;
      upgradeModalOpened := false;
      effects := [];
    }

    method LoadingStart()
      modifies this`appLoading
      ensures appLoading
    {
      appLoading := true;
    }

    method LoadingCancel()
      modifies this`appLoading
      ensures !appLoading
    {
      appLoading := false;
    }

    method LoadingError()
      modifies this`appLoading
      ensures !appLoading
    {
      appLoading := false;
    }

    /** `handleAppIFrameLoadingSuccess`: log and return early while the API is not
        ready or the instance is not installed; otherwise connect the iframe and, once
        that resolves (`connected`), send the ready message and clear `appLoading`.
        `mounted` says whether the `appIFrame` ref still holds the frame at that point;
        React clears it when the frame unmounts during the connect, and then
        `this.appIFrame.sendMessage` throws a TypeError: no ready message, and
        `appLoading` is left set. */
    method LoadingSuccess(wrapperReady: bool, apps: seq<App>, instanceId: string,
                          addressesEqual: (string, string) -> bool, connected: bool, mounted: bool)
      modifies this`appLoading, this`effects
      ensures !wrapperReady ==>
        && appLoading == old(appLoading)
        && effects == old(effects) + [ConsoleError("Attempted to connect app (" + instanceId + ") before aragonAPI was ready")]
      ensures wrapperReady && FindApp(apps, instanceId, addressesEqual).None? ==>
        && appLoading == old(appLoading)
        && effects == old(effects) + [ConsoleError("The requested app (" + instanceId + ") could not be found in the installed apps")]
      ensures wrapperReady && FindApp(apps, instanceId, addressesEqual).Some? ==>
        && effects == old(effects) + [ConnectAppIFrame(instanceId)] + (if connected && mounted then [SendReady] else [])
        && appLoading == (if connected && mounted then false else old(appLoading))
    {
      if !wrapperReady {
        effects := effects + [ConsoleError("Attempted to connect app (" + instanceId + ") before aragonAPI was ready")];
        return;
      }
      if FindApp(apps, instanceId, addressesEqual).None? {
        effects := effects + [ConsoleError("The requested app (" + instanceId + ") could not be found in the installed apps")];
        return;
      }
      effects := effects + [ConnectAppIFrame(instanceId)];
      if !connected || !mounted {
        return;
      }
      effects := effects + [SendReady];
      appLoading := false;
    }

    method UpgradeModalOpen()
      modifies this`upgradeModalOpened
      ensures upgradeModalOpened
    {
      upgradeModalOpened := true;
    }

    method UpgradeModalClose()
      modifies this`upgradeModalOpened
      ensures !upgradeModalOpened
    {
      upgradeModalOpened := false;
    }

    /** `showOrgUpgradePanel`: open the panel only if the org can be upgraded, and
        close the modal either way. */
    method ShowOrgUpgradePanel(canUpgradeOrg: bool)
      modifies this`orgUpgradePanelOpened, this`upgradeModalOpened
      ensures orgUpgradePanelOpened == canUpgradeOrg && !upgradeModalOpened
    {
      orgUpgradePanelOpened := canUpgradeOrg;
      upgradeModalOpened := false;
    }

    method HideOrgUpgradePanel()
      modifies this`orgUpgradePanelOpened
      ensures !orgUpgradePanelOpened
    {
      orgUpgradePanelOpened := false;
    }

    /** `showOrgUpgradePanelIfFirstVisit`: when the gate is open, store `'false'` under
        the key and open the modal; otherwise change nothing. */
    method ShowOrgUpgradePanelIfFirstVisit(orgMode: bool, now: int)
      modifies this`storage, this`upgradeModalOpened
      ensures old(FirstVisitGate(orgMode, storage, now, timezoneOffsetMs)) ==>
        storage == old(storage)[ShowUpgradeModalKey := "false"] && upgradeModalOpened
      ensures !old(FirstVisitGate(orgMode, storage, now, timezoneOffsetMs)) ==>
        storage == old(storage) && upgradeModalOpened == old(upgradeModalOpened)
      ensures !FirstVisitGate(orgMode, storage, now, timezoneOffsetMs) || storage == old(storage)
    {
      if FirstVisitGate(orgMode, storage, now, timezoneOffsetMs) {
        storage := storage[ShowUpgradeModalKey := "false"];
        upgradeModalOpened := true;
        GateClosesAfterOpening(old(storage), orgMode, now, timezoneOffsetMs);
      }
    }
  }

  /** The modal opens at most once: a second first-visit check after the first one
      opened it leaves the storage as the first left it, even once the modal is closed. */
  method FirstVisitOnce(shell: WrapperShell, orgMode: bool, now: int, later: int)
    modifies shell
    ensures old(FirstVisitGate(orgMode, shell.storage, now, shell.timezoneOffsetMs)) ==>
      shell.storage == old(shell.storage)[ShowUpgradeModalKey := "false"] && !shell.upgradeModalOpened
  {
    shell.ShowOrgUpgradePanelIfFirstVisit(orgMode, now);
    shell.UpgradeModalClose();
    GateClosesAfterOpening(old(shell.storage), orgMode, later, shell.timezoneOffsetMs);
    shell.ShowOrgUpgradePanelIfFirstVisit(orgMode, later);
  }
}
