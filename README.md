# Aragon client: organisation data store, gateway client, sandbox relay and screen rules

This Dafny project models the logic core of the Aragon web client at the revision
that adds an organisation profile. The profile is stored in a content-addressed IPFS
store. Its pointers are anchored in an on-chain storage app.

- **`IpfsStorageContext`** (`ipfs_storage_context.dfy`) covers the storage provider.
  - The pure connection-state reducer, with the invariant every reachable state keeps
    and the phase machine the reducer implements.
  - The connection procedure and its re-entry guard.
  - The four get/set helpers. They put content first and register `key -> cid` only
    once the put has returned the cid.
- **`ContentStore`** (`content_store.dfy`) is the remote side those helpers talk to.
  - An object store maps cids to DAG nodes or files.
  - A fresh-cid allocator mints the identifiers.
  - The storage app's registry maps keys to cids.
- **`Quasar`** (`quasar.dfy`) is the gateway client. It covers endpoint selection, URL
  composition, status-code classification, the failures it turns into `false`, and the
  `ipfs` field it sets.
- **`IframeWorker`** (`iframe_worker.dfy`) is the sandbox relay.
  - The object state: iframe present or absent, and the window listener.
  - `postMessage` and `terminate`, and the inbound filter and classification.
  - The bootstrap script inside the iframe, written as an event trace.
- **`OrganizationProfile`**, **`Brand`** and **`BasicInfo`** cover the profile read and
  the two settings screens that write it.
- **`Wrapper`**, **`AccountModule`**, **`UpgradeModal`** and **`OrganizationItem`** cover
  the small rules of the shell and its widgets.
- **`Js`** (`js.dfy`) is the part of JavaScript's value semantics the code relies on:
  truthiness, `typeof`, property reads and writes, `||`, ASCII `toLowerCase` and
  template-literal string conversion.

Code that keeps state is modelled as classes with the state as fields:
- the provider component;
- the gateway client;
- the relay object;
- the profile hook;
- the two settings forms;
- the shell component.

Everything the code awaits from outside is an input of the method that awaits it. This
covers:
- kernel calls;
- HTTP answers;
- whether a put or a registry transaction is accepted;
- the outcome of the script fetch;
- `Date.now()` and `localStorage`.

Every call to a collaborator that a method issues is appended to a log field (`calls`, `requests`,
`effects`, `posted`, `dispatched`). Where order matters, the contracts state the order of
those calls.

Decisions about the code as written:
- **Installed check.**
  - `setDag`, `setFile` and `saveBrand` check only that `isStorageAppInstalled` is truthy.
    A failed connection sets that flag to true. So in the failure state these operations
    fail on the null `ipfsEndpoints` (`EndpointsMissing`), not with "No storage app
    installed".
  - Either way, no store call is made.
- **`typeof null`.** `typeof null` is `"object"`, so `setDag` lets `null` through its type
  check (`Js.TypeOf`).
- **Listen result.** The boolean `listenToStorageContract` resolves to is awaited and never
  read.
- **Storage contract handle.**
  - The handle is kept in component state by `setStorageContract`, before
    `createIpfsProvider` is called. It survives a rejected provider request.
  - While it is still the initial `{}`, `getRegisteredData` is not a function. The read
    helpers then fail (`ContractMissing`).
- **Re-entry guard.** The guard refuses a new attempt while one is in flight or after a
  success. An attempt that ends in "not installed" or in failure reopens it, and the
  effect then runs again by itself, so such attempts repeat without end (see Findings).
- **Endpoints.** The provider keeps its endpoints as an abstract handle. The handle
  records only whether the object has `add` and `cat` (`hasFileApi`). The object
  `Quasar.createIpfsProvider` builds has `dag.get` and `dag.put` but neither of those, and
  it is the only object the code ever stores. On it every file write and every read of a
  registered file throws a TypeError (`NotAFunction`; see Findings). The file helpers'
  success paths hold for an object that does have both.
- **Profile view.** The `profile` view reads `walletWeb3.currentProvider`. When
  `walletWeb3` is missing, `renderApp` throws (`None` in `Wrapper.RenderApp`).
- **Case-insensitive match.** The storage app is matched by ASCII case folding, which is
  all a hexadecimal address contains.
- **Upgrade deadline.** `new Date('October 1 2019 00:00')` is local midnight. The deadline
  is therefore `1569888000000` ms plus the zone's offset, which is a constructor argument
  of the shell.

Behaviour of the code worth knowing:
- **`dag.put`.** It accepts only status 201, although the listen call also accepts 204.
- **Store helpers.** They check the installed flag, not readiness of the connection (see
  above).
- **Load failure.** A failed script load in the sandbox is only logged inside the iframe
  with `console.error`. No `error` event reaches the host object. A Worker error never
  reaches it either, because its relay cannot be cloned (see Findings).
- **Composite profile read.** It merges the basic-info record with the logo file. It does
  not follow the brand record's nested pointers.
- **Triggers during an attempt.** A trigger that arrives while an attempt is in flight is
  dropped, not queued. The effect runs again when the `connecting` flag changes.

## Model

| member | source | states |
|---|---|---|
| IpfsStorageContext.Reduce | src/contexts/IpfsStorageContext.js:31-68 | Each action's effect on the record. *No storage app* resets everything except the installed flag, which becomes false. *Success* stores the endpoints and the installed flag and keeps a previous error. *Failure* clears the endpoints and records the error. *Connecting* clears the endpoints and keeps the installed flag and the error. An unknown action changes nothing. |
| IpfsStorageContext.ReducePreservesConsistent | src/contexts/IpfsStorageContext.js:31-68 | Every action preserves the consistency invariant. Under the invariant: at most one of connecting/success/failure is set; endpoints are present iff success; success or failure implies installed; failure carries an error; the idle state carries no error and is not installed. |
| IpfsStorageContext.ReachableConsistent | src/contexts/IpfsStorageContext.js:22-68 | Any sequence of actions from the initial record leaves at most one of connecting/success/failure set, and the whole invariant holds. |
| IpfsStorageContext.ReduceAllSnoc | src/contexts/IpfsStorageContext.js:31-68 | Dispatching one more action reduces the previous state with it. |
| IpfsStorageContext.ReduceRefinesTransition | src/contexts/IpfsStorageContext.js:31-68 | The reducer implements the phase machine Unstarted → InProgress → Ready / NotInstalled / ConnectFailed. Reducing and then reading the phase equals stepping the phase. |
| IpfsStorageContext.ShouldConnect | src/contexts/IpfsStorageContext.js:216-221 | The guard as written: neither success nor connecting is set. |
| IpfsStorageContext.GuardAfterActions | src/contexts/IpfsStorageContext.js:216-221 | After *connecting* or *success* the guard refuses a new attempt. After *no storage app* or *failure* it admits one. |
| IpfsStorageContext.EffectReruns | src/contexts/IpfsStorageContext.js:222-227 | The effect runs again when the success or the connecting flag changes. |
| IpfsStorageContext.EndlessRetry | src/contexts/IpfsStorageContext.js:180-227 | As written: an attempt ending in *no storage app* or a failure re-runs the effect, the guard admits a new attempt, and that attempt returns to the same state. |
| IpfsStorageContext.Attempts | src/contexts/IpfsStorageContext.js:182-213 | `n` attempts, each a *connecting* dispatch followed by the same outcome. |
| IpfsStorageContext.RetriesForever | src/contexts/IpfsStorageContext.js:180-227 | As written: from such a state, after any number of attempts the state is unchanged and the guard admits another one. |
| IpfsStorageContext.ShouldConnectIntended | src/contexts/IpfsStorageContext.js:215-221 | Corrected guard: an attempt on the first run or after `apps` or `wrapper` changed, never merely because an attempt ended. |
| IpfsStorageContext.IntendedGuardProperties | src/contexts/IpfsStorageContext.js:215-221 | The corrected guard starts the first attempt. It refuses during an attempt and after success. After *no storage app* or a failure it waits for a change of `apps` or `wrapper`, and then admits exactly what the code's guard admits. |
| IpfsStorageContext.FindStorageApp | src/contexts/IpfsStorageContext.js:192-196 | The index returned is the first app whose proxy address equals the looked-up address ignoring ASCII case. None means no app matches. |
| IpfsStorageContext.AttemptOutcome | src/contexts/IpfsStorageContext.js:183-213 | The action an attempt ends with. *No storage app* iff both kernel calls resolved and no app matches. *Success* iff every awaited step resolved, carrying the provider's endpoints. A *failure* carries the error of the first step that rejected. It is never *connecting*. |
| IpfsStorageContext.ListenResultIgnored | src/contexts/IpfsStorageContext.js:205 | The outcome does not depend on the boolean the listen call resolves to. |
| IpfsStorageContext.AttemptCalls | src/contexts/IpfsStorageContext.js:184-208 | The namespace call comes first. Once it resolves, `getApp` follows with the namespace it resolved to and the storage app id. The listen call is issued iff a storage app matched, and names that app's proxy address. The provider is requested iff the listen call resolved, and that request is the last call. |
| IpfsStorageContext.IpfsStorageProvider.constructor | src/contexts/IpfsStorageContext.js:91-95 | The initial reducer state, an initial `{}` contract handle and empty logs. The key encoding and the storage app id are as given. |
| IpfsStorageContext.IpfsStorageProvider.Dispatch | src/contexts/IpfsStorageContext.js:91-94 | Dispatch reduces the state, logs the action and keeps the consistency invariant. |
| IpfsStorageContext.IpfsStorageProvider.Trigger | src/contexts/IpfsStorageContext.js:216-221 | When the guard admits it, an attempt starts with a *connecting* dispatch and reaches the InProgress phase. Otherwise nothing changes. A trigger during an attempt therefore never starts a second one. |
| IpfsStorageContext.IpfsStorageProvider.Complete | src/contexts/IpfsStorageContext.js:181-213 | The attempt dispatches exactly the action `AttemptOutcome` describes and issues the calls `AttemptCalls` describes. It keeps the matched app's contract once the listen call resolved, even if the provider request then fails. |
| IpfsStorageContext.IpfsStorageProvider.PutDag | src/contexts/IpfsStorageContext.js:107 | With no endpoints the put fails and makes no call. An accepted put stores the node under a fresh cid, and a rejected one leaves the store unchanged. |
| IpfsStorageContext.IpfsStorageProvider.PutFile | src/contexts/IpfsStorageContext.js:147 | Like `PutDag`, for a file added with `add`. On an object without `add` it throws a TypeError before any call, and the store is unchanged. |
| IpfsStorageContext.IpfsStorageProvider.RegisterPut | src/contexts/IpfsStorageContext.js:108-111 | A failed put is passed on with no registry call. Otherwise `registerData(fromAscii(key), cid)` is issued. When accepted, it points the key at the cid. |
| IpfsStorageContext.IpfsStorageProvider.SetDag | src/contexts/IpfsStorageContext.js:98-121 | Before any store call it fails when not installed (`NoStorageApp`) or when the value's `typeof` is not object (`NotAnObject`). Otherwise it puts, and registers only the cid that put returned. A rejection at either step is reported, and a failed put leaves the registry untouched. On success the key resolves to a cid that fetches back the value. |
| IpfsStorageContext.IpfsStorageProvider.SetFile | src/contexts/IpfsStorageContext.js:141-161 | As for `SetDag`, without the type check. On an object without `add` it fails with a TypeError, issuing no call. On success the key resolves to a cid that fetches back the file. |
| IpfsStorageContext.IpfsStorageProvider.GetDag | src/contexts/IpfsStorageContext.js:123-138 | When not installed it fails. With no contract it fails before any call. An unregistered key yields null after only the registry lookup. A registered key yields the node stored under its cid, or `Unresolvable`. |
| IpfsStorageContext.IpfsStorageProvider.GetFile | src/contexts/IpfsStorageContext.js:163-178 | As for `GetDag`, reading the file with `cat`. For a registered key on an object without `cat`, a TypeError after the lookup. |
| IpfsStorageContext.FileHelpersFailWithoutFileApi | src/contexts/IpfsStorageContext.js:141-178 | As written, on an object without `add` and `cat` (the only kind the code stores): a file set never passes and leaves the store unchanged, and a file get never returns a file. |
| IpfsStorageContext.SetFileThenGetFile | src/contexts/IpfsStorageContext.js:141-178 | Corrected, on an object with `add` and `cat`: a get after a passing set of the same key returns the file that was set. |
| IpfsStorageContext.SetThenGet | src/contexts/IpfsStorageContext.js:106-133 | Round trip: a successful set followed by a get of the same key returns the value that was set. |
| ContentStore.Put | src/contexts/IpfsStorageContext.js:107 | The new cid was never used. Nothing already stored is touched. The registry is unchanged. |
| ContentStore.Register | src/contexts/IpfsStorageContext.js:108-111 | Only the key's registry entry changes, to the cid. |
| ContentStore.PutRegisterRoundTrip | src/contexts/IpfsStorageContext.js:106-113 | Put followed by register makes the key resolve to the new cid, which fetches back the value. |
| ContentStore.PutRegisterIsolated | src/contexts/IpfsStorageContext.js:106-113 | Writing one key changes neither what another key resolves to nor the content it reaches. |
| ContentStore.CidOfInjective | src/contexts/IpfsStorageContext.js:107 | Distinct allocator counters give distinct cids, so every put mints a fresh pointer. |
| ContentStore.Resolve | src/contexts/IpfsStorageContext.js:129-132 | A pointer is returned iff the key was registered, and it is the registered one. |
| ContentStore.FetchDag | src/contexts/IpfsStorageContext.js:133 | A node is returned iff the cid holds a DAG node, and it is that node. |
| ContentStore.FetchFile | src/contexts/IpfsStorageContext.js:173 | A file is returned iff the cid holds a file, and it is that file. |
| Js.TypeOf | src/contexts/IpfsStorageContext.js:103 | `typeof` is `"object"` exactly for objects and null. |
| Quasar.ListenAccepted | src/storage/Quasar.js:12-23 | True iff the gateway answered 201 or 204. A network error is false, never an exception. |
| Quasar.GatewayPutOutcome | src/storage/Quasar.js:60-72 | The response text iff the status is 201. Any other status is the pinning error. |
| Quasar.LocalPutOutcome | src/storage/Quasar.js:53-58 | A parsed, non-null JSON answer with a non-null `Cid` yields its `Cid['/']`, and nothing else yields a result. A network error and an unparsable body fail as such. |
| Quasar.PutStricterThanListen | src/storage/Quasar.js:20 | Every status `dag.put` accepts, the listen call accepts too. 204 is accepted by the listen call and rejected by `dag.put`. |
| Quasar.DagGetUrl | src/storage/Quasar.js:42 | The `dag.get` URL: base URL, `/`, the get path and the cid. |
| Quasar.DagGetUrlShape | src/storage/Quasar.js:42 | The `dag.get` URL starts with the base URL and a `/` and ends with the cid. |
| Quasar.LocalModeDagGetUrl | src/storage/Quasar.js:29-30 | In ignore mode the URL asks the local daemon at `http://localhost:5001/api/v0/dag/get?arg=` for the cid. |
| Quasar.ProviderApi | src/storage/Quasar.js:33-37 | A parsed, non-null JSON answer yields endpoints from its `baseUrl` and `dagGetUrl`, with `dag/put` as the put path, and nothing else yields endpoints. A network error and an unparsable body fail as such. |
| Quasar.Quasar.constructor | src/storage/Quasar.js:2-6 | Endpoint and mode as given (ignore mode off by default), `ipfs` null, no requests. |
| Quasar.Quasar.ListenToStorageContract | src/storage/Quasar.js:8-24 | Ignore mode resolves to undefined with no request. Otherwise one `POST /contracts` with `{contractAddress}` resolves to `ListenAccepted`. |
| Quasar.Quasar.CreateIpfsProvider | src/storage/Quasar.js:26-78 | Ignore mode uses the fixed local endpoints with no request. Otherwise one `GET /ipfs-provider` supplies them. On success `ipfs` is the returned object. A rejection leaves `ipfs` as it was. |
| Quasar.Quasar.DagGet | src/storage/Quasar.js:41-44 | One GET of the composed URL. The result is the parsed JSON body, and is absent iff the answer is not JSON or the fetch failed. |
| Quasar.Quasar.DagPut | src/storage/Quasar.js:45-74 | Ignore mode sends a form post of field `v0` to the local daemon and reads the `Cid`. Otherwise it sends a JSON post to the gateway's `/dag/put`, classified by `GatewayPutOutcome`. |
| Quasar.ContextQuasar | src/contexts/IpfsStorageContext.js:15 | The provider's client talks to `http://localhost:3003/api/v0` in gateway mode. |
| IframeWorker.Classify | src/iframe-worker.js:80-92 | An event is dispatched iff its data can be destructured, its source is this iframe's window and its `from` is this worker's name. Its type is `error` iff `error` is truthy, and its data is `error \|\| msg`. |
| IframeWorker.IframeWorker.constructor | src/iframe-worker.js:4-64 | The name as given. An iframe sandboxed with `allow-scripts` whose bootstrap carries the script URL and the name. The window listener is registered. Nothing posted or dispatched yet. |
| IframeWorker.IframeWorker.PostMessage | src/iframe-worker.js:66-70 | The message is forwarded iff the iframe is present. |
| IframeWorker.IframeWorker.Terminate | src/iframe-worker.js:72-78 | The listener is removed and the iframe is null. The relay invariant (listener iff iframe) is kept. |
| IframeWorker.IframeWorker.OnWindowMessage | src/iframe-worker.js:80-92 | While listening, exactly what `Classify` selects is dispatched. After `Terminate` nothing is. |
| IframeWorker.TerminatedIsInert | src/iframe-worker.js:66-78 | `terminate` twice, then a post and an incoming message, leaves nothing posted and nothing dispatched. |
| IframeWorker.LiteralSafe | src/iframe-worker.js:45-52 | The URLs and names that stay one string literal when pasted into the bootstrap script. |
| IframeWorker.LoadFailureMessage | src/iframe-worker.js:47 | The message logged when the script cannot be loaded. |
| IframeWorker.Init | src/iframe-worker.js:14-57 | The trace starts with the CORS GET of the script. A rejected or non-ok fetch gives exactly that plus the load-failure log, and no Worker. Otherwise the trace is exactly: fetch, object URL creation, the Worker spawned under the name on that URL, the error and message relays, the window relay, and the URL revoked last. |
| IframeWorker.RelayWorkerError | src/iframe-worker.js:51 | What the script posts for a Worker error: `{from: name, error}`. |
| IframeWorker.RelayWorkerMessage | src/iframe-worker.js:52 | What the script posts for a Worker message: `{from: name, msg: data}`. |
| IframeWorker.MessageRelayRoundTrip | src/iframe-worker.js:52 | For a literal-safe name, a Worker message relayed by the iframe reaches its host object as a `message` event carrying the same data. |
| IframeWorker.ErrorRelayRoundTrip | src/iframe-worker.js:80-92 | The host side only: for a literal-safe name, an object `{from: name, error}` with a truthy error that arrives from the iframe is dispatched as an `error` event carrying the error. As written, no such object ever arrives. |
| IframeWorker.PostClone | src/iframe-worker.js:51-52 | `postMessage` of an object: the parent receives a copy of its fields, or nothing when a field is an event object. |
| IframeWorker.ErrorRelayAsWritten | src/iframe-worker.js:51 | As written: `{from: name, error}` with the Worker's `ErrorEvent` as `error`. |
| IframeWorker.ErrorRelayNeverPosted | src/iframe-worker.js:51 | As written, the error relay throws a `DataCloneError` in the iframe and posts nothing. |
| IframeWorker.ErrorRelayIntended | src/iframe-worker.js:51 | Corrected: the relay posts `{from: name, error: {message}}`. |
| IframeWorker.ErrorRelayIntendedDelivered | src/iframe-worker.js:51-92 | Corrected: the relay is posted intact, and the host object named `name` dispatches it as an `error` event carrying the message. |
| IframeWorker.RelayFiltered | src/iframe-worker.js:85 | A relay from another window or tagged with another name is never dispatched. |
| OrganizationProfile.MergeProfile | src/organizationProfile.js:18-27 | A missing or falsy record becomes `{}`, with `image` iff a logo was found. A record keeps all its fields and gains `image` iff a logo was found. Assigning `image` into a truthy primitive throws. |
| OrganizationProfile.ProfileOfSavedRecord | src/organizationProfile.js:18-27 | A saved record of fields comes back with every field, plus `image` exactly when there is a logo. |
| OrganizationProfile.NoLogoNoImage | src/organizationProfile.js:22-25 | Without a logo, a record without `image` stays without one. |
| OrganizationProfile.StoredDag | src/contexts/IpfsStorageContext.js:123-138 | The connected read yields null iff the key is unregistered. A key registered to a stored node yields that node, and any node it yields is the one stored under the registered cid. |
| OrganizationProfile.StoredFile | src/contexts/IpfsStorageContext.js:163-178 | As `StoredDag`, for files: on an object with `cat`, a key registered to a stored file yields that file. A registered key on an object without `cat` gives a TypeError. |
| OrganizationProfile.ReadCalls | src/contexts/IpfsStorageContext.js:129-133 | The registry lookup comes first. The content read follows iff a pointer is registered and the read method exists, and it reads that pointer (`dag.get` for a node, `cat` for a file). |
| OrganizationProfile.OrgData.constructor | src/organizationProfile.js:13-14 | `info` is undefined and nothing has been fetched. |
| OrganizationProfile.OrgData.Effect | src/organizationProfile.js:16-36 | The fetch runs only when nothing was fetched yet and the connection succeeded. Basic info is read under `ORG_SETTINGS_BASIC_INFO` before the logo under `ORG_SETTINGS_LOGO`. A completed fetch stores the merged record and sets `fetchedData`, so it never runs again. A failed read changes nothing. |
| Brand.IsColor | src/apps/Organization/Brand.js:22 | A `#` followed by exactly 3 or 6 hex digits of either case. |
| Brand.ColorMatchesRegex | src/apps/Organization/Brand.js:22 | The validator accepts a string iff `/^#(([a-f0-9]{3}){1,2})$/i` matches it, read group by group. |
| Brand.HexDigitLower | src/apps/Organization/Brand.js:22 | A hex digit of either case is exactly a character whose lower-case form is in `[a-f0-9]`. |
| Brand.ShortFormExpands | src/apps/Organization/Brand.js:22 | A three-digit colour and its doubled six-digit form are both accepted and name the same sRGB colour. |
| Brand.AlphaFormsRejected | src/apps/Organization/Brand.js:22 | The four- and eight-digit alpha forms, and any string with a non-hex digit, are rejected. |
| Brand.ColorError | src/apps/Organization/Brand.js:23 | A truthy accent colour that the validator rejects. |
| Brand.ColorErrorCases | src/apps/Organization/Brand.js:22-23 | No error for a falsy colour. For a non-empty string the error is shown exactly when `/^#(([a-f0-9]{3}){1,2})$/i` rejects it. |
| Brand.PreviewStops | src/apps/Organization/Brand.js:189-191 | A gradient is shown iff `accentColor` is truthy. The first stop is `accentColor`. The second is `accentColor2` when truthy, else `accentColor`. |
| Brand.StyleRecord | src/apps/Organization/Brand.js:59-63 | The style record has exactly `background`, `accentColor` and `accentColor2`, with the form's values. |
| Brand.BrandRecord | src/apps/Organization/Brand.js:66-69 | The brand record has exactly `style_cid` and `logo_cid`. |
| Brand.BrandForm.constructor | src/apps/Organization/Brand.js:12-18 | The initial state cells: no image, background on, preview closed, style 0, empty colours. |
| Brand.BrandForm.Load | src/apps/Organization/Brand.js:33-46 | A falsy `orgInfo` changes nothing. Otherwise background and accent colour are copied. The gradient style and second colour are taken iff `accentColor2` is truthy. The logo is replaced only by a fetched image. |
| Brand.BrandForm.OnDrop | src/apps/Organization/Brand.js:48-53 | The first accepted file becomes the logo, or undefined when there is none. |
| Brand.BrandForm.ChangeAccentColor | src/apps/Organization/Brand.js:19 | The accent colour is the input's value. |
| Brand.BrandForm.ChangeAccentColor2 | src/apps/Organization/Brand.js:20 | The second accent colour is the input's value. |
| Brand.BrandForm.OpenPreview | src/apps/Organization/Brand.js:74 | The preview is open. |
| Brand.BrandForm.ClosePreview | src/apps/Organization/Brand.js:75 | The preview is closed. |
| Brand.BrandForm.PutStyleAndLogo | src/apps/Organization/Brand.js:59-65 | The style put comes first, then the logo add when there is an image. It succeeds exactly when both are accepted and, with an image, the object has `add`. Nothing is registered. On success the style cid fetches the style, and the logo cid is `''` or fetches the logo. |
| Brand.SaveBrandWithImageFails | src/apps/Organization/Brand.js:64-65 | As written, saving a logo on an object without `add`: only the style is put, the save fails, and nothing is registered. |
| Brand.BrandForm.SaveBrand | src/apps/Organization/Brand.js:55-72 | Not installed fails before any put, and `colorError` is not consulted. The style put comes first. With an image and an object without `add`, the save fails with a TypeError right after the style put. Any failure leaves the registry unchanged. The save passes exactly when every step is accepted and, with an image, the object has `add`. A pass issues style put, then logo add (only with an image), then the brand put and its registration. `ORG_SETTINGS_BRAND` then resolves to a brand record whose `style_cid` fetches the style and whose `logo_cid` is `''` without an image, else fetches the logo. |
| BasicInfo.WithField | src/apps/Organization/BasicInfo.js:31-35 | The named field has the new value. Every other field is unchanged, and no field disappears. |
| BasicInfo.WithFieldLaws | src/apps/Organization/BasicInfo.js:31-35 | Setting a field twice keeps the second value. Setting two different fields commutes. Re-setting a field's own value changes nothing. |
| BasicInfo.FromOrgInfo | src/apps/Organization/BasicInfo.js:22-28 | Exactly `name`, `website` and `description`, copied from `orgInfo`. |
| BasicInfo.LoadOfSavedRecord | src/apps/Organization/BasicInfo.js:22-28 | Loading a saved three-field record restores it unchanged. |
| BasicInfo.BasicInfoForm.constructor | src/apps/Organization/BasicInfo.js:15-19 | The record starts with the three fields, all empty strings. |
| BasicInfo.BasicInfoForm.Change | src/apps/Organization/BasicInfo.js:31-35 | The new record is the old one with the named field set. |
| BasicInfo.BasicInfoForm.Load | src/apps/Organization/BasicInfo.js:21-29 | A truthy `orgInfo` replaces the record by its three fields. Otherwise the record is untouched. |
| BasicInfo.BasicInfoForm.Save | src/apps/Organization/BasicInfo.js:37-39 | It passes iff installed, connected and both writes are accepted. Its first call puts the current record, and a failure leaves the registry untouched. After a pass the profile read finds exactly this record under `ORG_SETTINGS_BASIC_INFO`. |
| Wrapper.InstanceOf | src/Wrapper.js:111-116 | An instance's id is its proxy address. |
| Wrapper.GroupOf | src/Wrapper.js:124-133 | A new group carries the app's id and the given instances. |
| Wrapper.FirstAppearancesMembership | src/Wrapper.js:98-135 | An id gets a group iff some app has it, and then that group's shared info comes from the first app with it. An id without a group has no instances. |
| Wrapper.FirstAppearancesDistinct | src/Wrapper.js:100 | No two groups share an app id. |
| Wrapper.FindGroup | src/Wrapper.js:100 | The first group with the app's id, or None when no group has it. |
| Wrapper.TotalInstancesUpdate | src/Wrapper.js:119-121 | Replacing one group changes the instance count by the difference in its size. |
| Wrapper.TotalInstancesAppend | src/Wrapper.js:124-133 | Appending a group adds its instances to the count. |
| Wrapper.AddInstance | src/Wrapper.js:99-134 | One reduce step. An app whose id has a group leaves the number of groups unchanged. Otherwise a new group for it is appended. Existing groups keep their id and shared info. Some group of the app's id ends with the app's instance. |
| Wrapper.Reduced | src/Wrapper.js:98-135 | The reduce over the apps, one `AddInstance` step per app in order. |
| Wrapper.GroupingStep | src/Wrapper.js:99-134 | One step of the reduce keeps the grouping property and adds exactly one instance. |
| Wrapper.ReducedIsGrouping | src/Wrapper.js:98-135 | The reduce yields one group per distinct app id, in order of first appearance. Each group holds that id's instances in input order and the first such app's shared info. Every app contributes exactly one instance. |
| Wrapper.GetAppInstancesGroups | src/Wrapper.js:98-135 | The loop yields the grouping, and the number of instances equals the number of apps. |
| Wrapper.GroupContents | src/Wrapper.js:98-135 | A group's id is the id in that position of first appearance, no other group has it, and each of its instances is identified by its proxy address. |
| Wrapper.InstanceIds | src/Wrapper.js:111-116 | Every instance of an id has instance id equal to proxy address. |
| Wrapper.FindApp | src/Wrapper.js:461 | The first app whose proxy address is equal to the instance id, or None when no app matches. |
| Wrapper.IsInternal | src/Wrapper.js:382-454 | The five instance ids with internal views. |
| Wrapper.RenderApp | src/Wrapper.js:361-476 | The five internal ids map to their views. Otherwise null while the wrapper is missing or apps are loading, then the matching app's iframe, else the 404 view. The profile view throws without a wallet provider. |
| Wrapper.RenderAppProperties | src/Wrapper.js:382-475 | Internal views do not depend on the loading state. An iframe is shown only when loaded and ready, for an installed app whose proxy address matches. |
| Wrapper.ReposLoading | src/Wrapper.js:380 | True iff apps are loading, or there are apps but no repos. |
| Wrapper.OctoberFirst2019 | src/Wrapper.js:35 | The deadline instant: local midnight of 1 October 2019. |
| Wrapper.FirstVisitGate | src/Wrapper.js:242-246 | Org mode, the stored flag not `'false'`, and a time before the deadline. |
| Wrapper.GateClosesAfterOpening | src/Wrapper.js:240-252 | Once `'false'` is stored under the key, the first-visit gate is shut for every mode and time. |
| Wrapper.WrapperShell.constructor | src/Wrapper.js:74-78 | `appLoading`, the panel flag and the modal flag start false. |
| Wrapper.WrapperShell.LoadingStart | src/Wrapper.js:203-205 | `appLoading` is true. |
| Wrapper.WrapperShell.LoadingCancel | src/Wrapper.js:206-208 | `appLoading` is false. |
| Wrapper.WrapperShell.LoadingError | src/Wrapper.js:209-211 | `appLoading` is false. |
| Wrapper.WrapperShell.LoadingSuccess | src/Wrapper.js:171-202 | A missing wrapper or an unknown instance logs its message and leaves `appLoading` as it was. Otherwise the iframe is connected. The ready message is sent and `appLoading` cleared only once that resolves and only while the `appIFrame` ref still holds the frame. When the frame was unmounted meanwhile, nothing follows the connect and `appLoading` stays as it was. |
| Wrapper.WrapperShell.UpgradeModalOpen | src/Wrapper.js:223-227 | The modal is open. |
| Wrapper.WrapperShell.UpgradeModalClose | src/Wrapper.js:228-232 | The modal is closed. |
| Wrapper.WrapperShell.ShowOrgUpgradePanel | src/Wrapper.js:233-239 | The panel is open iff the org can be upgraded, and the modal is closed. |
| Wrapper.WrapperShell.HideOrgUpgradePanel | src/Wrapper.js:253-255 | The panel is closed. |
| Wrapper.WrapperShell.ShowOrgUpgradePanelIfFirstVisit | src/Wrapper.js:240-252 | In org mode, with the stored flag not `'false'` and before 1 October 2019 local time, it stores `'false'` and opens the modal. Otherwise nothing changes. Afterwards the gate is shut. |
| Wrapper.FirstVisitOnce | src/Wrapper.js:240-252 | The modal opens at most once. A later check, after the modal was closed, leaves the storage and the modal as the first check left them. |
| AccountModule.NetworkName | src/components/AccountModule/AccountModule.js:19-23 | `main` is `Mainnet`, `rinkeby` is `Rinkeby`, any other id is returned unchanged. |
| AccountModule.NetworkNameProperties | src/components/AccountModule/AccountModule.js:19-23 | The name is empty iff the id is. Two ids other than the renamed ones have equal names iff they are equal. |
| AccountModule.View | src/components/AccountModule/AccountModule.js:25-32 | The connected view iff `connected`, else the enable-account view. |
| AccountModule.IndexOf | src/components/AccountModule/AccountModule.js:94 | `indexOf` is the first index of the character, or -1 iff it is absent. |
| AccountModule.SubstrFromStart | src/components/AccountModule/AccountModule.js:92-94 | `substr(0, n)` is a prefix of length n, clamped to the range from 0 to the string's length. |
| AccountModule.DaoSegment | src/components/AccountModule/AccountModule.js:92-94 | The segment is the dot-free prefix before the first `.`, or empty when there is no `.`. |
| AccountModule.ProfileHref | src/components/AccountModule/AccountModule.js:92-95 | The link: origin, `#/`, the dao segment, `/profile/` and the address. |
| AccountModule.ProfileHrefSegment | src/components/AccountModule/AccountModule.js:92-95 | For `name.rest` the link is origin + `#/` + name + `/profile/` + address. For a name without a `.` the segment is empty. |
| AccountModule.IndexOfFirstDot | src/components/AccountModule/AccountModule.js:94 | In `name.rest` with a dot-free name, the first `.` is at the name's length. |
| AccountModule.StatusText | src/components/AccountModule/AccountModule.js:170 | `Connected to <name>` for a non-empty network name, else `Connected `. |
| AccountModule.StatusNamesNetwork | src/components/AccountModule/AccountModule.js:170 | The status names a network iff the wallet reports a network id. |
| AccountModule.DisplayedLabel | src/components/AccountModule/AccountModule.js:149-162 | A truthy label is shown, otherwise the shortened address. |
| UpgradeModal.VerticalMode | src/components/Upgrade/UpgradeModal.js:28 | Width below 900. |
| UpgradeModal.CompactMode | src/components/Upgrade/UpgradeModal.js:29 | Width below 500 or height below 400. |
| UpgradeModal.CompactByWidthIsVertical | src/components/Upgrade/UpgradeModal.js:28-29 | A viewport below 500px wide is both compact and vertical. |
| UpgradeModal.ModalWidth | src/components/Upgrade/UpgradeModal.js:33 | The width never exceeds 1055 or the viewport less 40, and is one of the two. |
| UpgradeModal.ModalWidthCases | src/components/Upgrade/UpgradeModal.js:33 | Up to a 1095px viewport the modal leaves 20px on each side. Beyond that it is 1055. |
| UpgradeModal.ContentHeight | src/components/Upgrade/UpgradeModal.js:41-43 | In vertical mode the height is the viewport less 40. Otherwise it is clamped into [500, 620], and is unclamped for viewports from 540 to 660. |
| UpgradeModal.ContentHeightMonotone | src/components/Upgrade/UpgradeModal.js:41-43 | A taller viewport never gives a shorter content area. |
| UpgradeModal.StepAfterEffect | src/components/Upgrade/UpgradeModal.js:19-23 | Becoming visible resets the step to 0. Otherwise the step is kept. |
| UpgradeModal.Arrows | src/components/Upgrade/UpgradeModal.js:17 | The arrow keys are bound iff the modal is visible. |
| OrganizationItem.KnownOrg | src/components/MenuPanel/OrganizationSwitcher/OrganizationItem.js:10 | Truthy stored org data wins over the known-organisation lookup. |
| OrganizationItem.DisplayName | src/components/MenuPanel/OrganizationSwitcher/OrganizationItem.js:32 | With a record, that record's `name`. Without one, `dao.name` if truthy, else `dao.address`. |
| OrganizationItem.EmptyProfileHidesName | src/components/MenuPanel/OrganizationSwitcher/OrganizationItem.js:32 | As written: a fetch with nothing saved yields `{}`. That record wins, and the entry shows an undefined name. |
| OrganizationItem.ProfileNameOnEveryEntry | src/components/MenuPanel/OrganizationSwitcher/OrganizationItem.js:10 | As written: once the connected profile is truthy, entries of two different organisations show the same name. |
| OrganizationItem.DisplayNameIntended | src/components/MenuPanel/OrganizationSwitcher/OrganizationItem.js:32 | Corrected: the record's name only when it has a truthy one, else the entry's name or address. |
| OrganizationItem.DisplayNameIntendedProperties | src/components/MenuPanel/OrganizationSwitcher/OrganizationItem.js:32 | The corrected name is never blank for an entry with an address. It agrees with the code whenever the record has a name or there is no record. |
| OrganizationItem.KnownOrgIntended | src/components/MenuPanel/OrganizationSwitcher/OrganizationItem.js:10 | Corrected: the connected profile is used only for the connected organisation's own entry. |
| OrganizationItem.KnownOrgIntendedProperties | src/components/MenuPanel/OrganizationSwitcher/OrganizationItem.js:10 | Another organisation's entry never shows the connected profile. The connected one's entry selects what the code selects. |

## Left out

- Rendering: JSX, styled-components and CSS, and the Dropzone, Modal, Popover and DropDown widgets. These are presentation only.
- HTTP and JSON: real `fetch`, `FormData`, JSON serialisation and `response.json()`/`text()`. Answers are inputs (`Quasar.Fetched`) with the status, text and parsed body.
- Browser sandbox machinery: creating the iframe in the DOM, `srcdoc`, cross-window transport, `Worker`, `Blob` and object URLs. These are trace events and opaque window handles.
- IframeWorker.Init: the script URL and the name are pasted into the bootstrap's source text as string literals. The model covers only values that stay one literal (`LiteralSafe`); the relay round-trip lemmas carry the same requirement. A quote breaks the script (nothing is fetched and no Worker starts). A backslash escape changes the parsed `from` tag, so the host filter drops every relay.
- IframeWorker.ErrorRelayRoundTrip: it states only what the host does with an error relay that arrives. As written, no error relay can arrive, because posting the `ErrorEvent` throws a `DataCloneError` (`ErrorRelayNeverPosted`).
- IframeWorker.PostClone: structured cloning is modelled only as far as an event object fails it. Every other field is copied as it is.
- IpfsStorageContext.IpfsStorageProvider.PutFile: it succeeds only on an object with `add`, which the code never stores. In the program as written every file add throws.
- IpfsStorageContext.IpfsStorageProvider.SetFile: it passes only on an object with `add`. In the program as written it always fails.
- OrganizationProfile.StoredFile: it returns a file only on an object with `cat`. In the program as written a registered logo is never read back.
- Brand.BrandForm.SaveBrand: the logo is stored only on an object with `add`. In the program as written a save with an image always fails after putting the style.
- ContentStore.Put: cids are minted by a counter, not hashed from the content. Equal content put twice gets two cids here, where IPFS would give one.
- web3 and other foreign calls are parameters or inputs (the kernel proxy calls, `instantiateStorageContract`, `registerData`/`getRegisteredData`, `fromAscii`, `addressesEqual`, `shortenAddress`, `getKnownOrganization`, `useSteps`, `useArrows`, `memoize`).
- IpfsStorageContext.IpfsStorageProvider.Complete: `instantiateStorageContract` is taken not to throw. The contract handle is the storage app's proxy address.
- IpfsStorageContext.IpfsStorageProvider.GetDag: a rejected `getRegisteredData` call is not modelled. A registered pointer is never falsy, because every cid the allocator mints is non-empty.
- IpfsStorageContext.IpfsStorageProvider.GetFile: same as `GetDag`. It also returns a file only on an object with `cat`, which the code never stores. In the program as written a registered file is never read back.
- React scheduling: effect re-runs on dependency changes, interleaving of concurrent hooks, and hook instances shared between components. Each effect run is one method call, and only the explicit guard flags are kept.
- Wrapper.WrapperShell.LoadingSuccess: the `appIFrame` ref is an input (`mounted`) read once the connect resolves. The unhandled rejection from the TypeError is not modelled beyond its effect on the state. A rejected `connectAppIFrame` and a connection still pending both leave the state after the connect call (`connected` false).
- The progress fraction `(step + 1) / steps` of the upgrade modal, because it is floating point.
- UpgradeModal.StepAfterEffect: stepping with the arrows belongs to the foreign `useSteps` hook and is not modelled.
- Brand.BrandForm.Load: fetching the saved image back from `orgInfo.image` is network I/O. Its settled value is the `fetchedImage` input.
- OrganizationProfile.OrgData.Effect: its two debug `console.log` calls are not logged, being output only.
- OrganizationProfile.OrgData.Effect: reading the logo's bytes and minting its object URL is I/O. The URL is the `logoUrl` input.
- Wrapper.GetAppInstancesGroups: groups are values, so the aliasing of a group object whose `instances` array is extended in place with `push` (which the memoised result shares) is not captured.
- Wrapper.App: only the fields the shell reads are kept. Other fields of an app end up in the shared info in the code.
- Js.Value: arrays, functions, symbols and floating-point numbers are not modelled. Numbers are integers, and lower-casing is ASCII only.
- AccountModule.DisplayedLabel: the label is rendered through its string conversion, and React's rendering of non-string children is not modelled.

## Findings

| source | as written | input that shows it | evidently intended | confidence | as-written member | corrected member |
|---|---|---|---|---|---|---|
| src/components/MenuPanel/OrganizationSwitcher/OrganizationItem.js:32 | `knownOrg ? knownOrg.name : dao.name \|\| dao.address`, where `knownOrg` is the profile. For an organisation with nothing saved, the profile is `{}` (src/organizationProfile.js:19). | Connected storage with no `ORG_SETTINGS_BASIC_INFO` and no logo registered, and `dao = {name: 'acme', address: '0x1'}`. The profile is `{}`, which is truthy, so the entry shows `undefined` (blank). | Use the record's name only when it has one. Otherwise fall back to `dao.name`, then `dao.address`. | medium; not executed | OrganizationItem.EmptyProfileHidesName | OrganizationItem.DisplayNameIntended |
| src/components/MenuPanel/OrganizationSwitcher/OrganizationItem.js:10 | `getOrgData() \|\| getKnownOrganization(network.type, dao.address)`. `getOrgData` reads the connected organisation's store and does not depend on `dao`. | A switcher listing `dao` entries `0x1` and `0x2` while `0x1` is connected with a saved name `acme`. Both entries show `acme`. | Use the connected profile only for the entry of the connected organisation. Otherwise use the known-organisation record. | medium; not executed | OrganizationItem.ProfileNameOnEveryEntry | OrganizationItem.KnownOrgIntended |
| src/contexts/IpfsStorageContext.js:216-227 | The effect depends on the connecting and success flags, and its guard admits an attempt whenever neither is set (the comment on line 215 says it must not fetch "continuously"). | An organisation whose `getApp` address is not among `apps`, or a rejected `/ipfs-provider` request. *Connecting* then *no storage app* (or *failure*) clears `connecting`, the effect runs again, the guard admits it, and the next attempt ends in the same state, forever. | Retry only on the first run or when `apps` or `wrapper` change. | medium; not executed (relies on React re-running an effect when a dependency changes) | IpfsStorageContext.RetriesForever | IpfsStorageContext.ShouldConnectIntended |
| src/contexts/IpfsStorageContext.js:147-173 | `ipfsStore.ipfsEndpoints.add(file)` and `ipfsStore.ipfsEndpoints.cat(cid)`, where `ipfsEndpoints` is always the object `quasarApi.createIpfsProvider()` returns (lines 15 and 207-209). That object is `{dag: {get, put}}` (src/storage/Quasar.js:39-76). | Any `setFileInOrgDataStore(key, file)` on a connected provider: `add` is undefined and the call throws a TypeError, so nothing is stored. Any read of a registered key with `getFileFromOrgDataStore` throws the same way at `cat`. | The provider object offers `add` and `cat`, so a file read after a file write returns that file. | high; not executed | IpfsStorageContext.FileHelpersFailWithoutFileApi | IpfsStorageContext.SetFileThenGetFile |
| src/apps/Organization/Brand.js:64-65 | `await ipfsEndpoints.dag.put(style)`, then `image ? await ipfsEndpoints.add(image) : ''`, on the same object without `add`. | Saving the brand screen with a logo selected: the style node is put, then `add` throws, and `ORG_SETTINGS_BRAND` is never registered. | The logo is added and the brand record is registered with both pointers. | high; not executed | Brand.SaveBrandWithImageFails | Brand.BrandForm.SaveBrand |
| src/iframe-worker.js:51 | `worker.addEventListener('error', error => window.parent.postMessage({from: name, error}, '*'))`: the posted object holds the `ErrorEvent` itself. | Any error raised in the Worker. Structured cloning of an event throws a `DataCloneError` inside the iframe, so the host object never receives an `error` event. | Post a cloneable summary, such as `{from: name, error: {message: error.message}}`. | high; not executed | IframeWorker.ErrorRelayNeverPosted | IframeWorker.ErrorRelayIntendedDelivered |
