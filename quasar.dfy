/** The gateway client. The network is abstract: each request the client issues is
    appended to a log, and what the network answered is an input. The model keeps
    what the class decides: which endpoints to use, the URLs it composes, how it
    classifies status codes and which failures it turns into `false`. */
module Quasar {
  import opened Js

  /** A request as issued: its method, URL and body. */
  datatype Request =
    | HttpGet(url: string)
    | HttpPostJson(url: string, body: Value)
    | HttpPostForm(url: string, field: string, body: Value)

  /** What the network answered: a response (with its JSON body when it parses) or a
      rejected `fetch`. */
  datatype HttpResponse = HttpResponse(status: int, text: string, json: Option<Value>)
  datatype Fetched = Responded(response: HttpResponse) | NetworkError

  datatype QuasarError =
    | FetchFailed     // the `fetch` promise rejected
    | NotJson         // `response.json()` rejected
    | TypeError       // a property read on undefined or null
    | PinningFailed   // 'There was a problem pinning your data. Please wait a few minutes and try again'

  datatype Result<T> = Ok(value: T) | Err(error: QuasarError)

  /** The object `createIpfsProvider` builds: the URL parts its `dag` closures capture. */
  datatype IpfsApi = IpfsApi(baseUrl: string, dagGetUrl: string, dagPutUrl: string)

  const LocalBaseUrl := "http://localhost:5001/api/v0"
  const LocalDagGetUrl := "dag/get?arg="
  const DagPutPath := "dag/put"

  /** The fixed endpoints of ignore mode (a local IPFS daemon). */
  const LocalApi := IpfsApi(LocalBaseUrl, LocalDagGetUrl, DagPutPath)

  /** `listenToStorageContract` outside ignore mode: true iff the gateway answered 201
      or 204; a network error is `false`, never an exception. */
  function ListenAccepted(f: Fetched): (ok: bool)
    ensures ok <==> f.Responded? && f.response.status in {201, 204}
  {
    match f
    case NetworkError => false
    case Responded(resp) => resp.status == 201 || resp.status == 204
  }

  /** The `dag.put` outcome outside ignore mode: the response text iff the status is 201. */
  function GatewayPutOutcome(f: Fetched): (r: Result<Value>)
    ensures r.Ok? <==> f.Responded? && f.response.status == 201
    ensures r.Ok? ==> r.value == Str(f.response.text)
    ensures f.Responded? && f.response.status != 201 ==> r == Err(PinningFailed)
  {
    match f
    case NetworkError => Err(FetchFailed)
    case Responded(resp) => if resp.status == 201 then Ok(Str(resp.text)) else Err(PinningFailed)
  }

  /** The `dag.put` outcome in ignore mode: the `Cid['/']` of the daemon's JSON answer. */
  function LocalPutOutcome(f: Fetched): (r: Result<Value>)
    ensures r.Ok? ==> f.Responded? && f.response.json.Some?
    ensures f.Responded? && f.response.json.Some? && !f.response.json.value.Undefined?
            && !f.response.json.value.Null?
            && !Get(f.response.json.value, "Cid").Undefined? && !Get(f.response.json.value, "Cid").Null? ==>
      r.Ok?
    ensures f.NetworkError? ==> r == Err(FetchFailed)
    ensures f.Responded? && f.response.json.None? ==> r == Err(NotJson)
    ensures r.Ok? ==> var json := f.response.json.value;
      !json.Undefined? && !json.Null? && var c := Get(json, "Cid");
      !c.Undefined? && !c.Null? && r.value == Get(c, "/")
  {
    match f
    case NetworkError => Err(FetchFailed)
    case Responded(resp) =>
      match resp.json
      case None => Err(NotJson)
      case Some(json) =>
        if json.Undefined? || json.Null? then Err(TypeError)
        else
          var c := Get(json, "Cid");
          if c.Undefined? || c.Null? then Err(TypeError) else Ok(Get(c, "/"))
  }

  /** Every status `dag.put` accepts is one `listenToStorageContract` accepts, but 204
      is accepted by the latter only. */
  lemma PutStricterThanListen(f: Fetched)
    ensures GatewayPutOutcome(f).Ok? ==> ListenAccepted(f)
    ensures f.Responded? && f.response.status == 204 ==>
      ListenAccepted(f) && GatewayPutOutcome(f) == Err(PinningFailed)
  {
  }

  /** The `dag.get` URL. */
  function DagGetUrl(api: IpfsApi, cid: string): (url: string)
  {
    api.baseUrl + "/" + api.dagGetUrl + cid
  }

  /** A dag.get URL ends with the cid, after the base URL and a '/'. */
  lemma DagGetUrlShape(api: IpfsApi, cid: string)
    ensures var url := DagGetUrl(api, cid);
      && url[..|api.baseUrl|] == api.baseUrl
      && url[|api.baseUrl|] == '/'
      && url[|url| - |cid|..] == cid
  {
  }

  /** In ignore mode the get URL asks the local daemon for the cid. */
  lemma LocalModeDagGetUrl(cid: string)
    ensures DagGetUrl(LocalApi, cid) == "http://localhost:5001/api/v0/dag/get?arg=" + cid
  {
  }

  /** The `response.json()` of `/ipfs-provider`, read as `{baseUrl, dagGetUrl}`. */
  function ProviderApi(f: Fetched): (r: Result<IpfsApi>)
    ensures r.Ok? ==> f.Responded? && f.response.json.Some?
    ensures f.Responded? && f.response.json.Some? && !f.response.json.value.Undefined?
            && !f.response.json.value.Null? ==>
      r.Ok?
    ensures f.NetworkError? ==> r == Err(FetchFailed)
    ensures f.Responded? && f.response.json.None? ==> r == Err(NotJson)
    ensures r.Ok? ==> var json := f.response.json.value;
      && !json.Undefined? && !json.Null?
      && r.value == IpfsApi(ToStr(Get(json, "baseUrl")), ToStr(Get(json, "dagGetUrl")), DagPutPath)
  {
    match f
    case NetworkError => Err(FetchFailed)
    case Responded(resp) =>
      match resp.json
      case None => Err(NotJson)
      case Some(json) =>
        if json.Undefined? || json.Null? then Err(TypeError)
        else Ok(IpfsApi(ToStr(Get(json, "baseUrl")), ToStr(Get(json, "dagGetUrl")), DagPutPath))
  }

  class Quasar {
    const quasarEndpoint: string
    const ignoreQuasar: bool
    /** The provider object last built by `CreateIpfsProvider`, null before. */
    var ipfs: Option<IpfsApi>
    /** The requests issued so far, in order. */
    var requests: seq<Request>

    constructor (quasarEndpoint: string, ignoreQuasar: bool := false)
      ensures this.quasarEndpoint == quasarEndpoint && this.ignoreQuasar == ignoreQuasar
      ensures ipfs.None? && requests == []
    {
      this.quasarEndpoint := quasarEndpoint;
      this.ignoreQuasar := ignoreQuasar;
      ipfs := None;
      requests := [];
    }

    /** Returns None for the `undefined` that ignore mode resolves with. */
    method ListenToStorageContract(contractAddress: string, answer: Fetched) returns (r: Option<bool>)
      modifies this`requests
      ensures ignoreQuasar ==> r.None? && requests == old(requests)
      ensures !ignoreQuasar ==>
        && requests == old(requests) + [HttpPostJson(quasarEndpoint + "/contracts",
                                                 Obj(map["contractAddress" := Str(contractAddress)]))]
        && r == Some(ListenAccepted(answer))
    {
      if ignoreQuasar {
        return None;
      }
      requests := requests + [HttpPostJson(quasarEndpoint + "/contracts",
                                       Obj(map["contractAddress" := Str(contractAddress)]))];
      r := Some(ListenAccepted(answer));
    }

    /** Builds the provider object, stores it in `ipfs` and returns that same object.
        A failed `/ipfs-provider` request rejects and leaves `ipfs` as it was. */
    method CreateIpfsProvider(answer: Fetched) returns (r: Result<IpfsApi>)
      modifies this`ipfs, this`requests
      ensures ignoreQuasar ==> r == Ok(LocalApi) && requests == old(requests)
      ensures !ignoreQuasar ==>
        requests == old(requests) + [HttpGet(quasarEndpoint + "/ipfs-provider")] && r == ProviderApi(answer)
      ensures r.Ok? ==> ipfs == Some(r.value)
      ensures r.Err? ==> ipfs == old(ipfs)
    {
      if ignoreQuasar {
        r := Ok(LocalApi);
      } else {
        requests := requests + [HttpGet(quasarEndpoint + "/ipfs-provider")];
        r := ProviderApi(answer);
      }
      if r.Ok? {
        ipfs := Some(r.value);
      }
    }

    /** `ipfs.dag.get(cid)`: one GET of the composed URL; the JSON body is the result. */
    method DagGet(api: IpfsApi, cid: string, answer: Fetched) returns (r: Result<Value>)
      modifies this`requests
      ensures requests == old(requests) + [HttpGet(DagGetUrl(api, cid))]
      ensures r.Ok? <==> answer.Responded? && answer.response.json.Some?
      ensures r.Ok? ==> r.value == answer.response.json.value
    {
      requests := requests + [HttpGet(DagGetUrl(api, cid))];
      match answer
      case NetworkError => r := Err(FetchFailed);
      case Responded(resp) =>
        r := if resp.json.Some? then Ok(resp.json.value) else Err(NotJson);
    }

    /** `ipfs.dag.put(dag)`: a form post to the local daemon in ignore mode, otherwise
        a JSON post to the gateway whose only accepted status is 201. */
    method DagPut(api: IpfsApi, dag: Value, answer: Fetched) returns (r: Result<Value>)
      modifies this`requests
      ensures ignoreQuasar ==>
        && requests == old(requests) + [HttpPostForm(api.baseUrl + "/" + api.dagPutUrl, "v0", dag)]
        && r == LocalPutOutcome(answer)
      ensures !ignoreQuasar ==>
        && requests == old(requests) + [HttpPostJson(quasarEndpoint + "/dag/put", dag)]
        && r == GatewayPutOutcome(answer)
    {
      if ignoreQuasar {
        requests := requests + [HttpPostForm(api.baseUrl + "/" + api.dagPutUrl, "v0", dag)];
        r := LocalPutOutcome(answer);
      } else {
        requests := requests + [HttpPostJson(quasarEndpoint + "/dag/put", dag)];
        r := GatewayPutOutcome(answer);
      }
    }
  }

  /** The instance the storage context uses: gateway mode on port 3003. */
  method ContextQuasar() returns (q: Quasar)
    ensures fresh(q) && q.quasarEndpoint == "http://localhost:3003/api/v0" && !q.ignoreQuasar
    ensures q.ipfs.None? && q.requests == []
  {
    q := new Quasar("http://localhost:3003/api/v0");
  }
}
