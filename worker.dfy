/**
 * The render worker's decisions (packages/worker/src/index.ts): which
 * provider a job goes to, what request body it sends, how the provider's
 * reply and the status poll are read, and when the file store short-circuits
 * the render. The network is an oracle (`Network`): each request the worker
 * makes is recorded in order, and the reply to it is whatever the oracle
 * says. Environment variables arrive as a map; the poll delay is not modelled.
 */
module Worker {
  import opened Wrappers
  import opened JsonValues

  const BriaApiUrl: string := "https://engine.prod.bria-api.com/v2/image/generate"
  const FalApiUrl: string := "https://fal.run/bria/fibo/generate"
  /** `maxAttempts = 60`, the default every caller uses. */
  const DefaultMaxAttempts: int := 60

  /** The worker's configuration, read once from the environment at start-up. */
  datatype Config = Config(provider: string, briaToken: string, falKey: string, modelVersion: string,
                           steps: Json, guidance: Json, aspectRatio: string)

  /** `process.env[k] || d`: an unset or empty variable gives the default. */
  function EnvOr(env: map<string, string>, k: string, d: string): string
  {
    if k in env && env[k] != "" then env[k] else d
  }

  /** The module-level constants, with `parseInt` as an oracle. */
  function Configure(env: map<string, string>, parseInt: string -> Json): (c: Config)
    ensures c.provider == "bria" <==> EnvOr(env, "FIBO_API_PROVIDER", "") in {"", "bria"}
    ensures c.modelVersion != ""
    ensures c.briaToken == "" <==> EnvOr(env, "BRIA_API_TOKEN", "") == "" && EnvOr(env, "FIBO_API_KEY", "") == ""
  {
    Config(EnvOr(env, "FIBO_API_PROVIDER", "bria"),
           EnvOr(env, "BRIA_API_TOKEN", EnvOr(env, "FIBO_API_KEY", "")),
           EnvOr(env, "FAL_KEY", ""),
           EnvOr(env, "MODEL_VERSION", "FIBO"),
           parseInt(EnvOr(env, "FIBO_STEPS", "50")),
           parseInt(EnvOr(env, "FIBO_GUIDANCE_SCALE", "5")),
           EnvOr(env, "FIBO_ASPECT_RATIO", "1:1"))
  }

  /** What `resp.ok`, `resp.status`, `resp.json()`, `resp.text()` and `resp.arrayBuffer()` give. */
  datatype HttpReply = HttpReply(ok: bool, status: int, body: Json, text: string, bytes: seq<bv8>)

  /**
   * The replies the outside world gives: to a POST of a body to a URL, to the
   * n-th poll (counting from 0) of a status URL, and to an image download.
   */
  datatype Network = Network(post: (string, Json) -> HttpReply,
                             poll: (Json, nat) -> HttpReply,
                             download: Json -> HttpReply)

  datatype Request =
    | Post(url: string, headers: seq<(string, string)>, body: Json)
    | StatusGet(statusUrl: Json, pollHeaders: seq<(string, string)>)
    | ImageGet(imageUrl: Json)

  datatype WorkerError =
    | MissingBriaToken
    | MissingFalKey
    | BriaApiError(status: int, text: string)
    | FalApiError(status: int, text: string)
    | StatusPollingFailed(status: int)
    | GenerationFailed(reason: Json)
    | PollingTimeout
    | NoCompletedImageUrl
    | NoBriaImageData
    | NoFalImageUrl
    | DownloadFailed(status: int)
    | TypeError

  /** A result together with the requests made, in order, to reach it. */
  datatype Outcome<T> = Outcome(result: Result<T, WorkerError>, requests: seq<Request>)

  /** What a job hands to the renderer: `{ json, modelVersion, seed }`, any of which may be undefined. */
  datatype Payload = Payload(json: Option<Json>, modelVersion: Option<Json>, seed: Option<Json>)

  // ---------------------------------------------------------------- polling

  /** `statusData.error || 'Unknown error'`. */
  function FailureReason(body: Json): Json
  {
    var e := Property(body, "error");
    if Truthy(e) then e.value else Str("Unknown error")
  }

  /**
   * One poll's verdict: `None` to keep polling, otherwise the result the
   * loop ends with. Reading `status` of a `null` reply throws.
   */
  function Attempt(rep: HttpReply): (r: Option<Result<Json, WorkerError>>)
    ensures !rep.ok ==> r == Some(Err(StatusPollingFailed(rep.status)))
    ensures rep.ok && Property(rep.body, "status") in {Some(Str("completed")), Some(Str("success"))} ==>
      r == Some(Ok(rep.body))
    ensures rep.ok && Property(rep.body, "status") in {Some(Str("failed")), Some(Str("error"))} ==>
      r == Some(Err(GenerationFailed(FailureReason(rep.body))))
    ensures r.None? <==>
      rep.ok && !rep.body.Null? &&
      Property(rep.body, "status") !in {Some(Str("completed")), Some(Str("success")), Some(Str("failed")), Some(Str("error"))}
    ensures r != Some(Err(PollingTimeout))
  {
    if !rep.ok then Some(Err(StatusPollingFailed(rep.status)))
    else if rep.body.Null? then Some(Err(TypeError))
    else
      var st := Property(rep.body, "status");
      if st == Some(Str("completed")) || st == Some(Str("success")) then Some(Ok(rep.body))
      else if st == Some(Str("failed")) || st == Some(Str("error")) then Some(Err(GenerationFailed(FailureReason(rep.body))))
      else None
  }

  /** The result of polling and how many status requests were made. */
  datatype Polled = Polled(result: Result<Json, WorkerError>, attempts: nat)

  /** Polling from attempt `i` while `i < maxAttempts`. */
  function PollFrom(poll: (Json, nat) -> HttpReply, url: Json, i: nat, maxAttempts: int): Polled
    decreases maxAttempts - i
  {
    if i >= maxAttempts then Polled(Err(PollingTimeout), i)
    else
      match Attempt(poll(url, i))
      case Some(res) => Polled(res, i + 1)
      case None => PollFrom(poll, url, i + 1, maxAttempts)
  }

  /**
   * The poll either stops at the first attempt with a verdict, every earlier
   * attempt saying "keep polling", or times out after exactly the remaining
   * attempts when none has a verdict.
   */
  lemma {:induction false} PollFromSpec(poll: (Json, nat) -> HttpReply, url: Json, i: nat, maxAttempts: int)
    ensures var p := PollFrom(poll, url, i, maxAttempts);
      i <= p.attempts && (p.attempts <= maxAttempts || p.attempts == i) &&
      (forall j :: i <= j < p.attempts && j + 1 < p.attempts ==> Attempt(poll(url, j)).None?) &&
      (p.result == Err(PollingTimeout) <==> forall j :: i <= j < maxAttempts ==> Attempt(poll(url, j)).None?) &&
      (p.result == Err(PollingTimeout) ==> p.attempts == if maxAttempts > i then maxAttempts else i) &&
      (p.result != Err(PollingTimeout) ==> i < p.attempts && Attempt(poll(url, p.attempts - 1)) == Some(p.result))
    decreases maxAttempts - i
  {
    if i < maxAttempts && Attempt(poll(url, i)).None? {
      PollFromSpec(poll, url, i + 1, maxAttempts);
    }
  }

  /** `pollStatusUntilComplete(statusUrl, headers, maxAttempts)`: one status request per loop turn. */
  method PollStatusUntilComplete(poll: (Json, nat) -> HttpReply, url: Json, maxAttempts: int)
    returns (r: Result<Json, WorkerError>, attempts: nat)
    ensures Polled(r, attempts) == PollFrom(poll, url, 0, maxAttempts)
  {
    var i: nat := 0;
    while i < maxAttempts
      invariant PollFrom(poll, url, i, maxAttempts) == PollFrom(poll, url, 0, maxAttempts)
      decreases maxAttempts - i
    {
      var verdict := Attempt(poll(url, i));
      if verdict.Some? {
        return verdict.value, i + 1;
      }
      i := i + 1;
    }
    return Err(PollingTimeout), i;
  }

  /** At most `maxAttempts` status requests; a timeout only after all of them kept polling. */
  lemma PollBounded(poll: (Json, nat) -> HttpReply, url: Json, maxAttempts: int)
    ensures PollFrom(poll, url, 0, maxAttempts).attempts <= if maxAttempts > 0 then maxAttempts else 0
    ensures PollFrom(poll, url, 0, maxAttempts).result == Err(PollingTimeout) <==>
      forall j :: 0 <= j < maxAttempts ==> Attempt(poll(url, j)).None?
  {
    PollFromSpec(poll, url, 0, maxAttempts);
  }

  // --------------------------------------------------------------- requests

  /** The body member carrying the prompt: `typeof json === 'object'` (null included) selects `structured_prompt`. */
  function PromptField(json: Option<Json>, structured: Json -> Json): seq<(string, Option<Json>)>
  {
    if json.Some? && IsObject(json.value) then [("structured_prompt", Some(structured(json.value)))]
    else [("prompt", json)]
  }

  /** Bria's request body; the prompt document is sent as its `JSON.stringify` text. */
  function BriaBody(cfg: Config, p: Payload, stringify: Json -> string): Json
  {
    Obj(Defined([("model_version", Some(Str(cfg.modelVersion))), ("seed", p.seed),
                 ("steps_num", Some(cfg.steps)), ("guidance_scale", Some(cfg.guidance)),
                 ("aspect_ratio", Some(Str(cfg.aspectRatio))), ("sync", Some(Bool(false)))]
                + PromptField(p.json, j => Str(stringify(j)))))
  }

  /** Fal's request body, `{ input: requestBody }`; the prompt document is sent as it is. */
  function FalBody(cfg: Config, p: Payload): Json
  {
    Obj([Field("input", Obj(Defined([("seed", p.seed), ("steps_num", Some(cfg.steps)),
                                     ("guidance_scale", Some(cfg.guidance)),
                                     ("aspect_ratio", Some(Str(cfg.aspectRatio))), ("sync_mode", Some(Bool(false)))]
                                    + PromptField(p.json, j => j))))])
  }

  lemma {:induction false} DefinedAppend(a: seq<(string, Option<Json>)>, b: seq<(string, Option<Json>)>)
    ensures Defined(a + b) == Defined(a) + Defined(b)
    decreases |a|
  {
    if |a| > 0 {
      assert (a + b)[0] == a[0];
      assert (a + b)[1..] == a[1..] + b;
      DefinedAppend(a[1..], b);
    } else {
      assert a + b == b;
    }
  }

  /**
   * Bria's body names the worker's configured model version whatever the
   * job's `modelVersion` is, and carries the prompt document as a
   * `structured_prompt` string exactly when `typeof json === 'object'`.
   */
  lemma {:induction false} BriaBodyShape(cfg: Config, p: Payload, stringify: Json -> string, m: Option<Json>)
    ensures BriaBody(cfg, p, stringify) == BriaBody(cfg, p.(modelVersion := m), stringify)
    ensures Get(BriaBody(cfg, p, stringify).fields, "model_version") == Some(Str(cfg.modelVersion))
    ensures p.json.Some? && IsObject(p.json.value) ==>
      Get(BriaBody(cfg, p, stringify).fields, "structured_prompt") == Some(Str(stringify(p.json.value)))
    ensures !(p.json.Some? && IsObject(p.json.value)) ==>
      Get(BriaBody(cfg, p, stringify).fields, "structured_prompt") == None &&
      Get(BriaBody(cfg, p, stringify).fields, "prompt") == p.json
  {
    var fixed := [("model_version", Some(Str(cfg.modelVersion))), ("seed", p.seed),
                  ("steps_num", Some(cfg.steps)), ("guidance_scale", Some(cfg.guidance)),
                  ("aspect_ratio", Some(Str(cfg.aspectRatio))), ("sync", Some(Bool(false)))];
    var prompt := PromptField(p.json, j => Str(stringify(j)));
    DefinedAppend(fixed, prompt);
    DefinedMissing(fixed, "structured_prompt");
    DefinedMissing(fixed, "prompt");
    GetAppend(Defined(fixed), Defined(prompt), "structured_prompt");
    GetAppend(Defined(fixed), Defined(prompt), "prompt");
  }

  /** A key none of the members has is not in the object `JSON.stringify` writes. */
  lemma {:induction false} DefinedMissing(fs: seq<(string, Option<Json>)>, k: string)
    requires forall i :: 0 <= i < |fs| ==> fs[i].0 != k
    ensures Get(Defined(fs), k) == None
    decreases |fs|
  {
    if |fs| > 0 {
      DefinedMissing(fs[1..], k);
      if fs[0].1.Some? {
        var f := Field(fs[0].0, fs[0].1.value);
        assert Defined(fs) == [f] + Defined(fs[1..]);
        assert ([f] + Defined(fs[1..]))[1..] == Defined(fs[1..]);
      } else {
        assert Defined(fs) == [] + Defined(fs[1..]) == Defined(fs[1..]);
      }
    }
  }

  lemma {:induction false} GetAppend(a: seq<Field>, b: seq<Field>, k: string)
    requires Get(a, k) == None
    ensures Get(a + b, k) == Get(b, k)
    decreases |a|
  {
    if |a| > 0 {
      assert (a + b)[0] == a[0];
      assert (a + b)[1..] == a[1..] + b;
      GetAppend(a[1..], b, k);
    } else {
      assert a + b == b;
    }
  }

  // -------------------------------------------------------------- providers

  function BriaHeaders(cfg: Config): seq<(string, string)>
  {
    [("Content-Type", "application/json"), ("api_token", cfg.briaToken)]
  }

  function FalHeaders(cfg: Config): seq<(string, string)>
  {
    [("Content-Type", "application/json"), ("Authorization", "Key " + cfg.falKey)]
  }

  /** The status requests of `n` poll attempts. */
  function StatusGets(url: Json, cfg: Config, n: nat): (r: seq<Request>)
    ensures |r| == n && forall i :: 0 <= i < n ==> r[i] == StatusGet(url, [("api_token", cfg.briaToken)])
  {
    seq(n, _ => StatusGet(url, [("api_token", cfg.briaToken)]))
  }

  /** `downloadImage(url)` after the requests already made. */
  function Download(net: Network, url: Json, before: seq<Request>): (o: Outcome<seq<bv8>>)
    ensures o.requests == before + [ImageGet(url)]
    ensures o.result.Ok? <==> net.download(url).ok
  {
    var rep := net.download(url);
    if !rep.ok then Outcome(Err(DownloadFailed(rep.status)), before + [ImageGet(url)])
    else Outcome(Ok(rep.bytes), before + [ImageGet(url)])
  }

  /** `a || b` on two possibly-undefined values. */
  function Or(a: Option<Json>, b: Option<Json>): (r: Option<Json>)
    ensures Truthy(r) <==> Truthy(a) || Truthy(b)
    ensures Truthy(a) ==> r == a
  {
    if Truthy(a) then a else b
  }

  /** `renderWithBriaAPI(payload)`. */
  function BriaRender(cfg: Config, p: Payload, net: Network, stringify: Json -> string): Outcome<seq<bv8>>
  {
    if cfg.briaToken == "" then Outcome(Err(MissingBriaToken), [])
    else
      var body := BriaBody(cfg, p, stringify);
      var post := [Post(BriaApiUrl, BriaHeaders(cfg), body)];
      var resp := net.post(BriaApiUrl, body);
      if !resp.ok then Outcome(Err(BriaApiError(resp.status, resp.text)), post)
      else if resp.body.Null? then Outcome(Err(TypeError), post)
      else
        var statusUrl := Property(resp.body, "status_url");
        if Truthy(statusUrl) then
          var polled := PollFrom(net.poll, statusUrl.value, 0, DefaultMaxAttempts);
          var sent := post + StatusGets(statusUrl.value, cfg, polled.attempts);
          match polled.result
          case Err(e) => Outcome(Err(e), sent)
          case Ok(completed) =>
            var imageUrl := Or(Property(completed, "image_url"), Member(Property(completed, "result"), "image_url"));
            if !Truthy(imageUrl) then Outcome(Err(NoCompletedImageUrl), sent)
            else Download(net, imageUrl.value, sent)
        else if Truthy(Property(resp.body, "image_url")) then
          Download(net, Property(resp.body, "image_url").value, post)
        else Outcome(Err(NoBriaImageData), post)
  }

  /** `renderWithFalAPI(payload)`. */
  function FalRender(cfg: Config, p: Payload, net: Network): Outcome<seq<bv8>>
  {
    if cfg.falKey == "" then Outcome(Err(MissingFalKey), [])
    else
      var body := FalBody(cfg, p);
      var post := [Post(FalApiUrl, FalHeaders(cfg), body)];
      var resp := net.post(FalApiUrl, body);
      if !resp.ok then Outcome(Err(FalApiError(resp.status, resp.text)), post)
      else if resp.body.Null? then Outcome(Err(TypeError), post)
      else
        var imageUrl := Or(Member(Property(resp.body, "image"), "url"),
                           Member(Member(Property(resp.body, "images"), "0"), "url"));
        if !Truthy(imageUrl) then Outcome(Err(NoFalImageUrl), post)
        else Download(net, imageUrl.value, post)
  }

  /** `renderWithFIBO(payload)`: 'fal' goes to Fal, every other provider name to Bria. */
  function FiboRender(cfg: Config, p: Payload, net: Network, stringify: Json -> string): Outcome<seq<bv8>>
  {
    if cfg.provider == "fal" then FalRender(cfg, p, net) else BriaRender(cfg, p, net, stringify)
  }

  /**
   * A missing credential fails before any request; otherwise the first
   * request is the POST to the routed provider, and Bria makes at most
   * `DefaultMaxAttempts` status requests.
   */
  lemma {:induction false} RenderRequests(cfg: Config, p: Payload, net: Network, stringify: Json -> string)
    ensures var o := FiboRender(cfg, p, net, stringify);
      (o.requests == [] <==> (if cfg.provider == "fal" then cfg.falKey == "" else cfg.briaToken == "")) &&
      (o.requests == [] ==> o.result == Err(if cfg.provider == "fal" then MissingFalKey else MissingBriaToken)) &&
      (o.requests != [] ==> o.requests[0].Post? && o.requests[0].url == (if cfg.provider == "fal" then FalApiUrl else BriaApiUrl)) &&
      |o.requests| <= 2 + DefaultMaxAttempts
  {
    if cfg.provider != "fal" && cfg.briaToken != "" {
      var body := BriaBody(cfg, p, stringify);
      var resp := net.post(BriaApiUrl, body);
      if resp.ok && !resp.body.Null? && Truthy(Property(resp.body, "status_url")) {
        PollBounded(net.poll, Property(resp.body, "status_url").value, DefaultMaxAttempts);
      }
    }
  }

  /**
   * When Bria's reply has a `status_url`, the worker polls it even if the
   * reply also has an `image_url`: the next request is a status request,
   * and the image downloaded is the completed poll's `image_url`, else its
   * `result.image_url`.
   */
  lemma {:induction false} BriaStatusUrlFirst(cfg: Config, p: Payload, net: Network, stringify: Json -> string)
    requires cfg.briaToken != ""
    requires var resp := net.post(BriaApiUrl, BriaBody(cfg, p, stringify));
      resp.ok && Truthy(Property(resp.body, "status_url"))
    ensures var resp := net.post(BriaApiUrl, BriaBody(cfg, p, stringify));
      var o := BriaRender(cfg, p, net, stringify);
      var polled := PollFrom(net.poll, Property(resp.body, "status_url").value, 0, DefaultMaxAttempts);
      |o.requests| >= 2 && o.requests[1].StatusGet? && o.requests[1].statusUrl == Property(resp.body, "status_url").value &&
      (o.result.Ok? ==>
         polled.result.Ok? &&
         o.requests[|o.requests| - 1] ==
           ImageGet(Or(Property(polled.result.value, "image_url"),
                       Member(Property(polled.result.value, "result"), "image_url")).value))
  {
    var resp := net.post(BriaApiUrl, BriaBody(cfg, p, stringify));
    var url := Property(resp.body, "status_url").value;
    PollMakesRequest(net.poll, url, DefaultMaxAttempts);
    var polled := PollFrom(net.poll, url, 0, DefaultMaxAttempts);
    var sent := [Post(BriaApiUrl, BriaHeaders(cfg), BriaBody(cfg, p, stringify))] + StatusGets(url, cfg, polled.attempts);
    assert sent[1] == StatusGet(url, [("api_token", cfg.briaToken)]);
  }

  /** With at least one attempt allowed, polling makes at least one status request. */
  lemma PollMakesRequest(poll: (Json, nat) -> HttpReply, url: Json, maxAttempts: int)
    requires maxAttempts > 0
    ensures PollFrom(poll, url, 0, maxAttempts).attempts >= 1
  {
    PollFromSpec(poll, url, 0, maxAttempts);
  }

  /** Fal downloads `image.url` when it is set, otherwise `images[0].url`; with neither it fails. */
  lemma FalImageChoice(cfg: Config, p: Payload, net: Network)
    requires cfg.falKey != ""
    requires net.post(FalApiUrl, FalBody(cfg, p)).ok && !net.post(FalApiUrl, FalBody(cfg, p)).body.Null?
    ensures var data := net.post(FalApiUrl, FalBody(cfg, p)).body;
      var o := FalRender(cfg, p, net);
      var first := Member(Property(data, "image"), "url");
      var second := Member(Member(Property(data, "images"), "0"), "url");
      (Truthy(first) ==> o.requests == [Post(FalApiUrl, FalHeaders(cfg), FalBody(cfg, p)), ImageGet(first.value)]) &&
      (!Truthy(first) && Truthy(second) ==> o.requests == [Post(FalApiUrl, FalHeaders(cfg), FalBody(cfg, p)), ImageGet(second.value)]) &&
      (!Truthy(first) && !Truthy(second) ==> o.result == Err(NoFalImageUrl))
  {
  }

  /** `renderWithBriaAPI` as the straight-line code it is, around the polling loop. */
  method RenderWithBria(cfg: Config, p: Payload, net: Network, stringify: Json -> string) returns (o: Outcome<seq<bv8>>)
    ensures o == BriaRender(cfg, p, net, stringify)
  {
    if cfg.briaToken == "" {
      return Outcome(Err(MissingBriaToken), []);
    }
    var body := BriaBody(cfg, p, stringify);
    var post := [Post(BriaApiUrl, BriaHeaders(cfg), body)];
    var resp := net.post(BriaApiUrl, body);
    if !resp.ok {
      return Outcome(Err(BriaApiError(resp.status, resp.text)), post);
    }
    if resp.body.Null? {
      return Outcome(Err(TypeError), post);
    }
    var statusUrl := Property(resp.body, "status_url");
    if Truthy(statusUrl) {
      var completed, attempts := PollStatusUntilComplete(net.poll, statusUrl.value, DefaultMaxAttempts);
      var sent := post + StatusGets(statusUrl.value, cfg, attempts);
      if completed.Err? {
        return Outcome(Err(completed.error), sent);
      }
      var imageUrl := Or(Property(completed.value, "image_url"), Member(Property(completed.value, "result"), "image_url"));
      if !Truthy(imageUrl) {
        return Outcome(Err(NoCompletedImageUrl), sent);
      }
      return Download(net, imageUrl.value, sent);
    }
    if Truthy(Property(resp.body, "image_url")) {
      return Download(net, Property(resp.body, "image_url").value, post);
    }
    return Outcome(Err(NoBriaImageData), post);
  }

  // ---------------------------------------------------------------- handler

  /** `keyFrom(hash)`: the file name of a job's image. */
  function KeyFrom(hash: string): string
  {
    hash + ".png"
  }

  /** The URL the job's return value points at. */
  function ImageUrl(fileName: string): string
  {
    "/api/images/" + fileName
  }

  datatype JobResult = JobResult(cached: bool, url: string)

  /** The job data the handler destructures: `{ json, modelVersion, seed, hash }`. */
  datatype JobData = JobData(json: Option<Json>, modelVersion: Option<Json>, seed: Option<Json>, hash: string)

  /** The storage directory: file name to contents. */
  class FileStore {
    var files: map<string, seq<bv8>>

    constructor(files0: map<string, seq<bv8>>)
      ensures files == files0
    {
      files := files0;
    }
  }

  /**
   * The `Worker('render', ...)` handler: an image already stored under
   * `<hash>.png` is returned as cached without any request; otherwise the
   * render's bytes are written there. Both return `/api/images/<hash>.png`.
   */
  method HandleJob(store: FileStore, cfg: Config, data: JobData, net: Network, stringify: Json -> string)
    returns (r: Result<JobResult, WorkerError>, requests: seq<Request>)
    modifies store
    ensures KeyFrom(data.hash) in old(store.files) ==>
      r == Ok(JobResult(true, ImageUrl(data.hash + ".png"))) && requests == [] && store.files == old(store.files)
    ensures KeyFrom(data.hash) !in old(store.files) ==>
      var o := FiboRender(cfg, Payload(data.json, data.modelVersion, data.seed), net, stringify);
      requests == o.requests &&
      match o.result
      case Ok(buf) => r == Ok(JobResult(false, ImageUrl(data.hash + ".png"))) &&
                      store.files == old(store.files)[data.hash + ".png" := buf]
      case Err(e) => r == Err(e) && store.files == old(store.files)
  {
    var fileName := KeyFrom(data.hash);
    if fileName in store.files {
      return Ok(JobResult(true, ImageUrl(fileName))), [];
    }
    var o: Outcome<seq<bv8>>;
    if cfg.provider == "fal" {
      o := FalRender(cfg, Payload(data.json, data.modelVersion, data.seed), net);
    } else {
      o := RenderWithBria(cfg, Payload(data.json, data.modelVersion, data.seed), net, stringify);
    }
    requests := o.requests;
    if o.result.Err? {
      return Err(o.result.error), requests;
    }
    store.files := store.files[fileName := o.result.value];
    r := Ok(JobResult(false, ImageUrl(fileName)));
  }
}
