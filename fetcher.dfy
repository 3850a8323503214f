/**
 * The HTTP client (packages/request/src/fetcher.ts): it shapes the
 * `fetch` configuration from the caller's options, turns a non-2xx
 * response into an `Exception`, applies the optional response handler,
 * and normalises every failure into an `Exception`. `fetch` itself is a
 * function parameter.
 */
module Fetchers {
  import opened Wrappers
  import opened Exceptions

  datatype Method = Get | Post | Put | Delete

  /** A JSON value, opaque here. */
  datatype Json = Json(id: nat)

  /** An abort signal, opaque here. */
  type Signal = nat

  datatype Options = Options(
    url: string,
    verb: Method,
    data: Option<Json>,
    headers: Option<map<string, string>>,
    signal: Option<Signal>)

  /** The `RequestInit` handed to `fetch`; `body` is `JSON.stringify(data)`, absent when `data` is. */
  datatype Config = Config(
    verb: Method,
    headers: map<string, string>,
    signal: Option<Signal>,
    credentials: string,
    body: Option<Json>)

  datatype Response = Response(
    status: int,
    ok: bool,
    statusText: string,
    headers: map<string, string>,
    json: Result<Json, Thrown>)

  /** What `fetch` settles with. */
  datatype FetchOutcome = Resolved(response: Response) | Rejected(error: Thrown)

  /** A successful result: `{ data, headers }`. */
  datatype Reply = Reply(data: Json, headers: map<string, string>)

  const CONTENT_TYPE: string := "content-type"
  const APPLICATION_JSON: string := "application/json"
  const INCLUDE: string := "include"

  predicate HasBody(m: Method) {
    m == Post || m == Put
  }

  /** `!res.ok` or a status outside [200, 300). */
  predicate Failed(res: Response) {
    res.status < 200 || res.status >= 300 || !res.ok
  }

  /** JavaScript truthiness of a status value: `0` and `""` are falsy. */
  predicate Truthy(s: Option<Status>) {
    match s
    case None => false
    case Some(Code(n)) => n != 0
    case Some(Text(t)) => t != ""
  }

  /** `e.code || e.status || 500` */
  function FallbackStatus(code: Option<Status>, status: Option<Status>): (r: Status)
    ensures Truthy(code) ==> r == code.value
    ensures !Truthy(code) && Truthy(status) ==> r == status.value
    ensures !Truthy(code) && !Truthy(status) ==> r == Code(500)
  {
    if Truthy(code) then code.value else if Truthy(status) then status.value else Code(500)
  }

  /** The `catch` of `request`: an `Exception` passes unchanged, anything else becomes one. */
  function Normalize(t: Thrown): (e: Exception)
    ensures t.Raised? ==> e == t.exception
    ensures t.Foreign? ==> e.status == FallbackStatus(t.code, t.status) && e.message == t.message.GetOr("")
  {
    match t
    case Raised(e) => e
    case Foreign(code, status, message) => NewException(FallbackStatus(code, status), message)
  }

  /** Normalising an already normalised error changes nothing. */
  lemma NormalizeIdempotent(t: Thrown)
    ensures Normalize(Raised(Normalize(t))) == Normalize(t)
  {
  }

  /** A foreign error always ends with a truthy status. */
  lemma NormalizedStatusTruthy(t: Thrown)
    requires t.Foreign?
    ensures Truthy(Some(Normalize(t).status))
  {
  }

  /** The configuration `request` builds, as a function of the options. */
  function ConfigFor(options: Options): (c: Config)
    ensures c.credentials == INCLUDE && c.verb == options.verb && c.signal == options.signal
    ensures HasBody(options.verb) ==>
      (c.body == options.data && CONTENT_TYPE in c.headers && c.headers[CONTENT_TYPE] == APPLICATION_JSON
       && forall k :: k != CONTENT_TYPE ==>
            (k in c.headers <==> k in options.headers.GetOr(map[]))
            && (k in c.headers ==> c.headers[k] == options.headers.GetOr(map[])[k]))
    ensures !HasBody(options.verb) ==> c.body == None && c.headers == options.headers.GetOr(map[])
  {
    var base := options.headers.GetOr(map[]);
    if HasBody(options.verb) then Config(options.verb, base[CONTENT_TYPE := APPLICATION_JSON], options.signal, INCLUDE, options.data)
    else Config(options.verb, base, options.signal, INCLUDE, None)
  }

  /** The fetcher; `handler` is the optional response transformer given to the constructor. */
  class Fetcher {
    const handler: Option<Json -> Json>

    constructor(handler: Option<Json -> Json>)
      ensures this.handler == handler
    {
      this.handler := handler;
    }

    /** `createResponse`: a failed status rejects with `Exception(status, statusText)`; otherwise the JSON, passed through the handler when there is one. */
    function CreateResponse(res: Response): (r: Result<Reply, Thrown>)
      ensures Failed(res) ==> r == Failure(Raised(NewException(Code(res.status), Some(res.statusText))))
      ensures !Failed(res) && res.json.Failure? ==> r == Failure(res.json.error)
      ensures !Failed(res) && res.json.Success? ==>
        (r.Success? && r.value.headers == res.headers
         && r.value.data == (if handler.Some? then handler.value(res.json.value) else res.json.value))
    {
      if Failed(res) then Failure(Raised(NewException(Code(res.status), Some(res.statusText))))
      else match res.json
        case Failure(t) => Failure(t)
        case Success(j) => Success(Reply(if handler.Some? then handler.value(j) else j, res.headers))
    }

    /** The configuration object: built with the defaults, then `body` and `headers` overwritten for `post` and `put`. */
    static method BuildConfig(options: Options) returns (configs: Config)
      ensures configs == ConfigFor(options)
    {
      configs := Config(options.verb, options.headers.GetOr(map[]), options.signal, INCLUDE, None);
      match configs.verb {
        case Post =>
          configs := configs.(body := options.data, headers := configs.headers[CONTENT_TYPE := APPLICATION_JSON]);
        case Put =>
          configs := configs.(body := options.data, headers := configs.headers[CONTENT_TYPE := APPLICATION_JSON]);
        case _ =>
      }
    }

    /** `request`: every failure, from `fetch`, from the status check or from reading the body, ends as an `Exception`. */
    method Request(options: Options, fetch: (string, Config) -> FetchOutcome) returns (r: Result<Reply, Exception>)
      ensures var outcome := fetch(options.url, ConfigFor(options));
        match outcome
        case Rejected(t) => r == Failure(Normalize(t))
        case Resolved(res) =>
          match CreateResponse(res)
          case Success(reply) => r == Success(reply)
          case Failure(t) => r == Failure(Normalize(t))
      ensures r.Failure? && fetch(options.url, ConfigFor(options)).Resolved? && Failed(fetch(options.url, ConfigFor(options)).response) ==>
        var res := fetch(options.url, ConfigFor(options)).response;
        r.error == Exception(Code(res.status), res.statusText)
    {
      var configs := BuildConfig(options);
      var outcome := fetch(options.url, configs);
      match outcome {
        case Rejected(t) =>
          r := Failure(Normalize(t));
        case Resolved(res) =>
          var created := CreateResponse(res);
          match created {
            case Success(reply) => r := Success(reply);
            case Failure(t) => r := Failure(Normalize(t));
          }
      }
    }

    /** `get`: the method is forced to `get`, whatever the options say. */
    method GetRequest(options: Options, fetch: (string, Config) -> FetchOutcome) returns (r: Result<Reply, Exception>)
      ensures var c := ConfigFor(options.(verb := Get));
        c.verb == Get && c.body == None
        && (match fetch(options.url, c)
            case Rejected(t) => r == Failure(Normalize(t))
            case Resolved(res) => r == (match CreateResponse(res) case Success(reply) => Success(reply) case Failure(t) => Failure(Normalize(t))))
    {
      r := Request(options.(verb := Get), fetch);
    }

    /** `post`: the method is forced to `post`, so the body is the JSON data. */
    method PostRequest(options: Options, fetch: (string, Config) -> FetchOutcome) returns (r: Result<Reply, Exception>)
      ensures var c := ConfigFor(options.(verb := Post));
        c.verb == Post && c.body == options.data && c.headers[CONTENT_TYPE] == APPLICATION_JSON
        && (match fetch(options.url, c)
            case Rejected(t) => r == Failure(Normalize(t))
            case Resolved(res) => r == (match CreateResponse(res) case Success(reply) => Success(reply) case Failure(t) => Failure(Normalize(t))))
    {
      r := Request(options.(verb := Post), fetch);
    }

    /** `put`: the method is forced to `put`, so the body is the JSON data. */
    method PutRequest(options: Options, fetch: (string, Config) -> FetchOutcome) returns (r: Result<Reply, Exception>)
      ensures var c := ConfigFor(options.(verb := Put));
        c.verb == Put && c.body == options.data && c.headers[CONTENT_TYPE] == APPLICATION_JSON
        && (match fetch(options.url, c)
            case Rejected(t) => r == Failure(Normalize(t))
            case Resolved(res) => r == (match CreateResponse(res) case Success(reply) => Success(reply) case Failure(t) => Failure(Normalize(t))))
    {
      r := Request(options.(verb := Put), fetch);
    }

    /** `delete`: the method is forced to `delete`, so there is no body. */
    method DeleteRequest(options: Options, fetch: (string, Config) -> FetchOutcome) returns (r: Result<Reply, Exception>)
      ensures var c := ConfigFor(options.(verb := Delete));
        c.verb == Delete && c.body == None
        && (match fetch(options.url, c)
            case Rejected(t) => r == Failure(Normalize(t))
            case Resolved(res) => r == (match CreateResponse(res) case Success(reply) => Success(reply) case Failure(t) => Failure(Normalize(t))))
    {
      r := Request(options.(verb := Delete), fetch);
    }
  }
}
