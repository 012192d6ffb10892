/** The IP-geolocation client of pkg/netinfo/netinfo.go: key validation,
    the default base URI, the two request URLs, and the refusal of an empty
    batch before anything is sent. */
module NetInfo {
  import opened Wrappers
  import opened Text
  import opened Json
  import opened Client

  const DefaultBaseURI: string := "https://net.info"
  const PublicPrefix: string := "public_"
  const ApiKeyVar: string := "HYPHEN_API_KEY"
  const ApiKeyRequired: string := "API key is required. Please provide it via options or set the HYPHEN_API_KEY environment variable"
  const PublicKeyRejected: string := "the provided API key is a public API key. Please provide a valid non-public API key for authentication"

  datatype NetInfoOption = WithAPIKey(key: string) | WithBaseURI(uri: string)

  datatype Options = Options(apiKey: string, baseURI: string)

  function Apply(o: Options, opt: NetInfoOption): Options {
    match opt
    case WithAPIKey(k) => o.(apiKey := k)
    case WithBaseURI(u) => o.(baseURI := u)
  }

  function ApplyAll(opts: seq<NetInfoOption>): Options
    decreases |opts|
  {
    if |opts| == 0 then Options("", "") else Apply(ApplyAll(opts[..|opts| - 1]), opts[|opts| - 1])
  }

  /** The API key New settles on: the option's, else HYPHEN_API_KEY. */
  function ResolvedAPIKey(options: seq<NetInfoOption>, env: map<string, string>): string {
    var k := ApplyAll(options).apiKey;
    if k != "" then k else Getenv(env, ApiKeyVar)
  }

  /** The URL of a single lookup. */
  function IPInfoURL(baseURI: string, ip: string): string {
    TrimSuffix(baseURI, "/") + "/ip/" + ip
  }

  /** The URL of a batch lookup. */
  function IPInfosURL(baseURI: string): string {
    TrimSuffix(baseURI, "/") + "/ip"
  }

  /** A single lookup's URL is the batch URL followed by "/<ip>". */
  lemma SingleURLExtendsBatchURL(baseURI: string, ip: string)
    ensures IPInfoURL(baseURI, ip) == IPInfosURL(baseURI) + "/" + ip
    ensures HasPrefix(IPInfoURL(baseURI, ip), TrimSuffix(baseURI, "/"))
  {
    var t := TrimSuffix(baseURI, "/");
    assert t + "/ip/" + ip == (t + "/ip") + "/" + ip;
    assert IPInfoURL(baseURI, ip)[..|t|] == t;
  }

  /** One trailing '/' on the base URI makes no difference. */
  lemma TrailingSlashIgnored(baseURI: string, ip: string)
    requires !HasSuffix(baseURI, "/")
    ensures IPInfoURL(baseURI + "/", ip) == IPInfoURL(baseURI, ip)
    ensures IPInfosURL(baseURI + "/") == IPInfosURL(baseURI)
  {
    var b := baseURI + "/";
    assert HasSuffix(b, "/") by { assert b[|b| - 1..] == "/"; }
    assert b[..|b| - 1] == baseURI;
  }

  datatype Verb = GET | POST

  /** A request handed to the transport; `body` is None when none is sent. */
  datatype Request = Request(verb: Verb, url: string, headers: map<string, string>, body: Option<Value>)

  type Transport = Request -> Reply<Value>

  type Handler = nat

  datatype NetInfoError =
    | EmptyIPs
    | RequestFailed(op: string, cause: string)
    | BadStatus(op: string, code: int, status: string)
    | UnmarshalFailed(cause: string)
  {
    function Message(): string {
      match this
      case EmptyIPs => "the provided IPs array is invalid. It should be a non-empty array of strings"
      case RequestFailed(op, c) => "failed to " + op + ": " + c
      case BadStatus(op, code, s) => "failed to " + op + ": HTTP " + IntToString(code) + ": " + s
      case UnmarshalFailed(c) => "failed to unmarshal response: " + c
    }
  }

  datatype Outcome = Outcome(result: Result<Value, NetInfoError>, sent: seq<Request>)

  /** One request, 200 demanded, then the decoded body: a transport error
      gives "failed to <op>: <cause>", another status "failed to <op>: HTTP
      <code>: <status>", and a 200 the decoded value or the decoder's error. */
  function Exchange(op: string, req: Request, send: Transport): (o: Outcome)
    ensures o.sent == [req]
    ensures o.result.Success? <==> send(req).Reply? && send(req).status == 200 && send(req).decoded.Success?
    ensures send(req).TransportError? ==>
              o.result == Failure(RequestFailed(op, send(req).cause)) &&
              o.result.error.Message() == "failed to " + op + ": " + send(req).cause
    ensures send(req).Reply? && send(req).status != 200 ==>
              o.result == Failure(BadStatus(op, send(req).status, send(req).statusText)) &&
              o.result.error.Message() == "failed to " + op + ": HTTP " + IntToString(send(req).status) + ": " + send(req).statusText
    ensures send(req).Reply? && send(req).status == 200 && send(req).decoded.Success? ==>
              o.result == Success(send(req).decoded.value)
    ensures send(req).Reply? && send(req).status == 200 && send(req).decoded.Failure? ==>
              o.result == Failure(UnmarshalFailed(send(req).decoded.error)) &&
              o.result.error.Message() == "failed to unmarshal response: " + send(req).decoded.error
  {
    var result :=
      match send(req)
      case TransportError(c) => Failure(RequestFailed(op, c))
      case Reply(status, text, decoded) =>
        if status != 200 then Failure(BadStatus(op, status, text))
        else
          match decoded
          case Failure(m) => Failure(UnmarshalFailed(m))
          case Success(v) => Success(v);
    Outcome(result, [req])
  }

  function LookupOne(apiKey: string, baseURI: string, ip: string, send: Transport): Outcome {
    Exchange("fetch ip info", Request(GET, IPInfoURL(baseURI, ip), CreateHeaders(apiKey), None), send)
  }

  function LookupMany(apiKey: string, baseURI: string, ips: seq<string>, send: Transport): Outcome {
    if |ips| == 0 then Outcome(Failure(EmptyIPs), [])
    else Exchange("fetch ip infos", Request(POST, IPInfosURL(baseURI), CreateHeaders(apiKey), Some(Strings(ips))), send)
  }

  /** A batch lookup sends nothing and fails exactly when the list is empty;
      otherwise it posts the addresses once to the batch URL. */
  lemma BatchRejectsOnlyEmpty(apiKey: string, baseURI: string, ips: seq<string>, send: Transport)
    ensures var o := LookupMany(apiKey, baseURI, ips, send);
            && (o.sent == [] <==> |ips| == 0)
            && (|ips| == 0 ==> o.result == Failure(EmptyIPs))
            && (|ips| > 0 ==> o.sent == [Request(POST, IPInfosURL(baseURI), CreateHeaders(apiKey), Some(Strings(ips)))])
  {
  }

  class NetInfo {
    var apiKey: string
    var baseURI: string
    var errorHandler: Option<Handler>
    /** Every call made to an error handler, in order. */
    ghost var handlerCalls: seq<(Handler, NetInfoError)>
    /** Every request handed to the transport, in order. */
    ghost var sent: seq<Request>

    constructor Init(apiKey: string, baseURI: string)
      ensures this.apiKey == apiKey && this.baseURI == baseURI
      ensures errorHandler.None? && handlerCalls == [] && sent == []
    {
      this.apiKey := apiKey;
      this.baseURI := baseURI;
      errorHandler := None;
      handlerCalls := [];
      sent := [];
    }

    /** New, with the environment as a parameter: a missing key and a
        public key are refused; the base URI defaults to https://net.info. */
    static method New(options: seq<NetInfoOption>, env: map<string, string>) returns (r: Result<NetInfo, string>)
      ensures var key := ResolvedAPIKey(options, env);
              && (r.Failure? <==> key == "" || HasPrefix(key, PublicPrefix))
              && (key == "" ==> r == Failure(ApiKeyRequired))
              && (key != "" && HasPrefix(key, PublicPrefix) ==> r == Failure(PublicKeyRejected))
      ensures r.Success? ==>
                var o := ApplyAll(options);
                && fresh(r.value)
                && r.value.apiKey == ResolvedAPIKey(options, env)
                && r.value.baseURI == (if o.baseURI != "" then o.baseURI else DefaultBaseURI)
                && r.value.errorHandler.None? && r.value.handlerCalls == [] && r.value.sent == []
    {
      var opts := Options("", "");
      for i := 0 to |options|
        invariant opts == ApplyAll(options[..i])
      {
        assert options[..i + 1][..i] == options[..i];
        opts := Apply(opts, options[i]);
      }
      assert options[..|options|] == options;

      var key := opts.apiKey;
      if key == "" {
        key := Getenv(env, ApiKeyVar);
      }
      if key == "" {
        return Failure(ApiKeyRequired);
      }
      if HasPrefix(key, PublicPrefix) {
        return Failure(PublicKeyRejected);
      }
      var base := opts.baseURI;
      if base == "" {
        base := DefaultBaseURI;
      }
      var n := new NetInfo.Init(key, base);
      return Success(n);
    }

    method SetErrorHandler(handler: Option<Handler>)
      modifies this`errorHandler
      ensures errorHandler == handler
    {
      errorHandler := handler;
    }

    method EmitError(err: NetInfoError)
      modifies this`handlerCalls
      ensures handlerCalls == old(handlerCalls) + (if errorHandler.Some? then [(errorHandler.value, err)] else [])
    {
      if errorHandler.Some? {
        handlerCalls := handlerCalls + [(errorHandler.value, err)];
      }
    }

    /** The request-and-check sequence both lookups share; a failure is
        reported to the handler once. */
    method Send(op: string, req: Request, send: Transport) returns (r: Result<Value, NetInfoError>)
      modifies this`handlerCalls, this`sent
      ensures r == Exchange(op, req, send).result && sent == old(sent) + [req]
      ensures handlerCalls == old(handlerCalls) + (if r.Failure? && errorHandler.Some? then [(errorHandler.value, r.error)] else [])
    {
      var reply := send(req);
      sent := sent + [req];
      match reply {
        case TransportError(c) =>
          r := Failure(RequestFailed(op, c));
        case Reply(status, text, decoded) =>
          if status != 200 {
            r := Failure(BadStatus(op, status, text));
          } else {
            match decoded {
              case Failure(m) =>
                r := Failure(UnmarshalFailed(m));
              case Success(v) =>
                r := Success(v);
            }
          }
      }
      if r.Failure? {
        EmitError(r.error);
      }
    }

    method GetIPInfo(ip: string, send: Transport) returns (r: Result<Value, NetInfoError>)
      modifies this`handlerCalls, this`sent
      ensures var o := LookupOne(apiKey, baseURI, ip, send);
              r == o.result && sent == old(sent) + o.sent
      ensures handlerCalls == old(handlerCalls) + (if r.Failure? && errorHandler.Some? then [(errorHandler.value, r.error)] else [])
    {
      var url := IPInfoURL(baseURI, ip);
      var headers := CreateHeaders(apiKey);
      r := Send("fetch ip info", Request(GET, url, headers, None), send);
    }

    method GetIPInfos(ips: seq<string>, send: Transport) returns (r: Result<Value, NetInfoError>)
      modifies this`handlerCalls, this`sent
      ensures var o := LookupMany(apiKey, baseURI, ips, send);
              r == o.result && sent == old(sent) + o.sent
      ensures handlerCalls == old(handlerCalls) + (if r.Failure? && errorHandler.Some? then [(errorHandler.value, r.error)] else [])
    {
      if |ips| == 0 {
        var err := EmptyIPs;
        EmitError(err);
        return Failure(err);
      }
      var url := IPInfosURL(baseURI);
      var headers := CreateHeaders(apiKey);
      r := Send("fetch ip infos", Request(POST, url, headers, Some(Strings(ips))), send);
    }
  }
}
