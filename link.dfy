/** The short-link client of pkg/link/link.go: constructor validation, the
    URI builder `getURI`, and for each CRUD operation its path, verb, body,
    query parameters and expected status, over a transport parameter. */
module Link {
  import opened Wrappers
  import opened Text
  import opened Json
  import opened Client

  const OrgPlaceholder: string := "{organizationId}"
  const DefaultLinkURIs: seq<string> := ["https://api.hyphen.ai/api/organizations/{organizationId}/link/codes/"]
  const PublicPrefix: string := "public_"
  const ApiKeyVar: string := "HYPHEN_API_KEY"
  const OrganizationIdVar: string := "HYPHEN_ORGANIZATION_ID"
  const PublicKeyRejected: string := "API key cannot start with \"public_\""

  // ---------------------------------------------------------------------
  // URI construction

  /** One conditional append of getURI: nothing for an empty prefix, else
      the prefix after exactly one '/'. */
  function AppendSegment(uri: string, prefix: string): string {
    if prefix == "" then uri
    else if HasSuffix(uri, "/") then uri + prefix + "/"
    else uri + "/" + prefix
  }

  datatype LinkError =
    | OrganizationRequired
    | RequestFailed(op: Operation, cause: string)
    | BadStatus(op: Operation, code: int, status: string)
    | UnmarshalFailed(cause: string)
  {
    function Message(): string {
      match this
      case OrganizationRequired => "organization ID is required"
      case RequestFailed(op, c) => "failed to " + op.Name() + ": " + c
      case BadStatus(op, code, s) => "failed to " + op.Name() + ": HTTP " + IntToString(code) + ": " + s
      case UnmarshalFailed(c) => "failed to unmarshal response: " + c
    }
  }

  /** What getURI computes from the first configured URI. */
  function URIFor(template: string, organizationID: string, prefix1: string, prefix2: string, prefix3: string): (r: Result<string, LinkError>)
    ensures r.Failure? <==> organizationID == ""
    ensures r.Failure? ==> r.error == OrganizationRequired
  {
    if organizationID == "" then Failure(OrganizationRequired)
    else
      var base := ReplaceFirst(template, OrgPlaceholder, organizationID);
      Success(TrimSuffix(AppendSegment(AppendSegment(AppendSegment(base, prefix1), prefix2), prefix3), "/"))
  }

  /** "/p" for a non-empty prefix, nothing for an empty one. */
  function Segment(prefix: string): string {
    if prefix == "" then "" else "/" + prefix
  }

  /** "/p" for each non-empty prefix, in argument order. */
  function Segments(prefixes: seq<string>): string {
    if |prefixes| == 0 then "" else Segment(prefixes[0]) + Segments(prefixes[1..])
  }

  predicate NoTrailingSlash(p: string) {
    !HasSuffix(p, "/")
  }

  /** Appending a prefix that does not itself end in '/' adds exactly
      "/prefix" to the URI with its trailing slash trimmed, and keeps
      whether the URI ends in '/'. */
  lemma AppendSegmentTrimmed(uri: string, prefix: string)
    requires prefix == "" || NoTrailingSlash(prefix)
    ensures TrimSuffix(AppendSegment(uri, prefix), "/") == TrimSuffix(uri, "/") + Segment(prefix)
    ensures HasSuffix(AppendSegment(uri, prefix), "/") == HasSuffix(uri, "/")
  {
    if prefix == "" {
      assert AppendSegment(uri, prefix) == uri;
    } else {
      if HasSuffix(uri, "/") {
        AppendAfterSlash(uri, prefix);
      } else {
        AppendWithoutSlash(uri, prefix);
      }
    }
  }

  lemma AppendAfterSlash(uri: string, prefix: string)
    requires prefix != "" && HasSuffix(uri, "/")
    ensures AppendSegment(uri, prefix) == uri + prefix + "/"
    ensures TrimSuffix(AppendSegment(uri, prefix), "/") == TrimSuffix(uri, "/") + ("/" + prefix)
    ensures HasSuffix(AppendSegment(uri, prefix), "/")
  {
    var r := uri + prefix + "/";
    var t := uri[..|uri| - 1];
    assert uri == t + "/";
    assert r == (t + "/" + prefix) + "/";
    assert HasSuffix(r, "/");
    assert r[..|r| - 1] == t + ("/" + prefix);
  }

  lemma AppendWithoutSlash(uri: string, prefix: string)
    requires prefix != "" && NoTrailingSlash(prefix) && !HasSuffix(uri, "/")
    ensures AppendSegment(uri, prefix) == uri + "/" + prefix
    ensures TrimSuffix(AppendSegment(uri, prefix), "/") == TrimSuffix(uri, "/") + ("/" + prefix)
    ensures !HasSuffix(AppendSegment(uri, prefix), "/")
  {
    var r := uri + "/" + prefix;
    assert r == uri + ("/" + prefix);
    assert r[|r| - 1] == prefix[|prefix| - 1];
    assert r[|r| - 1..] == [prefix[|prefix| - 1]];
    assert prefix[|prefix| - 1..] == [prefix[|prefix| - 1]];
  }

  /** getURI without the step-by-step appends: the first configured URI with
      the organisation substituted and its trailing '/' trimmed, then "/p"
      for each non-empty prefix in order (for prefixes that do not end in
      '/' themselves). */
  lemma URIForSegments(template: string, organizationID: string, prefix1: string, prefix2: string, prefix3: string)
    requires organizationID != ""
    requires prefix1 == "" || NoTrailingSlash(prefix1)
    requires prefix2 == "" || NoTrailingSlash(prefix2)
    requires prefix3 == "" || NoTrailingSlash(prefix3)
    ensures URIFor(template, organizationID, prefix1, prefix2, prefix3) ==
            Success(TrimSuffix(ReplaceFirst(template, OrgPlaceholder, organizationID), "/") + Segments([prefix1, prefix2, prefix3]))
  {
    AppendChainTrimmed(ReplaceFirst(template, OrgPlaceholder, organizationID), prefix1, prefix2, prefix3);
  }

  lemma AppendChainTrimmed(base: string, prefix1: string, prefix2: string, prefix3: string)
    requires prefix1 == "" || NoTrailingSlash(prefix1)
    requires prefix2 == "" || NoTrailingSlash(prefix2)
    requires prefix3 == "" || NoTrailingSlash(prefix3)
    ensures TrimSuffix(AppendSegment(AppendSegment(AppendSegment(base, prefix1), prefix2), prefix3), "/") ==
            TrimSuffix(base, "/") + Segments([prefix1, prefix2, prefix3])
  {
    var u1 := AppendSegment(base, prefix1);
    var u2 := AppendSegment(u1, prefix2);
    AppendSegmentTrimmed(base, prefix1);
    AppendSegmentTrimmed(u1, prefix2);
    AppendSegmentTrimmed(u2, prefix3);
    SegmentsOfThree(prefix1, prefix2, prefix3);
    Regroup(TrimSuffix(base, "/"), Segment(prefix1), Segment(prefix2), Segment(prefix3));
  }

  lemma Regroup(t: string, s1: string, s2: string, s3: string)
    ensures ((t + s1) + s2) + s3 == t + (s1 + s2 + s3)
  {
  }

  lemma SegmentsOfThree(prefix1: string, prefix2: string, prefix3: string)
    ensures Segments([prefix1, prefix2, prefix3]) == Segment(prefix1) + Segment(prefix2) + Segment(prefix3)
  {
    assert Segments([prefix3]) == Segment(prefix3) by {
      assert [prefix3][1..] == [];
    }
    assert Segments([prefix2, prefix3]) == Segment(prefix2) + Segment(prefix3) by {
      assert [prefix2, prefix3][1..] == [prefix3];
    }
    assert Segments([prefix1, prefix2, prefix3]) == Segment(prefix1) + (Segment(prefix2) + Segment(prefix3)) by {
      assert [prefix1, prefix2, prefix3][1..] == [prefix2, prefix3];
    }
  }

  // ---------------------------------------------------------------------
  // Operations

  datatype Verb = GET | POST | PATCH | DELETE

  datatype Operation =
    | CreateShortCodeOp | GetShortCodeOp | GetShortCodesOp | GetTagsOp | GetCodeStatsOp
    | UpdateShortCodeOp | DeleteShortCodeOp | CreateQRCodeOp | GetQRCodeOp | GetQRCodesOp | DeleteQRCodeOp
  {
    /** The operation's name in its error messages. */
    function Name(): string {
      match this
      case CreateShortCodeOp => "create short code"
      case GetShortCodeOp => "get short code"
      case GetShortCodesOp => "get short codes"
      case GetTagsOp => "get tags"
      case GetCodeStatsOp => "get code stats"
      case UpdateShortCodeOp => "update short code"
      case DeleteShortCodeOp => "delete short code"
      case CreateQRCodeOp => "create QR code"
      case GetQRCodeOp => "get QR code"
      case GetQRCodesOp => "get QR codes"
      case DeleteQRCodeOp => "delete QR code"
    }

    function Method(): Verb {
      match this
      case CreateShortCodeOp | CreateQRCodeOp => POST
      case UpdateShortCodeOp => PATCH
      case DeleteShortCodeOp | DeleteQRCodeOp => DELETE
      case _ => GET
    }

    predicate IsDelete() {
      this == DeleteShortCodeOp || this == DeleteQRCodeOp
    }

    /** 201 Created for creation, 204 No Content for deletion, 200 OK
        otherwise. */
    function ExpectedStatus(): (code: int)
      ensures Method() == POST <==> code == 201
      ensures Method() == DELETE <==> code == 204
      ensures (Method() == GET || Method() == PATCH) <==> code == 200
    {
      match Method()
      case POST => 201
      case DELETE => 204
      case _ => 200
    }
  }

  /** A request handed to the transport. The URL sent is `url`, followed by
      '?' and the encoded `query` exactly when `query` is non-empty. `body`
      is None when no body is sent, and Some(Null) for a nil options
      pointer, which marshals as `null`. */
  datatype Request = Request(verb: Verb, url: string, query: map<string, string>, headers: map<string, string>, body: Option<Value>)

  type Transport = Request -> Reply<Value>

  type Handler = nat

  /** The outcome of one operation: the decoded response (None for the
      deletions, which decode nothing), and the requests made. */
  datatype Outcome = Outcome(result: Result<Option<Value>, LinkError>, sent: seq<Request>)

  /** What every CRUD method does once it knows its path prefixes, query and
      body: build the URI (failing before any request when the
      organisation is missing), send one request with the standard headers,
      demand the operation's status, then decode the body. */
  function Perform(template: string, organizationID: string, apiKey: string, op: Operation,
                   prefix1: string, prefix2: string, prefix3: string,
                   query: map<string, string>, body: Option<Value>, send: Transport): Outcome
  {
    match URIFor(template, organizationID, prefix1, prefix2, prefix3)
    case Failure(e) => Outcome(Failure(e), [])
    case Success(uri) =>
      var req := Request(op.Method(), uri, query, CreateHeaders(apiKey), body);
      var reply := send(req);
      var result :=
        match reply
        case TransportError(c) => Failure(RequestFailed(op, c))
        case Reply(status, text, decoded) =>
          if status != op.ExpectedStatus() then Failure(BadStatus(op, status, text))
          else if op.IsDelete() then Success(None)
          else
            match decoded
            case Failure(m) => Failure(UnmarshalFailed(m))
            case Success(v) => Success(Some(v));
      Outcome(result, [req])
  }

  /** Without an organisation ID no operation sends anything. */
  lemma NoRequestWithoutOrganization(template: string, apiKey: string, op: Operation,
                                     prefix1: string, prefix2: string, prefix3: string,
                                     query: map<string, string>, body: Option<Value>, send: Transport)
    ensures Perform(template, "", apiKey, op, prefix1, prefix2, prefix3, query, body, send) == Outcome(Failure(OrganizationRequired), [])
  {
  }

  /** With an organisation ID exactly one request is sent, to the URI
      getURI builds, with the standard headers. A transport error gives
      "failed to <op>: <cause>"; a status other than the operation's gives
      "failed to <op>: HTTP <code>: <status>"; on the operation's status a
      deletion succeeds with nothing decoded and every other operation
      returns the decoded body, or the decoder's error. */
  lemma PerformOneRequest(template: string, organizationID: string, apiKey: string, op: Operation,
                          prefix1: string, prefix2: string, prefix3: string,
                          query: map<string, string>, body: Option<Value>, send: Transport)
    requires organizationID != ""
    ensures var o := Perform(template, organizationID, apiKey, op, prefix1, prefix2, prefix3, query, body, send);
            var req := Request(op.Method(), URIFor(template, organizationID, prefix1, prefix2, prefix3).value, query, CreateHeaders(apiKey), body);
            && o.sent == [req]
            && (o.result.Success? ==> send(req).Reply? && send(req).status == op.ExpectedStatus())
            && (o.result.Success? ==> (o.result.value.None? <==> op.IsDelete()))
            && (send(req).TransportError? ==>
                  o.result == Failure(RequestFailed(op, send(req).cause)) &&
                  o.result.error.Message() == "failed to " + op.Name() + ": " + send(req).cause)
            && (send(req).Reply? && send(req).status != op.ExpectedStatus() ==>
                  o.result == Failure(BadStatus(op, send(req).status, send(req).statusText)) &&
                  o.result.error.Message() == "failed to " + op.Name() + ": HTTP " + IntToString(send(req).status) + ": " + send(req).statusText)
            && (send(req).Reply? && send(req).status == op.ExpectedStatus() ==>
                  && (op.IsDelete() ==> o.result == Success(None))
                  && (!op.IsDelete() && send(req).decoded.Success? ==> o.result == Success(Some(send(req).decoded.value)))
                  && (!op.IsDelete() && send(req).decoded.Failure? ==>
                        o.result == Failure(UnmarshalFailed(send(req).decoded.error)) &&
                        o.result.error.Message() == "failed to unmarshal response: " + send(req).decoded.error))
  {
    var uri := URIFor(template, organizationID, prefix1, prefix2, prefix3);
    assert uri.Success?;
    var req := Request(op.Method(), uri.value, query, CreateHeaders(apiKey), body);
    var o := Perform(template, organizationID, apiKey, op, prefix1, prefix2, prefix3, query, body, send);
    assert o.sent == [req];
    match send(req)
    case TransportError(c) =>
      assert o.result == Failure(RequestFailed(op, c));
    case Reply(status, text, decoded) =>
      if status != op.ExpectedStatus() {
        assert o.result == Failure(BadStatus(op, status, text));
      } else if !op.IsDelete() && decoded.Failure? {
        assert o.result == Failure(UnmarshalFailed(decoded.error));
      }
  }

  // ---------------------------------------------------------------------
  // Bodies and query parameters

  datatype CreateShortCodeOptions = CreateShortCodeOptions(code: string, title: string, tags: seq<string>)
  datatype UpdateShortCodeOptions = UpdateShortCodeOptions(longURL: string, title: string, tags: seq<string>)
  datatype CreateQRCodeOptions = CreateQRCodeOptions(title: string, backgroundColor: string, color: string, size: string, logo: string)

  /** The body of CreateShortCode: long_url and domain always, code, title
      and tags only when given and non-empty. */
  function CreateShortCodeBody(longURL: string, domain: string, opts: Option<CreateShortCodeOptions>): (b: map<string, Value>)
    ensures "long_url" in b && b["long_url"] == Str(longURL)
    ensures "domain" in b && b["domain"] == Str(domain)
    ensures "code" in b <==> opts.Some? && opts.value.code != ""
    ensures "code" in b ==> b["code"] == Str(opts.value.code)
    ensures "title" in b <==> opts.Some? && opts.value.title != ""
    ensures "title" in b ==> b["title"] == Str(opts.value.title)
    ensures "tags" in b <==> opts.Some? && |opts.value.tags| > 0
    ensures "tags" in b ==> b["tags"] == Strings(opts.value.tags)
    ensures b.Keys <= {"long_url", "domain", "code", "title", "tags"}
  {
    var body := map["long_url" := Str(longURL), "domain" := Str(domain)];
    if opts.None? then body
    else
      var o := opts.value;
      var body := if o.code != "" then body["code" := Str(o.code)] else body;
      var body := if o.title != "" then body["title" := Str(o.title)] else body;
      if |o.tags| > 0 then body["tags" := Strings(o.tags)] else body
  }

  /** How UpdateShortCodeOptions marshals: `null` for a nil pointer, else
      the fields that are non-empty (all three are omitempty). */
  function UpdateShortCodeBody(opts: Option<UpdateShortCodeOptions>): (v: Value)
    ensures opts.None? <==> v == Null
    ensures opts.Some? ==> v.Obj? && v.fields.Keys <= {"long_url", "title", "tags"}
    ensures opts.Some? ==> ("long_url" in v.fields <==> opts.value.longURL != "")
    ensures opts.Some? && "long_url" in v.fields ==> v.fields["long_url"] == Str(opts.value.longURL)
    ensures opts.Some? ==> ("title" in v.fields <==> opts.value.title != "")
    ensures opts.Some? && "title" in v.fields ==> v.fields["title"] == Str(opts.value.title)
    ensures opts.Some? ==> ("tags" in v.fields <==> |opts.value.tags| > 0)
    ensures opts.Some? && "tags" in v.fields ==> v.fields["tags"] == Strings(opts.value.tags)
  {
    match opts
    case None => Null
    case Some(o) =>
      var m: map<string, Value> := map[];
      var m := if o.longURL != "" then m["long_url" := Str(o.longURL)] else m;
      var m := if o.title != "" then m["title" := Str(o.title)] else m;
      Obj(if |o.tags| > 0 then m["tags" := Strings(o.tags)] else m)
  }

  /** How CreateQRCodeOptions marshals: `null` for a nil pointer, else the
      non-empty fields (all five are omitempty). */
  function CreateQRCodeBody(opts: Option<CreateQRCodeOptions>): (v: Value)
    ensures opts.None? <==> v == Null
    ensures opts.Some? ==> v.Obj? && v.fields.Keys <= {"title", "backgroundColor", "color", "size", "logo"}
    ensures opts.Some? ==> ("title" in v.fields <==> opts.value.title != "")
    ensures opts.Some? && "title" in v.fields ==> v.fields["title"] == Str(opts.value.title)
    ensures opts.Some? ==> ("backgroundColor" in v.fields <==> opts.value.backgroundColor != "")
    ensures opts.Some? && "backgroundColor" in v.fields ==> v.fields["backgroundColor"] == Str(opts.value.backgroundColor)
    ensures opts.Some? ==> ("color" in v.fields <==> opts.value.color != "")
    ensures opts.Some? && "color" in v.fields ==> v.fields["color"] == Str(opts.value.color)
    ensures opts.Some? ==> ("size" in v.fields <==> opts.value.size != "")
    ensures opts.Some? && "size" in v.fields ==> v.fields["size"] == Str(opts.value.size)
    ensures opts.Some? ==> ("logo" in v.fields <==> opts.value.logo != "")
    ensures opts.Some? && "logo" in v.fields ==> v.fields["logo"] == Str(opts.value.logo)
  {
    match opts
    case None => Null
    case Some(o) =>
      var m: map<string, Value> := map[];
      var m := if o.title != "" then m["title" := Str(o.title)] else m;
      var m := if o.backgroundColor != "" then m["backgroundColor" := Str(o.backgroundColor)] else m;
      var m := if o.color != "" then m["color" := Str(o.color)] else m;
      var m := if o.size != "" then m["size" := Str(o.size)] else m;
      Obj(if o.logo != "" then m["logo" := Str(o.logo)] else m)
  }

  /** The paging parameters: each only when positive, in decimal. */
  function PageQuery(pageNumber: int, pageSize: int): (q: map<string, string>)
    ensures "pageNum" in q <==> pageNumber > 0
    ensures "pageNum" in q ==> q["pageNum"] == IntToString(pageNumber)
    ensures "pageSize" in q <==> pageSize > 0
    ensures "pageSize" in q ==> q["pageSize"] == IntToString(pageSize)
    ensures q.Keys <= {"pageNum", "pageSize"}
  {
    var q: map<string, string> := map[];
    var q := if pageNumber > 0 then q["pageNum" := IntToString(pageNumber)] else q;
    if pageSize > 0 then q["pageSize" := IntToString(pageSize)] else q
  }

  /** The query of GetShortCodes: title when non-empty, the tags joined by
      ',' when there are any, and the paging parameters. */
  function ShortCodesQuery(titleSearch: string, tags: seq<string>, pageNumber: int, pageSize: int): (q: map<string, string>)
    ensures "title" in q <==> titleSearch != ""
    ensures "title" in q ==> q["title"] == titleSearch
    ensures "tags" in q <==> |tags| > 0
    ensures "tags" in q ==> q["tags"] == Join(tags, ",")
    ensures forall k :: k in PageQuery(pageNumber, pageSize) ==> k in q && q[k] == PageQuery(pageNumber, pageSize)[k]
    ensures q.Keys <= {"title", "tags", "pageNum", "pageSize"}
    ensures |q| == 0 <==> titleSearch == "" && |tags| == 0 && pageNumber <= 0 && pageSize <= 0
  {
    var q: map<string, string> := map[];
    var q := if titleSearch != "" then q["title" := titleSearch] else q;
    var q := if |tags| > 0 then q["tags" := Join(tags, ",")] else q;
    var page := PageQuery(pageNumber, pageSize);
    var r := q + page;
    assert "title" in q ==> "title" in r;
    assert "tags" in q ==> "tags" in r;
    assert "pageNum" in page ==> "pageNum" in r;
    assert "pageSize" in page ==> "pageSize" in r;
    r
  }

  /** The query of GetCodeStats: both dates, always (their RFC 3339 text is
      taken as given). */
  function StatsQuery(startDate: string, endDate: string): (q: map<string, string>)
    ensures q.Keys == {"startDate", "endDate"} && q["startDate"] == startDate && q["endDate"] == endDate
  {
    map["startDate" := startDate, "endDate" := endDate]
  }

  // ---------------------------------------------------------------------
  // Options

  datatype LinkOption = WithAPIKey(key: string) | WithOrganizationID(id: string) | WithURIs(uris: seq<string>)

  datatype Options = Options(uris: seq<string>, organizationID: string, apiKey: string)

  function Apply(o: Options, opt: LinkOption): Options {
    match opt
    case WithAPIKey(k) => o.(apiKey := k)
    case WithOrganizationID(id) => o.(organizationID := id)
    case WithURIs(u) => o.(uris := u)
  }

  function ApplyAll(opts: seq<LinkOption>): Options
    decreases |opts|
  {
    if |opts| == 0 then Options([], "", "") else Apply(ApplyAll(opts[..|opts| - 1]), opts[|opts| - 1])
  }

  /** The API key New settles on: the option's, else HYPHEN_API_KEY. */
  function ResolvedAPIKey(options: seq<LinkOption>, env: map<string, string>): string {
    var k := ApplyAll(options).apiKey;
    if k != "" then k else Getenv(env, ApiKeyVar)
  }

  // ---------------------------------------------------------------------
  // The client

  class Link {
    var uris: seq<string>
    var organizationID: string
    var apiKey: string
    var errorHandler: Option<Handler>
    /** Every call made to an error handler, in order. */
    ghost var handlerCalls: seq<(Handler, LinkError)>
    /** Every request handed to the transport, in order. */
    ghost var sent: seq<Request>

    ghost predicate Valid()
      reads this`uris
    {
      |uris| > 0
    }

    constructor Init(uris: seq<string>, organizationID: string, apiKey: string)
      ensures this.uris == uris && this.organizationID == organizationID && this.apiKey == apiKey
      ensures errorHandler.None? && handlerCalls == [] && sent == []
    {
      this.uris := uris;
      this.organizationID := organizationID;
      this.apiKey := apiKey;
      errorHandler := None;
      handlerCalls := [];
      sent := [];
    }

    /** New, with the environment as a parameter: a public key is refused,
        and the URI list falls back to the default. */
    static method New(options: seq<LinkOption>, env: map<string, string>) returns (r: Result<Link, string>)
      ensures var key := ResolvedAPIKey(options, env);
              r.Failure? <==> key != "" && HasPrefix(key, PublicPrefix)
      ensures r.Failure? ==> r.error == PublicKeyRejected
      ensures r.Success? ==>
                var o := ApplyAll(options);
                && fresh(r.value) && r.value.Valid()
                && r.value.apiKey == ResolvedAPIKey(options, env)
                && r.value.organizationID == (if o.organizationID != "" then o.organizationID else Getenv(env, OrganizationIdVar))
                && r.value.uris == (if |o.uris| > 0 then o.uris else DefaultLinkURIs)
                && r.value.errorHandler.None? && r.value.handlerCalls == [] && r.value.sent == []
    {
      var opts := Options([], "", "");
      for i := 0 to |options|
        invariant opts == ApplyAll(options[..i])
      {
        assert options[..i + 1][..i] == options[..i];
        opts := Apply(opts, options[i]);
      }
      assert options[..|options|] == options;

      var key := opts.apiKey;
      if key == "" {
        key := Getenv(env, ApiKeyVar);
      }
      if key != "" && HasPrefix(key, PublicPrefix) {
        return Failure(PublicKeyRejected);
      }
      var orgID := opts.organizationID;
      if orgID == "" {
        orgID := Getenv(env, OrganizationIdVar);
      }
      var us := opts.uris;
      if |us| == 0 {
        us := DefaultLinkURIs;
      }
      var l := new Link.Init(us, orgID, key);
      return Success(l);
    }

    method SetErrorHandler(handler: Option<Handler>)
      modifies this`errorHandler
      ensures errorHandler == handler
    {
      errorHandler := handler;
    }

    method EmitError(err: LinkError)
      modifies this`handlerCalls
      ensures handlerCalls == old(handlerCalls) + (if errorHandler.Some? then [(errorHandler.value, err)] else [])
    {
      if errorHandler.Some? {
        handlerCalls := handlerCalls + [(errorHandler.value, err)];
      }
    }

    /** getURI, step by step as the source builds it. */
    method GetURI(prefix1: string, prefix2: string, prefix3: string) returns (r: Result<string, LinkError>)
      requires Valid()
      ensures r == URIFor(uris[0], organizationID, prefix1, prefix2, prefix3)
    {
      if organizationID == "" {
        return Failure(OrganizationRequired);
      }
      var uri := ReplaceFirst(uris[0], OrgPlaceholder, organizationID);
      if prefix1 != "" {
        if HasSuffix(uri, "/") {
          uri := uri + prefix1 + "/";
        } else {
          uri := uri + "/" + prefix1;
        }
      }
      if prefix2 != "" {
        if HasSuffix(uri, "/") {
          uri := uri + prefix2 + "/";
        } else {
          uri := uri + "/" + prefix2;
        }
      }
      if prefix3 != "" {
        if HasSuffix(uri, "/") {
          uri := uri + prefix3 + "/";
        } else {
          uri := uri + "/" + prefix3;
        }
      }
      return Success(TrimSuffix(uri, "/"));
    }

    /** The shared body of the CRUD methods; every error is reported to the
        handler once. */
    method Execute(op: Operation, prefix1: string, prefix2: string, prefix3: string,
                   query: map<string, string>, body: Option<Value>, send: Transport)
      returns (r: Result<Option<Value>, LinkError>)
      requires Valid()
      modifies this`handlerCalls, this`sent
      ensures var o := Perform(uris[0], organizationID, apiKey, op, prefix1, prefix2, prefix3, query, body, send);
              r == o.result && sent == old(sent) + o.sent
      ensures handlerCalls == old(handlerCalls) + (if r.Failure? && errorHandler.Some? then [(errorHandler.value, r.error)] else [])
    {
      var uri := GetURI(prefix1, prefix2, prefix3);
      if uri.Failure? {
        EmitError(uri.error);
        return Failure(uri.error);
      }
      var headers := CreateHeaders(apiKey);
      var req := Request(op.Method(), uri.value, query, headers, body);
      var reply := send(req);
      sent := sent + [req];
      match reply {
        case TransportError(c) =>
          r := Failure(RequestFailed(op, c));
        case Reply(status, text, decoded) =>
          if status != op.ExpectedStatus() {
            r := Failure(BadStatus(op, status, text));
          } else if op.IsDelete() {
            r := Success(None);
          } else {
            match decoded {
              case Failure(m) =>
                r := Failure(UnmarshalFailed(m));
              case Success(v) =>
                r := Success(Some(v));
            }
          }
      }
      if r.Failure? {
        EmitError(r.error);
      }
    }

    method CreateShortCode(longURL: string, domain: string, opts: Option<CreateShortCodeOptions>, send: Transport)
      returns (r: Result<Option<Value>, LinkError>)
      requires Valid()
      modifies this`handlerCalls, this`sent
      ensures var o := Perform(uris[0], organizationID, apiKey, CreateShortCodeOp, "", "", "", map[],
                               Some(Obj(CreateShortCodeBody(longURL, domain, opts))), send);
              r == o.result && sent == old(sent) + o.sent
      ensures handlerCalls == old(handlerCalls) + (if r.Failure? && errorHandler.Some? then [(errorHandler.value, r.error)] else [])
    {
      r := Execute(CreateShortCodeOp, "", "", "", map[], Some(Obj(CreateShortCodeBody(longURL, domain, opts))), send);
    }

    method GetShortCode(code: string, send: Transport) returns (r: Result<Option<Value>, LinkError>)
      requires Valid()
      modifies this`handlerCalls, this`sent
      ensures var o := Perform(uris[0], organizationID, apiKey, GetShortCodeOp, code, "", "", map[], None, send);
              r == o.result && sent == old(sent) + o.sent
      ensures handlerCalls == old(handlerCalls) + (if r.Failure? && errorHandler.Some? then [(errorHandler.value, r.error)] else [])
    {
      r := Execute(GetShortCodeOp, code, "", "", map[], None, send);
    }

    method GetShortCodes(titleSearch: string, tags: seq<string>, pageNumber: int, pageSize: int, send: Transport)
      returns (r: Result<Option<Value>, LinkError>)
      requires Valid()
      modifies this`handlerCalls, this`sent
      ensures var o := Perform(uris[0], organizationID, apiKey, GetShortCodesOp, "", "", "",
                               ShortCodesQuery(titleSearch, tags, pageNumber, pageSize), None, send);
              r == o.result && sent == old(sent) + o.sent
      ensures handlerCalls == old(handlerCalls) + (if r.Failure? && errorHandler.Some? then [(errorHandler.value, r.error)] else [])
    {
      r := Execute(GetShortCodesOp, "", "", "", ShortCodesQuery(titleSearch, tags, pageNumber, pageSize), None, send);
    }

    method GetTags(send: Transport) returns (r: Result<Option<Value>, LinkError>)
      requires Valid()
      modifies this`handlerCalls, this`sent
      ensures var o := Perform(uris[0], organizationID, apiKey, GetTagsOp, "tags", "", "", map[], None, send);
              r == o.result && sent == old(sent) + o.sent
      ensures handlerCalls == old(handlerCalls) + (if r.Failure? && errorHandler.Some? then [(errorHandler.value, r.error)] else [])
    {
      r := Execute(GetTagsOp, "tags", "", "", map[], None, send);
    }

    method GetCodeStats(code: string, startDate: string, endDate: string, send: Transport)
      returns (r: Result<Option<Value>, LinkError>)
      requires Valid()
      modifies this`handlerCalls, this`sent
      ensures var o := Perform(uris[0], organizationID, apiKey, GetCodeStatsOp, code, "stats", "",
                               StatsQuery(startDate, endDate), None, send);
              r == o.result && sent == old(sent) + o.sent
      ensures handlerCalls == old(handlerCalls) + (if r.Failure? && errorHandler.Some? then [(errorHandler.value, r.error)] else [])
    {
      r := Execute(GetCodeStatsOp, code, "stats", "", StatsQuery(startDate, endDate), None, send);
    }

    method UpdateShortCode(code: string, opts: Option<UpdateShortCodeOptions>, send: Transport)
      returns (r: Result<Option<Value>, LinkError>)
      requires Valid()
      modifies this`handlerCalls, this`sent
      ensures var o := Perform(uris[0], organizationID, apiKey, UpdateShortCodeOp, code, "", "", map[],
                               Some(UpdateShortCodeBody(opts)), send);
              r == o.result && sent == old(sent) + o.sent
      ensures handlerCalls == old(handlerCalls) + (if r.Failure? && errorHandler.Some? then [(errorHandler.value, r.error)] else [])
    {
      r := Execute(UpdateShortCodeOp, code, "", "", map[], Some(UpdateShortCodeBody(opts)), send);
    }

    method DeleteShortCode(code: string, send: Transport) returns (r: Result<Option<Value>, LinkError>)
      requires Valid()
      modifies this`handlerCalls, this`sent
      ensures var o := Perform(uris[0], organizationID, apiKey, DeleteShortCodeOp, code, "", "", map[], None, send);
              r == o.result && sent == old(sent) + o.sent
      ensures handlerCalls == old(handlerCalls) + (if r.Failure? && errorHandler.Some? then [(errorHandler.value, r.error)] else [])
    {
      r := Execute(DeleteShortCodeOp, code, "", "", map[], None, send);
    }

    method CreateQRCode(code: string, opts: Option<CreateQRCodeOptions>, send: Transport)
      returns (r: Result<Option<Value>, LinkError>)
      requires Valid()
      modifies this`handlerCalls, this`sent
      ensures var o := Perform(uris[0], organizationID, apiKey, CreateQRCodeOp, code, "qrs", "", map[],
                               Some(CreateQRCodeBody(opts)), send);
              r == o.result && sent == old(sent) + o.sent
      ensures handlerCalls == old(handlerCalls) + (if r.Failure? && errorHandler.Some? then [(errorHandler.value, r.error)] else [])
    {
      r := Execute(CreateQRCodeOp, code, "qrs", "", map[], Some(CreateQRCodeBody(opts)), send);
    }

    method GetQRCode(code: string, qrID: string, send: Transport) returns (r: Result<Option<Value>, LinkError>)
      requires Valid()
      modifies this`handlerCalls, this`sent
      ensures var o := Perform(uris[0], organizationID, apiKey, GetQRCodeOp, code, "qrs", qrID, map[], None, send);
              r == o.result && sent == old(sent) + o.sent
      ensures handlerCalls == old(handlerCalls) + (if r.Failure? && errorHandler.Some? then [(errorHandler.value, r.error)] else [])
    {
      r := Execute(GetQRCodeOp, code, "qrs", qrID, map[], None, send);
    }

    method GetQRCodes(code: string, pageNumber: int, pageSize: int, send: Transport) returns (r: Result<Option<Value>, LinkError>)
      requires Valid()
      modifies this`handlerCalls, this`sent
      ensures var o := Perform(uris[0], organizationID, apiKey, GetQRCodesOp, code, "qrs", "",
                               PageQuery(pageNumber, pageSize), None, send);
              r == o.result && sent == old(sent) + o.sent
      ensures handlerCalls == old(handlerCalls) + (if r.Failure? && errorHandler.Some? then [(errorHandler.value, r.error)] else [])
    {
      r := Execute(GetQRCodesOp, code, "qrs", "", PageQuery(pageNumber, pageSize), None, send);
    }

    method DeleteQRCode(code: string, qrID: string, send: Transport) returns (r: Result<Option<Value>, LinkError>)
      requires Valid()
      modifies this`handlerCalls, this`sent
      ensures var o := Perform(uris[0], organizationID, apiKey, DeleteQRCodeOp, code, "qrs", qrID, map[], None, send);
              r == o.result && sent == old(sent) + o.sent
      ensures handlerCalls == old(handlerCalls) + (if r.Failure? && errorHandler.Some? then [(errorHandler.value, r.error)] else [])
    {
      r := Execute(DeleteQRCodeOp, code, "qrs", qrID, map[], None, send);
    }
  }
}
