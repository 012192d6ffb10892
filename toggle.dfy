/** The feature-flag client of pkg/toggle/toggle.go: key decoding, endpoint
    resolution, targeting-key resolution, the request builder and the
    evaluator that falls back through its endpoints in order. */
module Toggle {
  import opened Wrappers
  import opened Text
  import Base64
  import opened Json
  import opened Client

  const PublicPrefix: string := "public_"
  const GlobalHorizonURL: string := "https://toggle.hyphen.cloud"
  const DefaultEnvironment: string := "development"
  const PublicKeyVar: string := "HYPHEN_PUBLIC_API_KEY"
  const ApplicationIdVar: string := "HYPHEN_APPLICATION_ID"
  const EvaluatePath: string := "/toggle/evaluate"

  datatype User = User(id: string, email: string, name: string, customAttributes: map<string, Value>)

  /** An evaluation context; `user` is Go's nullable *User. */
  datatype Context = Context(
    targetingKey: string,
    ipAddress: string,
    customAttributes: map<string, Value>,
    user: Option<User>)

  /** The body posted to the evaluation service (toggleEvaluation). */
  datatype EvaluationRequest = EvaluationRequest(
    application: string,
    environment: string,
    targetingKey: string,
    ipAddress: string,
    customAttributes: map<string, Value>,
    user: Option<User>)

  // ---------------------------------------------------------------------
  // Key decoder

  predicate IsByteString(s: string) {
    forall i :: 0 <= i < |s| ==> s[i] as int < 256
  }

  /** Go's string(bytes). */
  function BytesToString(bs: seq<Base64.byte>): (s: string)
    ensures |s| == |bs| && IsByteString(s)
  {
    seq(|bs|, i requires 0 <= i < |bs| => bs[i] as char)
  }

  /** Go's []byte(s), for strings whose characters are bytes. */
  function StringToBytes(s: string): (bs: seq<Base64.byte>)
    requires IsByteString(s)
    ensures BytesToString(bs) == s
  {
    seq(|s|, i requires 0 <= i < |s| => s[i] as int)
  }

  /** getOrgIDFromPublicKey: "" unless the key is `public_` followed by valid
      padded base64, else the decoded text before its first ':'. */
  function GetOrgIDFromPublicKey(publicKey: string): (org: string)
    ensures !HasPrefix(publicKey, PublicPrefix) ==> org == ""
    ensures HasPrefix(publicKey, PublicPrefix) && Base64.Decode(TrimPrefix(publicKey, PublicPrefix)).None? ==> org == ""
    ensures ':' !in org
  {
    if !HasPrefix(publicKey, PublicPrefix) then ""
    else
      var keyWithoutPrefix := TrimPrefix(publicKey, PublicPrefix);
      match Base64.Decode(keyWithoutPrefix)
      case None => ""
      case Some(decoded) => BeforeFirst(BytesToString(decoded), ':')
  }

  /** A public key built by encoding any text yields that text up to its
      first ':' (all of it when there is none). */
  lemma OrgIDOfEncodedKey(text: string)
    requires IsByteString(text)
    ensures GetOrgIDFromPublicKey(PublicPrefix + Base64.Encode(StringToBytes(text))) == BeforeFirst(text, ':')
  {
    var key := PublicPrefix + Base64.Encode(StringToBytes(text));
    assert HasPrefix(key, PublicPrefix);
    assert TrimPrefix(key, PublicPrefix) == Base64.Encode(StringToBytes(text));
    Base64.RoundTrip(StringToBytes(text));
  }

  /** In particular `public_` + base64("<org>:<secret>") names the org. */
  lemma OrgIDOfTenantSecret(org: string, secret: string)
    requires IsByteString(org) && IsByteString(secret) && ':' !in org
    ensures GetOrgIDFromPublicKey(PublicPrefix + Base64.Encode(StringToBytes(org + ":" + secret))) == org
  {
    var text := org + ":" + secret;
    assert IsByteString(text) by {
      assert forall i :: 0 <= i < |text| ==> text[i] == if i < |org| then org[i] else if i == |org| then ':' else secret[i - |org| - 1];
    }
    OrgIDOfEncodedKey(text);
    BeforeFirstOfPrefix(org, secret);
  }

  lemma {:induction false} BeforeFirstOfPrefix(org: string, secret: string)
    requires ':' !in org
    ensures BeforeFirst(org + ":" + secret, ':') == org
    decreases |org|
  {
    if |org| > 0 {
      BeforeFirstOfPrefix(org[1..], secret);
      assert (org + ":" + secret)[1..] == org[1..] + ":" + secret;
    } else {
      assert (org + ":" + secret)[0] == ':';
    }
  }

  const DocumentedText: string := "test-org:secret"
  /** The base64 text of DocumentedText. */
  const DocumentedKey: string := "dGVzdC1vcmc6c2VjcmV0"

  /** The key made from "test-org:secret" names the organisation `test-org`. */
  lemma DocumentedTextOrgID()
    ensures IsByteString(DocumentedText)
    ensures GetOrgIDFromPublicKey(PublicPrefix + Base64.Encode(StringToBytes(DocumentedText))) == "test-org"
  {
    assert "test-org" + ":" + "secret" == DocumentedText;
    assert ':' !in "test-org";
    OrgIDOfTenantSecret("test-org", "secret");
  }

  /** Five whole groups encode as their five encodings, in order. */
  lemma EncodeFiveGroups(bs: seq<Base64.byte>, g1: string, g2: string, g3: string, g4: string, g5: string)
    requires |bs| == 15
    requires Base64.EncodeGroup(bs[0], bs[1], bs[2]) == g1
    requires Base64.EncodeGroup(bs[3], bs[4], bs[5]) == g2
    requires Base64.EncodeGroup(bs[6], bs[7], bs[8]) == g3
    requires Base64.EncodeGroup(bs[9], bs[10], bs[11]) == g4
    requires Base64.EncodeGroup(bs[12], bs[13], bs[14]) == g5
    ensures Base64.Encode(bs) == g1 + (g2 + (g3 + (g4 + g5)))
  {
    var s4, s3, s2, s1 := bs[12..], bs[9..], bs[6..], bs[3..];
    assert s4[3..] == [];
    Base64.EncodeCons(s4, g5, "");
    assert s3[3..] == s4;
    Base64.EncodeCons(s3, g4, g5);
    assert s2[3..] == s3;
    Base64.EncodeCons(s2, g3, g4 + g5);
    assert s1[3..] == s2;
    Base64.EncodeCons(s1, g2, g3 + (g4 + g5));
    Base64.EncodeCons(bs, g1, g2 + (g3 + (g4 + g5)));
  }

  lemma DocumentedBytes(bs: seq<Base64.byte>)
    requires IsByteString(DocumentedText) && bs == StringToBytes(DocumentedText)
    ensures |bs| == 15
    ensures bs[0] == 116 && bs[1] == 101 && bs[2] == 115 && bs[3] == 116 && bs[4] == 45
    ensures bs[5] == 111 && bs[6] == 114 && bs[7] == 103 && bs[8] == 58 && bs[9] == 115
    ensures bs[10] == 101 && bs[11] == 99 && bs[12] == 114 && bs[13] == 101 && bs[14] == 116
  {
  }

  lemma DocumentedGroups()
    ensures Base64.EncodeGroup(116, 101, 115) == "dGVz"
    ensures Base64.EncodeGroup(116, 45, 111) == "dC1v"
    ensures Base64.EncodeGroup(114, 103, 58) == "cmc6"
    ensures Base64.EncodeGroup(115, 101, 99) == "c2Vj"
    ensures Base64.EncodeGroup(114, 101, 116) == "cmV0"
  {
  }

  lemma DocumentedGroupsJoined()
    ensures "dGVz" + ("dC1v" + ("cmc6" + ("c2Vj" + "cmV0"))) == DocumentedKey
  {
  }

  /** The base64 text of "test-org:secret" is dGVzdC1vcmc6c2VjcmV0. */
  lemma DocumentedKeyText()
    ensures IsByteString(DocumentedText)
    ensures Base64.Encode(StringToBytes(DocumentedText)) == DocumentedKey
  {
    DocumentedTextOrgID();
    var bs := StringToBytes(DocumentedText);
    DocumentedBytes(bs);
    DocumentedGroups();
    EncodeFiveGroups(bs, "dGVz", "dC1v", "cmc6", "c2Vj", "cmV0");
    DocumentedGroupsJoined();
  }

  /** The documented example: public_dGVzdC1vcmc6c2VjcmV0 names the
      organisation `test-org`. */
  lemma DocumentedKeyOrgID()
    ensures GetOrgIDFromPublicKey(PublicPrefix + DocumentedKey) == "test-org"
  {
    DocumentedKeyText();
    DocumentedTextOrgID();
  }

  // ---------------------------------------------------------------------
  // Endpoint resolver

  function TenantHorizonURL(org: string): string {
    "https://" + org + ".toggle.hyphen.cloud"
  }

  /** getDefaultHorizonURL. */
  function GetDefaultHorizonURL(publicKey: string): (url: string)
    ensures publicKey == "" || GetOrgIDFromPublicKey(publicKey) == "" ==> url == GlobalHorizonURL
    ensures publicKey != "" && GetOrgIDFromPublicKey(publicKey) != "" ==>
              url == TenantHorizonURL(GetOrgIDFromPublicKey(publicKey)) && url != GlobalHorizonURL
  {
    if publicKey == "" then GlobalHorizonURL
    else
      var orgID := GetOrgIDFromPublicKey(publicKey);
      if orgID == "" then GlobalHorizonURL else TenantHorizonURL(orgID)
  }

  /** getDefaultHorizonURLs: the tenant endpoint first when the key names an
      organisation, and always the global endpoint last. */
  function GetDefaultHorizonURLs(publicKey: string): (urls: seq<string>)
    ensures 1 <= |urls| <= 2 && urls[|urls| - 1] == GlobalHorizonURL
    ensures |urls| == 1 <==> publicKey == "" || GetOrgIDFromPublicKey(publicKey) == ""
    ensures |urls| == 2 ==> urls[0] == TenantHorizonURL(GetOrgIDFromPublicKey(publicKey))
  {
    var defaultURL := GlobalHorizonURL;
    if publicKey == "" then [defaultURL]
    else
      var orgURL := GetDefaultHorizonURL(publicKey);
      if orgURL == defaultURL then [defaultURL] else [orgURL, defaultURL]
  }

  // ---------------------------------------------------------------------
  // Targeting-key resolution

  /** generateTargetKey, with the random number as a parameter: the
      non-empty ones of application, environment and the number's decimal
      text, joined by '-'. */
  function GenerateTargetKey(applicationID: string, environment: string, random: nat): (key: string)
    ensures key == (if applicationID != "" then applicationID + "-" else "")
                 + (if environment != "" then environment + "-" else "")
                 + NatToString(random)
    ensures key != ""
  {
    var randomSuffix := NatToString(random);
    var tail := (if environment != "" then [environment] else []) + [randomSuffix];
    var components := (if applicationID != "" then [applicationID] else []) + tail;
    assert Join(tail, "-") == (if environment != "" then environment + "-" else "") + randomSuffix by {
      if environment != "" { JoinCons(environment, [randomSuffix], "-"); }
    }
    assert Join(components, "-") == (if applicationID != "" then applicationID + "-" else "") + Join(tail, "-") by {
      if applicationID != "" { JoinCons(applicationID, tail, "-"); }
    }
    Join(components, "-")
  }

  /** getTargetingKey: the context's own key, else its user's id, else a
      generated key; never empty. */
  function GetTargetingKey(ctx: Context, applicationID: string, environment: string, random: nat): (key: string)
    ensures key != ""
    ensures ctx.targetingKey != "" ==> key == ctx.targetingKey
    ensures ctx.targetingKey == "" && ctx.user.Some? && ctx.user.value.id != "" ==> key == ctx.user.value.id
    ensures ctx.targetingKey == "" && (ctx.user.None? || ctx.user.value.id == "") ==>
              key == GenerateTargetKey(applicationID, environment, random)
  {
    if ctx.targetingKey != "" then ctx.targetingKey
    else if ctx.user.Some? && ctx.user.value.id != "" then ctx.user.value.id
    else GenerateTargetKey(applicationID, environment, random)
  }

  // ---------------------------------------------------------------------
  // Options

  datatype ToggleOption =
    | WithPublicAPIKey(key: string)
    | WithApplicationID(id: string)
    | WithEnvironment(env: string)
    | WithDefaultContext(ctx: Option<Context>)
    | WithHorizonURLs(urls: seq<string>)
    | WithDefaultTargetingKey(targetingKey: string)

  datatype Options = Options(
    publicAPIKey: string,
    applicationID: string,
    environment: string,
    defaultContext: Option<Context>,
    horizonURLs: seq<string>,
    defaultTargetingKey: string)

  const NoOptions: Options := Options("", "", "", None, [], "")

  /** What one functional option does to the options struct. */
  function Apply(o: Options, opt: ToggleOption): Options {
    match opt
    case WithPublicAPIKey(k) => o.(publicAPIKey := k)
    case WithApplicationID(id) => o.(applicationID := id)
    case WithEnvironment(e) => o.(environment := e)
    case WithDefaultContext(c) => o.(defaultContext := c)
    case WithHorizonURLs(u) => o.(horizonURLs := u)
    case WithDefaultTargetingKey(k) => o.(defaultTargetingKey := k)
  }

  /** The options struct after applying `opts` in order to the zero struct. */
  function ApplyAll(opts: seq<ToggleOption>): Options
    decreases |opts|
  {
    if |opts| == 0 then NoOptions else Apply(ApplyAll(opts[..|opts| - 1]), opts[|opts| - 1])
  }

  predicate SameSetting(a: ToggleOption, b: ToggleOption) {
    (a.WithPublicAPIKey? && b.WithPublicAPIKey?) || (a.WithApplicationID? && b.WithApplicationID?) ||
    (a.WithEnvironment? && b.WithEnvironment?) || (a.WithDefaultContext? && b.WithDefaultContext?) ||
    (a.WithHorizonURLs? && b.WithHorizonURLs?) || (a.WithDefaultTargetingKey? && b.WithDefaultTargetingKey?)
  }

  /** The struct holds the value `opt` would set. */
  predicate Holds(o: Options, opt: ToggleOption) {
    match opt
    case WithPublicAPIKey(k) => o.publicAPIKey == k
    case WithApplicationID(id) => o.applicationID == id
    case WithEnvironment(e) => o.environment == e
    case WithDefaultContext(c) => o.defaultContext == c
    case WithHorizonURLs(u) => o.horizonURLs == u
    case WithDefaultTargetingKey(k) => o.defaultTargetingKey == k
  }

  /** The last option of each kind decides that setting. */
  lemma {:induction false} LastOptionWins(opts: seq<ToggleOption>, i: nat)
    requires i < |opts|
    requires forall j :: i < j < |opts| ==> !SameSetting(opts[j], opts[i])
    ensures Holds(ApplyAll(opts), opts[i])
    decreases |opts|
  {
    if i < |opts| - 1 {
      var init := opts[..|opts| - 1];
      assert forall j :: i < j < |init| ==> init[j] == opts[j];
      LastOptionWins(init, i);
      assert init[i] == opts[i];
    }
  }

  /** A setting no option touches keeps its zero value. */
  lemma {:induction false} UnsetOptionKeepsZero(opts: seq<ToggleOption>, zero: ToggleOption)
    requires Holds(NoOptions, zero)
    requires forall j :: 0 <= j < |opts| ==> !SameSetting(opts[j], zero)
    ensures Holds(ApplyAll(opts), zero)
    decreases |opts|
  {
    if |opts| > 0 {
      var init := opts[..|opts| - 1];
      assert forall j :: 0 <= j < |init| ==> init[j] == opts[j];
      UnsetOptionKeepsZero(init, zero);
    }
  }

  // ---------------------------------------------------------------------
  // Evaluation

  /** Why one endpoint attempt did not produce a parsed response. */
  datatype AttemptError =
    | RequestFailed(baseURL: string, cause: string)
    | BadStatus(code: int, status: string)
    | UnmarshalFailed(cause: string)
  {
    function Message(): string {
      match this
      case RequestFailed(u, c) => "request to " + u + " failed: " + c
      case BadStatus(code, s) => "HTTP " + IntToString(code) + ": " + s
      case UnmarshalFailed(c) => "failed to unmarshal response: " + c
    }
  }

  /** The error Get returns when no endpoint answered usefully; `last` is
      nil when the endpoint list is empty. */
  datatype EvalError = AllFailed(last: Option<AttemptError>) {
    function Message(): string {
      "all horizon URLs failed. Last error: " +
      match last
      case Some(e) => e.Message()
      case None => "%!w(<nil>)"
    }
  }

  /** One POST of the evaluation request. */
  datatype EvaluateCall = Post(url: string, headers: map<string, string>, body: EvaluationRequest)

  type Toggles = map<string, Value>

  /** The transport, with the response body already decoded into the
      `toggles` mapping (an absent `toggles` field decodes to no keys). */
  type Transport = EvaluateCall -> Reply<Toggles>

  type Handler = nat

  /** The evaluation endpoint under a base URL. */
  function EvaluateURL(baseURL: string): string {
    TrimSuffix(baseURL, "/") + EvaluatePath
  }

  /** The evaluation URL is the base URL, less one trailing '/', followed by
      "/toggle/evaluate"; a trailing '/' on the base makes no difference. */
  lemma EvaluateURLShape(baseURL: string)
    ensures HasSuffix(EvaluateURL(baseURL), EvaluatePath)
    ensures HasPrefix(EvaluateURL(baseURL), TrimSuffix(baseURL, "/"))
    ensures !HasSuffix(baseURL, "/") ==> EvaluateURL(baseURL + "/") == EvaluateURL(baseURL)
  {
    var u := EvaluateURL(baseURL);
    var t := TrimSuffix(baseURL, "/");
    assert u[|u| - |EvaluatePath|..] == EvaluatePath;
    assert u[..|t|] == t;
    if !HasSuffix(baseURL, "/") {
      var b := baseURL + "/";
      assert HasSuffix(b, "/") by { assert b[|b| - 1..] == "/"; }
      assert b[..|b| - 1] == baseURL;
    }
  }

  datatype Attempt = Parsed(toggles: Toggles) | Failed(error: AttemptError)

  /** The outcome of posting to one endpoint. */
  function Try(baseURL: string, headers: map<string, string>, body: EvaluationRequest, send: Transport): Attempt {
    match send(Post(EvaluateURL(baseURL), headers, body))
    case TransportError(c) => Failed(RequestFailed(baseURL, c))
    case Reply(status, text, decoded) =>
      if status != 200 then Failed(BadStatus(status, text))
      else
        match decoded
        case Failure(m) => Failed(UnmarshalFailed(m))
        case Success(t) => Parsed(t)
  }

  datatype Outcome = Outcome(value: Value, error: Option<EvalError>, sent: seq<EvaluateCall>)

  function Lookup(t: Toggles, key: string, default: Value): Value {
    if key in t then t[key] else default
  }

  /** The evaluation loop of Get from endpoint `k` on; `lastErr` is the
      failure of the endpoint before it. */
  function EvaluateAt(urls: seq<string>, k: nat, headers: map<string, string>, body: EvaluationRequest,
                      send: Transport, key: string, default: Value, lastErr: Option<AttemptError>): Outcome
    requires k <= |urls|
    decreases |urls| - k
  {
    if k == |urls| then Outcome(default, Some(AllFailed(lastErr)), [])
    else
      var call := Post(EvaluateURL(urls[k]), headers, body);
      match Try(urls[k], headers, body, send)
      case Parsed(t) => Outcome(Lookup(t, key, default), None, [call])
      case Failed(e) =>
        var rest := EvaluateAt(urls, k + 1, headers, body, send, key, default, Some(e));
        Outcome(rest.value, rest.error, [call] + rest.sent)
  }

  /** The whole evaluation loop of Get over `urls`. */
  function Evaluate(urls: seq<string>, headers: map<string, string>, body: EvaluationRequest,
                    send: Transport, key: string, default: Value): Outcome
  {
    EvaluateAt(urls, 0, headers, body, send, key, default, None)
  }

  /** The first attempt from index `k` on that parsed, if any. */
  function FirstParsedFrom(attempts: seq<Attempt>, k: nat): (r: Option<nat>)
    requires k <= |attempts|
    ensures r.Some? ==> k <= r.value < |attempts| && attempts[r.value].Parsed?
    ensures r.Some? ==> forall j :: k <= j < r.value ==> attempts[j].Failed?
    ensures r.None? ==> forall j :: k <= j < |attempts| ==> attempts[j].Failed?
    decreases |attempts| - k
  {
    if k == |attempts| then None
    else if attempts[k].Parsed? then Some(k)
    else FirstParsedFrom(attempts, k + 1)
  }

  /** What each endpoint's attempt gives. */
  function Attempts(urls: seq<string>, headers: map<string, string>, body: EvaluationRequest, send: Transport): (a: seq<Attempt>)
    ensures |a| == |urls| && forall j :: 0 <= j < |urls| ==> a[j] == Try(urls[j], headers, body, send)
  {
    seq(|urls|, j requires 0 <= j < |urls| => Try(urls[j], headers, body, send))
  }

  /** The first endpoint whose response parses, if any. */
  function FirstParsed(urls: seq<string>, headers: map<string, string>, body: EvaluationRequest, send: Transport): (r: Option<nat>)
    ensures r.Some? ==> r.value < |urls| && Try(urls[r.value], headers, body, send).Parsed?
    ensures r.Some? ==> forall j :: 0 <= j < r.value ==> Try(urls[j], headers, body, send).Failed?
    ensures r.None? ==> forall j :: 0 <= j < |urls| ==> Try(urls[j], headers, body, send).Failed?
  {
    FirstParsedFrom(Attempts(urls, headers, body, send), 0)
  }

  /** One POST to each endpoint from `k` up to `m`, in order. */
  function Posts(urls: seq<string>, k: nat, m: nat, headers: map<string, string>, body: EvaluationRequest): (calls: seq<EvaluateCall>)
    requires k <= m <= |urls|
    ensures |calls| == m - k
    ensures forall j :: 0 <= j < m - k ==> calls[j] == Post(EvaluateURL(urls[k + j]), headers, body)
    decreases m - k
  {
    if k == m then [] else [Post(EvaluateURL(urls[k]), headers, body)] + Posts(urls, k + 1, m, headers, body)
  }

  /** The first endpoint that parses decides the value, with no error, after
      exactly one attempt per endpoint up to it, in list order. */
  lemma FirstParsedWins(urls: seq<string>, headers: map<string, string>, body: EvaluationRequest,
                        send: Transport, key: string, default: Value, i: nat)
    requires i < |urls| && Try(urls[i], headers, body, send).Parsed?
    requires forall j :: 0 <= j < i ==> Try(urls[j], headers, body, send).Failed?
    ensures var o := Evaluate(urls, headers, body, send, key, default);
            && o.error.None?
            && o.value == Lookup(Try(urls[i], headers, body, send).toggles, key, default)
            && |o.sent| == i + 1
            && forall j :: 0 <= j <= i ==> o.sent[j] == Post(EvaluateURL(urls[j]), headers, body)
  {
    ParsedWinsResult(urls, 0, headers, body, send, key, default, None, i);
    ParsedWinsSent(urls, 0, headers, body, send, key, default, None, i);
  }

  lemma {:induction false} ParsedWinsResult(urls: seq<string>, k: nat, headers: map<string, string>, body: EvaluationRequest,
                                            send: Transport, key: string, default: Value, lastErr: Option<AttemptError>, i: nat)
    requires k <= i < |urls| && Try(urls[i], headers, body, send).Parsed?
    requires forall j :: k <= j < i ==> Try(urls[j], headers, body, send).Failed?
    ensures var o := EvaluateAt(urls, k, headers, body, send, key, default, lastErr);
            o.error.None? && o.value == Lookup(Try(urls[i], headers, body, send).toggles, key, default)
    decreases i - k
  {
    if k < i {
      ParsedWinsResult(urls, k + 1, headers, body, send, key, default, Some(Try(urls[k], headers, body, send).error), i);
    }
  }

  lemma {:induction false} ParsedWinsSent(urls: seq<string>, k: nat, headers: map<string, string>, body: EvaluationRequest,
                                          send: Transport, key: string, default: Value, lastErr: Option<AttemptError>, i: nat)
    requires k <= i < |urls| && Try(urls[i], headers, body, send).Parsed?
    requires forall j :: k <= j < i ==> Try(urls[j], headers, body, send).Failed?
    ensures EvaluateAt(urls, k, headers, body, send, key, default, lastErr).sent == Posts(urls, k, i + 1, headers, body)
    decreases i - k
  {
    if k < i {
      ParsedWinsSent(urls, k + 1, headers, body, send, key, default, Some(Try(urls[k], headers, body, send).error), i);
    }
  }

  /** When no endpoint parses, every endpoint was tried once, in order, and
      the default comes back with an error wrapping the last failure (none
      for an empty list). */
  lemma AllEndpointsFail(urls: seq<string>, headers: map<string, string>, body: EvaluationRequest,
                         send: Transport, key: string, default: Value)
    requires forall j :: 0 <= j < |urls| ==> Try(urls[j], headers, body, send).Failed?
    ensures var o := Evaluate(urls, headers, body, send, key, default);
            && o.value == default
            && o.error == Some(AllFailed(if |urls| == 0 then None else Some(Try(urls[|urls| - 1], headers, body, send).error)))
            && |o.sent| == |urls|
            && forall j :: 0 <= j < |urls| ==> o.sent[j] == Post(EvaluateURL(urls[j]), headers, body)
  {
    AllFailResult(urls, 0, headers, body, send, key, default, None);
    AllFailSent(urls, 0, headers, body, send, key, default, None);
  }

  lemma {:induction false} AllFailResult(urls: seq<string>, k: nat, headers: map<string, string>, body: EvaluationRequest,
                                         send: Transport, key: string, default: Value, lastErr: Option<AttemptError>)
    requires k <= |urls|
    requires forall j :: k <= j < |urls| ==> Try(urls[j], headers, body, send).Failed?
    ensures var o := EvaluateAt(urls, k, headers, body, send, key, default, lastErr);
            && o.value == default
            && o.error == Some(AllFailed(if k == |urls| then lastErr else Some(Try(urls[|urls| - 1], headers, body, send).error)))
    decreases |urls| - k
  {
    if k < |urls| {
      AllFailResult(urls, k + 1, headers, body, send, key, default, Some(Try(urls[k], headers, body, send).error));
    }
  }

  lemma {:induction false} AllFailSent(urls: seq<string>, k: nat, headers: map<string, string>, body: EvaluationRequest,
                                       send: Transport, key: string, default: Value, lastErr: Option<AttemptError>)
    requires k <= |urls|
    requires forall j :: k <= j < |urls| ==> Try(urls[j], headers, body, send).Failed?
    ensures EvaluateAt(urls, k, headers, body, send, key, default, lastErr).sent == Posts(urls, k, |urls|, headers, body)
    decreases |urls| - k
  {
    if k < |urls| {
      AllFailSent(urls, k + 1, headers, body, send, key, default, Some(Try(urls[k], headers, body, send).error));
    }
  }

  /** The error is reported exactly when no endpoint parses. */
  lemma ErrorIffNoEndpointParses(urls: seq<string>, headers: map<string, string>, body: EvaluationRequest,
                                 send: Transport, key: string, default: Value)
    ensures Evaluate(urls, headers, body, send, key, default).error.Some? <==>
            FirstParsed(urls, headers, body, send).None?
  {
    match FirstParsed(urls, headers, body, send)
    case Some(i) => FirstParsedWins(urls, headers, body, send, key, default, i);
    case None => AllEndpointsFail(urls, headers, body, send, key, default);
  }

  /** A typed accessor's fallback: the default on error or when the value
      is not of the accessor's type. */
  function Downgrade<T>(o: Outcome, default: T, cast: Value -> Option<T>): T {
    if o.error.Some? then default
    else
      match cast(o.value)
      case Some(x) => x
      case None => default
  }

  function AsBool(v: Value): Option<bool> {
    if v.Bool? then Some(v.b) else None
  }

  function AsString(v: Value): Option<string> {
    if v.Str? then Some(v.s) else None
  }

  function AsNumber(v: Value): Option<real> {
    if v.Num? then Some(v.n) else None
  }

  function AsObject(v: Value): Option<map<string, Value>> {
    if v.Obj? then Some(v.fields) else None
  }

  /** What a typed accessor returns, stated without the loop: the value of
      the flag in the first response that parses when it is present and of
      the accessor's type, and the default otherwise. */
  lemma TypedAccessorResult<T>(urls: seq<string>, headers: map<string, string>, body: EvaluationRequest,
                               send: Transport, key: string, default: T, embed: T -> Value, cast: Value -> Option<T>)
    requires cast(embed(default)) == Some(default)
    ensures Downgrade(Evaluate(urls, headers, body, send, key, embed(default)), default, cast) ==
            match FirstParsed(urls, headers, body, send)
            case None => default
            case Some(i) =>
              var t := Try(urls[i], headers, body, send).toggles;
              if key in t && cast(t[key]).Some? then cast(t[key]).value else default
  {
    match FirstParsed(urls, headers, body, send)
    case Some(i) => FirstParsedWins(urls, headers, body, send, key, embed(default), i);
    case None => AllEndpointsFail(urls, headers, body, send, key, embed(default));
  }

  /** GetObject falls back to the default when the flag holds an array. */
  lemma ObjectAccessorRejectsArray(urls: seq<string>, headers: map<string, string>, body: EvaluationRequest,
                                   send: Transport, key: string, default: map<string, Value>, i: nat)
    requires FirstParsed(urls, headers, body, send) == Some(i)
    requires key in Try(urls[i], headers, body, send).toggles
    requires Try(urls[i], headers, body, send).toggles[key].Arr?
    ensures Downgrade(Evaluate(urls, headers, body, send, key, Obj(default)), default, AsObject) == default
  {
    FirstParsedWins(urls, headers, body, send, key, Obj(default), i);
  }

  /** The primary endpoint answers HTTP 500 and the secondary one answers
      with the flag: the secondary's value comes back, with no error. */
  lemma FallbackToSecondary(primary: string, secondary: string, headers: map<string, string>, body: EvaluationRequest,
                            send: Transport, key: string, default: Value, text: string, t: Toggles)
    requires send(Post(EvaluateURL(primary), headers, body)).Reply?
    requires send(Post(EvaluateURL(primary), headers, body)).status == 500
    requires send(Post(EvaluateURL(secondary), headers, body)) == Reply(200, text, Success(t))
    requires key in t
    ensures var o := Evaluate([primary, secondary], headers, body, send, key, default);
            o.value == t[key] && o.error.None? && |o.sent| == 2
  {
    FirstParsedWins([primary, secondary], headers, body, send, key, default, 1);
  }

  /** An outcome preceded by attempts already made. */
  function Resume(attempted: seq<EvaluateCall>, o: Outcome): Outcome {
    Outcome(o.value, o.error, attempted + o.sent)
  }

  lemma ResumeAppend(attempted: seq<EvaluateCall>, call: EvaluateCall, o: Outcome)
    ensures Resume(attempted, Outcome(o.value, o.error, [call] + o.sent)) == Resume(attempted + [call], o)
  {
    assert attempted + ([call] + o.sent) == (attempted + [call]) + o.sent;
  }

  // ---------------------------------------------------------------------
  // The client

  class Toggle {
    var publicAPIKey: string
    var organizationID: string
    var applicationID: string
    var environment: string
    var horizonURLs: seq<string>
    var defaultContext: Option<Context>
    var defaultTargetingKey: string
    var errorHandler: Option<Handler>
    /** Every call made to an error handler, in order. */
    ghost var handlerCalls: seq<(Handler, EvalError)>
    /** Every request handed to the transport, in order. */
    ghost var sent: seq<EvaluateCall>

    /** What New guarantees: at least one endpoint, and a default
        targeting key that is not empty. */
    ghost predicate Valid()
      reads this`horizonURLs, this`defaultTargetingKey
    {
      |horizonURLs| > 0 && defaultTargetingKey != ""
    }

    /** New, with the environment variables and the random number given
        as parameters. */
    constructor New(options: seq<ToggleOption>, env: map<string, string>, random: nat)
      ensures Valid()
      ensures var o := ApplyAll(options);
              && publicAPIKey == (if o.publicAPIKey != "" then o.publicAPIKey else Getenv(env, PublicKeyVar))
              && applicationID == (if o.applicationID != "" then o.applicationID else Getenv(env, ApplicationIdVar))
              && environment == (if o.environment != "" then o.environment else DefaultEnvironment)
              && organizationID == GetOrgIDFromPublicKey(publicAPIKey)
              && horizonURLs == (if |o.horizonURLs| > 0 then o.horizonURLs else GetDefaultHorizonURLs(publicAPIKey))
              && defaultContext == o.defaultContext
              && defaultTargetingKey == (if o.defaultTargetingKey != "" then o.defaultTargetingKey
                                         else if o.defaultContext.Some? then GetTargetingKey(o.defaultContext.value, applicationID, environment, random)
                                         else GenerateTargetKey(applicationID, environment, random))
      ensures environment != ""
      ensures errorHandler.None? && handlerCalls == [] && sent == []
    {
      var opts := NoOptions;
      for i := 0 to |options|
        invariant opts == ApplyAll(options[..i])
      {
        assert options[..i + 1][..i] == options[..i];
        opts := Apply(opts, options[i]);
      }
      assert options[..|options|] == options;

      var key := opts.publicAPIKey;
      if key == "" {
        key := Getenv(env, PublicKeyVar);
      }
      var appID := opts.applicationID;
      if appID == "" {
        appID := Getenv(env, ApplicationIdVar);
      }
      var environ := opts.environment;
      if environ == "" {
        environ := DefaultEnvironment;
      }
      var orgID := "";
      if key != "" {
        orgID := GetOrgIDFromPublicKey(key);
      }
      var urls := opts.horizonURLs;
      if |urls| == 0 {
        urls := GetDefaultHorizonURLs(key);
      }
      var targetingKey := opts.defaultTargetingKey;
      if targetingKey == "" {
        if opts.defaultContext.Some? {
          targetingKey := GetTargetingKey(opts.defaultContext.value, appID, environ, random);
        } else {
          targetingKey := GenerateTargetKey(appID, environ, random);
        }
      }
      publicAPIKey := key;
      organizationID := orgID;
      applicationID := appID;
      environment := environ;
      horizonURLs := urls;
      defaultContext := opts.defaultContext;
      defaultTargetingKey := targetingKey;
      errorHandler := None;
      handlerCalls := [];
      sent := [];
    }

    /** SetErrorHandler; None clears the handler, as passing nil does. */
    method SetErrorHandler(handler: Option<Handler>)
      modifies this`errorHandler
      ensures errorHandler == handler
    {
      errorHandler := handler;
    }

    /** emitError: the handler, if one is set, is called once with `err`. */
    method EmitError(err: EvalError)
      modifies this`handlerCalls
      ensures handlerCalls == old(handlerCalls) + (if errorHandler.Some? then [(errorHandler.value, err)] else [])
    {
      if errorHandler.Some? {
        handlerCalls := handlerCalls + [(errorHandler.value, err)];
      }
    }

    /** buildEvaluationContext: application and environment always; the
        override context if given, else the default one; a targeting key that
        is never empty. */
    function BuildEvaluationContext(contextOverride: Option<Context>, random: nat): (e: EvaluationRequest)
      reads this`applicationID, this`environment, this`defaultContext, this`defaultTargetingKey, this`horizonURLs
      ensures e.application == applicationID && e.environment == environment
      ensures Valid() ==> e.targetingKey != ""
      ensures var chosen := if contextOverride.Some? then contextOverride else defaultContext;
              && (chosen.Some? ==>
                    && e.targetingKey == GetTargetingKey(chosen.value, applicationID, environment, random)
                    && e.ipAddress == chosen.value.ipAddress
                    && e.customAttributes == chosen.value.customAttributes
                    && e.user == chosen.value.user)
              && (chosen.None? ==>
                    && e.targetingKey == defaultTargetingKey
                    && e.ipAddress == "" && e.customAttributes == map[] && e.user.None?)
    {
      var eval := EvaluationRequest(applicationID, environment, "", "", map[], None);
      var ctx := if contextOverride.Some? then contextOverride else defaultContext;
      var eval := if ctx.Some? then
                    eval.(targetingKey := ctx.value.targetingKey, ipAddress := ctx.value.ipAddress,
                          customAttributes := ctx.value.customAttributes, user := ctx.value.user)
                  else eval;
      if eval.targetingKey == "" then
        if ctx.Some? then eval.(targetingKey := GetTargetingKey(ctx.value, applicationID, environment, random))
        else eval.(targetingKey := defaultTargetingKey)
      else eval
    }

    /** What Get computes, in terms of the evaluation loop over this
        client's endpoints, standard headers and built context. */
    ghost function Evaluation(toggleKey: string, defaultValue: Value, contextOverride: Option<Context>, random: nat, send: Transport): Outcome
      reads this`applicationID, this`environment, this`defaultContext, this`defaultTargetingKey, this`horizonURLs, this`publicAPIKey
    {
      Evaluate(horizonURLs, CreateHeaders(publicAPIKey), BuildEvaluationContext(contextOverride, random),
               send, toggleKey, defaultValue)
    }

    /** One pass of Get's loop body: the POST to one endpoint and the
        classification of its reply. */
    method PostOnce(baseURL: string, headers: map<string, string>, evalContext: EvaluationRequest, send: Transport)
      returns (attempt: Attempt)
      modifies this`sent
      ensures attempt == Try(baseURL, headers, evalContext, send)
      ensures sent == old(sent) + [Post(EvaluateURL(baseURL), headers, evalContext)]
    {
      var url := EvaluateURL(baseURL);
      var call := Post(url, headers, evalContext);
      var reply := send(call);
      sent := sent + [call];
      match reply {
        case TransportError(c) =>
          attempt := Failed(RequestFailed(baseURL, c));
        case Reply(status, text, decoded) =>
          if status != 200 {
            attempt := Failed(BadStatus(status, text));
          } else {
            match decoded {
              case Failure(m) =>
                attempt := Failed(UnmarshalFailed(m));
              case Success(toggles) =>
                attempt := Parsed(toggles);
            }
          }
      }
    }

    /** The loop of Get: the endpoints in order until one gives a parsed
        response; the error, when none does, wraps the last failure. */
    method EvaluateEndpoints(urls: seq<string>, headers: map<string, string>, evalContext: EvaluationRequest,
                             send: Transport, toggleKey: string, defaultValue: Value)
      returns (value: Value, err: Option<EvalError>)
      modifies this`sent
      ensures var o := Evaluate(urls, headers, evalContext, send, toggleKey, defaultValue);
              value == o.value && err == o.error && sent == old(sent) + o.sent
    {
      ghost var full := Evaluate(urls, headers, evalContext, send, toggleKey, defaultValue);
      ghost var attempted: seq<EvaluateCall> := [];
      var lastErr: Option<AttemptError> := None;
      var i := 0;
      while i < |urls|
        invariant 0 <= i <= |urls|
        invariant sent == old(sent) + attempted
        invariant full == Resume(attempted, EvaluateAt(urls, i, headers, evalContext, send, toggleKey, defaultValue, lastErr))
        decreases |urls| - i
      {
        ghost var call := Post(EvaluateURL(urls[i]), headers, evalContext);
        var attempt := PostOnce(urls[i], headers, evalContext, send);
        match attempt {
          case Parsed(toggles) =>
            return Lookup(toggles, toggleKey, defaultValue), None;
          case Failed(e) =>
            ResumeAppend(attempted, call, EvaluateAt(urls, i + 1, headers, evalContext, send, toggleKey, defaultValue, Some(e)));
            lastErr := Some(e);
        }
        attempted := attempted + [call];
        i := i + 1;
      }
      return defaultValue, Some(AllFailed(lastErr));
    }

    /** Get: the evaluation loop over this client's endpoints, with the
        standard headers and the built context; a total failure is reported
        to the error handler once. */
    method Get(toggleKey: string, defaultValue: Value, contextOverride: Option<Context>, random: nat, send: Transport)
      returns (value: Value, err: Option<EvalError>)
      modifies this`handlerCalls, this`sent
      ensures var o := Evaluation(toggleKey, defaultValue, contextOverride, random, send);
              value == o.value && err == o.error && sent == old(sent) + o.sent
      ensures handlerCalls == old(handlerCalls) + (if err.Some? && errorHandler.Some? then [(errorHandler.value, err.value)] else [])
    {
      var evalContext := BuildEvaluationContext(contextOverride, random);
      var headers := CreateHeaders(publicAPIKey);
      value, err := EvaluateEndpoints(horizonURLs, headers, evalContext, send, toggleKey, defaultValue);
      if err.Some? {
        EmitError(err.value);
      }
    }

    /** GetBoolean: errors and non-boolean values give the default. */
    method GetBoolean(toggleKey: string, defaultValue: bool, contextOverride: Option<Context>, random: nat, send: Transport)
      returns (b: bool)
      modifies this`handlerCalls, this`sent
      ensures var o := Evaluation(toggleKey, Bool(defaultValue), contextOverride, random, send);
              b == Downgrade(o, defaultValue, AsBool) && sent == old(sent) + o.sent
              && handlerCalls == old(handlerCalls) + (if o.error.Some? && errorHandler.Some? then [(errorHandler.value, o.error.value)] else [])
    {
      var val, err := Get(toggleKey, Bool(defaultValue), contextOverride, random, send);
      if err.Some? {
        return defaultValue;
      }
      if val.Bool? {
        return val.b;
      }
      return defaultValue;
    }

    /** GetString: errors and non-string values give the default. */
    method GetString(toggleKey: string, defaultValue: string, contextOverride: Option<Context>, random: nat, send: Transport)
      returns (s: string)
      modifies this`handlerCalls, this`sent
      ensures var o := Evaluation(toggleKey, Str(defaultValue), contextOverride, random, send);
              s == Downgrade(o, defaultValue, AsString) && sent == old(sent) + o.sent
              && handlerCalls == old(handlerCalls) + (if o.error.Some? && errorHandler.Some? then [(errorHandler.value, o.error.value)] else [])
    {
      var val, err := Get(toggleKey, Str(defaultValue), contextOverride, random, send);
      if err.Some? {
        return defaultValue;
      }
      if val.Str? {
        return val.s;
      }
      return defaultValue;
    }

    /** GetNumber: errors and non-numeric values give the default. */
    method GetNumber(toggleKey: string, defaultValue: real, contextOverride: Option<Context>, random: nat, send: Transport)
      returns (n: real)
      modifies this`handlerCalls, this`sent
      ensures var o := Evaluation(toggleKey, Num(defaultValue), contextOverride, random, send);
              n == Downgrade(o, defaultValue, AsNumber) && sent == old(sent) + o.sent
              && handlerCalls == old(handlerCalls) + (if o.error.Some? && errorHandler.Some? then [(errorHandler.value, o.error.value)] else [])
    {
      var val, err := Get(toggleKey, Num(defaultValue), contextOverride, random, send);
      if err.Some? {
        return defaultValue;
      }
      if val.Num? {
        return val.n;
      }
      return defaultValue;
    }

    /** GetObject: errors and non-object values give the default. */
    method GetObject(toggleKey: string, defaultValue: map<string, Value>, contextOverride: Option<Context>, random: nat, send: Transport)
      returns (m: map<string, Value>)
      modifies this`handlerCalls, this`sent
      ensures var o := Evaluation(toggleKey, Obj(defaultValue), contextOverride, random, send);
              m == Downgrade(o, defaultValue, AsObject) && sent == old(sent) + o.sent
              && handlerCalls == old(handlerCalls) + (if o.error.Some? && errorHandler.Some? then [(errorHandler.value, o.error.value)] else [])
    {
      var val, err := Get(toggleKey, Obj(defaultValue), contextOverride, random, send);
      if err.Some? {
        return defaultValue;
      }
      if val.Obj? {
        return val.fields;
      }
      return defaultValue;
    }
  }
}
