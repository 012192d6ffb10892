/** The shared HTTP client of internal/client/client.go, reduced to what is
    not transport: the standard header set, and how `do` lays the caller's
    headers over its own defaults. The transport itself is a parameter of
    the clients that use it (see `Reply`). */
module Client {
  import opened Wrappers

  /** What one request through the transport gives back: a transport-level
      failure, or a status code, its status text and what decoding the body
      into the caller's expected shape gives (`Failure` carries the decoder's
      message). */
  datatype Reply<T> =
    | TransportError(cause: string)
    | Reply(status: int, statusText: string, decoded: Result<T, string>)

  const ContentType: string := "Content-Type"
  const Accept: string := "Accept"
  const ApiKeyHeader: string := "x-api-key"
  const JsonMedia: string := "application/json"

  /** CreateHeaders: JSON content negotiation, plus the API key when there is one. */
  function CreateHeaders(apiKey: string): (h: map<string, string>)
    ensures ContentType in h && h[ContentType] == JsonMedia
    ensures Accept in h && h[Accept] == JsonMedia
    ensures ApiKeyHeader in h <==> apiKey != ""
    ensures ApiKeyHeader in h ==> h[ApiKeyHeader] == apiKey
    ensures h.Keys <= {ContentType, Accept, ApiKeyHeader}
  {
    var standard := map[ContentType := JsonMedia, Accept := JsonMedia];
    if apiKey != "" then standard[ApiKeyHeader := apiKey] else standard
  }

  /** A byte that may appear in a header field name (a token character). */
  predicate IsTokenChar(c: char) {
    ('a' <= c <= 'z') || ('A' <= c <= 'Z') || ('0' <= c <= '9') ||
    c == '!' || c == '#' || c == '$' || c == '%' || c == '&' || c == '\'' || c == '*' ||
    c == '+' || c == '-' || c == '.' || c == '^' || c == '_' || c == '`' || c == '|' || c == '~'
  }

  /** One byte as the canonical form writes it: upper-cased at the start
      of a word, lower-cased elsewhere; bytes that are not ASCII letters
      pass through. */
  function Recase(c: char, upper: bool): char {
    if upper && 'a' <= c <= 'z' then (c as int - 32) as char
    else if !upper && 'A' <= c <= 'Z' then (c as int + 32) as char
    else c
  }

  /** Re-casing keeps dashes and only dashes, keeps token characters, and
      is idempotent. */
  lemma RecaseFacts(c: char, upper: bool)
    ensures Recase(c, upper) == '-' <==> c == '-'
    ensures IsTokenChar(c) ==> IsTokenChar(Recase(c, upper))
    ensures Recase(Recase(c, upper), upper) == Recase(c, upper)
  {
  }

  /** The canonical form of `s` from index `i` on; `upper` says whether
      `s[i]` starts a word. */
  function CanonicalFrom(s: string, i: nat, upper: bool): (r: string)
    requires i <= |s|
    ensures |r| == |s| - i
    decreases |s| - i
  {
    if i == |s| then ""
    else
      var c := Recase(s[i], upper);
      [c] + CanonicalFrom(s, i + 1, c == '-')
  }

  /** Every byte of `s` from index `i` on is a token character. */
  predicate TokenFrom(s: string, i: nat)
    requires i <= |s|
    decreases |s| - i
  {
    i == |s| || (IsTokenChar(s[i]) && TokenFrom(s, i + 1))
  }

  lemma {:induction false} TokenFromAll(s: string, i: nat)
    requires i <= |s|
    ensures TokenFrom(s, i) <==> forall j :: i <= j < |s| ==> IsTokenChar(s[j])
    decreases |s| - i
  {
    if i < |s| {
      TokenFromAll(s, i + 1);
    }
  }

  /** Byte `j` of the canonical form: the input byte, re-cased according to
      whether it opens a word, that is, whether it comes first or follows a
      dash. */
  lemma {:induction false} CanonicalPointwise(s: string, i: nat, upper: bool)
    requires i <= |s|
    ensures forall j :: 0 <= j < |s| - i ==>
              CanonicalFrom(s, i, upper)[j] == Recase(s[i + j], if j == 0 then upper else s[i + j - 1] == '-')
    decreases |s| - i
  {
    if i < |s| {
      var c := Recase(s[i], upper);
      CanonicalPointwise(s, i + 1, c == '-');
      var r := CanonicalFrom(s, i, upper);
      assert r == [c] + CanonicalFrom(s, i + 1, c == '-');
      forall j | 1 <= j < |s| - i
        ensures r[j] == Recase(s[i + j], s[i + j - 1] == '-')
      {
        assert r[j] == CanonicalFrom(s, i + 1, c == '-')[j - 1];
      }
    }
  }

  /** The key under which http.Header.Set stores `k`: each dash-separated
      word capitalised, the rest lower-cased, unless `k` holds a byte that
      is not a token character, in which case it is kept as given. */
  function CanonicalKey(k: string): string {
    if TokenFrom(k, 0) then CanonicalFrom(k, 0, true) else k
  }

  /** The canonical form of a token is a token. */
  lemma CanonicalIsToken(k: string)
    requires TokenFrom(k, 0)
    ensures TokenFrom(CanonicalFrom(k, 0, true), 0)
  {
    var r := CanonicalFrom(k, 0, true);
    CanonicalPointwise(k, 0, true);
    TokenFromAll(k, 0);
    TokenFromAll(r, 0);
    forall j | 0 <= j < |r|
      ensures IsTokenChar(r[j])
    {
      RecaseFacts(k[j], if j == 0 then true else k[j - 1] == '-');
    }
  }

  /** Canonicalising a canonical form changes nothing. */
  lemma CanonicalFixed(k: string)
    ensures CanonicalFrom(CanonicalFrom(k, 0, true), 0, true) == CanonicalFrom(k, 0, true)
  {
    var r := CanonicalFrom(k, 0, true);
    var rr := CanonicalFrom(r, 0, true);
    CanonicalPointwise(k, 0, true);
    CanonicalPointwise(r, 0, true);
    forall j | 0 <= j < |r|
      ensures rr[j] == r[j]
    {
      RecaseFacts(k[j], if j == 0 then true else k[j - 1] == '-');
      if j > 0 {
        RecaseFacts(k[j - 1], if j == 1 then true else k[j - 2] == '-');
      }
    }
  }

  /** A canonical key is its own canonical key: Set and a later Set or Get
      of the same name agree on the key. */
  lemma CanonicalKeyIdempotent(k: string)
    ensures CanonicalKey(CanonicalKey(k)) == CanonicalKey(k)
  {
    if TokenFrom(k, 0) {
      CanonicalIsToken(k);
      CanonicalFixed(k);
    }
  }

  function CanonicalKeys(m: map<string, string>): set<string> {
    set k | k in m :: CanonicalKey(k)
  }

  /** No other key of `m` is stored under the same canonical key as `k`. */
  predicate UniqueUnder(m: map<string, string>, k: string)
    requires k in m
  {
    forall k' :: k' in m && CanonicalKey(k') == CanonicalKey(k) ==> k' == k
  }

  const DefaultKeys: set<string> := {ContentType, Accept}

  /** The header step of `do`: the two JSON defaults are set first, then
      every custom header, in Go's unspecified map order, so a custom value
      wins over a default under the same canonical key. */
  method SetRequestHeaders(custom: map<string, string>) returns (h: map<string, string>)
    ensures h.Keys == DefaultKeys + CanonicalKeys(custom)
    ensures forall K :: K in h && K !in CanonicalKeys(custom) ==> h[K] == JsonMedia
    ensures forall K :: K in CanonicalKeys(custom) ==>
              exists k :: k in custom && CanonicalKey(k) == K && h[K] == custom[k]
    ensures forall k :: k in custom && UniqueUnder(custom, k) ==> h[CanonicalKey(k)] == custom[k]
  {
    h := map[ContentType := JsonMedia, Accept := JsonMedia];
    var rest := custom.Keys;
    ghost var done: set<string> := {};
    while rest != {}
      invariant rest + done == custom.Keys && rest !! done
      invariant h.Keys == DefaultKeys + (set k | k in done :: CanonicalKey(k))
      invariant forall K :: K in h && K !in (set k | k in done :: CanonicalKey(k)) ==> h[K] == JsonMedia
      invariant forall K :: K in (set k | k in done :: CanonicalKey(k)) ==>
                  exists k :: k in done && CanonicalKey(k) == K && h[K] == custom[k]
      decreases rest
    {
      var k :| k in rest;
      h := h[CanonicalKey(k) := custom[k]];
      rest := rest - {k};
      done := done + {k};
    }
    assert done == custom.Keys;
  }

  lemma ContentTypeToken()
    ensures TokenFrom(ContentType, 0)
  {
  }

  lemma ContentTypeForm()
    ensures CanonicalFrom(ContentType, 0, true) == ContentType
  {
  }

  lemma ContentTypeIsCanonical()
    ensures CanonicalKey(ContentType) == ContentType
  {
    ContentTypeToken();
    ContentTypeForm();
  }

  lemma AcceptIsCanonical()
    ensures CanonicalKey(Accept) == Accept
  {
    assert TokenFrom(Accept, 0);
  }

  lemma ApiKeyHeaderCanonical()
    ensures CanonicalKey(ApiKeyHeader) == "X-Api-Key"
  {
    assert TokenFrom(ApiKeyHeader, 0);
  }

  /** Two keys already canonical and a third whose canonical form is `c'`:
      the canonical keys of a map holding them, the third only when `with`. */
  lemma CanonicalKeysOfThree(m: map<string, string>, a: string, b: string, c: string, c': string, with: bool)
    requires m.Keys == {a, b} + (if with then {c} else {})
    requires CanonicalKey(a) == a && CanonicalKey(b) == b && CanonicalKey(c) == c'
    ensures CanonicalKeys(m) == {a, b} + (if with then {c'} else {})
  {
  }

  /** What CreateHeaders hands to `do` ends up under three keys at most:
      X-Api-Key is among them exactly when there is an API key. */
  lemma CreatedHeaderKeys(apiKey: string)
    ensures CanonicalKeys(CreateHeaders(apiKey)) ==
            {ContentType, Accept} + (if apiKey != "" then {"X-Api-Key"} else {})
  {
    ContentTypeIsCanonical();
    AcceptIsCanonical();
    ApiKeyHeaderCanonical();
    CanonicalKeysOfThree(CreateHeaders(apiKey), ContentType, Accept, ApiKeyHeader, "X-Api-Key", apiKey != "");
  }
}
