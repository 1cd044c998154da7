/**
 * Auth::GoogleAuthGenerator: builds the authorization request of section 4.1.1
 * of RFC 6749 for Google. It asks the state-token service (constructed with
 * the same request and the GOOGLE provider) for a fresh `state`, and only
 * once it has one joins it with the fixed client parameters into the URL.
 */
module GoogleAuthUrl {
  import opened Wrappers
  import opened Errors
  import opened Text
  import opened Crypto
  import opened Fingerprints
  import opened Store
  import opened BaseService
  import StateTokenIssue

  const REFERENCE := "Auth::GoogleAuthGenerator"
  /** A `name=value` field of a query. */
  function Field(name: string, value: string): string {
    name + "=" + value
  }

  /** "&response_type=code&scope=email profile", the end of every URL. */
  const RESPONSE_AND_SCOPE := "&" + Field("response_type", "code") + "&" + Field("scope", "email profile")

  /** BASE_URL, GOOGLE_CLIENT_ID and GOOGLE_REDIRECT_URL from the environment. */
  datatype GoogleConfig = GoogleConfig(baseUrl: string, clientId: string, redirectUrl: string)

  /** The fields that follow the state in the query: the configured client id
      and redirect URL, the response type and the scope. */
  function ClientFields(config: GoogleConfig): seq<string> {
    [Field("client_id", config.clientId), Field("redirect_uri", config.redirectUrl), Field("response_type", "code"), Field("scope", "email profile")]
  }

  /** '&', some text, then a tail: it opens with '&' and ends with the tail. */
  lemma AmpFront(x: string, tail: string)
    ensures var q := "&" + x + tail;
      |q| > |tail| && q[0] == '&' && q[|q| - |tail|..] == tail
  {
    KeepsSuffix("&" + x, tail, tail);
  }

  /** "&client_id=<id>&redirect_uri=<url>&response_type=code&scope=email profile". */
  function ClientParams(config: GoogleConfig): (q: string)
    ensures |q| > |RESPONSE_AND_SCOPE| && q[0] == '&'
    ensures q[|q| - |RESPONSE_AND_SCOPE|..] == RESPONSE_AND_SCOPE
  {
    var head := Field("client_id", config.clientId) + "&" + Field("redirect_uri", config.redirectUrl);
    AmpFront(head, RESPONSE_AND_SCOPE);
    "&" + head + RESPONSE_AND_SCOPE
  }

  /** The parts of "<base>?<field><params>" when the params end with `tail`. */
  lemma UrlShape(base: string, field: string, params: string, tail: string)
    requires |params| > |tail| && params[|params| - |tail|..] == tail
    ensures var url := base + "?" + field + params;
      && |url| > |base| + 1 + |field| + |tail|
      && url[..|base|] == base
      && url[|base|..|base| + 1 + |field|] == "?" + field
      && url[|url| - |tail|..] == tail
  {
    assert base + "?" + field + params == base + ("?" + field) + params;
    ThreeParts(base, "?" + field, params);
    KeepsSuffix(base + "?" + field, params, tail);
  }

  /** `generate_url`: the base URL, then the query, which opens with the
      state. */
  function GenerateUrl(config: GoogleConfig, stateToken: string): (url: string)
    ensures |url| > |config.baseUrl| + 1 + |Field("state", stateToken)| + |RESPONSE_AND_SCOPE|
    ensures url[..|config.baseUrl|] == config.baseUrl
    ensures url[|config.baseUrl|..|config.baseUrl| + 1 + |Field("state", stateToken)|] == "?" + Field("state", stateToken)
    ensures url[|url| - |RESPONSE_AND_SCOPE|..] == RESPONSE_AND_SCOPE
  {
    var field, params := Field("state", stateToken), ClientParams(config);
    UrlShape(config.baseUrl, field, params, RESPONSE_AND_SCOPE);
    config.baseUrl + "?" + field + params
  }

  /** Distinct state tokens give distinct URLs. */
  lemma GenerateUrlInjective(config: GoogleConfig, t1: string, t2: string)
    requires GenerateUrl(config, t1) == GenerateUrl(config, t2)
    ensures t1 == t2
  {
    SameMiddle(config.baseUrl + "?", "state" + "=", t1, t2, ClientParams(config));
  }

  /** The value of the first `name=value` field named `name`: the name is
      what precedes the field's first '=', the value what follows it. */
  function FieldValue(fields: seq<string>, name: string): (v: Option<string>)
    ensures v.Some? ==> exists i :: 0 <= i < |fields| && fields[i] == Field(name, v.value)
  {
    if fields == [] then None
    else if '=' in fields[0] && fields[0][..IndexOf(fields[0], '=')] == name then
      var k := IndexOf(fields[0], '=');
      assert fields[0] == Field(fields[0][..k], fields[0][k + 1..]);
      Some(fields[0][k + 1..])
    else
      var v := FieldValue(fields[1..], name);
      assert v.Some? ==> exists i :: 0 <= i < |fields[1..]| && fields[1..][i] == Field(name, v.value);
      v
  }

  /** A query parameter as a client reads it back from the URL: the query is
      what follows the first '?', its fields are separated by '&', and the
      first field with that name gives the value. */
  function Param(url: string, name: string): (v: Option<string>)
    ensures v.Some? ==> '?' in url
  {
    if '?' !in url then None
    else FieldValue(Split(url[IndexOf(url, '?') + 1..], '&'), name)
  }

  /** A leading `name=value` field answers for its own name and defers to the
      rest for any other. */
  lemma FieldValueCons(name: string, value: string, rest: seq<string>, n: string)
    requires '=' !in name
    ensures FieldValue([Field(name, value)] + rest, n) == if n == name then Some(value) else FieldValue(rest, n)
  {
    var f := Field(name, value);
    AroundFirst(name, '=', value);
    assert ([f] + rest)[0] == f && ([f] + rest)[1..] == rest;
  }

  /** The state field of a token without '&' has none either. */
  lemma StateFieldHasNoAmp(stateToken: string)
    requires '&' !in stateToken
    ensures '&' !in Field("state", stateToken)
  {
  }

  /** The first field of a query answers for its own name. */
  lemma FirstParam(url: string, name: string, value: string, rest: seq<string>)
    requires '=' !in name && '?' in url
    requires Split(url[IndexOf(url, '?') + 1..], '&') == [Field(name, value)] + rest
    ensures Param(url, name) == Some(value)
  {
    FieldValueCons(name, value, rest, name);
  }

  /** The state parameter of "<base>?state=<token>&<rest>" is the token,
      whatever the rest holds. */
  lemma StateParamOf(base: string, stateToken: string, rest: string)
    requires '?' !in base && '&' !in stateToken
    ensures Param(base + "?" + Field("state", stateToken) + "&" + rest, "state") == Some(stateToken)
  {
    var url := base + "?" + Field("state", stateToken) + "&" + rest;
    StateFieldHasNoAmp(stateToken);
    QueryOf(url, base, Field("state", stateToken), rest);
    ParamNames();
    FirstParam(url, "state", stateToken, Split(rest, '&'));
  }

  /** The state token is recovered from the URL it was put in, provided the
      base URL has no query of its own and the token has no '&' (a URL-safe
      Base64 token never has). */
  lemma StateParamRoundTrip(config: GoogleConfig, stateToken: string)
    requires '?' !in config.baseUrl && '&' !in stateToken
    ensures Param(GenerateUrl(config, stateToken), "state") == Some(stateToken)
  {
    var q := ClientParams(config);
    var rest := q[1..];
    assert "&" + rest == q;
    assert GenerateUrl(config, stateToken) == config.baseUrl + "?" + Field("state", stateToken) + "&" + rest;
    StateParamOf(config.baseUrl, stateToken, rest);
  }

  /** The fields of the query of a URL "<base>?<first>&<rest>". */
  lemma QueryOf(url: string, base: string, first: string, rest: string)
    requires url == base + "?" + first + "&" + rest
    requires '?' !in base && '&' !in first
    ensures '?' in url && Split(url[IndexOf(url, '?') + 1..], '&') == [first] + Split(rest, '&')
  {
    assert url == base + ['?'] + (first + ['&'] + rest);
    AroundFirst(base, '?', first + ['&'] + rest);
    SplitCons(first, '&', rest);
  }

  /** Two `name=value` fields read back by name: the first field with that
      name answers. */
  lemma TwoFieldValues(n1: string, v1: string, n2: string, v2: string, name: string)
    requires '=' !in n1 && '=' !in n2
    ensures FieldValue([Field(n1, v1), Field(n2, v2)], name) ==
      if name == n1 then Some(v1) else if name == n2 then Some(v2) else None
  {
    var f1, f2 := Field(n1, v1), Field(n2, v2);
    FieldValueCons(n2, v2, [], name);
    FieldValueCons(n1, v1, [f2], name);
    assert [f1, f2] == [f1] + [f2];
    assert [f2] == [f2] + [];
  }

  /** Four `name=value` fields read back by name: the first field with that
      name answers. */
  lemma FourFieldValues(n1: string, v1: string, n2: string, v2: string, n3: string, v3: string,
                        n4: string, v4: string, name: string)
    requires '=' !in n1 && '=' !in n2 && '=' !in n3 && '=' !in n4
    ensures FieldValue([Field(n1, v1), Field(n2, v2), Field(n3, v3), Field(n4, v4)], name) ==
      if name == n1 then Some(v1) else if name == n2 then Some(v2)
      else if name == n3 then Some(v3) else if name == n4 then Some(v4) else None
  {
    var f1, f2, f3, f4 := Field(n1, v1), Field(n2, v2), Field(n3, v3), Field(n4, v4);
    TwoFieldValues(n3, v3, n4, v4, name);
    FieldValueCons(n2, v2, [f3, f4], name);
    FieldValueCons(n1, v1, [f2, f3, f4], name);
    assert [f1, f2, f3, f4] == [f1] + [f2, f3, f4];
    assert [f2, f3, f4] == [f2] + [f3, f4];
  }

  /** The client parameters are the client fields joined by '&', after one. */
  lemma ClientParamsJoined(config: GoogleConfig)
    ensures ClientParams(config) == ['&'] + Join(ClientFields(config), '&')
  {
    var a, b := Field("client_id", config.clientId), Field("redirect_uri", config.redirectUrl);
    var c, d := Field("response_type", "code"), Field("scope", "email profile");
    JoinFour(a, b, c, d, '&');
    AmpRegroup(a, b, c, d);
  }

  /** The same eight pieces, grouped two ways. */
  lemma AmpRegroup(a: string, b: string, c: string, d: string)
    ensures "&" + (a + "&" + b) + ("&" + c + "&" + d) == ['&'] + (a + ['&'] + b + ['&'] + c + ['&'] + d)
  {
  }

  /** The generated URL is the base, '?', then the state field, '&' and the
      client fields joined by '&'. */
  lemma GenerateUrlQuery(config: GoogleConfig, stateToken: string)
    ensures GenerateUrl(config, stateToken)
         == config.baseUrl + "?" + Field("state", stateToken) + "&" + Join(ClientFields(config), '&')
  {
    ClientParamsJoined(config);
  }

  /** The client fields split back from their join. */
  lemma ClientFieldsSplit(config: GoogleConfig)
    requires '&' !in config.clientId && '&' !in config.redirectUrl
    ensures Split(Join(ClientFields(config), '&'), '&') == ClientFields(config)
  {
    SplitJoin(ClientFields(config), '&');
  }

  /** The query of the generated URL splits into the state field and the
      client fields. */
  lemma GenerateUrlSplit(config: GoogleConfig, stateToken: string)
    requires '?' !in config.baseUrl
    requires '&' !in stateToken && '&' !in config.clientId && '&' !in config.redirectUrl
    ensures var url := GenerateUrl(config, stateToken);
      && '?' in url
      && Split(url[IndexOf(url, '?') + 1..], '&') == [Field("state", stateToken)] + ClientFields(config)
  {
    GenerateUrlQuery(config, stateToken);
    QueryOf(GenerateUrl(config, stateToken), config.baseUrl, Field("state", stateToken), Join(ClientFields(config), '&'));
    ClientFieldsSplit(config);
  }

  /** The query of the generated URL, field by field: the state, the
      configured client id and redirect URL, the response type and the
      scope. */
  lemma GenerateUrlFields(config: GoogleConfig, stateToken: string)
    requires '?' !in config.baseUrl
    requires '&' !in stateToken && '&' !in config.clientId && '&' !in config.redirectUrl
    ensures var url := GenerateUrl(config, stateToken);
      && '?' in url
      && Split(url[IndexOf(url, '?') + 1..], '&')
         == [Field("state", stateToken), Field("client_id", config.clientId), Field("redirect_uri", config.redirectUrl),
             Field("response_type", "code"), Field("scope", "email profile")]
  {
    GenerateUrlSplit(config, stateToken);
    ConsFour(Field("state", stateToken), Field("client_id", config.clientId), Field("redirect_uri", config.redirectUrl),
             Field("response_type", "code"), Field("scope", "email profile"));
  }

  /** A field in front of four is a list of five. */
  lemma ConsFour(a: string, b: string, c: string, d: string, e: string)
    ensures [a] + [b, c, d, e] == [a, b, c, d, e]
  {
  }

  /** The parameters of a URL whose query holds five `name=value` fields. */
  lemma FiveParams(url: string, n1: string, v1: string, n2: string, v2: string, n3: string, v3: string,
                   n4: string, v4: string, n5: string, v5: string, name: string)
    requires '=' !in n1 && '=' !in n2 && '=' !in n3 && '=' !in n4 && '=' !in n5
    requires '?' in url
    requires Split(url[IndexOf(url, '?') + 1..], '&')
          == [Field(n1, v1), Field(n2, v2), Field(n3, v3), Field(n4, v4), Field(n5, v5)]
    ensures Param(url, name) ==
      if name == n1 then Some(v1) else if name == n2 then Some(v2) else if name == n3 then Some(v3)
      else if name == n4 then Some(v4) else if name == n5 then Some(v5) else None
  {
    var f1, rest := Field(n1, v1), [Field(n2, v2), Field(n3, v3), Field(n4, v4), Field(n5, v5)];
    assert [f1] + rest == [Field(n1, v1), Field(n2, v2), Field(n3, v3), Field(n4, v4), Field(n5, v5)];
    FieldValueCons(n1, v1, rest, name);
    FourFieldValues(n2, v2, n3, v3, n4, v4, n5, v5, name);
  }

  /** The names `generate_url` writes have no '='. */
  lemma ParamNames()
    ensures '=' !in "state" && '=' !in "client_id" && '=' !in "redirect_uri"
    ensures '=' !in "response_type" && '=' !in "scope"
  {
  }

  /** The value `generate_url` writes under each parameter name: the token,
      the configured client id and redirect URL, `code` and `email profile`;
      no other name is written. */
  function WrittenParam(config: GoogleConfig, stateToken: string, name: string): Option<string> {
    if name == "state" then Some(stateToken)
    else if name == "client_id" then Some(config.clientId)
    else if name == "redirect_uri" then Some(config.redirectUrl)
    else if name == "response_type" then Some("code")
    else if name == "scope" then Some("email profile")
    else None
  }

  /** The parameters of a URL whose query holds the five fields
      `generate_url` writes. */
  lemma ParamsOfFields(url: string, config: GoogleConfig, stateToken: string, name: string)
    requires '?' in url
    requires Split(url[IndexOf(url, '?') + 1..], '&')
          == [Field("state", stateToken), Field("client_id", config.clientId), Field("redirect_uri", config.redirectUrl),
              Field("response_type", "code"), Field("scope", "email profile")]
    ensures Param(url, name) == WrittenParam(config, stateToken, name)
  {
    ParamNames();
    FiveParams(url, "state", stateToken, "client_id", config.clientId,
               "redirect_uri", config.redirectUrl, "response_type", "code", "scope", "email profile", name);
  }

  /** Every query parameter of the generated URL, read back by name: the
      five that `generate_url` writes carry the token, the configured client
      id and redirect URL, `code` and `email profile`; any other name is
      absent. */
  lemma GenerateUrlParams(config: GoogleConfig, stateToken: string, name: string)
    requires '?' !in config.baseUrl
    requires '&' !in stateToken && '&' !in config.clientId && '&' !in config.redirectUrl
    ensures Param(GenerateUrl(config, stateToken), name) == WrittenParam(config, stateToken, name)
  {
    GenerateUrlFields(config, stateToken);
    ParamsOfFields(GenerateUrl(config, stateToken), config, stateToken, name);
  }

  /** A run: the error if it failed, the token and URL if it succeeded, and the
      store afterwards. */
  datatype UrlOutcome = UrlOutcome(failure: Option<Custom>, stateToken: Option<string>, url: Option<string>, entries: map<string, Entry>)

  /** `generate_google_auth_url`: the state-token run for GOOGLE, then the URL. */
  function GenerateGoogleAuthUrl(request: Option<Request>, config: GoogleConfig, encryptor: Encryptor, json: JsonCodec,
                                 minutes: int, entries: map<string, Entry>, connection: Connection, now: nat, hex: string): (r: UrlOutcome)
    ensures r.url.Some? <==> r.failure.None?
    ensures r.url.Some? ==> r.stateToken.Some? && r.url.value == GenerateUrl(config, r.stateToken.value)
  {
    var issued := StateTokenIssue.Issue(request, StateTokenIssue.GOOGLE, encryptor, json, minutes, entries, connection, now, hex);
    if issued.failure.Some? then UrlOutcome(issued.failure, None, None, issued.entries)
    else UrlOutcome(None, issued.token, Some(GenerateUrl(config, issued.token.value)), issued.entries)
  }

  /** The URL service succeeds exactly when the state-token run for GOOGLE on
      the same request does; it then carries that run's token in the URL,
      and otherwise it reports that run's error and has no URL. */
  lemma GenerateGoogleAuthUrlFollowsIssue(request: Option<Request>, config: GoogleConfig, encryptor: Encryptor, json: JsonCodec,
                                          minutes: int, entries: map<string, Entry>, connection: Connection, now: nat, hex: string)
    ensures var r := GenerateGoogleAuthUrl(request, config, encryptor, json, minutes, entries, connection, now, hex);
      var issued := StateTokenIssue.Issue(request, StateTokenIssue.GOOGLE, encryptor, json, minutes, entries, connection, now, hex);
      && r.entries == issued.entries
      && (issued.failure.None? ==> r.failure.None? && r.stateToken == issued.token
                                   && r.url == Some(GenerateUrl(config, issued.token.value)))
      && (issued.failure.Some? ==> r.failure == issued.failure && r.url.None? && r.stateToken.None?)
  {
  }

  class GoogleAuthGenerator {
    const request: Option<Request>
    const config: GoogleConfig
    // what the injected state-token service is built with
    const encryptor: Encryptor
    const json: JsonCodec
    const redis: RedisStore
    const expirationMinutes: int
    const status: ServiceState
    var stateToken: Option<string>
    var url: Option<string>

    constructor (request: Option<Request>, config: GoogleConfig, encryptor: Encryptor, json: JsonCodec,
                 redis: RedisStore, expirationMinutes: int)
      ensures this.request == request && this.config == config && this.redis == redis
      ensures this.encryptor == encryptor && this.json == json && this.expirationMinutes == expirationMinutes
      ensures fresh(status) && status.reference == REFERENCE && status.valid == None && status.errors == None
      ensures stateToken == None && url == None
    {
      this.request := request;
      this.config := config;
      this.encryptor := encryptor;
      this.json := json;
      this.redis := redis;
      this.expirationMinutes := expirationMinutes;
      status := new ServiceState(REFERENCE);
      stateToken := None;
      url := None;
    }

    /** `call`: one run of `GenerateGoogleAuthUrl`; on failure the errors carry
        the state-token service's code and message. */
    method Call(now: nat, randomHex: string)
      modifies this, status, redis`entries
      ensures var r := GenerateGoogleAuthUrl(request, config, encryptor, json, expirationMinutes,
                                             old(redis.entries), redis.connection, now, randomHex);
        && redis.entries == r.entries
        && stateToken == (if r.stateToken.Some? then r.stateToken else old(stateToken))
        && url == (if r.url.Some? then r.url else old(url))
        && status.valid == Some(r.failure.None?)
        && status.errors == (if r.failure.Some? then Some(ServiceError(status.reference, r.failure.value.code, r.failure.value.message))
                             else old(status.errors))
    {
      var service := new StateTokenIssue.StateTokenGenerator(request, StateTokenIssue.GOOGLE, encryptor, json, redis, expirationMinutes);
      service.Call(now, randomHex);
      if service.status.valid != Some(true) {
        var inner := service.status.errors.value;
        status.Fail(Custom(inner.code, inner.message));
        return;
      }
      stateToken := service.stateToken;
      url := Some(GenerateUrl(config, stateToken.value));
      status.SetAsValid();
    }
  }
}
