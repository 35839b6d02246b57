/**
 * The CORS guard of the chat API: origin check, CORS header construction, preflight
 * handling, merging CORS headers into a response and JSON error responses.
 *
 * `NODE_ENV` and the `ALLOWED_ORIGINS` environment variable are explicit parameters
 * (`None` when unset). A request's `Origin` header is `None` when absent.
 */
module Cors {
  import opened Wrappers
  import opened Text

  /** The options of the guard; `maxAge` absent is `None`, `allowCredentials` absent is false. */
  datatype Config = Config(
    allowedOrigins: seq<string>,
    allowedMethods: seq<string>,
    allowedHeaders: seq<string>,
    maxAge: Option<int>,
    allowCredentials: bool)

  /** A plain object `Record<string, string>`: its entries in insertion order. */
  type HeaderRecord = seq<(string, string)>

  /** A Fetch `Headers` object: header values keyed by the byte-lowercased name. */
  type Headers = map<string, string>

  datatype Body = NoBody | Text(text: string)

  datatype Response = Response(status: int, statusText: string, body: Body, headers: Headers)

  /** The optional `origin` argument: left out (`undefined`) or given (a string or `null`). */
  datatype OriginArg = Omitted | Given(origin: Option<string>)

  const Development := "development"

  const AllowOrigin := "Access-Control-Allow-Origin"
  const AllowMethods := "Access-Control-Allow-Methods"
  const AllowHeaders := "Access-Control-Allow-Headers"
  const MaxAge := "Access-Control-Max-Age"
  const AllowCredentials := "Access-Control-Allow-Credentials"
  const ContentType := "Content-Type"

  const BuiltInOrigins: seq<string> := ["http://localhost:3000", "http://localhost:5173", "http://localhost:4173"]

  // ---------------------------------------------------------------------------
  // DEFAULT_CORS_CONFIG

  /** The extra origins of `ALLOWED_ORIGINS`: split at commas, each piece trimmed. */
  function ExtraOrigins(allowedOriginsVar: Option<string>): seq<string>
  {
    match allowedOriginsVar
    case None => []
    case Some(v) =>
      var pieces := Split(v, ',');
      seq(|pieces|, i requires 0 <= i < |pieces| => Trim(pieces[i]))
  }

  function DefaultConfig(allowedOriginsVar: Option<string>): (c: Config)
    ensures |c.allowedOrigins| >= |BuiltInOrigins|
    ensures c.allowedOrigins[..|BuiltInOrigins|] == BuiltInOrigins
    ensures c.allowedOrigins[|BuiltInOrigins|..] == ExtraOrigins(allowedOriginsVar)
    ensures c.allowedMethods == ["POST", "GET", "OPTIONS"]
    ensures c.allowedHeaders == ["Content-Type", "Authorization", "X-Requested-With"]
    ensures c.maxAge == Some(86400) && c.allowCredentials
  {
    Config(
      BuiltInOrigins + ExtraOrigins(allowedOriginsVar),
      ["POST", "GET", "OPTIONS"],
      ["Content-Type", "Authorization", "X-Requested-With"],
      Some(86400),
      true)
  }

  /** Every comma-separated entry of `ALLOWED_ORIGINS`, once trimmed, is an allowed origin. */
  lemma ExtraOriginsAllowed(v: string, nodeEnv: Option<string>)
    ensures forall i :: 0 <= i < |Split(v, ',')| ==>
      IsOriginAllowed(Some(Trim(Split(v, ',')[i])), DefaultConfig(Some(v)), nodeEnv)
  {
    var pieces := Split(v, ',');
    var c := DefaultConfig(Some(v));
    var extra := ExtraOrigins(Some(v));
    forall i | 0 <= i < |pieces|
      ensures IsOriginAllowed(Some(Trim(pieces[i])), c, nodeEnv)
    {
      var origin := extra[i];
      assert origin in c.allowedOrigins by {
        assert c.allowedOrigins[|BuiltInOrigins|..][i] == origin;
      }
      ListedAllowed(origin, c, nodeEnv);
    }
  }

  /** Each extra origin holds no comma and has no white space at either end. */
  lemma ExtraOriginsShape(v: string)
    ensures var extra := ExtraOrigins(Some(v));
      forall i :: 0 <= i < |extra| ==>
        ',' !in extra[i] && (extra[i] != [] ==> !IsJsWhiteSpace(extra[i][0]) && !IsJsWhiteSpace(extra[i][|extra[i]| - 1]))
  {
    var pieces, extra := Split(v, ','), ExtraOrigins(Some(v));
    forall i | 0 <= i < |extra|
      ensures ',' !in extra[i] && (extra[i] != [] ==> !IsJsWhiteSpace(extra[i][0]) && !IsJsWhiteSpace(extra[i][|extra[i]| - 1]))
    {
      var piece := pieces[i];
      var trimmed, j := Trim(piece), SkipStart(piece, 0);
      assert extra[i] == trimmed;
      assert ',' !in piece;
      forall k | 0 <= k < |trimmed|
        ensures trimmed[k] != ','
      {
        assert trimmed[k] == piece[j + k];
      }
    }
  }

  // ---------------------------------------------------------------------------
  // isOriginAllowed

  predicate StartsWith(s: string, prefix: string)
  {
    |prefix| <= |s| && s[..|prefix|] == prefix
  }

  /** The optional `(:\d+)?` group anchored at the end: empty, or a colon and one or more digits. */
  predicate IsPortSuffix(s: string)
  {
    s == [] || (|s| >= 2 && s[0] == ':' && AllDigits(s[1..]))
  }

  /** A match of `^https?:\/\/localhost(:\d+)?$`. */
  predicate IsLocalhostOrigin(o: string)
  {
    || (StartsWith(o, "http://localhost") && IsPortSuffix(o[|"http://localhost"|..]))
    || (StartsWith(o, "https://localhost") && IsPortSuffix(o[|"https://localhost"|..]))
  }

  /**
   * `isOriginAllowed`: a missing or empty origin is allowed; in development a localhost
   * origin is allowed; otherwise the origin must equal a configured entry exactly.
   */
  function IsOriginAllowed(origin: Option<string>, config: Config, nodeEnv: Option<string>): (allowed: bool)
    ensures origin == None || origin == Some("") ==> allowed
    ensures origin.Some? && origin.value != "" && nodeEnv != Some(Development) ==>
      (allowed <==> origin.value in config.allowedOrigins)
    ensures origin.Some? && origin.value != "" && nodeEnv == Some(Development) ==>
      (allowed <==> IsLocalhostOrigin(origin.value) || origin.value in config.allowedOrigins)
  {
    match origin
    case None => true
    case Some(o) =>
      if o == "" then true
      else if nodeEnv == Some(Development) && IsLocalhostOrigin(o) then true
      else o in config.allowedOrigins
  }

  /** A listed origin is allowed in every environment. */
  lemma ListedAllowed(origin: string, config: Config, nodeEnv: Option<string>)
    requires origin in config.allowedOrigins
    ensures IsOriginAllowed(Some(origin), config, nodeEnv)
  {
  }

  /** Development only widens the allowed set: whatever is allowed elsewhere is allowed there. */
  lemma DevelopmentWidens(origin: Option<string>, config: Config, nodeEnv: Option<string>)
    requires IsOriginAllowed(origin, config, nodeEnv)
    ensures IsOriginAllowed(origin, config, Some(Development))
  {
  }

  /** The localhost pattern: with or without a port, http or https, and nothing else around it. */
  lemma LocalhostPattern()
    ensures IsLocalhostOrigin("http://localhost")
    ensures IsLocalhostOrigin("https://localhost:8443")
    ensures IsLocalhostOrigin("http://localhost:5173")
    ensures !IsLocalhostOrigin("http://localhost:")
    ensures !IsLocalhostOrigin("http://localhost.example.com")
    ensures !IsLocalhostOrigin("http://127.0.0.1:5173")
    ensures !IsLocalhostOrigin("ftp://localhost")
  {
    assert "https://localhost:8443"[|"https://localhost"|..] == ":8443";
    assert "http://localhost:5173"[|"http://localhost"|..] == ":5173";
    assert "http://localhost.example.com"[|"http://localhost"|..][0] == '.';
    assert "http://localhost.example.com"[..|"https://localhost"|][4] == ':';
    assert "http://127.0.0.1:5173"[..|"http://localhost"|][7] == '1';
    assert "ftp://localhost"[0] == 'f';
  }

  // ---------------------------------------------------------------------------
  // createCORSHeaders

  /** The value of `Access-Control-Allow-Origin`, or `None` when the header is left out. */
  function AllowOriginValue(origin: Option<string>, config: Config, nodeEnv: Option<string>): Option<string>
  {
    match origin
    case Some(o) =>
      if o != "" && IsOriginAllowed(origin, config, nodeEnv) then Some(o)
      else if o == "" then Some("*")
      else None
    case None => Some("*")
  }

  /**
   * The three cases of `Access-Control-Allow-Origin`: absent exactly when the origin is
   * refused, `*` for a missing or empty origin, and otherwise the origin echoed back.
   */
  lemma AllowOriginCases(origin: Option<string>, config: Config, nodeEnv: Option<string>)
    ensures AllowOriginValue(origin, config, nodeEnv) == None <==> !IsOriginAllowed(origin, config, nodeEnv)
    ensures origin == None || origin == Some("") ==> AllowOriginValue(origin, config, nodeEnv) == Some("*")
    ensures origin.Some? && origin.value != "" && IsOriginAllowed(origin, config, nodeEnv) ==>
      AllowOriginValue(origin, config, nodeEnv) == origin
  {
  }

  /** The value of the last entry whose name lower-cases to `key`. */
  function RecordValue(rec: HeaderRecord, key: string): Option<string>
    decreases |rec|
  {
    if rec == [] then None
    else if LowerAscii(rec[|rec| - 1].0) == key then Some(rec[|rec| - 1].1)
    else RecordValue(rec[..|rec| - 1], key)
  }

  /** A name that no entry carries has no value. */
  lemma {:induction false} RecordValueAbsent(rec: HeaderRecord, key: string)
    requires forall i :: 0 <= i < |rec| ==> LowerAscii(rec[i].0) != key
    ensures RecordValue(rec, key) == None
    decreases |rec|
  {
    if rec != [] {
      var init := rec[..|rec| - 1];
      assert forall i :: 0 <= i < |init| ==> init[i] == rec[i];
      RecordValueAbsent(init, key);
    }
  }

  /** A name without a value is carried by no entry. */
  lemma {:induction false} RecordValueNone(rec: HeaderRecord, key: string)
    requires RecordValue(rec, key) == None
    ensures forall i :: 0 <= i < |rec| ==> LowerAscii(rec[i].0) != key
    decreases |rec|
  {
    if rec != [] {
      var init := rec[..|rec| - 1];
      RecordValueNone(init, key);
      assert forall i :: 0 <= i < |init| ==> init[i] == rec[i];
    }
  }

  /** No two entries of the record have names equal up to ASCII case. */
  predicate DistinctNames(rec: HeaderRecord)
  {
    forall i, j :: 0 <= i < j < |rec| ==> LowerAscii(rec[i].0) != LowerAscii(rec[j].0)
  }

  /** What one more entry does to the record's value at `k`. */
  lemma Snoc(rec: HeaderRecord, name: string, value: string, k: string)
    ensures RecordValue(rec + [(name, value)], k) == if LowerAscii(name) == k then Some(value) else RecordValue(rec, k)
  {
    assert (rec + [(name, value)])[..|rec|] == rec;
  }

  lemma SnocAll(rec: HeaderRecord, name: string, value: string)
    ensures forall k ::
      RecordValue(rec + [(name, value)], k) == if LowerAscii(name) == k then Some(value) else RecordValue(rec, k)
  {
    forall k {
      Snoc(rec, name, value, k);
    }
  }

  /** One more entry whose name is new keeps the names distinct. */
  lemma SnocDistinct(rec: HeaderRecord, name: string, value: string)
    requires DistinctNames(rec) && RecordValue(rec, LowerAscii(name)) == None
    ensures DistinctNames(rec + [(name, value)])
  {
    RecordValueNone(rec, LowerAscii(name));
  }

  /** The lower-cased names of the five CORS headers. */
  predicate IsCorsKey(k: string)
  {
    || k == LowerAscii(AllowOrigin) || k == LowerAscii(AllowMethods) || k == LowerAscii(AllowHeaders)
    || k == LowerAscii(MaxAge) || k == LowerAscii(AllowCredentials)
  }

  lemma CorsNamesDistinct()
    ensures LowerAscii(AllowOrigin) != LowerAscii(AllowMethods) && LowerAscii(AllowOrigin) != LowerAscii(AllowHeaders)
    ensures LowerAscii(AllowOrigin) != LowerAscii(MaxAge) && LowerAscii(AllowOrigin) != LowerAscii(AllowCredentials)
    ensures LowerAscii(AllowMethods) != LowerAscii(AllowHeaders) && LowerAscii(AllowMethods) != LowerAscii(MaxAge)
    ensures LowerAscii(AllowMethods) != LowerAscii(AllowCredentials) && LowerAscii(AllowHeaders) != LowerAscii(MaxAge)
    ensures LowerAscii(AllowHeaders) != LowerAscii(AllowCredentials) && LowerAscii(MaxAge) != LowerAscii(AllowCredentials)
    ensures !IsCorsKey(LowerAscii(ContentType))
  {
    assert |LowerAscii(AllowOrigin)| == 27 && |LowerAscii(AllowMethods)| == 28;
    assert |LowerAscii(AllowHeaders)| == 28 && |LowerAscii(MaxAge)| == 22;
    assert |LowerAscii(AllowCredentials)| == 32 && |LowerAscii(ContentType)| == 12;
    assert LowerAscii(AllowMethods)[21] != LowerAscii(AllowHeaders)[21];
  }

  function OriginEntry(origin: Option<string>, config: Config, nodeEnv: Option<string>): HeaderRecord
  {
    match AllowOriginValue(origin, config, nodeEnv)
    case Some(v) => [(AllowOrigin, v)]
    case None => []
  }

  /** The record `createCORSHeaders` returns, in the order it assigns the headers. */
  function CorsHeaders(origin: Option<string>, config: Config, nodeEnv: Option<string>): HeaderRecord
  {
    var r2 := OriginEntry(origin, config, nodeEnv)
      + [(AllowMethods, Join(config.allowedMethods, ", "))]
      + [(AllowHeaders, Join(config.allowedHeaders, ", "))];
    var r3 := if config.maxAge.Some? then r2 + [(MaxAge, IntToString(config.maxAge.value))] else r2;
    if config.allowCredentials then r3 + [(AllowCredentials, "true")] else r3
  }

  /**
   * The value the CORS record gives a lower-cased name `k`: Allow-Origin as
   * `AllowOriginValue` says, the method and header lists joined with ", " in order,
   * Max-Age exactly when `maxAge` is set, in decimal, Allow-Credentials "true" exactly
   * when `allowCredentials` is set, and nothing for any other name.
   */
  lemma CorsHeadersAt(origin: Option<string>, config: Config, nodeEnv: Option<string>, k: string)
    ensures RecordValue(CorsHeaders(origin, config, nodeEnv), k) ==
      if k == LowerAscii(AllowCredentials) && config.allowCredentials then Some("true")
      else if k == LowerAscii(MaxAge) && config.maxAge.Some? then Some(IntToString(config.maxAge.value))
      else if k == LowerAscii(AllowHeaders) then Some(Join(config.allowedHeaders, ", "))
      else if k == LowerAscii(AllowMethods) then Some(Join(config.allowedMethods, ", "))
      else if k == LowerAscii(AllowOrigin) then AllowOriginValue(origin, config, nodeEnv)
      else None
  {
    var methods := Join(config.allowedMethods, ", ");
    var headers := Join(config.allowedHeaders, ", ");
    var maxAge := IntToString(config.maxAge.GetOr(0));
    var r0 := OriginEntry(origin, config, nodeEnv);
    var r1 := r0 + [(AllowMethods, methods)];
    var r2 := r1 + [(AllowHeaders, headers)];
    var r3 := if config.maxAge.Some? then r2 + [(MaxAge, maxAge)] else r2;
    Snoc(r0, AllowMethods, methods, k);
    Snoc(r1, AllowHeaders, headers, k);
    Snoc(r2, MaxAge, maxAge, k);
    Snoc(r3, AllowCredentials, "true", k);
  }

  /** The five CORS headers, each with the value `createCORSHeaders` gives it. */
  lemma CorsHeadersValues(origin: Option<string>, config: Config, nodeEnv: Option<string>)
    ensures var rec := CorsHeaders(origin, config, nodeEnv);
      && RecordValue(rec, LowerAscii(AllowOrigin)) == AllowOriginValue(origin, config, nodeEnv)
      && RecordValue(rec, LowerAscii(AllowMethods)) == Some(Join(config.allowedMethods, ", "))
      && RecordValue(rec, LowerAscii(AllowHeaders)) == Some(Join(config.allowedHeaders, ", "))
      && RecordValue(rec, LowerAscii(MaxAge)) ==
        (match config.maxAge case Some(n) => Some(IntToString(n)) case None => None)
      && RecordValue(rec, LowerAscii(AllowCredentials)) == (if config.allowCredentials then Some("true") else None)
  {
    CorsNamesDistinct();
    CorsHeadersAt(origin, config, nodeEnv, LowerAscii(AllowOrigin));
    CorsHeadersAt(origin, config, nodeEnv, LowerAscii(AllowMethods));
    CorsHeadersAt(origin, config, nodeEnv, LowerAscii(AllowHeaders));
    CorsHeadersAt(origin, config, nodeEnv, LowerAscii(MaxAge));
    CorsHeadersAt(origin, config, nodeEnv, LowerAscii(AllowCredentials));
  }

  /** The CORS record holds no name twice, up to case. */
  lemma CorsHeadersDistinct(origin: Option<string>, config: Config, nodeEnv: Option<string>)
    ensures DistinctNames(CorsHeaders(origin, config, nodeEnv))
  {
    CorsNamesDistinct();
    var methods := Join(config.allowedMethods, ", ");
    var headers := Join(config.allowedHeaders, ", ");
    var maxAge := IntToString(config.maxAge.GetOr(0));
    var r0 := OriginEntry(origin, config, nodeEnv);
    var r1 := r0 + [(AllowMethods, methods)];
    var r2 := r1 + [(AllowHeaders, headers)];
    var r3 := if config.maxAge.Some? then r2 + [(MaxAge, maxAge)] else r2;
    Snoc(r0, AllowMethods, methods, LowerAscii(AllowHeaders));
    Snoc(r0, AllowMethods, methods, LowerAscii(MaxAge));
    Snoc(r0, AllowMethods, methods, LowerAscii(AllowCredentials));
    Snoc(r1, AllowHeaders, headers, LowerAscii(MaxAge));
    Snoc(r1, AllowHeaders, headers, LowerAscii(AllowCredentials));
    Snoc(r2, MaxAge, maxAge, LowerAscii(AllowCredentials));
    SnocDistinct(r0, AllowMethods, methods);
    SnocDistinct(r1, AllowHeaders, headers);
    SnocDistinct(r2, MaxAge, maxAge);
    SnocDistinct(r3, AllowCredentials, "true");
  }

  /** `createCORSHeaders`: builds the record by one assignment per header. */
  method CreateCORSHeaders(origin: Option<string>, config: Config, nodeEnv: Option<string>)
    returns (headers: HeaderRecord)
    ensures headers == CorsHeaders(origin, config, nodeEnv)
  {
    headers := [];
    if origin.Some? && origin.value != "" && IsOriginAllowed(origin, config, nodeEnv) {
      headers := headers + [(AllowOrigin, origin.value)];
    } else if origin == None || origin.value == "" {
      headers := headers + [(AllowOrigin, "*")];
    }
    assert headers == OriginEntry(origin, config, nodeEnv);
    headers := headers + [(AllowMethods, Join(config.allowedMethods, ", "))];
    headers := headers + [(AllowHeaders, Join(config.allowedHeaders, ", "))];
    if config.maxAge.Some? {
      headers := headers + [(MaxAge, IntToString(config.maxAge.value))];
    }
    if config.allowCredentials {
      headers := headers + [(AllowCredentials, "true")];
    }
  }

  // ---------------------------------------------------------------------------
  // Fetch Headers

  function Get(h: Headers, key: string): Option<string>
  {
    if key in h then Some(h[key]) else None
  }

  /** `headers.set(name, value)`: replaces any header of that name, whatever its case. */
  function SetHeader(h: Headers, name: string, value: string): Headers
  {
    h[LowerAscii(name) := value]
  }

  /** `headers.append(name, value)`: a repeated name has its values combined with ", ". */
  function AppendHeader(h: Headers, name: string, value: string): Headers
  {
    var k := LowerAscii(name);
    if k in h then h[k := h[k] + ", " + value] else h[k := value]
  }

  /** In a record with distinct names the last name does not occur before. */
  lemma DistinctLast(rec: HeaderRecord)
    requires |rec| > 0
    ensures DistinctNames(rec) ==> RecordValue(rec[..|rec| - 1], LowerAscii(rec[|rec| - 1].0)) == None
  {
    var init := rec[..|rec| - 1];
    if DistinctNames(rec) {
      forall i | 0 <= i < |init|
        ensures LowerAscii(init[i].0) != LowerAscii(rec[|rec| - 1].0)
      {
        assert init[i] == rec[i];
      }
      RecordValueAbsent(init, LowerAscii(rec[|rec| - 1].0));
    }
  }

  /**
   * `new Headers(record)`: appends the entries in order. With distinct names every
   * header holds exactly its entry's value, and nothing else is present.
   */
  function HeadersOf(rec: HeaderRecord): (h: Headers)
    ensures DistinctNames(rec) ==> forall k :: Get(h, k) == RecordValue(rec, k)
    decreases |rec|
  {
    if rec == [] then map[]
    else
      var init := rec[..|rec| - 1];
      var last := rec[|rec| - 1];
      assert DistinctNames(rec) ==> DistinctNames(init);
      assert init + [last] == rec;
      SnocAll(init, last.0, last.1);
      DistinctLast(rec);
      AppendHeader(HeadersOf(init), last.0, last.1)
  }

  /**
   * The headers after `set` of every entry of `rec` in order: each name of `rec` takes
   * its last value there, every other header of `h` is unchanged, nothing else is added.
   */
  function Merge(h: Headers, rec: HeaderRecord): (r: Headers)
    ensures forall k :: Get(r, k) == (if RecordValue(rec, k).Some? then RecordValue(rec, k) else Get(h, k))
    decreases |rec|
  {
    if rec == [] then h
    else SetHeader(Merge(h, rec[..|rec| - 1]), rec[|rec| - 1].0, rec[|rec| - 1].1)
  }

  // ---------------------------------------------------------------------------
  // handleCORS

  /** The 403 response for a refused origin. */
  function ForbiddenResponse(): Response
  {
    Response(403, "Forbidden - Invalid Origin", Text("Unauthorized origin"), HeadersOf([(ContentType, "text/plain")]))
  }

  /** The 204 answer to an accepted preflight. */
  function PreflightResponse(origin: Option<string>, config: Config, nodeEnv: Option<string>): Response
  {
    Response(204, "", NoBody, HeadersOf(CorsHeaders(origin, config, nodeEnv)))
  }

  /**
   * `handleCORS`: a refused origin gets 403 whatever the method; an accepted OPTIONS
   * gets 204 with the CORS headers; any other accepted request continues (`None`).
   */
  function HandleCORS(origin: Option<string>, requestMethod: string, config: Config, nodeEnv: Option<string>)
    : (r: Option<Response>)
    ensures !IsOriginAllowed(origin, config, nodeEnv) ==> r == Some(ForbiddenResponse())
    ensures IsOriginAllowed(origin, config, nodeEnv) && requestMethod == "OPTIONS" ==> r.Some? && r.value.status == 204
    ensures r == None <==> IsOriginAllowed(origin, config, nodeEnv) && requestMethod != "OPTIONS"
    ensures r.Some? && r.value.status == 204 ==>
      && r.value.body == NoBody
      && Get(r.value.headers, LowerAscii(AllowOrigin)) == AllowOriginValue(origin, config, nodeEnv)
      && Get(r.value.headers, LowerAscii(AllowMethods)) == Some(Join(config.allowedMethods, ", "))
      && Get(r.value.headers, LowerAscii(AllowHeaders)) == Some(Join(config.allowedHeaders, ", "))
      && Get(r.value.headers, LowerAscii(MaxAge)) ==
        (match config.maxAge case Some(n) => Some(IntToString(n)) case None => None)
      && Get(r.value.headers, LowerAscii(AllowCredentials)) == (if config.allowCredentials then Some("true") else None)
  {
    CorsHeadersValues(origin, config, nodeEnv);
    CorsHeadersDistinct(origin, config, nodeEnv);
    if !IsOriginAllowed(origin, config, nodeEnv) then Some(ForbiddenResponse())
    else if requestMethod == "OPTIONS" then Some(PreflightResponse(origin, config, nodeEnv))
    else None
  }

  /**
   * With the default options, a preflight from the local development server is
   * answered 204, echoing its origin and advertising a one-day cache and credentials.
   */
  lemma DevServerPreflight(allowedOriginsVar: Option<string>, nodeEnv: Option<string>)
    ensures var r := HandleCORS(Some("http://localhost:5173"), "OPTIONS", DefaultConfig(allowedOriginsVar), nodeEnv);
      && r.Some? && r.value.status == 204
      && Get(r.value.headers, LowerAscii(AllowOrigin)) == Some("http://localhost:5173")
      && Get(r.value.headers, LowerAscii(AllowMethods)) == Some("POST, GET, OPTIONS")
      && Get(r.value.headers, LowerAscii(MaxAge)) == Some("86400")
      && Get(r.value.headers, LowerAscii(AllowCredentials)) == Some("true")
  {
    var c := DefaultConfig(allowedOriginsVar);
    assert c.allowedOrigins[1] == "http://localhost:5173";
    assert Join(["POST", "GET", "OPTIONS"], ", ") == "POST, GET, OPTIONS";
    assert NatToDecimal(86400) == "86400";
  }

  /**
   * Without `ALLOWED_ORIGINS`, a foreign origin is refused with 403 whatever the method
   * and the environment, preflight included.
   */
  lemma ForeignOriginRefused(requestMethod: string, nodeEnv: Option<string>)
    ensures HandleCORS(Some("http://evil.example"), requestMethod, DefaultConfig(None), nodeEnv) == Some(ForbiddenResponse())
  {
    var o := "http://evil.example";
    assert !IsLocalhostOrigin(o) by {
      assert o[..|"http://localhost"|][7] == 'e';
      assert o[..|"https://localhost"|][4] == ':';
    }
    assert o !in DefaultConfig(None).allowedOrigins by {
      assert DefaultConfig(None).allowedOrigins == BuiltInOrigins;
      assert o[7] == 'e' && BuiltInOrigins[0][7] == 'l' && BuiltInOrigins[1][7] == 'l' && BuiltInOrigins[2][7] == 'l';
    }
    assert !IsOriginAllowed(Some(o), DefaultConfig(None), nodeEnv);
  }

  // ---------------------------------------------------------------------------
  // addCORSHeaders and createCORSErrorResponse

  /** `origin !== undefined ? origin : null`. */
  function RequestOrigin(origin: OriginArg): Option<string>
  {
    match origin
    case Omitted => None
    case Given(o) => o
  }

  /** The response `addCORSHeaders` returns. */
  function WithCORS(response: Response, origin: OriginArg, config: Config, nodeEnv: Option<string>): (r: Response)
    ensures r.status == response.status && r.statusText == response.statusText && r.body == response.body
    ensures forall k :: !IsCorsKey(k) ==> Get(r.headers, k) == Get(response.headers, k)
    ensures Get(r.headers, LowerAscii(AllowOrigin)) ==
      (match AllowOriginValue(RequestOrigin(origin), config, nodeEnv)
       case Some(v) => Some(v)
       case None => Get(response.headers, LowerAscii(AllowOrigin)))
    ensures Get(r.headers, LowerAscii(AllowMethods)) == Some(Join(config.allowedMethods, ", "))
    ensures Get(r.headers, LowerAscii(AllowHeaders)) == Some(Join(config.allowedHeaders, ", "))
    ensures Get(r.headers, LowerAscii(MaxAge)) ==
      (match config.maxAge
       case Some(n) => Some(IntToString(n))
       case None => Get(response.headers, LowerAscii(MaxAge)))
    ensures Get(r.headers, LowerAscii(AllowCredentials)) ==
      (if config.allowCredentials then Some("true") else Get(response.headers, LowerAscii(AllowCredentials)))
  {
    var cors := CorsHeaders(RequestOrigin(origin), config, nodeEnv);
    CorsHeadersValues(RequestOrigin(origin), config, nodeEnv);
    CorsHeadersAbsent(RequestOrigin(origin), config, nodeEnv);
    response.(headers := Merge(response.headers, cors))
  }

  /** The CORS record has no value for a name other than the five CORS names. */
  lemma CorsHeadersAbsent(origin: Option<string>, config: Config, nodeEnv: Option<string>)
    ensures forall k :: !IsCorsKey(k) ==> RecordValue(CorsHeaders(origin, config, nodeEnv), k) == None
  {
    forall k | !IsCorsKey(k) {
      CorsHeadersAt(origin, config, nodeEnv, k);
    }
  }

  /**
   * `addCORSHeaders`: copies the headers and `set`s each CORS header on the copy;
   * status, status text and body are kept.
   */
  method AddCORSHeaders(response: Response, origin: OriginArg, config: Config, nodeEnv: Option<string>)
    returns (r: Response)
    ensures r == WithCORS(response, origin, config, nodeEnv)
  {
    var requestOrigin := if origin.Given? then origin.origin else None;
    var corsHeaders := CreateCORSHeaders(requestOrigin, config, nodeEnv);
    var headers := response.headers;
    var i := 0;
    while i < |corsHeaders|
      invariant 0 <= i <= |corsHeaders|
      invariant headers == Merge(response.headers, corsHeaders[..i])
    {
      assert corsHeaders[..i + 1][..i] == corsHeaders[..i];
      headers := SetHeader(headers, corsHeaders[i].0, corsHeaders[i].1);
      i := i + 1;
    }
    assert corsHeaders[..i] == corsHeaders;
    r := Response(response.status, response.statusText, response.body, headers);
  }

  const ErrorPrefix := "{\"error\":\""
  const ErrorSuffix := "\"}"

  /** `JSON.stringify({ error: message })`. */
  function ErrorBody(message: string): string
  {
    ErrorPrefix + JsonEscape(message) + ErrorSuffix
  }

  /** Reads the message back out of an error body. */
  function ParseErrorBody(t: string): Option<string>
  {
    if |t| >= |ErrorPrefix| + |ErrorSuffix| && t[..|ErrorPrefix|] == ErrorPrefix
      && t[|t| - |ErrorSuffix|..] == ErrorSuffix
    then JsonUnescape(t[|ErrorPrefix|..|t| - |ErrorSuffix|])
    else None
  }

  /** The error body carries exactly the message. */
  lemma ErrorBodyRoundTrip(message: string)
    ensures ParseErrorBody(ErrorBody(message)) == Some(message)
  {
    var t := ErrorBody(message);
    assert t[..|ErrorPrefix|] == ErrorPrefix;
    assert t[|t| - |ErrorSuffix|..] == ErrorSuffix;
    assert t[|ErrorPrefix|..|t| - |ErrorSuffix|] == JsonEscape(message);
    JsonRoundTrip(message);
  }

  /** The plain JSON headers of an error response carry none of the CORS headers. */
  lemma JsonHeadersWithoutCors()
    ensures forall k :: IsCorsKey(k) ==> Get(HeadersOf([(ContentType, "application/json")]), k) == None
  {
    var rec := [(ContentType, "application/json")];
    assert DistinctNames(rec);
    CorsNamesDistinct();
    forall k | IsCorsKey(k)
      ensures Get(HeadersOf(rec), k) == None
    {
      assert k != LowerAscii(ContentType);
      assert RecordValue(rec, k) == None;
    }
  }

  /** The response `createCORSErrorResponse` returns; the status defaults to 500. */
  function ErrorResponse(message: string, status: Option<int>, origin: OriginArg, config: Config, nodeEnv: Option<string>)
    : (r: Response)
    ensures r.status == status.GetOr(500) && r.statusText == ""
    ensures r.body == Text(ErrorBody(message)) && ParseErrorBody(r.body.text) == Some(message)
    ensures Get(r.headers, LowerAscii(ContentType)) == Some("application/json")
    ensures Get(r.headers, LowerAscii(AllowOrigin)) == AllowOriginValue(RequestOrigin(origin), config, nodeEnv)
    ensures Get(r.headers, LowerAscii(AllowMethods)) == Some(Join(config.allowedMethods, ", "))
    ensures Get(r.headers, LowerAscii(AllowHeaders)) == Some(Join(config.allowedHeaders, ", "))
    ensures Get(r.headers, LowerAscii(MaxAge)) == (match config.maxAge case Some(n) => Some(IntToString(n)) case None => None)
    ensures Get(r.headers, LowerAscii(AllowCredentials)) == (if config.allowCredentials then Some("true") else None)
  {
    ErrorBodyRoundTrip(message);
    CorsNamesDistinct();
    JsonHeadersWithoutCors();
    var plain := Response(status.GetOr(500), "", Text(ErrorBody(message)), HeadersOf([(ContentType, "application/json")]));
    WithCORS(plain, origin, config, nodeEnv)
  }

  /** `createCORSErrorResponse`: a JSON `{"error": message}` response with the CORS headers. */
  method CreateCORSErrorResponse(message: string, status: Option<int>, origin: OriginArg, config: Config, nodeEnv: Option<string>)
    returns (r: Response)
    ensures r == ErrorResponse(message, status, origin, config, nodeEnv)
  {
    var response := Response(status.GetOr(500), "", Text(ErrorBody(message)), HeadersOf([(ContentType, "application/json")]));
    r := AddCORSHeaders(response, origin, config, nodeEnv);
  }
}
