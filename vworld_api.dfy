/**
 * The VWorld geocoding provider (api/vworld_api.py): cleaning the configured
 * domain, building the query parameters in their two variants, reading the
 * JSON answer, and `geocode`, which tries the with-domain request first and,
 * when a domain is configured, the without-domain request second.
 *
 * The HTTP round trip (`_request`) is a `Network` object whose answers come
 * from an oracle; `urlparse` and Python's `float()` on strings are function
 * parameters.
 */
module VWorldApi {
  import opened Optional
  import opened PyText
  import opened Json
  import opened Models

  const DefaultTimeout: real := 5.0
  const ProviderName := "vworld"

  /** The two fields of `urllib.parse.urlparse(s)` the core reads. */
  datatype UrlParts = UrlParts(scheme: string, netloc: string)

  /**
   * `_normalize_domain`: no domain for `None` or `""`; for a URL with a scheme
   * its network location, or no domain if that is empty; any other string as
   * it is. A domain it returns is never the empty string.
   */
  function NormalizeDomain(domain: Option<string>, urlparse: string -> UrlParts): (r: Option<string>)
    ensures domain == None || domain == Some("") ==> r == None
    ensures domain.Some? && domain.value != "" && urlparse(domain.value).scheme != "" ==>
              r == (if urlparse(domain.value).netloc == "" then None else Some(urlparse(domain.value).netloc))
    ensures domain.Some? && domain.value != "" && urlparse(domain.value).scheme == "" ==> r == domain
    ensures r != Some("")
  {
    if domain.None? || domain.value == "" then None
    else
      var parsed := urlparse(domain.value);
      if parsed.scheme != "" then
        (if parsed.netloc != "" then Some(parsed.netloc) else None)
      else domain
  }

  /** The names of the query parameters the provider sends. */
  datatype ParamName = Service | Request | Format | Crs | Type | Address | Key | Domain
  {
    /** The name as it appears in the query string. */
    function WireName(): string
    {
      match this
      case Service => "service"
      case Request => "request"
      case Format => "format"
      case Crs => "crs"
      case Type => "type"
      case Address => "address"
      case Key => "key"
      case Domain => "domain"
    }
  }

  /** Distinct parameter names go out under distinct query-string names. */
  lemma WireNamesDistinct(a: ParamName, b: ParamName)
    requires a != b
    ensures a.WireName() != b.WireName()
  {
  }

  /** The query parameters of one request. */
  type Params = map<ParamName, string>

  /** The seven entries every request carries. */
  const FixedKeys: set<ParamName> := {Service, Request, Format, Crs, Type, Address, Key}

  /** The answer to one `_request(params)`: the decoded JSON body, or the RequestException raised. */
  datatype Reply = Answered(data: Json) | Failed(error: RequestError)

  /** What `_parse_response` makes of a decoded body. */
  datatype ParseResult = NotOk | Location(result: LocationResult) | Raises(fault: Fault)

  /** What one pass of `geocode`'s loop found, tagged by what the loop does next. */
  datatype Attempt =
    | Errored(error: RequestError)   // RequestException: remembered, next attempt
    | Rejected                       // status not "OK": next attempt
    | Resolved(result: LocationResult)  // returned at once
    | Broken(fault: Fault)           // raised at once, not caught
  {
    /** The attempt ends the call. */
    predicate Final()
    {
      Resolved? || Broken?
    }
  }

  const StatusPath := ["response", "status"]
  const XPath := ["response", "result", "point", "x"]
  const YPath := ["response", "result", "point", "y"]
  const TextPath := ["response", "refined", "text"]

  /**
   * `_parse_response(data, fallback)`; its cases are stated by `ParseResponseCases`.
   * A result always names the fallback as input address, "vworld" as provider
   * and the whole body as `extra`; its normalized address is never empty when
   * the fallback is not.
   */
  function ParseResponse(data: Json, fallback: string, parseText: string -> Option<real>): (r: ParseResult)
    ensures r.Location? ==>
              && r.result.inputAddress == fallback && r.result.provider == ProviderName
              && r.result.extra == Raw(data)
    ensures r.Location? && fallback != "" ==> r.result.normalizedAddress != ""
  {
    match Get(data, "response")
    case None => Raises(NotAMapping)
    case Some(respObj) =>
      match Get(respObj, "status")
      case None => Raises(NotAMapping)
      case Some(status) =>
        if status != JStr("OK") then NotOk
        else
          // `respObj` is a dict here: its `.get("status")` succeeded
          var result := Get(respObj, "result").value;
          match Get(result, "point")
          case None => Raises(NotAMapping)
          case Some(point) =>
            match Get(point, "x")
            case None => Raises(NotAMapping)
            case Some(x) =>
              match ToFloat(x, parseText)
              case None => Raises(NotANumber)
              case Some(lon) =>
                // `point` is a dict here: its `.get("x")` succeeded
                match ToFloat(Get(point, "y").value, parseText)
                case None => Raises(NotANumber)
                case Some(lat) =>
                  var refined := Get(respObj, "refined").value;
                  match Get(refined, "text")
                  case None => Raises(NotAMapping)
                  case Some(text) =>
                    if Truthy(text) && !text.JStr? then Raises(NotText)
                    else
                      var normalized := if Truthy(text) then text.s else fallback;
                      Location(LocationResult(fallback, normalized, Point(lat, lon), ProviderName, Raw(data)))
  }

  /**
   * `_parse_response(data, fallback)`, case by case. A status other than
   * "OK" (missing objects included) gives `NotOk`; on "OK" the latitude
   * comes from `point.y` and the longitude from `point.x`, the normalized
   * address is `refined.text` when that is truthy and the fallback when it is
   * falsy, the input address is the fallback and the provider is "vworld". A
   * lookup on a truthy non-object and a coordinate `float()` rejects raise.
   */
  lemma ParseResponseCases(data: Json, fallback: string, parseText: string -> Option<real>)
    ensures Lookup(data, StatusPath) == None ==> ParseResponse(data, fallback, parseText) == Raises(NotAMapping)
    ensures ParseResponse(data, fallback, parseText).NotOk? <==>
              Lookup(data, StatusPath).Some? && Lookup(data, StatusPath).value != JStr("OK")
    ensures (Lookup(data, StatusPath) == Some(JStr("OK")) && Lookup(data, XPath).Some? &&
             ToFloat(Lookup(data, XPath).value, parseText).None?) ==>
              ParseResponse(data, fallback, parseText) == Raises(NotANumber)
    ensures (Lookup(data, StatusPath) == Some(JStr("OK")) && Lookup(data, XPath).Some? &&
             ToFloat(Lookup(data, XPath).value, parseText).Some? && Lookup(data, YPath).Some? &&
             ToFloat(Lookup(data, YPath).value, parseText).None?) ==>
              ParseResponse(data, fallback, parseText) == Raises(NotANumber)
    ensures var x, y, t := Lookup(data, XPath), Lookup(data, YPath), Lookup(data, TextPath);
            (Lookup(data, StatusPath) == Some(JStr("OK")) && x.Some? && y.Some? && t.Some? &&
             ToFloat(x.value, parseText).Some? && ToFloat(y.value, parseText).Some? &&
             (t.value.JStr? || !Truthy(t.value))) ==>
              ParseResponse(data, fallback, parseText) ==
                Location(LocationResult(fallback, if Truthy(t.value) then t.value.s else fallback,
                                        Point(ToFloat(y.value, parseText).value, ToFloat(x.value, parseText).value),
                                        ProviderName, Raw(data)))
    ensures var r := ParseResponse(data, fallback, parseText);
            r.Location? ==>
              && Lookup(data, StatusPath) == Some(JStr("OK"))
              && Lookup(data, XPath).Some? && ToFloat(Lookup(data, XPath).value, parseText) == Some(r.result.point.lon)
              && Lookup(data, YPath).Some? && ToFloat(Lookup(data, YPath).value, parseText) == Some(r.result.point.lat)
              && r.result.inputAddress == fallback
              && r.result.provider == ProviderName
              && r.result.extra == Raw(data)
    ensures var r := ParseResponse(data, fallback, parseText);
            r.Location? ==>
              && Lookup(data, TextPath).Some?
              && var text := Lookup(data, TextPath).value;
                 if Truthy(text) then text == JStr(r.result.normalizedAddress)
                 else r.result.normalizedAddress == fallback
  {
  }

  /** A well-formed "OK" body with the given point fields and refined address text. */
  function OkBody(x: Json, y: Json, refined: string): Json
  {
    JObj(map[
      "response" := JObj(map[
        "status" := JStr("OK"),
        "result" := JObj(map["point" := JObj(map["x" := x, "y" := y])]),
        "refined" := JObj(map["text" := JStr(refined)])])])
  }

  /**
   * Reading back a well-formed "OK" body gives the point with `x` as the
   * longitude and `y` as the latitude, and the refined text as the
   * normalized address (the fallback when the text is empty).
   */
  lemma ParseOkBody(x: Json, y: Json, refined: string, fallback: string,
                    parseText: string -> Option<real>, lon: real, lat: real)
    requires ToFloat(x, parseText) == Some(lon) && ToFloat(y, parseText) == Some(lat)
    ensures ParseResponse(OkBody(x, y, refined), fallback, parseText) ==
              Location(LocationResult(fallback, if refined != "" then refined else fallback,
                                      Point(lat, lon), ProviderName, Raw(OkBody(x, y, refined))))
  {
    var body := OkBody(x, y, refined);
    var resp := body.fields["response"];
    var point := resp.fields["result"].fields["point"];
    assert Get(body, "response") == Some(resp);
    assert Get(resp, "status") == Some(JStr("OK"));
    assert Get(resp.fields["result"], "point") == Some(point);
    assert Get(point, "x") == Some(x) && Get(point, "y") == Some(y);
    assert Get(resp.fields["refined"], "text") == Some(JStr(refined));
  }

  /** The provider's configuration; nothing changes it after construction. */
  datatype VWorldProvider = VWorldProvider(apiKey: string, domain: Option<string>, timeout: real)
  {
    /** `self.domain` is truthy. */
    predicate HasDomain()
    {
      domain.Some? && domain.value != ""
    }

    /**
     * `_build_params(address, include_domain=...)`: the seven fixed entries,
     * and a `domain` entry holding the configured domain exactly when it is
     * asked for and a domain is configured.
     */
    function BuildParams(address: string, includeDomain: bool): (p: Params)
      ensures p.Keys == FixedKeys + (if includeDomain && HasDomain() then {Domain} else {})
      ensures && p[Service] == "address" && p[Request] == "getcoord" && p[Format] == "json"
              && p[Crs] == "EPSG:4326" && p[Type] == "ROAD"
              && p[Address] == address && p[Key] == apiKey
      ensures Domain in p <==> includeDomain && HasDomain()
      ensures Domain in p ==> p[Domain] == domain.value
    {
      var params := map[
        Service := "address",
        Request := "getcoord",
        Format := "json",
        Crs := "EPSG:4326",
        Type := "ROAD",
        Address := address,
        Key := apiKey];
      if includeDomain && HasDomain() then params[Domain := domain.value] else params
    }

    /**
     * The `attempts` list: the with-domain parameters, then the
     * without-domain parameters when a domain is configured. The last
     * attempt never carries a domain entry.
     */
    function Attempts(address: string): (a: seq<Params>)
      ensures |a| == if HasDomain() then 2 else 1
      ensures a[0] == BuildParams(address, true)
      ensures HasDomain() ==> Domain in a[0] && a[1] == BuildParams(address, false)
      ensures Domain !in a[|a| - 1]
    {
      [BuildParams(address, true)] + if HasDomain() then [BuildParams(address, false)] else []
    }

    /**
     * What each attempt of a call finds, when the network answers the
     * request numbered `n0 + k` with `respond(n0 + k, params, timeout)`.
     */
    function Steps(address: string, respond: (nat, Params, real) -> Reply, n0: nat,
                   parseText: string -> Option<real>): (s: seq<Attempt>)
      ensures |s| == |Attempts(address)|
    {
      AttemptResults(Attempts(address), respond, n0, timeout, Parser(address, parseText))
    }

    /**
     * What `geocode(address)` returns or raises. A blank address gives `None`;
     * a location found names the trimmed address as its input and comes from
     * the "vworld" provider.
     */
    function GeocodeOutcome(address: string, respond: (nat, Params, real) -> Reply, n0: nat,
                            parseText: string -> Option<real>): (o: Outcome)
      ensures AllSpace(address) ==> o == NotFound
      ensures o.Found? ==> o.result.inputAddress == Strip(address) && o.result.provider == ProviderName
      ensures o.Found? ==> o.result.normalizedAddress != ""
    {
      var a := Strip(address);
      if a == "" then NotFound
      else
        var steps := Steps(a, respond, n0, parseText);
        var k := FirstFinal(steps);
        if k < |steps| && steps[k].Resolved? then
          ResolvedNamesAddress(Attempts(a), respond, n0, timeout, a, parseText, k);
          Conclude(steps)
        else Conclude(steps)
    }

    /** The parameters `geocode(address)` sends, in order. */
    function RequestsSent(address: string, respond: (nat, Params, real) -> Reply, n0: nat,
                          parseText: string -> Option<real>): seq<Params>
    {
      var a := Strip(address);
      if a == "" then [] else Attempts(a)[..Issued(Steps(a, respond, n0, parseText))]
    }

    /**
     * `geocode(address)`: trims the address, returns `None` for an empty
     * one, and otherwise builds the attempts (with-domain first, then
     * without-domain when a domain is configured) and tries them in order.
     */
    method Geocode(address: string, net: Network, parseText: string -> Option<real>) returns (o: Outcome)
      requires net.Valid()
      modifies net
      ensures net.Valid()
      ensures o == GeocodeOutcome(address, net.respond, old(net.sent), parseText)
      ensures net.log == old(net.log) + RequestsSent(address, net.respond, old(net.sent), parseText)
    {
      var a := Strip(address);
      if a == "" {
        return NotFound;
      }
      var attempts := [BuildParams(a, true)];
      if HasDomain() {
        attempts := attempts + [BuildParams(a, false)];
      }
      assert attempts == Attempts(a);
      o := TryInOrder(attempts, net, timeout, Parser(a, parseText));
    }
  }

  /**
   * The provider `VWorldGeocodingProvider(api_key, domain=..., timeout_s=...)`
   * builds: the key and timeout as given, the domain normalized. Its domain is
   * truthy exactly when it is present.
   */
  function NewProvider(apiKey: string, domain: Option<string>, timeout: real,
                       urlparse: string -> UrlParts): (p: VWorldProvider)
    ensures p.apiKey == apiKey && p.timeout == timeout
    ensures p.domain == NormalizeDomain(domain, urlparse)
    ensures p.HasDomain() <==> p.domain.Some?
  {
    VWorldProvider(apiKey, NormalizeDomain(domain, urlparse), timeout)
  }

  /**
   * What each of `attempts` finds, when the network answers the request
   * numbered `n0 + k` with `respond(n0 + k, attempts[k], timeout)`.
   */
  function AttemptResults(attempts: seq<Params>, respond: (nat, Params, real) -> Reply,
                          n0: nat, timeout: real, parse: Json -> ParseResult): (s: seq<Attempt>)
    ensures |s| == |attempts|
    ensures forall k :: 0 <= k < |attempts| ==>
              s[k] == Classify(respond(n0 + k, attempts[k], timeout), parse)
  {
    seq(|attempts|, k requires 0 <= k < |attempts| =>
      Classify(respond(n0 + k, attempts[k], timeout), parse))
  }

  /**
   * The loop of `geocode`: sends the attempts in order until one gives a
   * result (returned) or a parse fault (raised, since `_parse_response` is
   * called outside the `try`). A RequestException is remembered and the
   * loop goes on; when the attempts run out, the last RequestException is
   * raised if there was one, and `None` returned otherwise.
   */
  method TryInOrder(attempts: seq<Params>, net: Network, timeout: real,
                    parse: Json -> ParseResult) returns (o: Outcome)
    requires net.Valid()
    modifies net
    ensures net.Valid()
    ensures o == Conclude(AttemptResults(attempts, net.respond, old(net.sent), timeout, parse))
    ensures net.log == old(net.log) +
              attempts[..Issued(AttemptResults(attempts, net.respond, old(net.sent), timeout, parse))]
  {
    ghost var n0 := net.sent;
    ghost var steps := AttemptResults(attempts, net.respond, n0, timeout, parse);

    var lastError: Option<RequestError> := None;
    var i := 0;
    while i < |attempts|
      invariant 0 <= i <= |attempts|
      invariant net.Valid() && net.sent == n0 + i
      invariant net.log == old(net.log) + attempts[..i]
      invariant forall j :: 0 <= j < i ==> !steps[j].Final()
      invariant lastError == LastError(steps[..i])
    {
      ghost var logBefore := net.log;
      var reply := net.Get(attempts[i], timeout);
      assert steps[i] == Classify(reply, parse);
      LogExtends(old(net.log), attempts, i, logBefore, net.log);
      LastErrorExtends(steps, i);
      match reply {
        case Failed(e) =>
          lastError := Some(e);
        case Answered(data) =>
          var parsed := parse(data);
          match parsed {
            case Raises(f) =>
              FirstFinalDecides(steps, i);
              return Faulted(f);
            case Location(r) =>
              FirstFinalDecides(steps, i);
              return Found(r);
            case NotOk =>
          }
      }
      i := i + 1;
    }
    assert steps[..i] == steps;
    assert attempts[..i] == attempts;
    ExhaustedRaisesLastError(steps);
    if lastError.Some? {
      return RequestFailed(lastError.value);
    }
    return NotFound;
  }

  /** A location an attempt found is what `_parse_response` made of that attempt's body. */
  lemma ResolvedCameFromParse(attempts: seq<Params>, respond: (nat, Params, real) -> Reply, n0: nat,
                              timeout: real, fallback: string, parseText: string -> Option<real>, k: nat)
    requires k < |attempts|
    requires AttemptResults(attempts, respond, n0, timeout, Parser(fallback, parseText))[k].Resolved?
    ensures var reply := respond(n0 + k, attempts[k], timeout);
            && reply.Answered?
            && ParseResponse(reply.data, fallback, parseText) ==
                 Location(AttemptResults(attempts, respond, n0, timeout, Parser(fallback, parseText))[k].result)
  {
    var reply := respond(n0 + k, attempts[k], timeout);
    assert reply.Answered?;
    assert Parser(fallback, parseText)(reply.data) == ParseResponse(reply.data, fallback, parseText);
  }

  /** So a location an attempt found names the fallback address and the "vworld" provider. */
  lemma ResolvedNamesAddress(attempts: seq<Params>, respond: (nat, Params, real) -> Reply, n0: nat,
                             timeout: real, fallback: string, parseText: string -> Option<real>, k: nat)
    requires k < |attempts|
    requires AttemptResults(attempts, respond, n0, timeout, Parser(fallback, parseText))[k].Resolved?
    ensures var r := AttemptResults(attempts, respond, n0, timeout, Parser(fallback, parseText))[k].result;
            r.inputAddress == fallback && r.provider == ProviderName
            && (fallback != "" ==> r.normalizedAddress != "")
  {
    ResolvedCameFromParse(attempts, respond, n0, timeout, fallback, parseText, k);
  }

  /** `_parse_response(·, fallback)` as the loop of `geocode` applies it to each body. */
  function Parser(fallback: string, parseText: string -> Option<real>): Json -> ParseResult
  {
    data => ParseResponse(data, fallback, parseText)
  }

  /** One pass of the loop: the answer to the request, and the parse when there is a body. */
  function Classify(reply: Reply, parse: Json -> ParseResult): Attempt
  {
    match reply
    case Failed(e) => Errored(e)
    case Answered(data) =>
      match parse(data)
      case NotOk => Rejected
      case Location(r) => Resolved(r)
      case Raises(f) => Broken(f)
  }

  /** The position of the first attempt that ends the call, or the number of attempts if none does. */
  function FirstFinal(steps: seq<Attempt>): (k: nat)
    ensures k <= |steps|
    ensures forall j :: 0 <= j < k ==> !steps[j].Final()
    ensures k < |steps| ==> steps[k].Final()
  {
    if steps == [] || steps[0].Final() then 0 else 1 + FirstFinal(steps[1..])
  }

  /**
   * The RequestException of the latest attempt that raised one, if any
   * did: read from the back, the first `Errored` attempt.
   */
  function LastError(steps: seq<Attempt>): (e: Option<RequestError>)
    ensures e.None? <==> forall j :: 0 <= j < |steps| ==> !steps[j].Errored?
  {
    if steps == [] then None
    else
      var n := |steps| - 1;
      if steps[n].Errored? then Some(steps[n].error)
      else
        assert forall j :: 0 <= j < n ==> steps[..n][j] == steps[j];
        LastError(steps[..n])
  }

  /** An `Errored` attempt with no `Errored` attempt after it is the one `LastError` names. */
  lemma {:induction false} LastErrorIsLatest(steps: seq<Attempt>, k: nat)
    requires k < |steps| && steps[k].Errored?
    requires forall j :: k < j < |steps| ==> !steps[j].Errored?
    ensures LastError(steps) == Some(steps[k].error)
  {
    var n := |steps| - 1;
    if k < n {
      LastErrorIsLatest(steps[..n], k);
    }
  }

  /** Extending the attempts by one: the latest RequestException is the new one, if it raised one. */
  lemma LastErrorExtends(steps: seq<Attempt>, i: nat)
    requires i < |steps|
    ensures LastError(steps[..i + 1]) ==
              if steps[i].Errored? then Some(steps[i].error) else LastError(steps[..i])
  {
    assert steps[..i + 1][..i] == steps[..i];
  }

  /** Sending the next attempt extends the log by its parameters. */
  lemma LogExtends(log0: seq<Params>, attempts: seq<Params>, i: nat, before: seq<Params>, after: seq<Params>)
    requires i < |attempts|
    requires before == log0 + attempts[..i] && after == before + [attempts[i]]
    ensures after == log0 + attempts[..i + 1]
  {
    assert attempts[..i + 1] == attempts[..i] + [attempts[i]];
  }

  /**
   * How the call ends, given what its attempts find: a location or a fault
   * exactly when some attempt ends the call (`ExhaustedRaisesLastError`
   * covers the other case).
   */
  function Conclude(steps: seq<Attempt>): (o: Outcome)
    ensures o.Found? || o.Faulted? <==> FirstFinal(steps) < |steps|
  {
    var k := FirstFinal(steps);
    if k < |steps| then
      (if steps[k].Resolved? then Found(steps[k].result) else Faulted(steps[k].fault))
    else match LastError(steps)
      case Some(e) => RequestFailed(e)
      case None => NotFound
  }

  /** How many requests the call sends: up to and including the first final attempt. */
  function Issued(steps: seq<Attempt>): (n: nat)
    ensures n <= |steps|
    ensures steps != [] ==> 1 <= n
    ensures n < |steps| ==> steps[n - 1].Final()
  {
    var k := FirstFinal(steps);
    if k < |steps| then k + 1 else |steps|
  }

  /**
   * The network behind `_request`: a GET to the VWorld endpoint whose
   * answer, for the request numbered `n`, is `respond(n, params, timeout)`.
   * `log` records the parameters of every request sent.
   */
  class Network {
    const respond: (nat, Params, real) -> Reply
    var sent: nat
    ghost var log: seq<Params>

    ghost predicate Valid()
      reads this
    {
      sent == |log|
    }

    constructor (respond: (nat, Params, real) -> Reply)
      ensures Valid() && this.respond == respond && log == []
    {
      this.respond := respond;
      sent := 0;
      log := [];
    }

    /** `_request(params)`: one GET, its decoded body or the RequestException it raised. */
    method Get(params: Params, timeout: real) returns (reply: Reply)
      requires Valid()
      modifies this
      ensures Valid()
      ensures reply == respond(old(sent), params, timeout)
      ensures log == old(log) + [params]
    {
      reply := respond(sent, params, timeout);
      sent := sent + 1;
      log := log + [params];
    }
  }

  // ---------------------------------------------------------------------
  // Properties of the attempt loop

  /** The first attempt that ends the call decides it, and no later request is sent. */
  lemma FirstFinalDecides(steps: seq<Attempt>, k: nat)
    requires k < |steps| && steps[k].Final()
    requires forall j :: 0 <= j < k ==> !steps[j].Final()
    ensures Issued(steps) == k + 1
    ensures Conclude(steps) == if steps[k].Resolved? then Found(steps[k].result) else Faulted(steps[k].fault)
  {
    var f := FirstFinal(steps);
    assert !(f < k) && !(k < f);
  }

  /**
   * With no attempt ending the call, every request is sent and the call
   * raises the RequestException of the latest attempt that raised one,
   * whatever the attempts after it found; it returns `None` only when no
   * attempt raised one.
   */
  lemma ExhaustedRaisesLastError(steps: seq<Attempt>)
    requires forall j :: 0 <= j < |steps| ==> !steps[j].Final()
    ensures Issued(steps) == |steps|
    ensures Conclude(steps) == NotFound <==> forall j :: 0 <= j < |steps| ==> steps[j].Rejected?
    ensures forall k :: 0 <= k < |steps| && steps[k].Errored? &&
                        (forall j :: k < j < |steps| ==> steps[j].Rejected?) ==>
              Conclude(steps) == RequestFailed(steps[k].error)
  {
    assert FirstFinal(steps) == |steps|;
    forall k | 0 <= k < |steps| && steps[k].Errored? && (forall j :: k < j < |steps| ==> steps[j].Rejected?)
      ensures Conclude(steps) == RequestFailed(steps[k].error)
    {
      LastErrorIsLatest(steps, k);
    }
  }

  /** A RequestException on the first attempt outranks a "not OK" on the second. */
  lemma EarlyErrorOutranksLaterNotOk(e: RequestError)
    ensures Conclude([Errored(e), Rejected]) == RequestFailed(e)
    ensures Issued([Errored(e), Rejected]) == 2
  {
    ExhaustedRaisesLastError([Errored(e), Rejected]);
  }

  // ---------------------------------------------------------------------
  // Properties of `geocode`

  /** An address that is empty after trimming gives `None` and sends no request. */
  lemma BlankAddressSendsNothing(p: VWorldProvider, address: string, respond: (nat, Params, real) -> Reply,
                                 n0: nat, parseText: string -> Option<real>)
    requires AllSpace(address)
    ensures p.GeocodeOutcome(address, respond, n0, parseText) == NotFound
    ensures p.RequestsSent(address, respond, n0, parseText) == []
  {
  }

  /** Without a domain exactly one request is sent, and it carries no domain entry. */
  lemma OneRequestWithoutDomain(p: VWorldProvider, address: string, respond: (nat, Params, real) -> Reply,
                                n0: nat, parseText: string -> Option<real>)
    requires !p.HasDomain() && !AllSpace(address)
    ensures p.RequestsSent(address, respond, n0, parseText) == [p.BuildParams(Strip(address), false)]
  {
    var a := Strip(address);
    var steps := p.Steps(a, respond, n0, parseText);
    assert Issued(steps) == 1;
    assert p.BuildParams(a, true) == p.BuildParams(a, false);
  }

  /**
   * With a domain the with-domain request goes first. The without-domain
   * request follows exactly when the first attempt did not end the call,
   * and then nothing follows it.
   */
  lemma DomainAttemptFirst(p: VWorldProvider, address: string, respond: (nat, Params, real) -> Reply,
                           n0: nat, parseText: string -> Option<real>)
    requires p.HasDomain() && !AllSpace(address)
    ensures var sent := p.RequestsSent(address, respond, n0, parseText);
            var a := Strip(address);
            && 1 <= |sent| <= 2
            && sent[0] == p.BuildParams(a, true) && sent[0][Domain] == p.domain.value
            && (|sent| == 2 <==> !p.Steps(a, respond, n0, parseText)[0].Final())
            && (|sent| == 2 ==> sent[1] == p.BuildParams(a, false) && Domain !in sent[1])
  {
    var a := Strip(address);
    var steps := p.Steps(a, respond, n0, parseText);
    if steps[0].Final() {
      FirstFinalDecides(steps, 0);
    } else if steps[1].Final() {
      FirstFinalDecides(steps, 1);
    } else {
      ExhaustedRaisesLastError(steps);
    }
  }

  /**
   * With a domain, a RequestException on the with-domain request (an HTTP
   * 502, say) makes `geocode` send the without-domain request, and the call
   * never ends in `None`.
   */
  lemma FailedFirstAttemptIsRetried(p: VWorldProvider, address: string, respond: (nat, Params, real) -> Reply,
                                    n0: nat, parseText: string -> Option<real>)
    requires p.HasDomain() && !AllSpace(address)
    requires respond(n0, p.BuildParams(Strip(address), true), p.timeout).Failed?
    ensures |p.RequestsSent(address, respond, n0, parseText)| == 2
    ensures p.GeocodeOutcome(address, respond, n0, parseText) != NotFound
  {
    var a := Strip(address);
    var steps := p.Steps(a, respond, n0, parseText);
    assert steps[0].Errored?;
    DomainAttemptFirst(p, address, respond, n0, parseText);
    if steps[1].Final() {
      FirstFinalDecides(steps, 1);
    } else {
      ExhaustedRaisesLastError(steps);
    }
  }

  /**
   * A body whose coordinates cannot be read is not caught: the call raises at
   * once, and with a domain configured the without-domain request is never sent.
   */
  lemma ParseFaultEscapes(p: VWorldProvider, address: string, respond: (nat, Params, real) -> Reply,
                          n0: nat, parseText: string -> Option<real>)
    requires !AllSpace(address)
    requires var r := respond(n0, p.BuildParams(Strip(address), true), p.timeout);
             r.Answered? && ParseResponse(r.data, Strip(address), parseText).Raises?
    ensures var r := respond(n0, p.BuildParams(Strip(address), true), p.timeout);
            p.GeocodeOutcome(address, respond, n0, parseText) ==
              Faulted(ParseResponse(r.data, Strip(address), parseText).fault)
    ensures |p.RequestsSent(address, respond, n0, parseText)| == 1
  {
    var steps := p.Steps(Strip(address), respond, n0, parseText);
    FirstFinalDecides(steps, 0);
  }

  /**
   * `geocode` ends in `None` exactly when, for a non-blank address, every
   * attempt it made was answered with a status other than "OK".
   */
  lemma NoneOnlyWithoutRequestError(p: VWorldProvider, address: string, respond: (nat, Params, real) -> Reply,
                                    n0: nat, parseText: string -> Option<real>)
    requires !AllSpace(address)
    ensures p.GeocodeOutcome(address, respond, n0, parseText) == NotFound <==>
              forall j :: 0 <= j < |p.Attempts(Strip(address))| ==>
                p.Steps(Strip(address), respond, n0, parseText)[j].Rejected?
  {
    var steps := p.Steps(Strip(address), respond, n0, parseText);
    var k := FirstFinal(steps);
    if k < |steps| {
      FirstFinalDecides(steps, k);
    } else {
      ExhaustedRaisesLastError(steps);
    }
  }
}
