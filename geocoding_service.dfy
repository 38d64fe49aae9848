/**
 * Provider selection and the service front (core/services/geocoding_service.py):
 * `default_provider` picks Kakao, then VWorld, then the dummy provider by
 * which API keys are configured; `GeocodingService` holds the provider it
 * was given or that default, and turns a `requests.RequestException` from
 * the provider into `AddressNotFoundError`.
 *
 * The configuration is an input (`Settings`) rather than environment
 * variables read at import time. The Kakao provider is a function
 * parameter `kakao(apiKey, address)` giving the outcome of its `geocode`.
 */
module Geocoding {
  import opened Optional
  import opened PyText
  import opened Models
  import opened VWorldApi

  /** The three configuration entries `default_provider` reads. */
  datatype Settings = Settings(
    kakaoRestApiKey: Option<string>,
    vworldApiKey: Option<string>,
    vworldDomain: Option<string>)

  /** A configuration entry is truthy: present and not empty. */
  predicate IsSet(entry: Option<string>)
  {
    entry.Some? && entry.value != ""
  }

  /** The geocoding providers the service can hold. */
  datatype Provider =
    | Kakao(apiKey: string)
    | VWorld(vworld: VWorldProvider)
    | Dummy

  /**
   * `default_provider()`: Kakao whenever its key is set, whatever the VWorld
   * settings; VWorld, with the configured key, the normalized domain and the
   * default timeout, when only the VWorld key is set; the dummy provider
   * exactly when neither key is set.
   */
  function DefaultProvider(settings: Settings, urlparse: string -> UrlParts): (p: Provider)
    ensures p.Kakao? <==> IsSet(settings.kakaoRestApiKey)
    ensures p.Kakao? ==> p.apiKey == settings.kakaoRestApiKey.value && p.apiKey != ""
    ensures p.VWorld? <==> !IsSet(settings.kakaoRestApiKey) && IsSet(settings.vworldApiKey)
    ensures p.VWorld? ==>
              p.vworld == NewProvider(settings.vworldApiKey.value, settings.vworldDomain, DefaultTimeout, urlparse)
    ensures p.Dummy? <==> !IsSet(settings.kakaoRestApiKey) && !IsSet(settings.vworldApiKey)
  {
    if IsSet(settings.kakaoRestApiKey) then
      Kakao(settings.kakaoRestApiKey.value)
    else if IsSet(settings.vworldApiKey) then
      VWorld(NewProvider(settings.vworldApiKey.value, settings.vworldDomain, DefaultTimeout, urlparse))
    else
      Dummy
  }

  /** With the Kakao key set, no VWorld setting changes the choice. */
  lemma KakaoOutranksVWorld(settings: Settings, vworldApiKey: Option<string>, vworldDomain: Option<string>,
                            urlparse: string -> UrlParts)
    requires IsSet(settings.kakaoRestApiKey)
    ensures DefaultProvider(settings, urlparse) ==
              DefaultProvider(settings.(vworldApiKey := vworldApiKey, vworldDomain := vworldDomain), urlparse)
  {
  }

  const DummyPoint := Point(37.5665, 126.9780)
  const DummyProviderName := "dummy"
  const DummyNote := "외부 지오코딩 API 미설정: 더미 좌표 반환"

  /**
   * `_DummyGeocodingProvider.geocode(address)`: `None` exactly for an address
   * that is blank; otherwise the trimmed address as both input and
   * normalized address, the fixed point near Seoul City Hall, and a note.
   */
  function DummyGeocode(address: string): (r: Option<LocationResult>)
    ensures r.None? <==> AllSpace(address)
    ensures r.Some? ==>
              && r.value.inputAddress == Strip(address) && r.value.normalizedAddress == Strip(address)
              && r.value.point == DummyPoint && r.value.provider == DummyProviderName
              && r.value.extra == Note(DummyNote)
  {
    var a := Strip(address);
    if a == "" then None
    else Some(LocationResult(a, a, DummyPoint, DummyProviderName, Note(DummyNote)))
  }

  /** Surrounding whitespace makes no difference to the dummy provider. */
  lemma DummyIgnoresSurroundingSpace(address: string)
    ensures DummyGeocode(Strip(address)) == DummyGeocode(address)
  {
    StripIdempotent(address);
  }

  /** The dummy provider's `geocode` as an outcome: it never raises. */
  function DummyOutcome(address: string): (o: Outcome)
    ensures o.Found? || o.NotFound?
    ensures o.Found? <==> DummyGeocode(address).Some?
  {
    match DummyGeocode(address)
    case Some(r) => Found(r)
    case None => NotFound
  }

  /**
   * How `provider.geocode(address)` ends, for each provider: Kakao as the
   * `kakao` parameter says, VWorld as its `geocode` does against the network
   * answers `respond` from request number `n0` on, the dummy provider as above.
   */
  function ProviderOutcome(p: Provider, address: string, respond: (nat, Params, real) -> Reply, n0: nat,
                           parseText: string -> Option<real>, kakao: (string, string) -> Outcome): Outcome
  {
    match p
    case Kakao(key) => kakao(key, address)
    case VWorld(v) => v.GeocodeOutcome(address, respond, n0, parseText)
    case Dummy => DummyOutcome(address)
  }

  const LookupFailedMessage := "지오코딩 서비스에 연결하지 못했습니다. 잠시 후 다시 시도해주세요."

  /** How `GeocodingService.geocode(address)` ends. */
  datatype ServiceResult =
    | Returned(value: Option<LocationResult>)
    | AddressNotFound(message: string, cause: RequestError)   // raised `from` the RequestException
    | Crashed(fault: Fault)                                   // any other exception, not caught

  /**
   * `GeocodingService.geocode` as written: a RequestException becomes
   * `AddressNotFoundError`, any other exception passes through, and since
   * the body has no `return res`, every result of the provider is dropped.
   */
  function TranslateAsWritten(o: Outcome): (r: ServiceResult)
    ensures r.AddressNotFound? <==> o.RequestFailed?
    ensures o.Found? || o.NotFound? ==> r == Returned(None)
  {
    match o
    case RequestFailed(e) => AddressNotFound(LookupFailedMessage, e)
    case Faulted(f) => Crashed(f)
    case _ => Returned(None)
  }

  /** As written, a location the provider found is lost: the caller sees `None`, as if nothing were found. */
  lemma AsWrittenDropsResult(result: LocationResult)
    ensures TranslateAsWritten(Found(result)) == TranslateAsWritten(NotFound) == Returned(None)
    ensures TranslateAsWritten(Found(result)) != Translate(Found(result))
  {
  }

  /**
   * `GeocodingService.geocode` with the evidently intended `return res`: the
   * provider's result is returned, a RequestException becomes
   * `AddressNotFoundError` with the fixed message and the exception as its
   * cause, and any other exception passes through.
   */
  function Translate(o: Outcome): (r: ServiceResult)
    ensures r.AddressNotFound? <==> o.RequestFailed?
    ensures o.RequestFailed? ==> r == AddressNotFound(LookupFailedMessage, o.error)
    ensures o.Found? ==> r == Returned(Some(o.result))
    ensures o.NotFound? ==> r == Returned(None)
    ensures o.Faulted? ==> r == Crashed(o.fault)
  {
    match o
    case Found(res) => Returned(Some(res))
    case NotFound => Returned(None)
    case RequestFailed(e) => AddressNotFound(LookupFailedMessage, e)
    case Faulted(f) => Crashed(f)
  }

  /** Nothing is lost in translation: the provider's outcome can be read back from the service's. */
  lemma TranslateInjective(o1: Outcome, o2: Outcome)
    requires Translate(o1) == Translate(o2)
    ensures o1 == o2
  {
  }

  /** `provider or default_provider()`: an injected provider is always truthy. */
  function ServiceProvider(injected: Option<Provider>, settings: Settings, urlparse: string -> UrlParts): (p: Provider)
    ensures injected.Some? ==> p == injected.value
    ensures injected.None? ==> p == DefaultProvider(settings, urlparse)
  {
    if injected.Some? then injected.value else DefaultProvider(settings, urlparse)
  }

  /**
   * With no provider injected and neither key configured, the service answers
   * every address from the dummy provider: it sends no request and never
   * raises `AddressNotFoundError`.
   */
  lemma UnconfiguredServiceIsDummy(settings: Settings, urlparse: string -> UrlParts, address: string,
                                   respond: (nat, Params, real) -> Reply, n0: nat,
                                   parseText: string -> Option<real>, kakao: (string, string) -> Outcome)
    requires !IsSet(settings.kakaoRestApiKey) && !IsSet(settings.vworldApiKey)
    ensures Translate(ProviderOutcome(ServiceProvider(None, settings, urlparse), address, respond, n0, parseText, kakao))
              == Returned(DummyGeocode(address))
  {
    var p := ServiceProvider(None, settings, urlparse);
    assert p == Dummy;
  }

  /**
   * With only the VWorld key configured, a RequestException on every VWorld
   * attempt reaches the caller as `AddressNotFoundError` carrying the last one.
   */
  lemma VWorldNetworkFailureIsAddressNotFound(settings: Settings, urlparse: string -> UrlParts, address: string,
                                              respond: (nat, Params, real) -> Reply, n0: nat,
                                              parseText: string -> Option<real>, kakao: (string, string) -> Outcome,
                                              e: RequestError)
    requires !IsSet(settings.kakaoRestApiKey) && IsSet(settings.vworldApiKey) && !AllSpace(address)
    requires forall n, params, t :: respond(n, params, t) == Failed(e)
    ensures Translate(ProviderOutcome(ServiceProvider(None, settings, urlparse), address, respond, n0, parseText, kakao))
              == AddressNotFound(LookupFailedMessage, e)
  {
    var v := ServiceProvider(None, settings, urlparse).vworld;
    var steps := v.Steps(Strip(address), respond, n0, parseText);
    ExhaustedRaisesLastError(steps);
    LastErrorIsLatest(steps, |steps| - 1);
  }

  /** `GeocodingService`: the provider it holds is fixed when it is built. */
  class GeocodingService {
    const provider: Provider

    /** `GeocodingService(provider)`: the injected provider, or `default_provider()` when none is given. */
    constructor (injected: Option<Provider>, settings: Settings, urlparse: string -> UrlParts)
      ensures provider == ServiceProvider(injected, settings, urlparse)
    {
      provider := ServiceProvider(injected, settings, urlparse);
    }

    /**
     * `geocode(address)`: asks the provider, and translates a
     * RequestException into `AddressNotFoundError`. Only the VWorld provider
     * uses `net`; the requests it sends are the ones its own `geocode` sends.
     */
    method Geocode(address: string, net: Network, parseText: string -> Option<real>,
                   kakao: (string, string) -> Outcome) returns (r: ServiceResult)
      requires net.Valid()
      modifies net
      ensures net.Valid()
      ensures r == Translate(ProviderOutcome(provider, address, net.respond, old(net.sent), parseText, kakao))
      ensures net.log == old(net.log) +
                (if provider.VWorld? then provider.vworld.RequestsSent(address, net.respond, old(net.sent), parseText)
                 else [])
    {
      var o: Outcome;
      match provider {
        case Kakao(key) =>
          o := kakao(key, address);
        case VWorld(v) =>
          o := v.Geocode(address, net, parseText);
        case Dummy =>
          o := DummyOutcome(address);
      }
      r := Translate(o);
    }
  }
}
