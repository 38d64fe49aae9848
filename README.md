# Geocoding core of rooftop-frontend, in Dafny

This project models the logic under the Streamlit pages of rooftop-frontend
and proves properties of that model:

- **The VWorld geocoding provider** (`api/vworld_api.py`). It cleans the
  configured domain and builds the query parameters, with or without the
  `domain` entry. It reads the JSON answer; note that `point.x` is the
  longitude and `point.y` the latitude. `geocode` tries the with-domain
  request first. When a domain is configured, it then tries the
  without-domain request. It returns the first location found, remembers
  a `RequestException` and moves on, and at the end re-raises the last
  one or returns `None`.
- **Provider selection and the service front**
  (`core/services/geocoding_service.py`). `default_provider` tries Kakao,
  then VWorld, then the dummy provider. The dummy provider answers any
  non-blank address with a fixed point. `GeocodingService` turns a
  `RequestException` into `AddressNotFoundError`.
- **Polygon helpers** (`core/utils/geometry.py`). Two tests decide whether
  a list of pairs reads as Korean `(lon, lat)` or `(lat, lon)` coordinates;
  each counts the pairs in a bounding box against a 60% threshold. The
  lon/lat swap normalisation and the shoelace area complete the module.

Files:

- `optional.dfy`: `Option`.
- `pytext.dfy`: Python's whitespace set and `str.strip()`.
- `json.dfy`: decoded JSON values, Python truthiness, `(x or {}).get(k)`, `float()`.
- `models.dfy`: `LocationResult`, the request errors, the parse faults, and a provider call's outcome.
- `vworld_api.dfy`: the VWorld provider.
- `geocoding_service.dfy`: the service and provider selection.
- `geometry.dfy`: the polygon helpers.

How the model is built:

- `_request` is the `Network` class. Its answer to the request numbered
  `n` is `respond(n, params, timeout)`: either a decoded body or a
  `RequestError`. A ghost `log` records the parameters of every request
  sent.
- `VWorldProvider.Geocode` is proved against a declarative description,
  `GeocodeOutcome` and `RequestsSent`, built from what each attempt would
  find (`Steps`). The lemmas after it are stated on that description.
- The parse of a body is a parameter of the attempt loop (`TryInOrder`),
  so the loop is proved once for any parser. `Geocode` passes it
  `_parse_response`.
- `urlparse`, `float()` on a string, the Kakao provider and the
  metres-per-degree formulas are function parameters. They live in code
  that is not part of this model, or they are floating-point trigonometry.

The orientation tests compute `valid / len(points) >= 0.6` in floating
point. The model states this as `5 * valid >= 3 * n`. `Geometry.SixtyPercent`
proves that this is the exact ratio test over the reals. The double
nearest 0.6 lies just below 3/5, while any fraction below 3/5 with
denominator `n` lies at least `1/(5n)` below it. So the float test agrees
with the exact one for every list shorter than about 10^15 points.

## Model

| member | source | states |
|---|---|---|
| `PyText.Strip` | api/vworld_api.py:71 | `str.strip()`: the result is empty exactly when the text is all whitespace; otherwise it starts and ends with non-whitespace and is the text with whitespace-only runs cut from both ends |
| `PyText.StripIdempotent` | core/services/geocoding_service.py:38 | stripping a stripped address changes nothing |
| `Json.Get` | api/vworld_api.py:52-60 | `(x or {}).get(k)`: fails (AttributeError) exactly on a truthy non-dict; on a dict gives the entry, or `None` for a missing key; a falsy value reads as `{}` |
| `Json.ToFloat` | api/vworld_api.py:57-58 | `float(v)`: a number is itself, a bool is 1.0 or 0.0, a string is what the string parser gives, anything else (`None`, lists, dicts) fails |
| `VWorldApi.NormalizeDomain` | api/vworld_api.py:8-15 | `None` or `""` gives no domain; a URL with a scheme gives its netloc, or none when that is empty; any other string is kept; the result is never `""` |
| `VWorldApi.NewProvider` | api/vworld_api.py:26-29 | the key and timeout as given, the domain normalized; the domain is truthy exactly when present |
| `VWorldApi.VWorldProvider.BuildParams` | api/vworld_api.py:31-44 | the keys are exactly the seven fixed ones plus `domain` iff it is asked for and a domain is set; the seven fixed values; `domain` holds the configured domain |
| `VWorldApi.ParseResponseCases` | api/vworld_api.py:51-68 | a truthy non-dict on the path to `status` raises (a falsy one reads as `{}`, so the result is `None`); `None` exactly when `response.status` is reachable and not "OK"; on "OK", a `point.x` or a `point.y` that `float()` rejects raises; on "OK" with both coordinates converted and `refined.text` a string or falsy, the result is exactly the location with lat from `y`, lon from `x`, the text or fallback as normalized address; any result has lon from `point.x`, lat from `point.y`, the fallback as input address, provider "vworld", the raw body as `extra`, and `refined.text` as normalized address when truthy, else the fallback |
| `VWorldApi.ParseOkBody` | api/vworld_api.py:51-68 | a well-formed "OK" body reads back to exactly the point, with `x`/`y` swapped into lon/lat, and its refined text (or the fallback when that is empty) |
| `VWorldApi.ParseResponse` | api/vworld_api.py:51-68 | a result always has the fallback as input address, provider "vworld" and the raw body as `extra`; for a non-empty fallback its normalized address is never empty |
| `VWorldApi.WireNamesDistinct` | api/vworld_api.py:33-43 | distinct parameter keys go out under distinct query-string names, so the key set of the model is the key set of the dict |
| `VWorldApi.VWorldProvider.Attempts` | api/vworld_api.py:75-77 | one attempt without a domain, two with one; the first carries the domain, the second equals the without-domain parameters; the last never carries a domain |
| `VWorldApi.Network.Get` | api/vworld_api.py:46-49 | one request: the answer the network gives to this request number, and the log grows by these parameters |
| `VWorldApi.TryInOrder` | api/vworld_api.py:79-94 | the loop returns the first found location, raises the first parse fault, and otherwise raises the latest request error or returns `None`; the requests sent are the attempts up to and including the one that ended the call |
| `VWorldApi.VWorldProvider.Geocode` | api/vworld_api.py:70-94 | the outcome and the requests sent are those of `GeocodeOutcome`/`RequestsSent` for the trimmed address |
| `VWorldApi.VWorldProvider.GeocodeOutcome` | api/vworld_api.py:70-94 | a blank address gives `None`; a location found has the trimmed address as input, provider "vworld" and a non-empty normalized address |
| `VWorldApi.ResolvedCameFromParse` | api/vworld_api.py:82-89 | a location an attempt found is `_parse_response` of that attempt's answered body with the trimmed address as fallback |
| `VWorldApi.ResolvedNamesAddress` | api/vworld_api.py:82-89 | so a location an attempt found names the fallback address as input and "vworld" as provider, with a non-empty normalized address when the fallback is non-empty |
| `VWorldApi.Conclude` | api/vworld_api.py:79-94 | the call returns a location or raises a parse fault exactly when some attempt ended it |
| `VWorldApi.Issued` | api/vworld_api.py:80-89 | at most one request per attempt, at least one when there are attempts, and fewer than all only when the last one sent ended the call |
| `VWorldApi.FirstFinal` | api/vworld_api.py:80-89 | the position of the first attempt that returns or raises: none before it, and it does, when it is in range |
| `VWorldApi.LastError` | api/vworld_api.py:79-92 | no remembered error exactly when no attempt raised a RequestException |
| `VWorldApi.LastErrorIsLatest` | api/vworld_api.py:79-92 | the remembered error is that of the latest attempt that raised one, whatever came after it |
| `VWorldApi.FirstFinalDecides` | api/vworld_api.py:87-89 | the first attempt that finds a location or faults decides the call, and exactly the requests up to it are sent |
| `VWorldApi.ExhaustedRaisesLastError` | api/vworld_api.py:91-94 | when no attempt ends the call, all requests are sent; `None` exactly when every attempt was "not OK"; otherwise the latest request error is raised |
| `VWorldApi.EarlyErrorOutranksLaterNotOk` | api/vworld_api.py:91-94 | a request error on the first attempt followed by "not OK" on the second raises that error, after two requests |
| `VWorldApi.BlankAddressSendsNothing` | api/vworld_api.py:71-73 | a blank address gives `None` and sends no request |
| `VWorldApi.OneRequestWithoutDomain` | api/vworld_api.py:75-77 | without a domain exactly one request is sent, the without-domain parameters |
| `VWorldApi.DomainAttemptFirst` | api/vworld_api.py:74-89 | with a domain the with-domain request goes first; the second is sent iff the first did not end the call, and it carries no domain |
| `VWorldApi.FailedFirstAttemptIsRetried` | api/vworld_api.py:80-85 | a request error on the with-domain attempt leads to the without-domain request, and the call cannot end in `None` |
| `VWorldApi.ParseFaultEscapes` | api/vworld_api.py:87 | a parse fault on the first answer is raised at once, and it is exactly the fault `_parse_response` raised on that body; no second request is sent |
| `VWorldApi.NoneOnlyWithoutRequestError` | api/vworld_api.py:88-94 | for a non-blank address, `None` exactly when every attempt was answered "not OK" |
| `Geocoding.DefaultProvider` | core/services/geocoding_service.py:12-21 | Kakao iff its key is set; VWorld iff only the VWorld key is set, with that key, the normalized domain and the 5-second timeout; the dummy provider iff neither key is set |
| `Geocoding.KakaoOutranksVWorld` | core/services/geocoding_service.py:13-15 | with the Kakao key set, no VWorld setting changes the choice |
| `Geocoding.DummyGeocode` | core/services/geocoding_service.py:37-47 | `None` exactly for a blank address; otherwise the trimmed address as input and normalized address, lat 37.5665, lon 126.9780, provider "dummy", and the note |
| `Geocoding.DummyIgnoresSurroundingSpace` | core/services/geocoding_service.py:38 | the dummy answer for an address and for its trimmed form are the same |
| `Geocoding.DummyOutcome` | core/services/geocoding_service.py:37-47 | the dummy provider never raises; it finds a location exactly when it returns one |
| `Geocoding.ServiceProvider` | core/services/geocoding_service.py:24-25 | the injected provider when one is given, `default_provider()` otherwise |
| `Geocoding.GeocodingService.constructor` | core/services/geocoding_service.py:24-25 | the service holds `ServiceProvider(...)` |
| `Geocoding.TranslateAsWritten` | core/services/geocoding_service.py:27-32 | as written: `AddressNotFoundError` exactly for a RequestException; a found location or `None` both give `None` |
| `Geocoding.AsWrittenDropsResult` | core/services/geocoding_service.py:28-29 | as written, a found location reaches the caller as `None`, unlike the corrected translation |
| `Geocoding.Translate` | core/services/geocoding_service.py:27-32 | `AddressNotFoundError` with the fixed message and the RequestException as cause exactly for a RequestException; a result or `None` is returned; any other exception passes through |
| `Geocoding.TranslateInjective` | core/services/geocoding_service.py:27-32 | the provider's outcome can be read back from the service's |
| `Geocoding.GeocodingService.Geocode` | core/services/geocoding_service.py:27-32 | the service's answer is the translation of its provider's outcome; only the VWorld provider uses the modelled network (`net`), and it sends exactly the requests of its `geocode` |
| `Geocoding.UnconfiguredServiceIsDummy` | core/services/geocoding_service.py:21-25 | with nothing injected and neither key set, the service answers every address with the dummy provider's result |
| `Geocoding.VWorldNetworkFailureIsAddressNotFound` | core/services/geocoding_service.py:16-32 | with only the VWorld key set, a network that fails every request makes the service raise `AddressNotFoundError` caused by that error |
| `Geometry.CountLonLat` | core/utils/geometry.py:23-26 | the count of pairs in the box never exceeds the number of pairs |
| `Geometry.CountLatLon` | core/utils/geometry.py:33-36 | the count of pairs in the box, read as `(lat, lon)`, never exceeds the number of pairs |
| `Geometry.LooksLonLat` | core/utils/geometry.py:20-27 | the lon/lat test is false for an empty list and needs at least one pair in the box |
| `Geometry.LooksLatLon` | core/utils/geometry.py:30-37 | the lat/lon test is false for an empty list and needs at least one pair in the box |
| `Geometry.LooksLikeKoreaLonLat` | core/utils/geometry.py:20-27 | the counting loop gives `LooksLonLat`: false for an empty list, else at least 60% of the pairs read as `(lon, lat)` fall in the inclusive box |
| `Geometry.LooksLikeKoreaLatLon` | core/utils/geometry.py:30-37 | the counting loop gives `LooksLatLon`, the same test reading pairs as `(lat, lon)` |
| `Geometry.CountIsInBoxPositions` | core/utils/geometry.py:23-26 | the counter equals the number of positions whose pair, read as `(lon, lat)`, is in the box |
| `Geometry.SixtyPercent` | core/utils/geometry.py:27 | `5 * valid >= 3 * n` is the real ratio test `valid / n >= 0.6` |
| `Geometry.LooksLonLatMeansSixtyPercent` | core/utils/geometry.py:20-27 | the lon/lat test passes iff the list is non-empty and the share of in-box positions is at least 0.6 |
| `Geometry.Swapped` | core/utils/geometry.py:44 | same length, every pair with its entries exchanged, in order |
| `Geometry.SwappedTwice` | core/utils/geometry.py:44 | swapping twice gives the list back |
| `Geometry.CountLatLonIsSwappedCount` | core/utils/geometry.py:30-37 | counting as `(lat, lon)` is counting the swapped list as `(lon, lat)` |
| `Geometry.LatLonIsSwappedLonLat` | core/utils/geometry.py:30-37 | `_looks_like_korea_latlon(pts)` equals `_looks_like_korea_lonlat` of the swapped list |
| `Geometry.NormalizedLonLat` | core/utils/geometry.py:40-45 | unchanged when the lon/lat test passes, swapped when only the lat/lon test passes, unchanged otherwise; same length; when either test passed, the result passes the lon/lat test |
| `Geometry.NormalizeIdempotent` | core/utils/geometry.py:40-45 | normalising a normalised list changes nothing, for every list |
| `Geometry.NormalizePolygonLonLat` | core/utils/geometry.py:40-45 | running the two tests in order gives `NormalizedLonLat` |
| `Geometry.Project` | core/utils/geometry.py:65 | same length; each pair scaled by metres per degree |
| `Geometry.NextIndex` | core/utils/geometry.py:70 | `(i + 1) % n` is the next point of the ring, the first after the last |
| `Geometry.ShoelaceSum` | core/utils/geometry.py:67-71 | the accumulation loop computes the cyclic shoelace sum |
| `Geometry.Area` | core/utils/geometry.py:53-73 | never negative; 0 for fewer than three points |
| `Geometry.PolygonAreaM2` | core/utils/geometry.py:47-73 | the area is `Area`: half the absolute shoelace sum of the normalised ring, projected at its mean latitude |
| `Geometry.ClosedEqualsOpen` | core/utils/geometry.py:50-71 | repeating the first point at the end leaves the shoelace sum unchanged |
| `Geometry.ClosedOrOpenSameShoelace` | core/utils/geometry.py:50-71 | for fixed factors, the closed and the open polygon project to rings with the same shoelace sum |

## Left out

- The HTTP round trip (`requests.get`, `raise_for_status`, `resp.json`) is the `respond` oracle. No transport-level retry exists, so none is modelled.
- `urllib.parse.urlparse` is a parameter. Only the scheme and netloc it returns are modelled.
- `float()` on a string is a parameter. Numbers are exact reals: float rounding, NaN and infinities are not modelled.
- `haversine_m` and the cosine formulas for metres per degree (core/utils/geometry.py:10-18, 59-63) are floating-point trigonometry. The area takes the two factors as functions of the mean latitude.
- `Geometry.ClosedOrOpenSameShoelace`: holds for fixed factors only. A repeated first point shifts the mean latitude, and with it the factors. It can also change the count behind the orientation tests.
- The Kakao provider (`api/kakao_api.py`) is not part of this model. Its `geocode` is the `kakao(apiKey, address)` parameter.
- `core/config.py` reads environment variables and secrets at import time. The three entries `default_provider` reads are the `Settings` input.
- The `address or ""` guard for `None`: the address is typed `str` and modelled as a string.
- `core/models.py` is not part of this model. `LocationResult` is a plain record; its `point` dict is `Point(lat, lon)` and its `extra` dict is the `Extra` value. A truthy `refined.text` that is not a string is modelled as a raised fault (`NotText`), since the record's own checks are not shown.
- `resp.json()` on a body that is not JSON is taken to raise `requests.JSONDecodeError`, a RequestException (requests 2.27 and later), modelled as `BodyNotJson`. With older requests it raises a plain `ValueError`, which would escape `geocode` without the next attempt; `Reply` does not express that case.
- The parameter dict is a map: the insertion order of its keys is not modelled.
- The Streamlit pages and UI modules, and the diagnostic script, are not part of this model.
- `GeocodingService.geocode`: the source's indentation (a nine-space `try:` over an eight-space `except`) and the `from exc` on its own line do not parse. The model reads them as the evident `try`/`except ... raise AddressNotFoundError(...) from exc`.

## Findings

| source | as written | input that shows it | evidently intended | confidence | as-written member | corrected member |
|---|---|---|---|---|---|---|
| core/services/geocoding_service.py:27-32 | `geocode` stores the provider's answer in `res` but has no `return res`, so it always returns `None` | any address the provider resolves, e.g. the dummy provider with "서울시청" | return the provider's result after the `try` | high; not executed | `Geocoding.AsWrittenDropsResult` | `Geocoding.Translate` |

The rest of the model uses the corrected `Geocoding.Translate`.
`Geocoding.TranslateInjective` proves that nothing the provider reports is lost.
