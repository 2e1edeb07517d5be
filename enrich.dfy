/**
 * The three lookups of internal/enrich/enrich.go (agify, genderize,
 * nationalize). The HTTP exchange and the JSON decoding are replaced by an
 * abstract `Exchange`: what came back for the URL the lookup formed.
 */
module Enrich {

  import opened Wrappers

  const AgifyEndpoint: string := "https://api.agify.io/?name="
  const GenderizeEndpoint: string := "https://api.genderize.io/?name="
  const NationalizeEndpoint: string := "https://api.nationalize.io/?name="

  /** An error value as a lookup returns it. */
  datatype Error = Error(message: string)

  /** The decoded agify body (the name echo and the request count are decoded but unused). */
  datatype AgifyResponse = AgifyResponse(name: string, age: Option<int>, count: int)

  /** The decoded genderize body, without its floating-point probability. */
  datatype GenderizeResponse = GenderizeResponse(name: string, gender: Option<string>, count: int)

  /** One entry of the nationalize country list, without its floating-point probability. */
  datatype Country = Country(countryId: string)

  /** The decoded nationalize body: the countries in the order the service sent them. */
  datatype NationalizeResponse = NationalizeResponse(name: string, country: seq<Country>)

  /**
   * What happened to one lookup's request. `RequestInvalid`: building the
   * request failed (an unparsable URL), whose error the lookup ignores.
   * `TransportFailed`: the client returned an error (connection, timeout).
   * `BodyMalformed`: the JSON decoder returned an error. `BodyDecoded`: the
   * body decoded; the HTTP status is never looked at.
   */
  datatype Exchange<B> =
    | RequestInvalid
    | TransportFailed(err: Error)
    | BodyMalformed(err: Error)
    | BodyDecoded(body: B)

  /**
   * What a lookup returns: Go's `(value, error)` pair, or a panic, which is what
   * the client does when it is handed the nil request of a failed request build.
   */
  datatype Lookup<T> = Returned(value: Option<T>, err: Option<Error>) | Panicked

  /** `fmt.Sprintf("<endpoint>%s", name)`: the endpoint, then the name verbatim, unescaped. */
  function LookupUrl(endpoint: string, name: string): (url: string)
    ensures |url| == |endpoint| + |name|
    ensures url[..|endpoint|] == endpoint && url[|endpoint|..] == name
  {
    endpoint + name
  }

  /** The URL of a lookup determines the name that was looked up. */
  lemma LookupUrlInjective(endpoint: string, name1: string, name2: string)
    requires LookupUrl(endpoint, name1) == LookupUrl(endpoint, name2)
    ensures name1 == name2
  {
    assert name1 == LookupUrl(endpoint, name1)[|endpoint|..];
  }

  /** Whatever the names, two different services are never sent the same URL. */
  lemma ServicesNeverShareUrl(name1: string, name2: string)
    ensures LookupUrl(AgifyEndpoint, name1) != LookupUrl(GenderizeEndpoint, name2)
    ensures LookupUrl(AgifyEndpoint, name1) != LookupUrl(NationalizeEndpoint, name2)
    ensures LookupUrl(GenderizeEndpoint, name1) != LookupUrl(NationalizeEndpoint, name2)
  {
    assert LookupUrl(AgifyEndpoint, name1)[12] == AgifyEndpoint[12] == 'a';
    assert LookupUrl(GenderizeEndpoint, name1)[12] == GenderizeEndpoint[12] == 'g';
    assert LookupUrl(GenderizeEndpoint, name2)[12] == GenderizeEndpoint[12] == 'g';
    assert LookupUrl(NationalizeEndpoint, name2)[12] == NationalizeEndpoint[12] == 'n';
  }

  /**
   * The early-return chain shared by the three lookups: a failed request
   * build panics, a transport or decode error is returned with no value, and
   * a decoded body yields the selected field with no error.
   */
  function Interpret<B, T>(x: Exchange<B>, select: B -> Option<T>): (r: Lookup<T>)
    ensures r.Panicked? <==> x.RequestInvalid?
    ensures r.Returned? ==> r.value.None? || r.err.None?
    ensures (r.Returned? && r.err.Some?) <==> (x.TransportFailed? || x.BodyMalformed?)
    ensures r.Returned? && r.err.Some? ==> r.err.value == x.err
    ensures x.BodyDecoded? ==> r == Returned(select(x.body), None)
  {
    match x
    case RequestInvalid => Panicked
    case TransportFailed(e) => Returned(None, Some(e))
    case BodyMalformed(e) => Returned(None, Some(e))
    case BodyDecoded(b) => Returned(select(b), None)
  }

  /**
   * `GetAge`: the decoded age, absent or not, is returned as it came, with no
   * error; a transport or decode failure gives no age and that error.
   */
  function GetAge(name: string, fetch: string -> Exchange<AgifyResponse>): (r: Lookup<int>)
    ensures var x := fetch(LookupUrl(AgifyEndpoint, name));
      && (x.BodyDecoded? ==> r == Returned(x.body.age, None))
      && ((x.TransportFailed? || x.BodyMalformed?) ==> r == Returned(None, Some(x.err)))
      && (x.RequestInvalid? ==> r.Panicked?)
    ensures r.Returned? ==> r.value.None? || r.err.None?
  {
    Interpret(fetch(LookupUrl(AgifyEndpoint, name)), (b: AgifyResponse) => b.age)
  }

  /** `GetGender`: the decoded gender label, absent or not and whatever its text, with no error. */
  function GetGender(name: string, fetch: string -> Exchange<GenderizeResponse>): (r: Lookup<string>)
    ensures var x := fetch(LookupUrl(GenderizeEndpoint, name));
      && (x.BodyDecoded? ==> r == Returned(x.body.gender, None))
      && ((x.TransportFailed? || x.BodyMalformed?) ==> r == Returned(None, Some(x.err)))
      && (x.RequestInvalid? ==> r.Panicked?)
    ensures r.Returned? ==> r.value.None? || r.err.None?
  {
    Interpret(fetch(LookupUrl(GenderizeEndpoint, name)), (b: GenderizeResponse) => b.gender)
  }

  /** The id of the first country listed, or nothing for an empty list. */
  function FirstCountry(countries: seq<Country>): (r: Option<string>)
    ensures r.Some? <==> |countries| > 0
    ensures r.Some? ==> r.value == countries[0].countryId
  {
    if |countries| > 0 then Some(countries[0].countryId) else None
  }

  /**
   * `GetNationality`: the first listed country (not the most probable one,
   * should the service ever send them unordered), nothing and no error for an
   * empty list, and no value with the error on a transport or decode failure.
   */
  function GetNationality(name: string, fetch: string -> Exchange<NationalizeResponse>): (r: Lookup<string>)
    ensures var x := fetch(LookupUrl(NationalizeEndpoint, name));
      && (x.BodyDecoded? && |x.body.country| > 0 ==> r == Returned(Some(x.body.country[0].countryId), None))
      && (x.BodyDecoded? && |x.body.country| == 0 ==> r == Returned(None, None))
      && ((x.TransportFailed? || x.BodyMalformed?) ==> r == Returned(None, Some(x.err)))
      && (x.RequestInvalid? ==> r.Panicked?)
    ensures r.Returned? ==> r.value.None? || r.err.None?
  {
    Interpret(fetch(LookupUrl(NationalizeEndpoint, name)), (b: NationalizeResponse) => FirstCountry(b.country))
  }
}
