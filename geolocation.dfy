/**
  The geolocation gate (CheckIPchina). The HTTP GET and the reading of the
  response are outside the model: the caller supplies them as a function from
  the request URL to what the network returned.
*/
module Geolocation {

  import opened Wrappers
  import opened Strings
  import opened Outcome

  const LookupBase := "https://searchplugin.csdn.net/api/v1/ip/get"

  /** The text whose presence in the response body means "in China". */
  const CountryMarker := "中国"

  /** What the lookup returned: a body, or one of the two fatal errors. */
  datatype LookupResult = Body(text: string) | GetError | ReadError

  /** The lookup request for `ip`, formed with no escaping of `ip`. */
  function LookupUrl(ip: string): string
  {
    LookupBase + "?ip=" + ip
  }

  /** The request goes to the lookup endpoint and carries `ip` verbatim. */
  lemma LookupUrlCarriesIp(ip: string)
    ensures Endpoint(LookupUrl(ip)) == LookupBase
    ensures QueryValue(LookupUrl(ip), "ip") == Some(ip)
  {
    assert LookupUrl(ip) == LookupBase + "?" + "ip" + "=" + ip;
    QueryRoundTrip(LookupBase, "ip", ip);
  }

  /** The verdict on a response body: a raw substring test for the marker. */
  predicate IsChina(body: string)
  {
    Contains(body, CountryMarker)
  }

  /**
    The verdict is true exactly when the two marker characters stand next to
    each other somewhere in the body; nothing is trimmed or case-folded.
  */
  lemma IsChinaIff(body: string)
    ensures IsChina(body) <==>
      exists i :: 0 <= i < |body| - 1 && body[i] == '中' && body[i + 1] == '国'
  {
    ContainsIff(body, CountryMarker);
    assert |CountryMarker| == 2 && CountryMarker[0] == '中' && CountryMarker[1] == '国';
    forall i ensures OccursAt(body, CountryMarker, i) <==>
      (0 <= i < |body| - 1 && body[i] == '中' && body[i + 1] == '国')
    {
      if 0 <= i < |body| - 1 {
        assert body[i..i + 2] == [body[i], body[i + 1]];
        assert CountryMarker == [CountryMarker[0], CountryMarker[1]];
      }
    }
  }

  /** An empty body, or any body shorter than the marker, is rejected. */
  lemma ShortBodyRejected(body: string)
    requires |body| < 2
    ensures !IsChina(body)
  {
    IsChinaIff(body);
  }

  /** Whatever surrounds the marker, the verdict stays true. */
  lemma IsChinaInContext(before: string, body: string, after: string)
    requires IsChina(body)
    ensures IsChina(before + body + after)
  {
    ContainsInContext(before, body, after, CountryMarker);
  }

  /**
    CheckIPchina: look up `ip` and judge the body. A failed GET or read is
    fatal; otherwise the verdict is the substring test.
  */
  function CheckIPchina(ip: string, lookup: string -> LookupResult): (r: Result<bool, Failure>)
    ensures r.Ok? <==> lookup(LookupUrl(ip)).Body?
    ensures r.Ok? ==> (r.value <==> exists i :: OccursAt(lookup(LookupUrl(ip)).text, CountryMarker, i))
    ensures lookup(LookupUrl(ip)).GetError? ==> r == Err(LookupGetFailed)
    ensures lookup(LookupUrl(ip)).ReadError? ==> r == Err(LookupReadFailed)
  {
    match lookup(LookupUrl(ip))
    case GetError => Err(LookupGetFailed)
    case ReadError => Err(LookupReadFailed)
    case Body(text) =>
      ContainsIff(text, CountryMarker);
      Ok(IsChina(text))
  }
}
