/** The derived endpoint URLs: plain string templates over the login host, the
    instance URL and the API version, with no validation of either input. */
module Urls {

  const SoapPath: string := "/services/Soap/u/"
  const TokenPath: string := "/services/oauth2/token"

  /** The SOAP login endpoint `https://{host}/services/Soap/u/{version}`. */
  function SoapLoginUrl(host: string, version: string): string
  {
    "https://" + host + SoapPath + version
  }

  /** The SOAP endpoint on an OAuth instance: `{instanceUrl}/services/Soap/u/{version}`. */
  function InstanceSoapUrl(instanceUrl: string, version: string): string
  {
    instanceUrl + SoapPath + version
  }

  /** The OAuth token endpoint `https://{host}/services/oauth2/token`. */
  function TokenEndpoint(host: string): string
  {
    "https://" + host + TokenPath
  }

  /** For a fixed host the derived URL determines the version. */
  lemma SoapLoginUrlDeterminesVersion(host: string, v1: string, v2: string)
    requires SoapLoginUrl(host, v1) == SoapLoginUrl(host, v2)
    ensures v1 == v2
  {
    var prefix := "https://" + host + SoapPath;
    assert SoapLoginUrl(host, v1) == prefix + v1;
    assert SoapLoginUrl(host, v2) == prefix + v2;
    assert v1 == (prefix + v1)[|prefix|..];
    assert v2 == (prefix + v2)[|prefix|..];
  }

  /** For a fixed version the derived URL determines the host. */
  lemma SoapLoginUrlDeterminesHost(h1: string, h2: string, version: string)
    requires SoapLoginUrl(h1, version) == SoapLoginUrl(h2, version)
    ensures h1 == h2
  {
    var suffix := SoapPath + version;
    var u := SoapLoginUrl(h1, version);
    assert u == "https://" + h1 + suffix;
    assert u == "https://" + h2 + suffix;
    assert |h1| == |h2|;
    assert h1 == u[8..8 + |h1|];
    assert h2 == u[8..8 + |h2|];
  }

  /** The token endpoint is never the SOAP login endpoint of the same host: the two
      part ways at the first letter after `/services/`. */
  lemma TokenEndpointIsNotSoapUrl(host: string, version: string)
    ensures TokenEndpoint(host) != SoapLoginUrl(host, version)
  {
    var k := 8 + |host| + 10;
    assert TokenEndpoint(host)[k] == 'o';
    assert SoapLoginUrl(host, version)[k] == 'S';
  }
}
