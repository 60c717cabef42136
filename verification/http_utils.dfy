/**
 * Reconstruction of the URI a request was received on, from the attributes an
 * HTTP listener records on a flow file: `scheme://client@server:port` followed
 * by the request URI, with `https` exactly when a client certificate subject
 * was recorded.
 */
module HttpUtils {
  import opened Wrappers

  const HttpRequestUri: string := "http.request.uri"
  const HttpRemoteHost: string := "http.remote.host"
  const HttpLocalName: string := "http.local.name"
  const HttpPort: string := "http.server.port"
  const HttpSslCert: string := "http.subject.dn"
  const HttpContextId: string := "http.context.identifier"

  /** The six keys are pairwise distinct. */
  lemma KeysDistinct()
    ensures HttpSslCert != HttpRemoteHost && HttpSslCert != HttpLocalName
    ensures HttpSslCert != HttpPort && HttpSslCert != HttpRequestUri
    ensures HttpContextId != HttpRemoteHost && HttpContextId != HttpLocalName
    ensures HttpContextId != HttpPort && HttpContextId != HttpRequestUri
    ensures HttpContextId != HttpSslCert
    ensures HttpRemoteHost != HttpLocalName && HttpRemoteHost != HttpPort && HttpRemoteHost != HttpRequestUri
    ensures HttpLocalName != HttpPort && HttpLocalName != HttpRequestUri && HttpPort != HttpRequestUri
  {
  }

  /** A Java `Map<String, String>`: a key may be missing or mapped to null. */
  type Attributes = map<string, Option<string>>

  /** `Map.get`: null both for a missing key and for a key mapped to null. */
  function Get(m: Attributes, key: string): Option<string> {
    if key in m then m[key] else None
  }

  /** What Java string concatenation appends for a possibly-null `String`. */
  function ConcatText(v: Option<string>): (s: string)
    ensures v.None? ==> s == "null"
    ensures v.Some? ==> s == v.value
  {
    if v.None? then "null" else v.value
  }

  /** The URI the request was received on. */
  function GetUri(m: Attributes): (uri: string)
    ensures |uri| == (if Get(m, HttpSslCert).None? then 7 else 8)
                     + |ConcatText(Get(m, HttpRemoteHost))| + |ConcatText(Get(m, HttpLocalName))|
                     + |ConcatText(Get(m, HttpPort))| + |ConcatText(Get(m, HttpRequestUri))| + 2
  {
    var client := Get(m, HttpRemoteHost);
    var server := Get(m, HttpLocalName);
    var port := Get(m, HttpPort);
    var uri := Get(m, HttpRequestUri);
    if Get(m, HttpSslCert).None? then
      "http://" + ConcatText(client) + "@" + ConcatText(server) + ":" + ConcatText(port) + ConcatText(uri)
    else
      "https://" + ConcatText(client) + "@" + ConcatText(server) + ":" + ConcatText(port) + ConcatText(uri)
  }

  /** The text both branches write behind the scheme: `client@server:port` and the request URI. */
  function Address(m: Attributes): string {
    ConcatText(Get(m, HttpRemoteHost)) + "@" + ConcatText(Get(m, HttpLocalName)) + ":"
      + ConcatText(Get(m, HttpPort)) + ConcatText(Get(m, HttpRequestUri))
  }

  /** Behind the `http://` or `https://` prefix, both branches write the same address text. */
  lemma UriShape(m: Attributes)
    ensures Get(m, HttpSslCert).None? ==> GetUri(m) == "http://" + Address(m)
    ensures Get(m, HttpSslCert).Some? ==> GetUri(m) == "https://" + Address(m)
  {
    var c, s, p, u := ConcatText(Get(m, HttpRemoteHost)), ConcatText(Get(m, HttpLocalName)),
                      ConcatText(Get(m, HttpPort)), ConcatText(Get(m, HttpRequestUri));
    if Get(m, HttpSslCert).None? {
      PrefixConcat("http://", c, s, p, u);
    } else {
      PrefixConcat("https://", c, s, p, u);
    }
  }

  /** Java's left-nested concatenation regrouped behind its first operand. */
  lemma PrefixConcat(scheme: string, c: string, s: string, p: string, u: string)
    ensures scheme + c + "@" + s + ":" + p + u == scheme + (c + "@" + s + ":" + p + u)
  {
  }

  /** The scheme is `http` exactly when no certificate subject was recorded, `https` exactly when one was. */
  lemma UriScheme(m: Attributes)
    ensures (|GetUri(m)| >= 7 && GetUri(m)[..7] == "http://") <==> Get(m, HttpSslCert).None?
    ensures (|GetUri(m)| >= 8 && GetUri(m)[..8] == "https://") <==> Get(m, HttpSslCert).Some?
  {
    UriShape(m);
    var uri := GetUri(m);
    if Get(m, HttpSslCert).None? {
      assert uri[..7] == "http://";
      assert uri[4] == ':';
    } else {
      assert uri[..8] == "https://";
      assert uri[4] == 's';
    }
  }

  /** Recording a certificate subject only turns `http` into `https`. */
  lemma CertificateOnlyChangesScheme(m: Attributes, subject: string)
    ensures GetUri(m[HttpSslCert := Some(subject)]) == "https" + GetUri(m - {HttpSslCert})[4..]
  {
    var withCert := m[HttpSslCert := Some(subject)];
    var without := m - {HttpSslCert};
    SameAddress(m, withCert);
    SameAddress(m, without);
    UriShape(withCert);
    UriShape(without);
    InsertS(Address(m));
  }

  /** Changing or removing the certificate entry leaves the address text alone. */
  lemma SameAddress(m: Attributes, m': Attributes)
    requires forall k :: k != HttpSslCert ==> Get(m', k) == Get(m, k)
    ensures Address(m') == Address(m)
  {
    KeysDistinct();
    assert Get(m', HttpRemoteHost) == Get(m, HttpRemoteHost);
    assert Get(m', HttpLocalName) == Get(m, HttpLocalName);
    assert Get(m', HttpPort) == Get(m, HttpPort);
    assert Get(m', HttpRequestUri) == Get(m, HttpRequestUri);
  }

  lemma InsertS(address: string)
    ensures "https" + ("http://" + address)[4..] == "https://" + address
  {
  }

  /**
   * The URI depends on the four address entries and on whether a certificate
   * subject is present, and on nothing else: not on the subject's value, nor
   * on any other entry.
   */
  lemma UriDependsOnlyOnAddressEntries(m1: Attributes, m2: Attributes)
    requires Get(m1, HttpRemoteHost) == Get(m2, HttpRemoteHost)
    requires Get(m1, HttpLocalName) == Get(m2, HttpLocalName)
    requires Get(m1, HttpPort) == Get(m2, HttpPort)
    requires Get(m1, HttpRequestUri) == Get(m2, HttpRequestUri)
    requires Get(m1, HttpSslCert).None? == Get(m2, HttpSslCert).None?
    ensures GetUri(m1) == GetUri(m2)
  {
  }

  /** Two certificate subjects give the same URI. */
  lemma UriIgnoresSubjectValue(m: Attributes, subject1: string, subject2: string)
    ensures GetUri(m[HttpSslCert := Some(subject1)]) == GetUri(m[HttpSslCert := Some(subject2)])
  {
    UriDependsOnlyOnAddressEntries(m[HttpSslCert := Some(subject1)], m[HttpSslCert := Some(subject2)]);
  }

  /** Setting the context identifier, or any entry outside the five read, leaves the URI unchanged. */
  lemma UriIgnoresOtherEntries(m: Attributes, key: string, value: Option<string>)
    requires key !in {HttpRemoteHost, HttpLocalName, HttpPort, HttpRequestUri, HttpSslCert}
    ensures GetUri(m[key := value]) == GetUri(m)
    ensures GetUri(m[HttpContextId := value]) == GetUri(m)
  {
    KeysDistinct();
    UriDependsOnlyOnAddressEntries(m[key := value], m);
    UriDependsOnlyOnAddressEntries(m[HttpContextId := value], m);
  }

  /** Missing address entries are written as the text `null`. */
  lemma MissingEntriesReadNull(m: Attributes)
    requires Get(m, HttpRemoteHost).None? && Get(m, HttpLocalName).None?
    requires Get(m, HttpPort).None? && Get(m, HttpRequestUri).None?
    ensures Get(m, HttpSslCert).None? ==> GetUri(m) == "http://null@null:nullnull"
    ensures Get(m, HttpSslCert).Some? ==> GetUri(m) == "https://null@null:nullnull"
  {
  }
}
