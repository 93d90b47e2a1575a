/**
 * The client handle and its request plumbing: base URL validation
 * (verifyUrl, NewAdminPortal), the parameter bag (Params), the client
 * (ThreeScaleClient) and the headers its request builders set.
 * URL parsing and resolution belong to net/url and are not modelled: each
 * is a function parameter whose result the model takes as given.
 */
module Client {
  import opened Wrappers
  import opened Decimal
  import opened Base64
  import opened BasicAuth

  /** A URL as net/url parses it; only the scheme is looked at. */
  datatype Url = Url(scheme: string, rest: string)

  /** The admin portal a client talks to, with its parsed base URL. */
  datatype AdminPortal = AdminPortal(scheme: string, host: string, port: int, baseUrl: Url)

  predicate SupportedScheme(scheme: string) {
    scheme == "http" || scheme == "https"
  }

  const UnsupportedSchemePrefix: string := "unsupported schema "
  const UnsupportedSchemeSuffix: string := " passed to adminPortal"

  /** The error verifyUrl gives for a scheme other than http and https; it names the scheme. */
  function UnsupportedSchemeMessage(scheme: string): (m: string)
    ensures |m| == |UnsupportedSchemePrefix| + |scheme| + |UnsupportedSchemeSuffix|
    ensures m[..|UnsupportedSchemePrefix|] == UnsupportedSchemePrefix
    ensures m[|UnsupportedSchemePrefix|..|UnsupportedSchemePrefix| + |scheme|] == scheme
    ensures m[|UnsupportedSchemePrefix| + |scheme|..] == UnsupportedSchemeSuffix
  {
    var m := UnsupportedSchemePrefix + scheme + UnsupportedSchemeSuffix;
    assert m[..|UnsupportedSchemePrefix|] == UnsupportedSchemePrefix;
    assert m[|UnsupportedSchemePrefix|..|UnsupportedSchemePrefix| + |scheme|] == scheme;
    assert m[|UnsupportedSchemePrefix| + |scheme|..] == UnsupportedSchemeSuffix;
    m
  }

  /** verifyUrl returns both the parsed URL (nil when parsing failed) and an error. */
  datatype Verified = Verified(url: Option<Url>, err: Option<string>)

  /**
   * verifyUrl. parseRequestUri stands for url.ParseRequestURI: the parsed URL
   * or the text of its error.
   */
  function VerifyUrl(urlToCheck: string, parseRequestUri: string -> Result<Url, string>): (v: Verified)
    ensures v.err.None? <==>
      parseRequestUri(urlToCheck).Success? && SupportedScheme(parseRequestUri(urlToCheck).value.scheme)
    ensures v.err.None? ==> v.url.Some? && SupportedScheme(v.url.value.scheme)
    ensures parseRequestUri(urlToCheck).Failure? ==> v == Verified(None, Some(parseRequestUri(urlToCheck).error))
    ensures parseRequestUri(urlToCheck).Success? ==> v.url == Some(parseRequestUri(urlToCheck).value)
  {
    match parseRequestUri(urlToCheck)
    case Failure(err) => Verified(None, Some(err))
    case Success(u) =>
      if u.scheme != "http" && u.scheme != "https"
      then Verified(Some(u), Some(UnsupportedSchemeMessage(u.scheme)))
      else Verified(Some(u), None)
  }

  /**
   * fmt.Sprintf("%s://%s:%d", scheme, host, port): the scheme, "://", the
   * host, ":", and the port in decimal, which reads back as the port.
   */
  function PortalUrl(scheme: string, host: string, port: int): (u: string)
    ensures |u| > |scheme| + 3 + |host| + 1
    ensures u[..|scheme| + 3] == scheme + "://"
    ensures u[|scheme| + 3..|scheme| + 3 + |host|] == host
    ensures u[|scheme| + 3 + |host|] == ':'
    ensures ParseInt(u[|scheme| + 3 + |host| + 1..]) == Some(port)
  {
    var d := FormatInt(port);
    var u := scheme + "://" + host + ":" + d;
    assert u[..|scheme| + 3] == scheme + "://";
    assert u[|scheme| + 3..|scheme| + 3 + |host|] == host;
    assert u[|scheme| + 3 + |host| + 1..] == d;
    u
  }

  /**
   * NewAdminPortal: a portal whose base URL passed verifyUrl, or verifyUrl's
   * error instead of a portal.
   */
  function NewAdminPortal(scheme: string, host: string, port: int,
                          parseRequestUri: string -> Result<Url, string>): (r: Result<AdminPortal, string>)
    ensures r.Success? <==> VerifyUrl(PortalUrl(scheme, host, port), parseRequestUri).err.None?
    ensures r.Success? ==>
      && r.value.scheme == scheme && r.value.host == host && r.value.port == port
      && r.value.baseUrl == parseRequestUri(PortalUrl(scheme, host, port)).value
      && SupportedScheme(r.value.baseUrl.scheme)
    ensures r.Failure? ==> r.error == VerifyUrl(PortalUrl(scheme, host, port), parseRequestUri).err.value
  {
    var v := VerifyUrl(PortalUrl(scheme, host, port), parseRequestUri);
    if v.err.Some? then Failure(v.err.value)
    else Success(AdminPortal(scheme, host, port, v.url.value))
  }

  /**
   * When the parser reads back exactly the scheme it was given, a portal is
   * created exactly for the schemes http and https; any other scheme the
   * parser hands back is refused with the unsupported-scheme error. (The Go
   * parser lowercases the scheme, so a scheme such as "HTTPS" reaches the
   * check as "https" and falls outside this lemma's precondition.)
   */
  lemma NewAdminPortalScheme(scheme: string, host: string, port: int,
                             parseRequestUri: string -> Result<Url, string>)
    requires parseRequestUri(PortalUrl(scheme, host, port)).Success?
    requires parseRequestUri(PortalUrl(scheme, host, port)).value.scheme == scheme
    ensures NewAdminPortal(scheme, host, port, parseRequestUri).Success? <==> SupportedScheme(scheme)
    ensures !SupportedScheme(scheme) ==>
      NewAdminPortal(scheme, host, port, parseRequestUri) == Failure(UnsupportedSchemeMessage(scheme))
  {
  }

  /** A parse error is passed on unchanged instead of a portal. */
  lemma NewAdminPortalParseError(scheme: string, host: string, port: int,
                                 parseRequestUri: string -> Result<Url, string>)
    requires parseRequestUri(PortalUrl(scheme, host, port)).Failure?
    ensures NewAdminPortal(scheme, host, port, parseRequestUri)
            == Failure(parseRequestUri(PortalUrl(scheme, host, port)).error)
  {
  }

  /** Params: the parameter bag, a Go map that AddParam updates in place. */
  class Params {
    var entries: map<string, string>

    /** NewParams */
    constructor ()
      ensures entries == map[]
    {
      entries := map[];
    }

    /** AddParam: sets key to value, replacing an earlier value; other keys keep theirs. */
    method AddParam(key: string, value: string)
      modifies this
      ensures entries == old(entries)[key := value]
      ensures key in entries && entries[key] == value
      ensures forall k | k != key :: (k in entries <==> k in old(entries))
      ensures forall k | k != key && k in entries :: entries[k] == old(entries)[k]
    {
      entries := entries[key := value];
    }
  }

  /** The transport a client uses; it is not modelled. */
  datatype HttpClient = DefaultClient | CustomClient(id: nat)

  datatype Verb = GET | POST | PUT | DELETE

  /** The parts of an http.Request the builders decide. */
  datatype Request = Request(verb: Verb, url: string, headers: map<string, string>, body: Option<seq<byte>>)

  const AcceptHeader: string := "Accept"
  const ContentTypeHeader: string := "Content-Type"
  const AuthorizationHeader: string := "Authorization"
  const XmlMediaType: string := "application/xml"
  const FormMediaType: string := "application/x-www-form-urlencoded"

  /**
   * ThreeScaleClient. The credential is held as the bytes of the Go string.
   * resolve stands for baseUrl.ResolveReference(&url.URL{Path: ep}).String().
   */
  class ThreeScaleClient {
    var adminPortal: AdminPortal
    var credential: seq<byte>
    var httpClient: HttpClient

    /** NewThreeScale: a nil http client is replaced by the default one. */
    constructor (backEnd: AdminPortal, credential: seq<byte>, httpClient: Option<HttpClient>)
      ensures adminPortal == backEnd && this.credential == credential
      ensures this.httpClient == if httpClient.None? then DefaultClient else httpClient.value
    {
      adminPortal := backEnd;
      this.credential := credential;
      this.httpClient := if httpClient.None? then DefaultClient else httpClient.value;
    }

    /** SetCredentials: replaces the credential and nothing else. */
    method SetCredentials(credential: seq<byte>)
      modifies this
      ensures this.credential == credential
      ensures adminPortal == old(adminPortal) && httpClient == old(httpClient)
    {
      this.credential := credential;
    }

    /** buildGetReq */
    method BuildGetReq(ep: string, resolve: (Url, string) -> string) returns (req: Request)
      ensures req.verb == GET && req.url == resolve(adminPortal.baseUrl, ep) && req.body == None
      ensures req.headers.Keys == {AcceptHeader, AuthorizationHeader}
      ensures req.headers[AcceptHeader] == XmlMediaType
      ensures req.headers[AuthorizationHeader] == Scheme + Encoded([], credential)
      ensures ParseAuthorization(req.headers[AuthorizationHeader]) == Some(([], credential))
    {
      var headers := map[AcceptHeader := XmlMediaType];
      headers := headers[AuthorizationHeader := AuthorizationValue(credential)];
      req := Request(GET, resolve(adminPortal.baseUrl, ep), headers, None);
    }

    /** buildPostReq */
    method BuildPostReq(ep: string, body: Option<seq<byte>>, resolve: (Url, string) -> string) returns (req: Request)
      ensures req.verb == POST && req.url == resolve(adminPortal.baseUrl, ep) && req.body == body
      ensures req.headers.Keys == {AcceptHeader, ContentTypeHeader, AuthorizationHeader}
      ensures req.headers[AcceptHeader] == XmlMediaType
      ensures req.headers[ContentTypeHeader] == FormMediaType
      ensures req.headers[AuthorizationHeader] == Scheme + Encoded([], credential)
      ensures ParseAuthorization(req.headers[AuthorizationHeader]) == Some(([], credential))
    {
      var headers := map[AcceptHeader := XmlMediaType];
      headers := headers[ContentTypeHeader := FormMediaType];
      headers := headers[AuthorizationHeader := AuthorizationValue(credential)];
      req := Request(POST, resolve(adminPortal.baseUrl, ep), headers, body);
    }

    /** buildUpdateReq: a PUT request. */
    method BuildUpdateReq(ep: string, body: Option<seq<byte>>, resolve: (Url, string) -> string) returns (req: Request)
      ensures req.verb == PUT && req.url == resolve(adminPortal.baseUrl, ep) && req.body == body
      ensures req.headers.Keys == {AcceptHeader, ContentTypeHeader, AuthorizationHeader}
      ensures req.headers[AcceptHeader] == XmlMediaType
      ensures req.headers[ContentTypeHeader] == FormMediaType
      ensures req.headers[AuthorizationHeader] == Scheme + Encoded([], credential)
      ensures ParseAuthorization(req.headers[AuthorizationHeader]) == Some(([], credential))
    {
      var headers := map[AcceptHeader := XmlMediaType];
      headers := headers[ContentTypeHeader := FormMediaType];
      headers := headers[AuthorizationHeader := AuthorizationValue(credential)];
      req := Request(PUT, resolve(adminPortal.baseUrl, ep), headers, body);
    }

    /** buildDeleteReq */
    method BuildDeleteReq(ep: string, body: Option<seq<byte>>, resolve: (Url, string) -> string) returns (req: Request)
      ensures req.verb == DELETE && req.url == resolve(adminPortal.baseUrl, ep) && req.body == body
      ensures req.headers.Keys == {AcceptHeader, ContentTypeHeader, AuthorizationHeader}
      ensures req.headers[AcceptHeader] == XmlMediaType
      ensures req.headers[ContentTypeHeader] == FormMediaType
      ensures req.headers[AuthorizationHeader] == Scheme + Encoded([], credential)
      ensures ParseAuthorization(req.headers[AuthorizationHeader]) == Some(([], credential))
    {
      var headers := map[AcceptHeader := XmlMediaType];
      headers := headers[ContentTypeHeader := FormMediaType];
      headers := headers[AuthorizationHeader := AuthorizationValue(credential)];
      req := Request(DELETE, resolve(adminPortal.baseUrl, ep), headers, body);
    }

    /** buildPutReq: the same request as buildUpdateReq. */
    method BuildPutReq(ep: string, body: Option<seq<byte>>, resolve: (Url, string) -> string) returns (req: Request)
      ensures req.verb == PUT && req.url == resolve(adminPortal.baseUrl, ep) && req.body == body
      ensures req.headers.Keys == {AcceptHeader, ContentTypeHeader, AuthorizationHeader}
      ensures req.headers[AcceptHeader] == XmlMediaType
      ensures req.headers[ContentTypeHeader] == FormMediaType
      ensures req.headers[AuthorizationHeader] == Scheme + Encoded([], credential)
      ensures ParseAuthorization(req.headers[AuthorizationHeader]) == Some(([], credential))
    {
      req := BuildUpdateReq(ep, body, resolve);
    }
  }
}
