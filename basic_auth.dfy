/**
 * HTTP Basic credentials as section 2 of RFC 7617 defines them: the user-id,
 * a colon and the password, base64-encoded. The client always sends an
 * empty user-id and its credential as the password.
 */
module BasicAuth {
  import opened Wrappers
  import opened Base64

  const Colon: byte := 58
  const Scheme: string := "Basic "

  /** basicAuth(username, password) */
  function Encoded(username: seq<byte>, password: seq<byte>): (s: string)
    ensures |s| == (|username| + |password| + 3) / 3 * 4
    ensures Decode(s) == Some(username + [Colon] + password)
  {
    DecodeEncode(username + [Colon] + password);
    Encode(username + [Colon] + password)
  }

  /**
   * The Authorization header value every request builder sets; it decodes to
   * an empty user-id and the credential.
   */
  function AuthorizationValue(credential: seq<byte>): (h: string)
    ensures ParseAuthorization(h) == Some(([], credential))
  {
    AuthorizationRoundTrip([], credential);
    Scheme + Encoded([], credential)
  }

  /** The position of the first x in bs. */
  function IndexOf(bs: seq<byte>, x: byte): (r: Option<nat>)
    ensures r.Some? ==> r.value < |bs| && bs[r.value] == x && x !in bs[..r.value]
    ensures r.None? ==> x !in bs
  {
    if bs == [] then None
    else if bs[0] == x then Some(0)
    else match IndexOf(bs[1..], x)
      case None => None
      case Some(i) => Some(i + 1)
  }

  /**
   * Reads an Authorization value back into the user-id and the password:
   * "Basic ", then base64, which decodes to a user-id up to the first colon.
   */
  function ParseAuthorization(h: string): Option<(seq<byte>, seq<byte>)> {
    if |h| < |Scheme| || h[..|Scheme|] != Scheme then None
    else match Decode(h[|Scheme|..])
      case None => None
      case Some(pair) =>
        match IndexOf(pair, Colon)
        case None => None
        case Some(i) => Some((pair[..i], pair[i + 1..]))
  }

  lemma {:induction false} FirstColon(u: seq<byte>, p: seq<byte>)
    requires Colon !in u
    ensures IndexOf(u + [Colon] + p, Colon) == Some(|u|)
    decreases |u|
  {
    if u != [] {
      assert (u + [Colon] + p)[1..] == u[1..] + [Colon] + p;
      FirstColon(u[1..], p);
    }
  }

  /**
   * A user-id without a colon (RFC 7617 forbids one) and any password come
   * back unchanged from the header value built from them.
   */
  lemma {:induction false} AuthorizationRoundTrip(u: seq<byte>, p: seq<byte>)
    requires Colon !in u
    ensures ParseAuthorization(Scheme + Encoded(u, p)) == Some((u, p))
  {
    var h := Scheme + Encoded(u, p);
    assert h[..|Scheme|] == Scheme;
    assert h[|Scheme|..] == Encoded(u, p);
    var pair := u + [Colon] + p;
    DecodeEncode(pair);
    FirstColon(u, p);
    assert pair[..|u|] == u;
    assert pair[|u| + 1..] == p;
  }
}
