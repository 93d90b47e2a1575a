/**
 * How a response is turned into "no error" or an ApiErr (handleXMLResp,
 * handleJsonResp, handleXMLErrResp, handleJsonErrResp). The XML and JSON
 * decoders are not modelled: what a decoder makes of the body is an input,
 * either the decoded value or the text of the decoder's error.
 */
module Responses {
  import opened Wrappers
  import opened ApiErrors

  /** The verdict of an opaque decoder on a response body. */
  datatype Decoded<T> = Decoded(value: T) | DecodeFailed(failure: string)

  /**
   * What a handler leaves behind: no error, with what was decoded into the
   * destination (None when nothing was decoded), or the ApiErr it returns.
   */
  datatype Outcome<T> = Ok(filled: Option<T>) | Err(err: ApiErr)

  /** createApiErr(status, createDecodingErrorMessage(err)) */
  function DecodingErr(status: int, failure: string): (e: ApiErr)
    ensures e.code == status && DecodingFailureOf(e.reason) == Some(failure)
  {
    ApiErr(status, DecodingErrorMessage(failure))
  }

  // ---------------------------------------------------------------- XML

  /**
   * handleXMLErrResp: the error body is decoded as an element whose text is
   * the reason. errDecoded is the XML decoder's verdict on that body.
   */
  function HandleXmlErrResp(status: int, errDecoded: Decoded<string>): (e: ApiErr)
    ensures e.code == status
  {
    match errDecoded
    case Decoded(text) => ApiErr(status, text)
    case DecodeFailed(failure) => DecodingErr(status, failure)
  }

  /**
   * handleXMLResp. decodeInto is None when the caller passed a nil
   * destination, and otherwise the XML decoder's verdict on the body for that
   * destination; errDecoded is its verdict when the body is read as an error.
   */
  function HandleXmlResp<T>(status: int, expectCode: int, decodeInto: Option<Decoded<T>>,
                            errDecoded: Decoded<string>): (r: Outcome<T>)
    ensures r.Ok? <==> status == expectCode && (decodeInto.None? || decodeInto.value.Decoded?)
    ensures r.Err? ==> r.err.code == status
  {
    if status != expectCode then Err(HandleXmlErrResp(status, errDecoded))
    else match decodeInto
      case None => Ok(None)
      case Some(DecodeFailed(failure)) => Err(DecodingErr(status, failure))
      case Some(Decoded(v)) => Ok(Some(v))
  }

  /**
   * An unexpected status gives exactly handleXMLErrResp's error, which carries
   * the actual status, never the expected one.
   */
  lemma XmlStatusMismatch<T>(status: int, expectCode: int, decodeInto: Option<Decoded<T>>,
                             errDecoded: Decoded<string>)
    requires status != expectCode
    ensures HandleXmlResp(status, expectCode, decodeInto, errDecoded) == Err(HandleXmlErrResp(status, errDecoded))
    ensures HandleXmlResp(status, expectCode, decodeInto, errDecoded).err.code != expectCode
  {
  }

  /** The reason of an XML error is the decoded text, or the decoding-error message. */
  lemma XmlErrReason(status: int, errDecoded: Decoded<string>)
    ensures errDecoded.Decoded? ==> HandleXmlErrResp(status, errDecoded) == ApiErr(status, errDecoded.value)
    ensures errDecoded.DecodeFailed? ==>
      HandleXmlErrResp(status, errDecoded) == ApiErr(status, DecodingErrorPrefix + errDecoded.failure)
  {
  }

  /** With the expected status and a nil destination there is no error and nothing is decoded. */
  lemma XmlNilDestination<T>(status: int, errDecoded: Decoded<string>)
    ensures HandleXmlResp<T>(status, status, None, errDecoded) == Ok(None)
  {
  }

  /** With the expected status, the body's decoded value or the decoding error with that status. */
  lemma XmlExpectedStatus<T>(status: int, d: Decoded<T>, errDecoded: Decoded<string>)
    ensures d.Decoded? ==> HandleXmlResp(status, status, Some(d), errDecoded) == Ok(Some(d.value))
    ensures d.DecodeFailed? ==>
      HandleXmlResp(status, status, Some(d), errDecoded) == Err(ApiErr(status, DecodingErrorPrefix + d.failure))
  {
  }

  // ---------------------------------------------------------------- JSON

  /**
   * order lists each key of m exactly once: the order in which a range loop
   * over the Go map visits them, which Go leaves unspecified.
   */
  predicate IsKeyOrder(order: seq<string>, m: map<string, string>) {
    multiset(order) == multiset(m.Keys)
  }

  /** What the loop adds for one value of the error map. */
  function Segment(v: string): string {
    " - " + v + " "
  }

  /** The segments of the values of m, visited in the given key order. */
  function Segments(m: map<string, string>, order: seq<string>): (s: string)
    requires forall k | k in order :: k in m
    ensures |s| >= 4 * |order|
  {
    if order == [] then ""
    else Segments(m, order[..|order| - 1]) + Segment(m[order[|order| - 1]])
  }

  /** The reason handleJsonErrResp builds from a decoded error map. */
  function ErrorMapMessage(m: map<string, string>, order: seq<string>): (msg: string)
    requires forall k | k in order :: k in m
    ensures |msg| >= 5 + 4 * |order| && msg[..5] == "error"
  {
    "error" + Segments(m, order)
  }

  lemma KeyOrderInMap(order: seq<string>, m: map<string, string>)
    requires IsKeyOrder(order, m)
    ensures forall k | k in order :: k in m
    ensures |order| == |m|
  {
    forall k | k in order ensures k in m {
      assert k in multiset(order);
    }
    assert |multiset(order)| == |multiset(m.Keys)|;
  }

  /**
   * handleJsonErrResp's loop: starting from "error", it appends
   * " - " + v + " " for every value v of the map, in the map's iteration order.
   */
  method FlattenErrorMap(m: map<string, string>) returns (msg: string, ghost order: seq<string>)
    ensures IsKeyOrder(order, m)
    ensures forall k | k in order :: k in m
    ensures msg == ErrorMapMessage(m, order)
    ensures |msg| >= 5 + 4 * |m| && msg[..5] == "error"
  {
    msg := "error";
    order := [];
    var remaining := m.Keys;
    while remaining != {}
      invariant remaining <= m.Keys
      invariant forall k | k in order :: k in m
      invariant multiset(order) + multiset(remaining) == multiset(m.Keys)
      invariant msg == ErrorMapMessage(m, order)
      decreases |remaining|
    {
      var k :| k in remaining;
      msg := msg + Segment(m[k]);
      assert (order + [k])[..|order|] == order;
      order := order + [k];
      remaining := remaining - {k};
    }
    KeyOrderInMap(order, m);
  }

  /**
   * handleJsonErrResp, for the key order its loop happens to use. The error
   * body is decoded as a map from field to message; errDecoded is the JSON
   * decoder's verdict on it.
   */
  function JsonErrResp(status: int, errDecoded: Decoded<map<string, string>>, order: seq<string>): (e: ApiErr)
    requires errDecoded.Decoded? ==> IsKeyOrder(order, errDecoded.value)
    ensures e.code == status
  {
    match errDecoded
    case DecodeFailed(failure) => DecodingErr(status, failure)
    case Decoded(m) =>
      KeyOrderInMap(order, m);
      ApiErr(status, ErrorMapMessage(m, order))
  }

  /** handleJsonErrResp */
  method HandleJsonErrResp(status: int, errDecoded: Decoded<map<string, string>>)
    returns (e: ApiErr, ghost order: seq<string>)
    ensures e.code == status
    ensures errDecoded.DecodeFailed? ==> e == DecodingErr(status, errDecoded.failure)
    ensures errDecoded.Decoded? ==> |e.reason| >= 5 + 4 * |errDecoded.value| && e.reason[..5] == "error"
    ensures errDecoded.Decoded? ==> IsKeyOrder(order, errDecoded.value)
    ensures e == JsonErrResp(status, errDecoded, order)
  {
    order := [];
    match errDecoded
    case DecodeFailed(failure) =>
      e := DecodingErr(status, failure);
    case Decoded(m) =>
      var msg;
      msg, order := FlattenErrorMap(m);
      e := ApiErr(status, msg);
  }

  /**
   * handleJsonResp, for the key order handleJsonErrResp's loop happens to use.
   * decoded is the JSON decoder's verdict on the body for the caller's
   * destination; there is no separate case for a nil destination.
   */
  function JsonResp<T>(status: int, expectCode: int, decoded: Decoded<T>,
                       errDecoded: Decoded<map<string, string>>, order: seq<string>): (r: Outcome<T>)
    requires status != expectCode && errDecoded.Decoded? ==> IsKeyOrder(order, errDecoded.value)
    ensures r.Ok? <==> status == expectCode && decoded.Decoded?
    ensures r.Err? ==> r.err.code == status
  {
    if status != expectCode then Err(JsonErrResp(status, errDecoded, order))
    else match decoded
      case DecodeFailed(failure) => Err(DecodingErr(status, failure))
      case Decoded(v) => Ok(Some(v))
  }

  /** handleJsonResp */
  method HandleJsonResp<T>(status: int, expectCode: int, decoded: Decoded<T>,
                           errDecoded: Decoded<map<string, string>>)
    returns (r: Outcome<T>, ghost order: seq<string>)
    ensures r.Ok? <==> status == expectCode && decoded.Decoded?
    ensures r.Err? ==> r.err.code == status
    ensures r.Ok? ==> r.filled == Some(decoded.value)
    ensures status != expectCode && errDecoded.Decoded? ==> IsKeyOrder(order, errDecoded.value)
    ensures r == JsonResp(status, expectCode, decoded, errDecoded, order)
  {
    order := [];
    if status != expectCode {
      var e;
      e, order := HandleJsonErrResp(status, errDecoded);
      return Err(e), order;
    }
    match decoded
    case DecodeFailed(failure) =>
      r := Err(DecodingErr(status, failure));
    case Decoded(v) =>
      r := Ok(Some(v));
  }

  /** An unexpected status gives exactly handleJsonErrResp's error, with the actual status. */
  lemma JsonStatusMismatch<T>(status: int, expectCode: int, decoded: Decoded<T>,
                              errDecoded: Decoded<map<string, string>>, order: seq<string>)
    requires errDecoded.Decoded? ==> IsKeyOrder(order, errDecoded.value)
    requires status != expectCode
    ensures JsonResp(status, expectCode, decoded, errDecoded, order) == Err(JsonErrResp(status, errDecoded, order))
    ensures JsonResp(status, expectCode, decoded, errDecoded, order).err.code != expectCode
  {
  }

  /** With the expected status, a body that fails to decode gives the decoding error with that status. */
  lemma JsonDecodeFailure<T>(status: int, failure: string,
                             errDecoded: Decoded<map<string, string>>, order: seq<string>)
    ensures JsonResp<T>(status, status, DecodeFailed(failure), errDecoded, order)
            == Err(ApiErr(status, DecodingErrorPrefix + failure))
  {
  }

  /**
   * Unlike handleXMLResp, handleJsonResp has no nil-destination shortcut: the
   * XML handler reports success with nothing filled in whenever the status
   * matches and the destination is nil, while the JSON handler, whatever its
   * inputs, never reports success without a decoded value.
   */
  lemma JsonHasNoNilShortcut<T>(status: int, expectCode: int, decoded: Decoded<T>,
                                xmlErr: Decoded<string>,
                                jsonErr: Decoded<map<string, string>>, order: seq<string>)
    requires status != expectCode && jsonErr.Decoded? ==> IsKeyOrder(order, jsonErr.value)
    ensures HandleXmlResp<T>(expectCode, expectCode, None, xmlErr) == Ok(None)
    ensures JsonResp<T>(status, expectCode, decoded, jsonErr, order) != Ok(None)
    ensures JsonResp<T>(status, expectCode, decoded, jsonErr, order).Ok? ==>
      JsonResp<T>(status, expectCode, decoded, jsonErr, order).filled == Some(decoded.value)
  {
  }

  /** A body that does not decode as an error map gives the decoding error with the status. */
  lemma JsonErrUndecodable(status: int, failure: string, order: seq<string>)
    ensures JsonErrResp(status, DecodeFailed(failure), order) == ApiErr(status, DecodingErrorPrefix + failure)
  {
  }

  /** An empty error map gives exactly the reason "error". */
  lemma {:induction false} JsonErrEmptyMap(status: int, order: seq<string>)
    requires IsKeyOrder(order, map[])
    ensures JsonErrResp(status, Decoded(map[]), order) == ApiErr(status, "error")
  {
    KeyOrderInMap(order, map[]);
  }

  /** A map with one entry gives "error - " + its value + " ". */
  lemma {:induction false} JsonErrSingleEntry(status: int, k: string, v: string, order: seq<string>)
    requires IsKeyOrder(order, map[k := v])
    ensures JsonErrResp(status, Decoded(map[k := v]), order) == ApiErr(status, "error - " + v + " ")
  {
    var m := map[k := v];
    KeyOrderInMap(order, m);
    assert |order| == 1;
    assert order[0] in multiset(order);
    assert order == [k];
    assert Segments(m, order) == Segments(m, []) + Segment(v);
  }

  lemma {:induction false} SegmentsAppend(m: map<string, string>, a: seq<string>, b: seq<string>)
    requires forall k | k in a :: k in m
    requires forall k | k in b :: k in m
    ensures forall k | k in a + b :: k in m
    ensures Segments(m, a + b) == Segments(m, a) + Segments(m, b)
    decreases |b|
  {
    assert forall k | k in a + b :: k in a || k in b;
    if b == [] {
      assert a + b == a;
    } else {
      var b' := b[..|b| - 1];
      assert (a + b)[..|a + b| - 1] == a + b';
      assert (a + b)[|a + b| - 1] == b[|b| - 1];
      SegmentsAppend(m, a, b');
    }
  }

  lemma Middle(a: string, t: string, b: string)
    ensures (a + t + b)[|a|..|a| + |t|] == t
  {
  }

  /** The key order splits the segments around the segment of any one key. */
  lemma {:induction false} SegmentsAround(m: map<string, string>, order: seq<string>, i: nat)
    requires forall k | k in order :: k in m
    requires i < |order|
    ensures Segments(m, order)
            == Segments(m, order[..i]) + Segment(m[order[i]]) + Segments(m, order[i + 1..])
  {
    var before, after := order[..i], order[i + 1..];
    assert order == before + [order[i]] + after;
    SegmentsAppend(m, before, [order[i]]);
    SegmentsAppend(m, before + [order[i]], after);
    assert Segments(m, [order[i]]) == Segments(m, []) + Segment(m[order[i]]);
  }

  /**
   * Whatever order the map is visited in, the reason holds the segment
   * " - " + v + " " of every value v in the error map.
   */
  lemma {:induction false} JsonErrReasonHasEveryValue(status: int, m: map<string, string>, order: seq<string>, k: string)
    returns (pos: nat)
    requires IsKeyOrder(order, m)
    requires k in m
    ensures pos + |Segment(m[k])| <= |JsonErrResp(status, Decoded(m), order).reason|
    ensures JsonErrResp(status, Decoded(m), order).reason[pos..pos + |Segment(m[k])|] == Segment(m[k])
  {
    KeyOrderInMap(order, m);
    assert k in multiset(order);
    var i :| 0 <= i < |order| && order[i] == k;
    SegmentsAround(m, order, i);
    var a := "error" + Segments(m, order[..i]);
    var msg := JsonErrResp(status, Decoded(m), order).reason;
    assert msg == a + Segment(m[k]) + Segments(m, order[i + 1..]);
    Middle(a, Segment(m[k]), Segments(m, order[i + 1..]));
    pos := |a|;
  }
}
