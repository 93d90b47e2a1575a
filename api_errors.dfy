/**
 * The structured API error every failing call surfaces (Go type ApiErr, with
 * its two methods Error and Code), the message shape of a decoding failure,
 * and readers that recover both from the text they produce.
 */
module ApiErrors {
  import opened Wrappers
  import opened Decimal

  const ErrorPrefix: string := "error calling 3scale system - reason: "
  const CodeSeparator: string := " - code: "
  const DecodingErrorPrefix: string := "decoding error - "

  /** An HTTP status code and the reason extracted from the body (Go field err). */
  datatype ApiErr = ApiErr(code: int, reason: string) {

    /**
     * ApiErr.Error: the human-readable message, which starts with ErrorPrefix
     * and from which ParseErrorText recovers the whole error.
     */
    function Error(): (s: string)
      ensures |s| > |ErrorPrefix| + |reason| && s[..|ErrorPrefix|] == ErrorPrefix
      ensures ParseErrorText(s) == Some(this)
    {
      ErrorTextParses(code, reason);
      ErrorPrefix + reason + CodeSeparator + FormatInt(code)
    }

    /** ApiErr.Code: the status code the message of Error() reports. */
    function Code(): (c: int)
      ensures ParseErrorText(Error()).value.code == c
    {
      code
    }
  }

  /** createDecodingErrorMessage: the reason given when a body fails to decode. */
  function DecodingErrorMessage(failure: string): (m: string)
    ensures |m| == |DecodingErrorPrefix| + |failure|
    ensures DecodingFailureOf(m) == Some(failure)
  {
    var m := DecodingErrorPrefix + failure;
    assert m[..|DecodingErrorPrefix|] == DecodingErrorPrefix;
    assert m[|DecodingErrorPrefix|..] == failure;
    m
  }

  /** The decoder's failure text inside a decoding-error reason, if the reason is one. */
  function DecodingFailureOf(reason: string): Option<string> {
    if |reason| >= |DecodingErrorPrefix| && reason[..|DecodingErrorPrefix|] == DecodingErrorPrefix
    then Some(reason[|DecodingErrorPrefix|..])
    else None
  }

  /** The start of the last occurrence of pat in s. */
  function LastIndexOf(s: string, pat: string): (r: Option<nat>)
    ensures r.Some? ==> r.value + |pat| <= |s|
  {
    if |s| < |pat| then None
    else if s[|s| - |pat|..] == pat then Some(|s| - |pat|)
    else LastIndexOf(s[..|s| - 1], pat)
  }

  /** Reads an Error() text back into the error it describes. */
  function ParseErrorText(s: string): Option<ApiErr> {
    if |s| < |ErrorPrefix| || s[..|ErrorPrefix|] != ErrorPrefix then None
    else
      var t := s[|ErrorPrefix|..];
      match LastIndexOf(t, CodeSeparator)
      case None => None
      case Some(i) =>
        match ParseInt(t[i + |CodeSeparator|..])
        case None => None
        case Some(c) => Some(ApiErr(c, t[..i]))
  }

  /** A string ending in the separator has its last occurrence at its end. */
  lemma SeparatorAtEnd(r: string)
    ensures LastIndexOf(r + CodeSeparator, CodeSeparator) == Some(|r|)
  {
  }

  /** A last character other than a space cannot end an occurrence of the separator. */
  lemma SeparatorNotAtEnd(s: string)
    requires |s| >= |CodeSeparator| && s[|s| - 1] != ' '
    ensures LastIndexOf(s, CodeSeparator) == LastIndexOf(s[..|s| - 1], CodeSeparator)
  {
  }

  /**
   * A separator followed by text without spaces: the last occurrence of the
   * separator is the one before that text.
   */
  lemma {:induction false} LastSeparatorBeforeCode(r: string, d: string)
    requires ' ' !in d
    ensures LastIndexOf(r + CodeSeparator + d, CodeSeparator) == Some(|r|)
    decreases |d|
  {
    if d == [] {
      assert r + CodeSeparator + d == r + CodeSeparator;
      SeparatorAtEnd(r);
    } else {
      var s := r + CodeSeparator + d;
      assert s[|s| - 1] == d[|d| - 1];
      assert s[..|s| - 1] == r + CodeSeparator + d[..|d| - 1];
      SeparatorNotAtEnd(s);
      assert d == d[..|d| - 1] + [d[|d| - 1]];
      LastSeparatorBeforeCode(r, d[..|d| - 1]);
    }
  }

  /** The message Error() writes determines the code and the reason. */
  lemma {:induction false} ErrorTextParses(code: int, reason: string)
    ensures ParseErrorText(ErrorPrefix + reason + CodeSeparator + FormatInt(code)) == Some(ApiErr(code, reason))
  {
    var d := FormatInt(code);
    var s := ErrorPrefix + reason + CodeSeparator + d;
    assert s[..|ErrorPrefix|] == ErrorPrefix;
    var t := s[|ErrorPrefix|..];
    assert t == reason + CodeSeparator + d;
    LastSeparatorBeforeCode(reason, d);
    assert t[|reason| + |CodeSeparator|..] == d;
    assert t[..|reason|] == reason;
  }

  /** Two errors with the same message are the same error. */
  lemma ErrorTextInjective(a: ApiErr, b: ApiErr)
    requires a.Error() == b.Error()
    ensures a == b
  {
  }
}
