/**
 * The meetings route: with a valid access token, either one document's
 * summary (when `documentId` is given) or the meeting list, whose `limit`
 * query parameter is read with `Number.parseInt(value, 10)`.
 */
module MeetingsRoute {
  import opened Common
  import opened Text
  import opened JsValue
  import opened RouteInputs

  const MissingTokenError: string := "Granola access token is required. Please connect your Granola account."
  const InvalidTokenError: string := "Invalid Granola access token. Please reconnect and try again."

  predicate IsDigit(c: char) {
    '0' <= c <= '9'
  }

  /** The longest prefix of `s` made of decimal digits. */
  function LeadingDigits(s: string): (r: string)
    ensures |r| <= |s| && r == s[..|r|]
    ensures forall i :: 0 <= i < |r| ==> IsDigit(r[i])
    ensures |r| < |s| ==> !IsDigit(s[|r|])
  {
    if |s| == 0 || !IsDigit(s[0]) then []
    else
      var rest := LeadingDigits(s[1..]);
      assert [s[0]] + rest == s[..|rest| + 1];
      [s[0]] + rest
  }

  function DigitValue(c: char): (d: nat)
    requires IsDigit(c)
    ensures d < 10
  {
    c as int - '0' as int
  }

  /** The value of a string of decimal digits. */
  function DigitsValue(digits: string): (n: nat)
    requires forall i :: 0 <= i < |digits| ==> IsDigit(digits[i])
  {
    if |digits| == 0 then 0
    else DigitsValue(digits[..|digits| - 1]) * 10 + DigitValue(digits[|digits| - 1])
  }

  /**
   * `Number.parseInt(s, 10)`: leading white space and one sign are skipped, then the longest run
   * of digits is read; with no digit the result is NaN (`None`).
   */
  function ParseInt(s: string): (r: Option<int>)
    ensures r.None? <==> LeadingDigits(SignedPart(TrimStart(s)).1) == []
  {
    var (negative, rest) := SignedPart(TrimStart(s));
    var digits := LeadingDigits(rest);
    if |digits| == 0 then None
    else
      var magnitude: int := DigitsValue(digits);
      Some(if negative then -magnitude else magnitude)
  }

  /** Whether the text starts with `-`, and the text after one leading `+` or `-`. */
  function SignedPart(t: string): (bool, string) {
    if |t| > 0 && t[0] == '-' then (true, t[1..])
    else if |t| > 0 && t[0] == '+' then (false, t[1..])
    else (false, t)
  }

  /** `parseLimit`: a positive integer, else nothing (absent, empty, not a number, zero or negative). */
  function ParseLimit(value: Option<string>): (r: Option<nat>)
    ensures r.Some? ==> r.value > 0
    ensures !Truthy(value) ==> r.None?
    ensures r.Some? <==> Truthy(value) && ParseInt(value.value).Some? && ParseInt(value.value).value > 0
    ensures r.Some? ==> r.value == ParseInt(value.value).value
  {
    if !Truthy(value) then None
    else
      var parsed := ParseInt(value.value);
      if parsed.None? || parsed.value <= 0 then None else Some(parsed.value)
  }

  /** Reading a number back from its decimal text gives the number. */
  lemma {:induction false} DigitsValueOfNatToString(n: nat)
    ensures forall i :: 0 <= i < |NatToString(n)| ==> IsDigit(NatToString(n)[i])
    ensures DigitsValue(NatToString(n)) == n
  {
    var s := NatToString(n);
    if n >= 10 {
      DigitsValueOfNatToString(n / 10);
      assert s[..|s| - 1] == NatToString(n / 10);
    }
  }

  /** A digit string is its own longest digit prefix. */
  lemma {:induction false} LeadingDigitsOfDigits(s: string, tail: string)
    requires forall i :: 0 <= i < |s| ==> IsDigit(s[i])
    requires tail == [] || !IsDigit(tail[0])
    ensures LeadingDigits(s + tail) == s
  {
    if |s| > 0 {
      assert (s + tail)[1..] == s[1..] + tail;
      LeadingDigitsOfDigits(s[1..], tail);
    }
  }

  /** Text that starts with a digit is read from its first character. */
  lemma ParseIntOfDigits(digits: string, tail: string)
    requires |digits| > 0 && forall i :: 0 <= i < |digits| ==> IsDigit(digits[i])
    requires tail == [] || !IsDigit(tail[0])
    ensures ParseInt(digits + tail) == Some(DigitsValue(digits))
  {
    var s := digits + tail;
    assert s[0] == digits[0];
    assert !IsSpace(s[0]);
    assert TrimStart(s) == s;
    assert SignedPart(s) == (false, s);
    LeadingDigitsOfDigits(digits, tail);
  }

  /** Every positive limit written in decimal, with trailing text after it, is read back exactly. */
  lemma ParseLimitRoundTrip(n: nat, tail: string)
    requires n > 0
    requires tail == [] || !IsDigit(tail[0])
    ensures ParseLimit(Some(NatToString(n) + tail)) == Some(n)
  {
    DigitsValueOfNatToString(n);
    ParseIntOfDigits(NatToString(n), tail);
  }

  /** Zero and negative numbers are no limit. */
  lemma NonPositiveLimitIgnored(n: nat)
    ensures ParseLimit(Some("-" + NatToString(n))) == None
    ensures ParseLimit(Some("0")) == None
  {
    var s := "-" + NatToString(n);
    assert s[0] == '-' && TrimStart(s) == s;
    assert SignedPart(s) == (true, NatToString(n));
    DigitsValueOfNatToString(n);
    LeadingDigitsOfDigits(NatToString(n), []);
    assert NatToString(n) + [] == NatToString(n);
    assert LeadingDigits("0") == "0";
  }

  datatype MeetingsReply = MeetingsError(status: nat, error: string) | MeetingsData(data: Json)

  /** The error reply: auth-like messages get a fixed 401, anything else 500 with the message. */
  function FailureReply(message: string): (r: MeetingsReply)
    ensures IsAuthErrorMessage(message) ==> r == MeetingsError(401, InvalidTokenError)
    ensures !IsAuthErrorMessage(message) ==> r == MeetingsError(500, message)
  {
    if IsAuthErrorMessage(message) then MeetingsError(401, InvalidTokenError) else MeetingsError(500, message)
  }

  /**
   * `GET`: no token answers 401 without fetching; a non-empty `documentId` fetches that summary
   * (the limit is not read); otherwise the meeting list is fetched with the parsed limit.
   */
  function Get(
    authorization: Option<string>, tokenHeader: Option<string>, documentId: Option<string>, limit: Option<string>,
    getDocumentSummary: (string, string) -> Result<Json>, getMeetings: (string, Option<nat>) -> Result<Json>)
    : (r: MeetingsReply)
    ensures ReadAccessToken(authorization, tokenHeader).None? ==> r == MeetingsError(401, MissingTokenError)
    ensures r.MeetingsData? ==> (ReadAccessToken(authorization, tokenHeader).Some?
      && var token := ReadAccessToken(authorization, tokenHeader).value;
      if Truthy(documentId) then getDocumentSummary(token, documentId.value) == Ok(r.data)
      else getMeetings(token, ParseLimit(limit)) == Ok(r.data))
    ensures r.MeetingsError? ==> (r.status == 401 || r.status == 500)
    ensures r.MeetingsError? && r.status == 500 ==> !IsAuthErrorMessage(r.error)
    ensures ReadAccessToken(authorization, tokenHeader).Some? ==>
      var token := ReadAccessToken(authorization, tokenHeader).value;
      var fetched := if Truthy(documentId) then getDocumentSummary(token, documentId.value)
        else getMeetings(token, ParseLimit(limit));
      && (fetched.Ok? ==> r == MeetingsData(fetched.value))
      && (fetched.Err? ==> r == FailureReply(fetched.message))
  {
    match ReadAccessToken(authorization, tokenHeader)
    case None => MeetingsError(401, MissingTokenError)
    case Some(token) =>
      var fetched := if Truthy(documentId) then getDocumentSummary(token, documentId.value)
        else getMeetings(token, ParseLimit(limit));
      match fetched
      case Ok(data) => MeetingsData(data)
      case Err(message) => FailureReply(message)
  }

  /** With a document id, the limit parameter makes no difference. */
  lemma DocumentIdIgnoresLimit(
    authorization: Option<string>, tokenHeader: Option<string>, documentId: string, limitA: Option<string>, limitB: Option<string>,
    getDocumentSummary: (string, string) -> Result<Json>, getMeetings: (string, Option<nat>) -> Result<Json>)
    requires documentId != ""
    ensures Get(authorization, tokenHeader, Some(documentId), limitA, getDocumentSummary, getMeetings)
      == Get(authorization, tokenHeader, Some(documentId), limitB, getDocumentSummary, getMeetings)
  {
  }

  /** An upstream 401 never leaks its own message: the route answers with its fixed text. */
  lemma UpstreamUnauthorizedMasked(prefix: string)
    ensures FailureReply(prefix + "FORBIDDEN") == MeetingsError(401, InvalidTokenError)
  {
    UpperCaseForbiddenIsAuth(prefix);
  }
}
