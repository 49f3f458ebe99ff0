/** The request and response records of the Textbelt client library
    (textbelt_utils/models.py) and the validation an `SMSRequest` runs when it
    is constructed. Constructing a request either yields the request, with its
    fields exactly as given, or raises a `ValueError`; the model returns a
    `Result` whose error says which of the three checks failed first. */
module Models {
  import opened Wrappers
  import opened UnicodeDigits

  // ---------------------------------------------------------------------------
  // Records
  // ---------------------------------------------------------------------------

  /** `SMSRequest.MAX_MESSAGE_LENGTH`: the longest message, in characters, a request may carry. */
  const MaxMessageLength: nat := 2000

  /** The upper bound of `\d{1,14}` in `SMSRequest.PHONE_REGEX`: how many digits
      may follow the leading one. */
  const MaxTrailingDigits: nat := 14

  /** A message to send. The three optional fields default to `None`. */
  datatype SMSRequest = SMSRequest(
    phone: string,
    message: string,
    key: string,
    sender: Option<string>,
    replyWebhookUrl: Option<string>,
    webhookData: Option<string>)

  /** The answer to a send: whether it succeeded, the quota left, and the
      message identifier or the error text when the service gives them. */
  datatype SMSResponse = SMSResponse(
    success: bool,
    quotaRemaining: int,
    textId: Option<string>,
    error: Option<string>)

  /** A reply delivered to the webhook given with a request. */
  datatype WebhookResponse = WebhookResponse(
    textId: string,
    fromNumber: string,
    text: string,
    data: Option<string>)

  /** The five delivery states the service reports. */
  datatype StatusType =
    | Delivered  // the carrier confirmed sending
    | Sent       // handed to the carrier, no receipt available
    | Sending    // queued or dispatched to the carrier
    | Failed     // not received
    | Unknown    // the state could not be determined

  /** The answer to a status lookup. */
  datatype StatusResponse = StatusResponse(status: StatusType)

  /** The answer to a quota lookup. */
  datatype QuotaResponse = QuotaResponse(success: bool, quotaRemaining: int)

  // ---------------------------------------------------------------------------
  // Status literals
  // ---------------------------------------------------------------------------

  /** The string the service uses for each status. */
  function StatusLiteral(s: StatusType): string {
    match s
    case Delivered => "DELIVERED"
    case Sent => "SENT"
    case Sending => "SENDING"
    case Failed => "FAILED"
    case Unknown => "UNKNOWN"
  }

  /** The status a string names, if it is one of the five literals. A string
      names a status exactly when it is that status's literal. */
  function ParseStatus(r: string): (s: Option<StatusType>)
    ensures s.Some? ==> StatusLiteral(s.value) == r
    ensures s.None? ==> forall t :: StatusLiteral(t) != r
  {
    if r == "DELIVERED" then Some(Delivered)
    else if r == "SENT" then Some(Sent)
    else if r == "SENDING" then Some(Sending)
    else if r == "FAILED" then Some(Failed)
    else if r == "UNKNOWN" then Some(Unknown)
    else None
  }

  /** Every status is recovered from its literal, so the five literals are distinct. */
  lemma StatusLiteralRoundTrip(s: StatusType)
    ensures ParseStatus(StatusLiteral(s)) == Some(s)
  {
  }

  // ---------------------------------------------------------------------------
  // The phone pattern `^\+[1-9]\d{1,14}$`, as `re.match` applies it
  // ---------------------------------------------------------------------------

  /** `[1-9]`: an ASCII digit other than zero. */
  predicate IsNonZeroAsciiDigit(c: char) {
    '1' <= c <= '9'
  }

  /** How far the matcher has come through the pattern: before `\+`, before
      `[1-9]`, or inside `\d{1,14}` having consumed `count` digits. */
  datatype PatternPos = AtPlus | AtLeadDigit | InDigits(count: nat)

  /** `$` without the MULTILINE flag: the rest of the input is empty, or is a
      single line feed. */
  predicate AtEnd(rest: string) {
    rest == [] || rest == ['\n']
  }

  /** Whether the pattern, from position `pos` on, matches a prefix of `rest`
      that `$` accepts the end of. Inside the digit run the matcher may stop
      (after at least one digit) or take one more digit (up to fourteen). */
  predicate MatchFrom(rest: string, pos: PatternPos)
    ensures MatchFrom(rest, pos) ==> forall i :: 0 <= i < |rest| - 1 ==> rest[i] != '\n'
    decreases |rest|
  {
    match pos
    case AtPlus =>
      |rest| > 0 && rest[0] == '+' && MatchFrom(rest[1..], AtLeadDigit)
    case AtLeadDigit =>
      |rest| > 0 && IsNonZeroAsciiDigit(rest[0]) && MatchFrom(rest[1..], InDigits(0))
    case InDigits(n) =>
      || (1 <= n && AtEnd(rest))
      || (n < MaxTrailingDigits && |rest| > 0 && IsDecimalDigit(rest[0])
          && MatchFrom(rest[1..], InDigits(n + 1)))
  }

  /** `PHONE_REGEX.match(phone)` is truthy: `re.match` anchors at the start, so
      the pattern is run from its first position on the whole string. */
  predicate PhoneRegexMatches(phone: string) {
    MatchFrom(phone, AtPlus)
  }

  /** Every character of `s` is a `\d`. */
  predicate AllDecimalDigits(s: string) {
    forall i :: 0 <= i < |s| ==> IsDecimalDigit(s[i])
  }

  /** `s` without its last character when that is a line feed. */
  function StripFinalNewline(s: string): (t: string)
    ensures s == t || s == t + ['\n']
    ensures (|s| > 0 && s[|s| - 1] == '\n') <==> s != t
  {
    if |s| > 0 && s[|s| - 1] == '\n' then s[..|s| - 1] else s
  }

  /** A plus sign, a digit 1 to 9, then 1 to 14 decimal digits. */
  predicate PhoneBody(t: string) {
    && 3 <= |t| <= 3 + MaxTrailingDigits - 1
    && t[0] == '+'
    && IsNonZeroAsciiDigit(t[1])
    && AllDecimalDigits(t[2..])
  }

  /** The strings the phone pattern accepts, described without a matcher: a
      phone body, or a phone body followed by one line feed. */
  predicate PhoneShape(s: string) {
    || PhoneBody(s)
    || (|s| > 0 && s[|s| - 1] == '\n' && PhoneBody(s[..|s| - 1]))
  }

  /** The phone the E.164 format of ITU-T Recommendation E.164 (clause 6) and
      the docstring of `SMSRequest` describe: a plus sign, a first digit other
      than 0 and at most 15 digits (both from E.164), at least 2 digits (the
      lower bound of the pattern's `\d{1,14}`), every digit ASCII. */
  predicate IsStrictE164(s: string) {
    && 3 <= |s| <= 16
    && s[0] == '+'
    && IsNonZeroAsciiDigit(s[1])
    && forall i :: 2 <= i < |s| ==> IsAsciiDigit(s[i])
  }

  /** Stripping a final line feed from a string of two or more characters, or
      of one that is not a line feed, keeps its first character. */
  lemma StripFinalNewlineCons(s: string)
    requires |s| > 0 && !AtEnd(s)
    ensures StripFinalNewline(s) == [s[0]] + StripFinalNewline(s[1..])
  {
    if s[|s| - 1] == '\n' {
      assert s[1..][|s| - 2] == '\n';
      assert s[..|s| - 1] == [s[0]] + s[1..][..|s| - 2];
    }
  }

  /** Inside the digit run, after `n` digits, the matcher succeeds exactly
      when what is left, less a final line feed, is all digits and brings
      the run to between 1 and 14 digits. */
  lemma {:induction false} DigitRunMatches(rest: string, n: nat)
    requires n <= MaxTrailingDigits
    ensures MatchFrom(rest, InDigits(n)) <==>
      (1 <= n + |StripFinalNewline(rest)| <= MaxTrailingDigits
       && AllDecimalDigits(StripFinalNewline(rest)))
  {
    if AtEnd(rest) {
      assert StripFinalNewline(rest) == [];
      NewlineNotDecimalDigit();
    } else {
      var tail := StripFinalNewline(rest[1..]);
      StripFinalNewlineCons(rest);
      AllDecimalDigitsCons(rest[0], tail);
      assert MatchFrom(rest, InDigits(n)) ==
        (n < MaxTrailingDigits && IsDecimalDigit(rest[0]) && MatchFrom(rest[1..], InDigits(n + 1)));
      if n < MaxTrailingDigits {
        DigitRunMatches(rest[1..], n + 1);
      }
    }
  }

  /** A string is all digits exactly when its head and its tail are. */
  lemma AllDecimalDigitsCons(c: char, t: string)
    ensures AllDecimalDigits([c] + t) <==> IsDecimalDigit(c) && AllDecimalDigits(t)
  {
    if IsDecimalDigit(c) && AllDecimalDigits(t) {
      forall i | 0 <= i < |t| + 1 ensures IsDecimalDigit(([c] + t)[i]) {
        if i > 0 { assert ([c] + t)[i] == t[i - 1]; }
      }
    }
    if AllDecimalDigits([c] + t) {
      assert IsDecimalDigit(([c] + t)[0]);
      forall i | 0 <= i < |t| ensures IsDecimalDigit(t[i]) {
        assert ([c] + t)[i + 1] == t[i];
      }
    }
  }

  /** A phone body never ends in a line feed, so the shape is the body of the
      string less its final line feed. */
  lemma PhoneShapeIsStrippedBody(s: string)
    ensures PhoneShape(s) <==> PhoneBody(StripFinalNewline(s))
  {
    NewlineNotDecimalDigit();
  }

  /** The matcher and the description agree on every string: the pattern
      accepts exactly `+`, one digit 1 to 9, 1 to 14 further digits, and
      possibly one final line feed. */
  lemma PhoneRegexMatchesIff(s: string)
    ensures PhoneRegexMatches(s) <==> PhoneShape(s)
  {
    PhoneShapeIsStrippedBody(s);
    NewlineNotDecimalDigit();
    var t := StripFinalNewline(s);
    if |s| < 2 || s[0] != '+' {
      if |s| == 1 && s[0] == '+' {
        assert !MatchFrom(s[1..], AtLeadDigit);
      }
      assert !PhoneBody(t);
    } else if !IsNonZeroAsciiDigit(s[1]) {
      assert s[1..][0] == s[1];
      assert !MatchFrom(s[1..], AtLeadDigit);
      assert !PhoneBody(t);
    } else {
      assert s[1..][0] == s[1] && s[1..][1..] == s[2..];
      assert PhoneRegexMatches(s) == MatchFrom(s[1..], AtLeadDigit);
      assert MatchFrom(s[1..], AtLeadDigit) == MatchFrom(s[2..], InDigits(0));
      assert |t| >= 2 && t[0] == s[0] && t[1] == s[1];
      var u := StripFinalNewline(s[2..]);
      assert u == t[2..];
      DigitRunMatches(s[2..], 0);
      assert PhoneBody(t) == (1 <= |u| <= MaxTrailingDigits && AllDecimalDigits(u));
    }
  }

  /** What every accepted phone looks like: 3 to 16 characters, or 17 when the
      last one is a line feed; a leading plus; a second character that is a
      digit 1 to 9, so never 0. */
  lemma AcceptedPhoneShape(s: string)
    requires PhoneRegexMatches(s)
    ensures 3 <= |s| <= 17
    ensures |s| == 17 ==> s[16] == '\n'
    ensures s[0] == '+'
    ensures IsNonZeroAsciiDigit(s[1]) && s[1] != '0'
  {
    PhoneRegexMatchesIff(s);
  }

  /** A phone without the leading plus, or with 0 after it, is rejected. */
  lemma RejectedPhoneStarts(s: string)
    requires |s| == 0 || s[0] != '+' || (|s| >= 2 && s[1] == '0')
    ensures !PhoneRegexMatches(s)
  {
    if |s| >= 2 && s[0] == '+' {
      assert s[1..][0] == '0';
      assert !MatchFrom(s[1..], AtLeadDigit);
      assert !MatchFrom(s, AtPlus);
    }
  }

  /** Every strict E.164 phone is accepted; conversely an accepted phone made
      of ASCII characters and not ending in a line feed is a strict E.164 phone. */
  lemma StrictE164Agreement(s: string)
    ensures IsStrictE164(s) ==> PhoneRegexMatches(s)
    ensures PhoneRegexMatches(s) && (forall i :: 0 <= i < |s| ==> s[i] as int < 128)
              && s[|s| - 1] != '\n'
            ==> IsStrictE164(s)
  {
    PhoneRegexMatchesIff(s);
    if IsStrictE164(s) {
      forall i | 0 <= i < |s| - 2 ensures IsDecimalDigit(s[2..][i]) {
        AsciiDecimalDigits(s[i + 2]);
      }
    }
    if PhoneRegexMatches(s) && (forall i :: 0 <= i < |s| ==> s[i] as int < 128) && s[|s| - 1] != '\n' {
      assert PhoneBody(s);
      forall i | 2 <= i < |s| ensures IsAsciiDigit(s[i]) {
        assert IsDecimalDigit(s[2..][i - 2]);
        AsciiDecimalDigits(s[i]);
      }
    }
  }

  /** `$` lets one final line feed through: a phone body followed by a line
      feed is accepted, followed by two is not. */
  lemma FinalNewlineAccepted(t: string)
    requires PhoneBody(t)
    ensures PhoneRegexMatches(t + ['\n'])
    ensures !PhoneRegexMatches(t + ['\n', '\n'])
  {
    var s1 := t + ['\n'];
    var s2 := t + ['\n', '\n'];
    assert s1[..|s1| - 1] == t;
    PhoneRegexMatchesIff(s1);
    PhoneRegexMatchesIff(s2);
    NewlineNotDecimalDigit();
    assert s2[..|s2| - 1] == t + ['\n'];
    assert s2[..|s2| - 1][2..][|t| - 2] == '\n';
  }

  /** `\d` takes digits of other scripts: "+1" followed by ARABIC-INDIC DIGITS
      TWO and THREE is accepted although it is not a strict E.164 phone. */
  lemma NonAsciiDigitsAccepted()
    ensures PhoneRegexMatches("+1\U{0662}\U{0663}")
    ensures !IsStrictE164("+1\U{0662}\U{0663}")
  {
    PhoneRegexMatchesIff("+1\U{0662}\U{0663}");
    assert IsDecimalDigit('\U{0663}');
  }

  // ---------------------------------------------------------------------------
  // Validation in `SMSRequest.__post_init__`
  // ---------------------------------------------------------------------------

  /** The three `ValueError`s construction can raise, in the order they are checked. */
  datatype ValidationError = BadPhone | TooLong | Empty

  /** The text of each `ValueError`. The tests match the leading words. */
  function ErrorMessage(e: ValidationError): (m: string)
    ensures e == BadPhone ==> "Phone number must be in E.164 format" <= m
    ensures e == TooLong ==> "Message length exceeds maximum" <= m
    ensures e == Empty ==> "Message cannot be empty" <= m
  {
    match e
    case BadPhone => "Phone number must be in E.164 format (e.g., +1234567890)"
    case TooLong => "Message length exceeds maximum of " + DecimalString(MaxMessageLength) + " characters"
    case Empty => "Message cannot be empty"
  }

  /** The number a string of ASCII digits spells in base 10. */
  function DigitsValue(s: string): nat
    requires forall i :: 0 <= i < |s| ==> IsAsciiDigit(s[i])
  {
    if s == [] then 0
    else
      assert IsAsciiDigit(s[|s| - 1]);
      DigitsValue(s[..|s| - 1]) * 10 + (s[|s| - 1] as int - '0' as int)
  }

  /** The decimal digits of `n`, as an f-string renders an `int`: ASCII digits
      that spell `n`, with no leading zero unless `n` is 0. */
  function DecimalString(n: nat): (s: string)
    ensures 0 < |s|
    ensures forall i :: 0 <= i < |s| ==> IsAsciiDigit(s[i])
    ensures DigitsValue(s) == n
    ensures s[0] == '0' ==> s == "0"
  {
    if n < 10 then [('0' as int + n) as char]
    else DecimalString(n / 10) + [('0' as int + n % 10) as char]
  }

  /** The too-long message names the limit: "Message length exceeds maximum of
      2000 characters". */
  lemma TooLongMessageText()
    ensures ErrorMessage(TooLong) == "Message length exceeds maximum of 2000 characters"
  {
    assert DecimalString(2) == "2";
    assert DecimalString(20) == "20";
    assert DecimalString(200) == "200";
    assert DecimalString(2000) == "2000";
  }

  /** Each error has its own message, so the message tells which check failed. */
  lemma ErrorMessageInjective(a: ValidationError, b: ValidationError)
    requires ErrorMessage(a) == ErrorMessage(b)
    ensures a == b
  {
  }

  /** Running the checks of `__post_init__` on a request. The first failing
      check decides the error: a bad phone before any message problem, an
      over-long message before an empty one. On success the request comes back
      unchanged, and no field but `phone` and `message` is looked at. */
  function Validate(req: SMSRequest): (r: Result<SMSRequest, ValidationError>)
    ensures r.Ok? <==> PhoneShape(req.phone) && 0 < |req.message| <= MaxMessageLength
    ensures r.Ok? ==> r.value == req
    ensures r == Err(BadPhone) <==> !PhoneShape(req.phone)
    ensures r == Err(TooLong) <==> PhoneShape(req.phone) && |req.message| > MaxMessageLength
    ensures r == Err(Empty) <==> PhoneShape(req.phone) && |req.message| == 0
  {
    PhoneRegexMatchesIff(req.phone);
    if !PhoneRegexMatches(req.phone) then Err(BadPhone)
    else if |req.message| > MaxMessageLength then Err(TooLong)
    else if |req.message| == 0 then Err(Empty)
    else Ok(req)
  }

  /** `SMSRequest(phone=..., message=..., key=...)`: the optional fields take
      their default `None`, then the checks run. */
  function NewSMSRequest(phone: string, message: string, key: string): (r: Result<SMSRequest, ValidationError>)
    ensures r.Ok? <==> PhoneShape(phone) && 0 < |message| <= MaxMessageLength
    ensures r.Ok? ==> r.value == SMSRequest(phone, message, key, None, None, None)
    ensures r.Err? ==> r.error == (if !PhoneShape(phone) then BadPhone
                                   else if |message| > MaxMessageLength then TooLong
                                   else Empty)
  {
    Validate(SMSRequest(phone, message, key, None, None, None))
  }

  /** Only `phone` and `message` decide the outcome: two requests that agree on
      them are both accepted or both rejected with the same error, whatever
      their key, sender, webhook URL and webhook data, empty strings included. */
  lemma OtherFieldsUnconstrained(a: SMSRequest, b: SMSRequest)
    requires a.phone == b.phone && a.message == b.message
    ensures Validate(a).Ok? <==> Validate(b).Ok?
    ensures Validate(a).Err? ==> Validate(a) == Validate(b)
  {
  }

  /** The length bound is inclusive: with an accepted phone, a message of
      exactly 2000 characters passes and one of 2001 is rejected as too long. */
  lemma MessageLengthBoundary(req: SMSRequest)
    requires PhoneRegexMatches(req.phone)
    ensures |req.message| == MaxMessageLength ==> Validate(req) == Ok(req)
    ensures |req.message| == MaxMessageLength + 1 ==> Validate(req) == Err(TooLong)
  {
    PhoneRegexMatchesIff(req.phone);
  }

  /** The cases of the library's request-validation test: a well-formed request
      keeps its phone; a phone without `+`, an empty message and a message of
      2001 characters each raise their own error. */
  lemma ValidationTestCases()
    ensures Validate(SMSRequest("+1234567890", "Test message", "test_key", None, None, None))
              == Ok(SMSRequest("+1234567890", "Test message", "test_key", None, None, None))
    ensures Validate(SMSRequest("1234567890", "Test message", "test_key", None, None, None))
              == Err(BadPhone)
    ensures Validate(SMSRequest("+1234567890", "", "test_key", None, None, None))
              == Err(Empty)
    ensures Validate(SMSRequest("+1234567890", seq(MaxMessageLength + 1, _ => 'x'), "test_key", None, None, None))
              == Err(TooLong)
  {
    var phone := "+1234567890";
    assert PhoneBody(phone);
  }

  /** The line feed `$` lets through reaches the request: any strict E.164
      phone followed by a line feed, such as "+1234567890\n", builds a
      request although the phone is no longer strict E.164. */
  lemma FinalNewlinePhoneBuildsRequest(phone: string, message: string, key: string)
    requires IsStrictE164(phone)
    requires 0 < |message| <= MaxMessageLength
    ensures NewSMSRequest(phone + ['\n'], message, key).Ok?
    ensures !IsStrictE164(phone + ['\n'])
  {
    StrictE164Agreement(phone);
    PhoneRegexMatchesIff(phone);
    FinalNewlineAccepted(phone);
    PhoneRegexMatchesIff(phone + ['\n']);
    assert (phone + ['\n'])[|phone|] == '\n';
  }
}
