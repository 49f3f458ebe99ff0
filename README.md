# Textbelt request validation, in Dafny

This project models the data models of the Textbelt SMS client library
(`textbelt_utils/models.py`): the `SMSRequest` record and the checks its
`__post_init__` runs when a request is built, and the response records
`SMSResponse`, `WebhookResponse`, `StatusResponse` (with its five-valued
`StatusType`) and `QuotaResponse`.

Building an `SMSRequest` either returns the request, with every field exactly as
given, or raises a `ValueError`. Three checks run in a fixed order, and the first
that fails decides the message:

1. the phone must match `^\+[1-9]\d{1,14}$` under `re.match`;
2. the message must have at most `MAX_MESSAGE_LENGTH` = 2000 characters;
3. the message must not be empty.

In the model, `Models.Validate` returns `Result<SMSRequest, ValidationError>` with
`ValidationError = BadPhone | TooLong | Empty`, and `Models.ErrorMessage` gives the
text of each error.

The phone pattern is modelled with Python's own semantics, not an idealised
E.164 check:

- `$` (without MULTILINE) also matches just before one final line feed, so
  `"+1234567890\n"` is accepted (`Models.AtEnd`, `Models.FinalNewlineAccepted`).
- `\d` in a `str` pattern is any Unicode decimal digit (category Nd), while
  `[1-9]` is ASCII only. `UnicodeDigits.IsDecimalDigit` holds the Nd table of
  Unicode 13.0, the Unicode database of Python 3.9 and 3.10, the newest versions
  the package declares.

`Models.MatchFrom` is the matcher: it walks the pattern character by character,
and inside `\d{1,14}` it either stops (given at least one digit and `$`) or takes
one more digit. `Models.PhoneShape` describes the same set of strings without a
matcher: `+`, a digit 1–9, 1 to 14 decimal digits, and possibly one final line
feed. `Models.PhoneRegexMatchesIff` proves that they agree on every string.
`Models.IsStrictE164` is the format of ITU-T Recommendation E.164 that the
docstring names (ASCII digits, no line feed). `Models.StrictE164Agreement` proves
how the two relate: every strict phone is accepted, and an accepted ASCII phone
without a final line feed is strict.

`Validate`'s contract is stated against `PhoneShape`, not against the matcher.
It gives both directions of each outcome. A request is accepted exactly when the
phone has the shape and the message has 1 to 2000 characters. On success the
request comes back unchanged. A bad phone is reported before any message
problem, and a too-long message before an empty one.

The source uses no I/O, time or randomness in this part.

## Model

| member | source | states |
|---|---|---|
| `Models.SMSRequest` | textbelt_utils/models.py:17-22 | the request's six fields: `phone`, `message` and `key` as strings, `sender`, `reply_webhook_url` and `webhook_data` as optional strings whose default `None` is `Option.None` |
| `Models.MaxMessageLength` | textbelt_utils/models.py:25 | `MAX_MESSAGE_LENGTH`, the constant 2000 |
| `Models.MaxTrailingDigits` | textbelt_utils/models.py:26 | the upper bound 14 of `\d{1,14}` in `PHONE_REGEX` |
| `Models.SMSResponse` | textbelt_utils/models.py:53-56 | the send answer: `success`, `quota_remaining` as an unbounded integer, optional `text_id` and `error` defaulting to `None` |
| `Models.WebhookResponse` | textbelt_utils/models.py:68-71 | the webhook reply: `text_id`, `from_number`, `text`, and optional `data` defaulting to `None` |
| `Models.StatusType` | textbelt_utils/models.py:74-80 | one constructor per literal of the `StatusType` `Literal`: DELIVERED, SENT, SENDING, FAILED, UNKNOWN |
| `Models.StatusResponse` | textbelt_utils/models.py:100 | the status answer, whose one field ranges over the five statuses |
| `Models.QuotaResponse` | textbelt_utils/models.py:110-111 | the quota answer: `success` and `quota_remaining` |
| `Models.DecimalString` | textbelt_utils/models.py:37 | the `{self.MAX_MESSAGE_LENGTH}` interpolation: non-empty ASCII digits that spell `n` in base 10, with no leading zero unless `n` is 0 |
| `Models.Validate` | textbelt_utils/models.py:28-41 | accepted exactly when the phone has the pattern's shape and the message has 1 to 2000 characters; on success the request is returned unchanged; `BadPhone` exactly when the phone fails, `TooLong` exactly when the phone passes and the message exceeds 2000, `Empty` exactly when the phone passes and the message is empty (check order decides precedence) |
| `Models.NewSMSRequest` | textbelt_utils/models.py:17-41 | building with phone, message and key sets sender, reply webhook URL and webhook data to `None`, then accepts or raises exactly as the checks decide, naming the first failing check |
| `Models.OtherFieldsUnconstrained` | textbelt_utils/models.py:17-41 | two requests with the same phone and message get the same verdict, whatever key, sender, webhook URL or webhook data they carry |
| `Models.MessageLengthBoundary` | textbelt_utils/models.py:35-38 | with an accepted phone, a message of exactly 2000 characters passes (the comparison is `>`) and one of 2001 is rejected as too long |
| `Models.ErrorMessage` | textbelt_utils/models.py:30-41 | each error's text starts with the words the tests match: "Phone number must be in E.164 format", "Message length exceeds maximum", "Message cannot be empty" |
| `Models.ErrorMessageInjective` | textbelt_utils/models.py:30-41 | the three messages are distinct, so the message identifies the failing check |
| `Models.ValidationTestCases` | tests/test_async_textbelt.py:32-63 | "+1234567890" with "Test message" is accepted unchanged; "1234567890" is rejected for its phone; an empty message is rejected as empty; 2001 "x" characters are rejected as too long |
| `Models.MatchFrom` | textbelt_utils/models.py:26 | the matcher for `\+[1-9]\d{1,14}$`: from each pattern position it consumes `+`, then one digit 1-9, then stops after 1 to 14 `\d` where `$` holds or takes one more digit; its contract states that a line feed can only be the last character of a match |
| `Models.PhoneRegexMatches` | textbelt_utils/models.py:30 | `PHONE_REGEX.match(phone)`: the matcher run from the pattern's start on the whole phone (`re.match` anchors at the start); its meaning is stated by `Models.PhoneRegexMatchesIff` |
| `Models.AtEnd` | textbelt_utils/models.py:26 | `$` without MULTILINE: holds on the empty rest or a rest that is one line feed |
| `Models.IsNonZeroAsciiDigit` | textbelt_utils/models.py:26 | `[1-9]`: the ASCII digits 1 to 9 |
| `UnicodeDigits.IsDecimalDigit` | textbelt_utils/models.py:26 | `\d` in a `str` pattern: a character of Unicode category Nd (Unicode 13.0 table); its relation to ASCII is stated by `UnicodeDigits.AsciiDecimalDigits` |
| `Models.ValidationError` | textbelt_utils/models.py:30-41 | the three `ValueError`s of `__post_init__`, one per check, in check order |
| `Models.TooLongMessageText` | textbelt_utils/models.py:35-38 | the too-long text renders `MAX_MESSAGE_LENGTH` into the f-string: "Message length exceeds maximum of 2000 characters" |
| `Models.StatusLiteral` | textbelt_utils/models.py:74-80 | the five string literals of `StatusType`, one per status; `Models.ParseStatus` and `Models.StatusLiteralRoundTrip` state that they are distinct and the only ones |
| `Models.DigitRunMatches` | textbelt_utils/models.py:26 | inside `\d{1,14}` after n digits, the matcher succeeds exactly when the rest, less one final line feed, is all decimal digits and brings the run to 1..14 digits |
| `Models.PhoneShapeIsStrippedBody` | textbelt_utils/models.py:26 | a string has the phone shape exactly when, less a final line feed, it is `+`, a digit 1-9 and 1..14 decimal digits |
| `Models.PhoneRegexMatchesIff` | textbelt_utils/models.py:30 | `PHONE_REGEX.match(phone)` succeeds exactly when the phone is `+`, one digit 1-9, 1 to 14 decimal digits, and possibly one final line feed |
| `Models.AcceptedPhoneShape` | textbelt_utils/models.py:26 | an accepted phone has 3 to 16 characters (17 only with a final line feed), starts with `+`, and its second character is 1-9, never 0 |
| `Models.RejectedPhoneStarts` | textbelt_utils/models.py:30-33 | an empty phone, a phone without a leading `+`, or one with 0 after the `+` is rejected |
| `Models.StrictE164Agreement` | textbelt_utils/models.py:26 | every strict E.164 phone (`+` then 2 to 15 ASCII digits, the first not 0) is accepted; an accepted phone that is all ASCII and does not end in a line feed is strict E.164 |
| `Models.FinalNewlineAccepted` | textbelt_utils/models.py:26 | a phone body followed by one line feed is accepted; followed by two it is rejected |
| `Models.FinalNewlinePhoneBuildsRequest` | textbelt_utils/models.py:26-41 | a strict E.164 phone plus a line feed builds a request although it is no longer strict E.164 |
| `Models.NonAsciiDigitsAccepted` | textbelt_utils/models.py:26 | "+1" followed by Arabic-Indic digits two and three is accepted although it is not strict E.164 |
| `UnicodeDigits.AsciiDecimalDigits` | textbelt_utils/models.py:26 | every ASCII digit is a `\d`, and below code point 128 only the ASCII digits are |
| `UnicodeDigits.NewlineNotDecimalDigit` | textbelt_utils/models.py:26 | a line feed is not a `\d`, so it can only end the match through `$` |
| `UnicodeDigits.ArabicIndicTwoIsDecimalDigit` | textbelt_utils/models.py:26 | U+0662 is a `\d` but not an ASCII digit |
| `Models.ParseStatus` | textbelt_utils/models.py:74-80 | a string names a status exactly when it is that status's literal; any other string names none |
| `Models.StatusLiteralRoundTrip` | textbelt_utils/models.py:74-80 | each of the five statuses is recovered from its literal, so the five literals are distinct |

## Left out

- Python's dynamic typing: a field given a non-string value (for example `phone=None`) makes the source raise `TypeError` inside `re.match` or `len`. The model's fields are typed, so it has no such inputs.
- `StatusResponse.status`: the `Literal` annotation is not enforced when the dataclass is built, so Python accepts any value there. The model types the field as the five-valued `StatusType`.
- Strings holding lone surrogates, which Python `str` allows and Dafny `char` does not. Lengths are counted in code points on both sides.
- The `\d` table is fixed to Unicode 13.0. Other interpreter versions ship other Unicode databases, for example 14.0 adds the Tangsa digits. The model does not follow those changes.
- The response records `SMSResponse`, `WebhookResponse`, `StatusResponse` and `QuotaResponse` have no behaviour in the source. They appear as datatypes only, with no members.
- The bulk-send engine, the OTP request and response models, `utils.is_valid_e164` and `verify_webhook` are not part of this model. `textbelt_utils/__init__.py` imports `OTPGenerateRequest`, `OTPGenerateResponse`, `OTPVerifyRequest`, `OTPVerifyResponse`, `BulkSMSRequest` and `BulkSMSResponse` from `.models`, which `models.py` does not define, so there is no definition here to model. The webhook check is also HMAC-SHA256 with wall-clock time, and the bulk send is concurrent network I/O.
- The HTTP clients, configuration loading and packaging are not part of this model. They are network I/O, environment reading and setup scripts.
