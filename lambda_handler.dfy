/**
 * The AWS Lambda `handler` that receives the app's summary request and
 * forwards it to SES: body parsing, required-field and e-mail validation in
 * a fixed order, the SES call, the mapping of SES error codes to HTTP status
 * codes, and the CORS headers carried by every response.
 *
 * JavaScript values are modelled by `JsValue`; `JSON.parse` and the SES call
 * are foreign, so their outcomes are parameters of the handler.
 */
module LambdaHandler {
  import opened Wrappers
  import KotlinInt

  /** A JavaScript value as it can appear in a parsed request body. Numbers
      are integers; an object is its own (string-keyed) properties. */
  datatype JsValue =
    | Undefined
    | Null
    | Bool(b: bool)
    | Number(n: int)
    | Str(s: string)
    | Array(elems: seq<JsValue>)
    | Object(fields: map<string, JsValue>)

  /** JavaScript truthiness (`!v` is false). */
  predicate Truthy(v: JsValue) {
    match v
    case Undefined => false
    case Null => false
    case Bool(b) => b
    case Number(n) => n != 0
    case Str(s) => |s| > 0
    case Array(_) => true
    case Object(_) => true
  }

  /** `String(v)`, the conversion `RegExp.prototype.test` applies. */
  function ToText(v: JsValue): string
    decreases v
  {
    match v
    case Undefined => "undefined"
    case Null => "null"
    case Bool(b) => if b then "true" else "false"
    case Number(n) => KotlinInt.IntToString(n)
    case Str(s) => s
    case Array(elems) => JoinTexts(elems)
    case Object(_) => "[object Object]"
  }

  /** `Array.prototype.join(",")`: `null` and `undefined` elements print as
      nothing. */
  function JoinTexts(es: seq<JsValue>): string
    decreases es
  {
    if |es| == 0 then ""
    else
      var first := if es[0] == Undefined || es[0] == Null then "" else ToText(es[0]);
      if |es| == 1 then first else first + "," + JoinTexts(es[1..])
  }

  /** Property access `v.key`: only an object has the request's keys. */
  function Get(v: JsValue, key: string): JsValue {
    if v.Object? && key in v.fields then v.fields[key] else Undefined
  }

  /** `v || 0`. */
  function OrZero(v: JsValue): (r: JsValue)
    ensures Truthy(v) ==> r == v
    ensures !Truthy(v) ==> r == Number(0)
  {
    if Truthy(v) then v else Number(0)
  }

  /** The `length` of a JavaScript string: its UTF-16 code units, one for
      a character of the Basic Multilingual Plane and two for any other. */
  function Utf16Length(s: string): (r: nat)
    ensures |s| <= r <= 2 * |s|
    ensures r == |s| <==> forall i :: 0 <= i < |s| ==> s[i] as int <= 0xFFFF
    decreases |s|
  {
    if |s| == 0 then 0
    else Utf16Length(s[..|s| - 1]) + (if s[|s| - 1] as int <= 0xFFFF then 1 else 2)
  }

  /** `v?.length`: `undefined` for `null` and `undefined`, the length of a
      string or an array, an object's own "length" property, and nothing
      for a boolean or a number. */
  function Length(v: JsValue): (r: JsValue)
    ensures v.Str? ==> r == Number(Utf16Length(v.s))
    ensures v.Array? ==> r == Number(|v.elems|)
    ensures v.Object? ==> r == Get(v, "length")
    ensures !v.Str? && !v.Array? && !v.Object? ==> r == Undefined
  {
    match v
    case Str(s) => Number(Utf16Length(s))
    case Array(elems) => Number(|elems|)
    case Object(_) => Get(v, "length")
    case _ => Undefined
  }

  /** `v?.length || 0`: a non-empty string or array gives its length, an
      object its own truthy "length" property, anything else 0. */
  function LengthOrZero(v: JsValue): (r: JsValue)
    ensures (v.Str? && |v.s| > 0) ==> r == Number(Utf16Length(v.s))
    ensures (v.Array? && |v.elems| > 0) ==> r == Number(|v.elems|)
    ensures v.Object? && Truthy(Get(v, "length")) ==> r == Get(v, "length")
    ensures r.Number? || (v.Object? && r == Get(v, "length"))
    ensures (v.Str? && |v.s| == 0) || (v.Array? && |v.elems| == 0) ==> r == Number(0)
    ensures !v.Str? && !v.Array? && !(v.Object? && Truthy(Get(v, "length"))) ==> r == Number(0)
  {
    OrZero(Length(v))
  }

  // ---------------------------------------------------------------------
  // The e-mail pattern ^[^\s@]+@[^\s@]+\.[^\s@]+$

  /** The JavaScript `\s` class: the ASCII controls tab to carriage return,
      space, no-break space, the Unicode space separators, the line and
      paragraph separators and the byte-order mark. */
  predicate IsJsWhitespace(c: char) {
    || '\t' <= c <= '\r'
    || c == ' ' || c == '\U{00A0}' || c == '\U{1680}'
    || '\U{2000}' <= c <= '\U{200A}'
    || c == '\U{2028}' || c == '\U{2029}' || c == '\U{202F}' || c == '\U{205F}'
    || c == '\U{3000}' || c == '\U{FEFF}'
  }

  /** A character of the class `[^\s@]`. */
  predicate AddressChar(c: char) {
    !IsJsWhitespace(c) && c != '@'
  }

  predicate AllAddressChars(s: string) {
    forall i :: 0 <= i < |s| ==> AddressChar(s[i])
  }

  /** What the anchored pattern accepts, read off the pattern: a non-empty
      run before an `@`, a non-empty run, a `.`, and a non-empty run, none of
      the runs holding white space or `@`. */
  predicate MatchesEmailPattern(s: string) {
    exists k, j ::
      0 < k && k + 1 < j < |s| - 1 && s[k] == '@' && s[j] == '.' &&
      AllAddressChars(s[..k]) && AllAddressChars(s[k + 1..j]) && AllAddressChars(s[j + 1..])
  }

  /** The pattern test as a scan: split at the first `@`, then look for a
      `.` strictly inside the part after it. */
  predicate EmailLooksValid(s: string) {
    var local := SubstringBeforeAt(s);
    var k := |local|;
    0 < k < |s| && AllAddressChars(local) && AllAddressChars(s[k + 1..]) &&
    var domain := s[k + 1..];
    |domain| >= 3 && '.' in domain[1..|domain| - 1]
  }

  /** The text before the first `@` (all of `s` when there is none). */
  function SubstringBeforeAt(s: string): (r: string)
    ensures |r| <= |s| && r == s[..|r|]
    ensures '@' !in r
    ensures |r| < |s| ==> s[|r|] == '@'
  {
    if |s| == 0 then s
    else if s[0] == '@' then []
    else [s[0]] + SubstringBeforeAt(s[1..])
  }

  /** The first `@` of a string is the one whose prefix holds no `@`. */
  lemma {:induction false} FirstAtIsUnique(s: string, k: int)
    requires 0 <= k < |s| && s[k] == '@' && '@' !in s[..k]
    ensures |SubstringBeforeAt(s)| == k
  {
    if k > 0 {
      assert s[0] in s[..k];
      assert s[1..][..k - 1] == s[1..k];
      assert '@' !in s[1..][..k - 1] by {
        forall c | c in s[1..k] ensures c in s[..k] {
          var n :| 0 <= n < k - 1 && s[1..k][n] == c;
          assert s[..k][n + 1] == c;
        }
      }
      FirstAtIsUnique(s[1..], k - 1);
    }
  }

  lemma AllAddressCharsConcat(a: string, b: string)
    requires AllAddressChars(a) && AllAddressChars(b)
    ensures AllAddressChars(a + b)
  {
    forall i | 0 <= i < |a + b| ensures AddressChar((a + b)[i]) {
      if i >= |a| { assert (a + b)[i] == b[i - |a|]; }
    }
  }

  /** A slice of a string of address characters is one too. */
  lemma AllAddressCharsSlice(s: string, i: int, j: int)
    requires 0 <= i <= j <= |s| && AllAddressChars(s)
    ensures AllAddressChars(s[i..j])
  {
    forall n | 0 <= n < j - i ensures AddressChar(s[i..j][n]) {
      assert s[i..j][n] == s[i + n];
    }
  }

  lemma EmailScanMatchesPattern(s: string)
    requires EmailLooksValid(s)
    ensures MatchesEmailPattern(s)
  {
    var k := |SubstringBeforeAt(s)|;
    var domain := s[k + 1..];
    var mid := domain[1..|domain| - 1];
    var p :| 0 <= p < |mid| && mid[p] == '.';
    var j := k + 2 + p;
    assert s[j] == '.';
    assert s[..k] == SubstringBeforeAt(s);
    AllAddressCharsSlice(domain, 0, p + 1);
    AllAddressCharsSlice(domain, p + 2, |domain|);
    assert s[k + 1..j] == domain[0..p + 1];
    assert s[j + 1..] == domain[p + 2..|domain|];
  }

  /** A domain part with a `.` strictly inside it, address characters on
      both sides. */
  lemma DomainWithDot(d: string, p: int)
    requires 0 < p < |d| - 1 && d[p] == '.'
    requires AllAddressChars(d[..p]) && AllAddressChars(d[p + 1..])
    ensures AllAddressChars(d) && '.' in d[1..|d| - 1]
  {
    assert d == d[..p] + [d[p]] + d[p + 1..];
    AllAddressCharsConcat(d[..p], [d[p]]);
    AllAddressCharsConcat(d[..p] + [d[p]], d[p + 1..]);
    assert d[1..|d| - 1][p - 1] == '.';
  }

  lemma PatternPartsPassScan(s: string, k: int, j: int)
    requires 0 < k && k + 1 < j < |s| - 1 && s[k] == '@' && s[j] == '.'
    requires AllAddressChars(s[..k]) && AllAddressChars(s[k + 1..j]) && AllAddressChars(s[j + 1..])
    ensures EmailLooksValid(s)
  {
    assert '@' !in s[..k] by {
      forall i | 0 <= i < k ensures s[..k][i] != '@' { assert AddressChar(s[..k][i]); }
    }
    FirstAtIsUnique(s, k);
    var local := SubstringBeforeAt(s);
    assert local == s[..k];
    var domain := s[k + 1..];
    assert domain[..j - k - 1] == s[k + 1..j];
    assert domain[j - k..] == s[j + 1..];
    DomainWithDot(domain, j - k - 1);
    assert AllAddressChars(s[|local| + 1..]);
  }

  lemma PatternMatchPassesScan(s: string)
    requires MatchesEmailPattern(s)
    ensures EmailLooksValid(s)
  {
    var k, j :| 0 < k && k + 1 < j < |s| - 1 && s[k] == '@' && s[j] == '.' &&
      AllAddressChars(s[..k]) && AllAddressChars(s[k + 1..j]) && AllAddressChars(s[j + 1..]);
    PatternPartsPassScan(s, k, j);
  }

  /** The scan accepts exactly the strings the pattern matches. */
  lemma EmailScanIsPattern(s: string)
    ensures EmailLooksValid(s) <==> MatchesEmailPattern(s)
  {
    if EmailLooksValid(s) {
      EmailScanMatchesPattern(s);
    }
    if MatchesEmailPattern(s) {
      PatternMatchPassesScan(s);
    }
  }

  // ---------------------------------------------------------------------
  // Validation

  datatype ValidationError = MissingUserEmail | MissingSubject | MissingHtml | InvalidEmailFormat

  function ValidationMessage(e: ValidationError): string {
    match e
    case MissingUserEmail => "Missing userEmail field"
    case MissingSubject => "Missing subject field"
    case MissingHtml => "Missing html field"
    case InvalidEmailFormat => "Invalid email format"
  }

  /** The checks of the handler in their order; the first that fails is
      reported. */
  function Validate(userEmail: JsValue, subject: JsValue, html: JsValue): (r: Option<ValidationError>)
    ensures r == Some(MissingUserEmail) <==> !Truthy(userEmail)
    ensures r == Some(MissingSubject) <==> Truthy(userEmail) && !Truthy(subject)
    ensures r == Some(MissingHtml) <==> Truthy(userEmail) && Truthy(subject) && !Truthy(html)
    ensures r == Some(InvalidEmailFormat) <==>
      Truthy(userEmail) && Truthy(subject) && Truthy(html) && !MatchesEmailPattern(ToText(userEmail))
    ensures r == None <==>
      Truthy(userEmail) && Truthy(subject) && Truthy(html) && MatchesEmailPattern(ToText(userEmail))
  {
    EmailScanIsPattern(ToText(userEmail));
    if !Truthy(userEmail) then Some(MissingUserEmail)
    else if !Truthy(subject) then Some(MissingSubject)
    else if !Truthy(html) then Some(MissingHtml)
    else if !EmailLooksValid(ToText(userEmail)) then Some(InvalidEmailFormat)
    else None
  }

  // ---------------------------------------------------------------------
  // Events, SES and responses

  /** `JSON.parse(event.body)`: a value, or a syntax error with its message. */
  datatype ParseResult = Parsed(value: JsValue) | ParseFailed(message: string)

  /** `event.body`: either text to parse, or a value used as it is. */
  datatype EventBody = JsonText(parse: ParseResult) | NotText(value: JsValue)

  /** The SES `sendEmail` call's outcome: a message id, or an error with its
      `code` (if any) and `message`. */
  datatype SesOutcome = Sent(messageId: string) | SesError(code: Option<string>, message: string)

  datatype SesRequest = SesRequest(
    source: string,
    toAddresses: seq<JsValue>,
    subject: JsValue,
    html: JsValue,
    charset: string)

  datatype WorkoutEcho = WorkoutEcho(
    monthlyWorkouts: JsValue,
    monthlyStreak: JsValue,
    ytdWorkouts: JsValue,
    exerciseCategories: JsValue,
    workoutTypes: JsValue)

  datatype ResponseBody =
    | Failure(error: string, message: Option<string>, details: Option<string>, code: Option<string>)
    | Success(messageId: string, recipient: JsValue, workoutData: WorkoutEcho)

  datatype Response = Response(statusCode: int, headers: seq<(string, string)>, body: ResponseBody)

  /** The outcome of one invocation: the response, and the SES request sent
      (if the handler got that far). */
  datatype Invocation = Invocation(response: Response, sesCall: Option<SesRequest>)

  const CORS_HEADERS: seq<(string, string)> := [
    ("Content-Type", "application/json"),
    ("Access-Control-Allow-Origin", "*"),
    ("Access-Control-Allow-Headers", "Content-Type"),
    ("Access-Control-Allow-Methods", "OPTIONS,POST")
  ]

  const DEFAULT_SENDER := "noreply@workoutapp.com"
  const CHARSET := "UTF-8"
  const REJECTED_HINT := "The email address may not be verified in SES (sandbox mode)"

  /** `process.env.SENDER_EMAIL || default`. */
  function SenderEmail(env: Option<string>): (r: string)
    ensures env.Some? && |env.value| > 0 ==> r == env.value
    ensures env.None? || env.value == "" ==> r == DEFAULT_SENDER
  {
    if env.Some? && |env.value| > 0 then env.value else DEFAULT_SENDER
  }

  function Respond(status: int, body: ResponseBody): Response {
    Response(status, CORS_HEADERS, body)
  }

  /** The `catch` block: two SES codes are the client's fault, anything else
      (including an error without a code) is a server error. */
  function ErrorResponse(code: Option<string>, message: string): (r: Response)
    ensures r.headers == CORS_HEADERS
    ensures code == Some("MessageRejected") ==> r.statusCode == 400 && r.body.Failure? && r.body.error == "Email rejected"
    ensures code == Some("InvalidParameterValue") ==> r.statusCode == 400 && r.body.Failure? && r.body.error == "Invalid email parameter"
    ensures code != Some("MessageRejected") && code != Some("InvalidParameterValue") ==>
      r.statusCode == 500 && r.body.Failure? && r.body.error == "Failed to send email" &&
      r.body.code == Some(if code.Some? && code.value != "" then code.value else "UNKNOWN_ERROR")
  {
    if code == Some("MessageRejected") then
      Respond(400, Failure("Email rejected", Some(REJECTED_HINT), Some(message), None))
    else if code == Some("InvalidParameterValue") then
      Respond(400, Failure("Invalid email parameter", Some(message), None, None))
    else
      var shown := if code.Some? && code.value != "" then code.value else "UNKNOWN_ERROR";
      Respond(500, Failure("Failed to send email", Some(message), None, Some(shown)))
  }

  /** The request body once parsed, or `None` when `JSON.parse` threw. */
  function BodyOf(event: EventBody): (r: Option<JsValue>)
    ensures event.JsonText? ==> (r.None? <==> event.parse.ParseFailed?)
  {
    match event
    case JsonText(Parsed(v)) => Some(v)
    case JsonText(ParseFailed(_)) => None
    case NotText(v) => Some(v)
  }

  /** After validation: build the SES request and turn its outcome into a
      response. */
  function SendAndRespond(body: JsValue, sender: Option<string>, ses: SesOutcome): Invocation {
    var userEmail := Get(body, "userEmail");
    var request := SesRequest(SenderEmail(sender), [userEmail], Get(body, "subject"), Get(body, "html"), CHARSET);
    var response :=
      match ses
      case Sent(id) =>
        Respond(200, Success(id, userEmail, WorkoutEcho(
          OrZero(Get(body, "monthlyWorkouts")),
          OrZero(Get(body, "monthlyStreak")),
          OrZero(Get(body, "ytdWorkouts")),
          LengthOrZero(Get(body, "exerciseCategoryBreakdown")),
          LengthOrZero(Get(body, "workoutBreakdown")))))
      case SesError(code, message) => ErrorResponse(code, message);
    Invocation(response, Some(request))
  }

  /**
   * `exports.handler`. Destructuring a `null` or `undefined` body throws a
   * `TypeError` without a `code`, which the outer `catch` reports as a server
   * error; the runtime's text for it is not modelled.
   */
  function Handle(event: EventBody, sender: Option<string>, ses: SesOutcome): (r: Invocation)
    ensures r.response.headers == CORS_HEADERS
  {
    match event
    case JsonText(ParseFailed(message)) =>
      Invocation(Respond(400, Failure("Invalid JSON in request body", Some(message), None, None)), None)
    case _ =>
      var body := BodyOf(event).value;
      if body == Undefined || body == Null then
        Invocation(Respond(500, Failure("Failed to send email", None, None, Some("UNKNOWN_ERROR"))), None)
      else
        match Validate(Get(body, "userEmail"), Get(body, "subject"), Get(body, "html"))
        case Some(e) => Invocation(Respond(400, Failure(ValidationMessage(e), None, None, None)), None)
        case None => SendAndRespond(body, sender, ses)
  }

  // ---------------------------------------------------------------------
  // Properties

  /** Whether an invocation gets past parsing, destructuring and validation. */
  predicate PassesChecks(event: EventBody) {
    var body := BodyOf(event);
    body.Some? && body.value != Undefined && body.value != Null &&
    Validate(Get(body.value, "userEmail"), Get(body.value, "subject"), Get(body.value, "html")).None?
  }

  /** Text that is not JSON is answered with 400 and the parser's message,
      and SES is not called. */
  lemma InvalidJsonIs400(message: string, sender: Option<string>, ses: SesOutcome)
    ensures var r := Handle(JsonText(ParseFailed(message)), sender, ses);
      r.response.statusCode == 400 && r.sesCall.None? &&
      r.response.body == Failure("Invalid JSON in request body", Some(message), None, None)
  {
  }

  /** A failed check is answered with 400 and the first failing check's
      message, and SES is not called. */
  lemma FirstFailedCheckWins(body: JsValue, sender: Option<string>, ses: SesOutcome)
    requires body != Undefined && body != Null
    requires Validate(Get(body, "userEmail"), Get(body, "subject"), Get(body, "html")).Some?
    ensures var e := Validate(Get(body, "userEmail"), Get(body, "subject"), Get(body, "html")).value;
      forall event | event == NotText(body) || event == JsonText(Parsed(body)) ::
        var r := Handle(event, sender, ses);
        r.response.statusCode == 400 && r.sesCall.None? &&
        r.response.body.Failure? && r.response.body.error == ValidationMessage(e)
  {
  }

  /** SES is called exactly when every check passes, with the sender, the
      one recipient, and the subject and HTML as they came. */
  lemma SesCalledOnlyWhenValid(event: EventBody, sender: Option<string>, ses: SesOutcome)
    ensures var r := Handle(event, sender, ses);
      (r.sesCall.Some? <==> PassesChecks(event)) &&
      (r.sesCall.Some? ==>
        var body := BodyOf(event).value;
        r.sesCall.value == SesRequest(SenderEmail(sender), [Get(body, "userEmail")],
          Get(body, "subject"), Get(body, "html"), CHARSET))
  {
  }

  /** The answer is 200 exactly when the checks pass and SES sends; the
      reply then names the recipient and SES's message id. */
  lemma SuccessIffSent(event: EventBody, sender: Option<string>, ses: SesOutcome)
    ensures var r := Handle(event, sender, ses);
      (r.response.statusCode == 200 <==> PassesChecks(event) && ses.Sent?) &&
      (r.response.statusCode == 200 ==>
        r.response.body == Success(ses.messageId, Get(BodyOf(event).value, "userEmail"),
          r.response.body.workoutData))
  {
  }

  /** Every response is 200, 400 or 500. */
  lemma StatusIsOneOfThree(event: EventBody, sender: Option<string>, ses: SesOutcome)
    ensures Handle(event, sender, ses).response.statusCode in {200, 400, 500}
  {
  }

  /** Once SES has been called, its error code alone decides between 400
      and 500. */
  lemma SesErrorStatus(event: EventBody, sender: Option<string>, code: Option<string>, message: string)
    requires PassesChecks(event)
    ensures var r := Handle(event, sender, SesError(code, message));
      r.response.statusCode == (if code == Some("MessageRejected") || code == Some("InvalidParameterValue") then 400 else 500)
  {
  }

  /** A request as the app sends it (an object with a well-formed address
      and non-empty subject and HTML texts) is forwarded to that address. */
  lemma AppRequestIsForwarded(email: string, subject: string, html: string,
                              rest: map<string, JsValue>, sender: Option<string>, ses: SesOutcome)
    requires MatchesEmailPattern(email) && |subject| > 0 && |html| > 0
    ensures var body := Object(rest["userEmail" := Str(email)]["subject" := Str(subject)]["html" := Str(html)]);
      var r := Handle(JsonText(Parsed(body)), sender, ses);
      r.sesCall.Some? && r.sesCall.value.toAddresses == [Str(email)] &&
      r.sesCall.value.subject == Str(subject) && r.sesCall.value.html == Str(html)
  {
    var body := Object(rest["userEmail" := Str(email)]["subject" := Str(subject)]["html" := Str(html)]);
    assert Get(body, "userEmail") == Str(email);
    assert Get(body, "subject") == Str(subject);
    assert Get(body, "html") == Str(html);
    assert ToText(Str(email)) == email;
  }

  /** The app sends its figures nested under "workoutData", while the reply
      echoes the top-level keys: a successful reply to such a request
      echoes zeros. */
  lemma AppFiguresEchoedAsZero(email: string, subject: string, html: string,
                               data: map<string, JsValue>, sender: Option<string>, id: string)
    requires MatchesEmailPattern(email) && |subject| > 0 && |html| > 0
    ensures var body := Object(map["userEmail" := Str(email), "subject" := Str(subject),
                                   "html" := Str(html), "workoutData" := Object(data)]);
      var r := Handle(JsonText(Parsed(body)), sender, Sent(id));
      && r.response.statusCode == 200
      && r.response.body == Success(id, Str(email), WorkoutEcho(Number(0), Number(0), Number(0), Number(0), Number(0)))
  {
    var body := Object(map["userEmail" := Str(email), "subject" := Str(subject),
                           "html" := Str(html), "workoutData" := Object(data)]);
    assert Get(body, "userEmail") == Str(email);
    assert Get(body, "subject") == Str(subject);
    assert Get(body, "html") == Str(html);
    assert ToText(Str(email)) == email;
    assert Get(body, "monthlyWorkouts") == Undefined;
    assert Get(body, "monthlyStreak") == Undefined;
    assert Get(body, "ytdWorkouts") == Undefined;
    assert Get(body, "exerciseCategoryBreakdown") == Undefined;
    assert Get(body, "workoutBreakdown") == Undefined;
  }
}
