/**
 * The service error of error.go, its JSON envelope and its `[code] text`
 * rendering, together with every other error value the library hands to
 * its callers (the Go `error` results), and how each one reads.
 */
module Errors {
  import opened Options
  import opened Codec

  /** A service error: `Error` in error.go. */
  datatype ServiceError = ServiceError(code: int, text: string)

  /** A response body carrying a service error: `ErrorResponse` in error.go. */
  datatype ErrorResponse = ErrorResponse(error: ServiceError)

  /** The zero ErrorResponse the mapper decodes into. */
  const EmptyEnvelope := ErrorResponse(ServiceError(0, ""))

  /**
   * The JSON shape the struct tags give an ErrorResponse:
   * {"error": {"error_code": <int>, "error_text": <string>}}.
   */
  function EnvelopeJson(r: ErrorResponse): Json
  {
    JObject([("error", JObject([("error_code", JInt(r.error.code)),
                                ("error_text", JString(r.error.text))]))])
  }

  /** Go's `int` on a 64-bit platform; the decoder refuses a JSON number outside it. */
  predicate IsGoInt(n: int)
  {
    -0x8000_0000_0000_0000 <= n < 0x8000_0000_0000_0000
  }

  /**
   * Decoding one JSON object into an Error that already holds `e`: the
   * members are applied in order, and each one named by a struct tag whose
   * value has the field's type overwrites that field. A null, a value of
   * another type, or a code outside Go's int leaves the field as it was.
   */
  function MergeError(e: ServiceError, members: seq<(string, Json)>): ServiceError
  {
    if members == [] then e
    else
      var before := MergeError(e, members[..|members| - 1]);
      var key := members[|members| - 1].0;
      match members[|members| - 1].1
      case JInt(n) => if key == "error_code" && IsGoInt(n) then before.(code := n) else before
      case JString(t) => if key == "error_text" then before.(text := t) else before
      case _ => before
  }

  /** One JSON value decoded into the embedded Error: an object merges into it, anything else leaves it alone. */
  function MergeErrorValue(e: ServiceError, value: Json): ServiceError
  {
    match value
    case JObject(members) => MergeError(e, members)
    case JStringMap(entries) => if "error_text" in entries then e.(text := entries["error_text"]) else e
    case _ => e
  }

  /** The body's members applied in order: every "error" member merges into the one Error. */
  function MergeEnvelope(e: ServiceError, members: seq<(string, Json)>): ServiceError
  {
    if members == [] then e
    else
      var before := MergeEnvelope(e, members[..|members| - 1]);
      if members[|members| - 1].0 == "error" then MergeErrorValue(before, members[|members| - 1].1) else before
  }

  /**
   * What decoding a parsed body into a zero ErrorResponse leaves behind. A
   * body that is not a JSON object, or does not parse at all (None), leaves
   * the whole envelope zero.
   */
  function ReadEnvelope(body: Option<Json>): ErrorResponse
  {
    match body
    case Some(JObject(members)) => ErrorResponse(MergeEnvelope(ServiceError(0, ""), members))
    case _ => EmptyEnvelope
  }

  /** Reading back the tagged shape of an envelope gives the envelope. */
  lemma EnvelopeRoundTrip(r: ErrorResponse)
    requires IsGoInt(r.error.code)
    ensures ReadEnvelope(Some(EnvelopeJson(r))) == r
  {
    var zero := ServiceError(0, "");
    var fields := [("error_code", JInt(r.error.code)), ("error_text", JString(r.error.text))];
    assert fields[..1][..0] == [];
    assert MergeError(zero, fields[..1]) == zero.(code := r.error.code);
    assert MergeError(zero, fields) == r.error;
    var members := [("error", JObject(fields))];
    assert members[..0] == [];
    assert MergeEnvelope(zero, members) == MergeErrorValue(zero, JObject(fields));
  }

  /** Decoding a body made of two parts decodes the first part, then the second on top of it. */
  lemma {:induction false} MergeEnvelopeConcat(e: ServiceError, a: seq<(string, Json)>, b: seq<(string, Json)>)
    ensures MergeEnvelope(e, a + b) == MergeEnvelope(MergeEnvelope(e, a), b)
  {
    if b == [] {
      assert a + b == a;
    } else {
      assert (a + b)[..|a + b| - 1] == a + b[..|b| - 1];
      MergeEnvelopeConcat(e, a, b[..|b| - 1]);
    }
  }

  /** A field no member names keeps the value it had. */
  lemma {:induction false} MergeKeepsUnnamedFields(e: ServiceError, members: seq<(string, Json)>)
    ensures (forall i :: 0 <= i < |members| ==> members[i].0 != "error_code") ==> MergeError(e, members).code == e.code
    ensures (forall i :: 0 <= i < |members| ==> members[i].0 != "error_text") ==> MergeError(e, members).text == e.text
  {
    if members != [] {
      var init := members[..|members| - 1];
      MergeKeepsUnnamedFields(e, init);
      if forall i :: 0 <= i < |members| ==> members[i].0 != "error_code" {
        assert forall i :: 0 <= i < |init| ==> init[i].0 == members[i].0;
      }
      if forall i :: 0 <= i < |members| ==> members[i].0 != "error_text" {
        assert forall i :: 0 <= i < |init| ==> init[i].0 == members[i].0;
      }
    }
  }

  /** Two "error" objects merge into one Error: the code from the first, the text from the second. */
  lemma RepeatedErrorObjectsMerge(code: int, text: string)
    requires IsGoInt(code)
    ensures ReadEnvelope(Some(JObject([("error", JObject([("error_code", JInt(code))])),
                                       ("error", JObject([("error_text", JString(text))]))])))
         == ErrorResponse(ServiceError(code, text))
  {
    var zero := ServiceError(0, "");
    var codeOnly := [("error_code", JInt(code))];
    var textOnly := [("error_text", JString(text))];
    assert codeOnly[..0] == [] && textOnly[..0] == [];
    assert MergeError(zero, codeOnly) == ServiceError(code, "");
    assert MergeError(ServiceError(code, ""), textOnly) == ServiceError(code, text);
    var members := [("error", JObject(codeOnly)), ("error", JObject(textOnly))];
    assert members[..1][..0] == [];
    assert MergeEnvelope(zero, members[..1]) == ServiceError(code, "");
    assert MergeEnvelope(zero, members) == ServiceError(code, text);
  }

  /** A later null "error" leaves the Error decoded so far as it was. */
  lemma NullErrorKeepsFields(r: ErrorResponse)
    requires IsGoInt(r.error.code)
    ensures ReadEnvelope(Some(JObject(EnvelopeJson(r).members + [("error", JNull)]))) == r
  {
    EnvelopeRoundTrip(r);
    MergeEnvelopeConcat(ServiceError(0, ""), EnvelopeJson(r).members, [("error", JNull)]);
    assert [("error", JNull)][..0] == [];
  }

  /** A code outside Go's int is refused by the decoder, so the field keeps its zero value. */
  lemma OutOfRangeCodeIgnored(code: int, text: string)
    requires !IsGoInt(code)
    ensures ReadEnvelope(Some(EnvelopeJson(ErrorResponse(ServiceError(code, text)))))
         == ErrorResponse(ServiceError(0, text))
  {
    var zero := ServiceError(0, "");
    var fields := [("error_code", JInt(code)), ("error_text", JString(text))];
    assert fields[..1][..0] == [];
    assert MergeError(zero, fields[..1]) == zero;
    assert MergeError(zero, fields) == ServiceError(0, text);
    var members := [("error", JObject(fields))];
    assert members[..0] == [];
    assert MergeEnvelope(zero, members) == MergeErrorValue(zero, JObject(fields));
  }

  /** An unparsable or empty body decodes to the empty envelope. */
  lemma UnparsableIsEmptyEnvelope()
    ensures ReadEnvelope(None) == EmptyEnvelope
  {
  }

  // ---------------------------------------------------------------------
  // Go's %d rendering of an int.

  predicate IsDigit(c: char)
  {
    '0' <= c <= '9'
  }

  predicate AllDigits(s: string)
  {
    forall i :: 0 <= i < |s| ==> IsDigit(s[i])
  }

  function DigitChar(d: nat): (c: char)
    requires d < 10
    ensures IsDigit(c)
  {
    (48 + d) as char
  }

  function DigitValue(c: char): nat
    requires IsDigit(c)
  {
    c as int - 48
  }

  /** The decimal digits of a natural number, most significant first. */
  function NatDecimal(n: nat): (s: string)
    ensures |s| >= 1 && AllDigits(s)
    decreases n
  {
    if n < 10 then [DigitChar(n)] else NatDecimal(n / 10) + [DigitChar(n % 10)]
  }

  /** The value of a string of decimal digits. */
  function ParseNat(s: string): nat
    requires AllDigits(s)
  {
    if s == [] then 0 else ParseNat(s[..|s| - 1]) * 10 + DigitValue(s[|s| - 1])
  }

  /** `%d` of an int: a minus sign for negative values, then the digits. */
  function Decimal(n: int): (s: string)
    ensures |s| >= 1
    ensures forall i :: 0 <= i < |s| ==> s[i] == '-' || IsDigit(s[i])
  {
    if n < 0 then "-" + NatDecimal(-n) else NatDecimal(n)
  }

  /** Reads back what Decimal writes; None for anything else. */
  function ParseDecimal(s: string): Option<int>
  {
    if |s| > 1 && s[0] == '-' && AllDigits(s[1..]) then
      var magnitude: int := ParseNat(s[1..]); Some(-magnitude)
    else if |s| > 0 && AllDigits(s) then Some(ParseNat(s))
    else None
  }

  lemma {:induction false} NatDecimalRoundTrip(n: nat)
    ensures ParseNat(NatDecimal(n)) == n
    decreases n
  {
    var s := NatDecimal(n);
    if n >= 10 {
      NatDecimalRoundTrip(n / 10);
      assert s[..|s| - 1] == NatDecimal(n / 10);
    }
  }

  /** The rendering of a code determines the code. */
  lemma DecimalRoundTrip(n: int)
    ensures ParseDecimal(Decimal(n)) == Some(n)
  {
    if n < 0 {
      NatDecimalRoundTrip(-n);
      assert Decimal(n)[1..] == NatDecimal(-n);
    } else {
      NatDecimalRoundTrip(n);
    }
  }

  // ---------------------------------------------------------------------
  // (*Error).Error

  /** `[code] text`, as `(*Error).Error` formats a service error. */
  function Render(e: ServiceError): (s: string)
    ensures |s| >= 4 + |e.text| && s[0] == '['
    ensures s[|s| - |e.text|..] == e.text
  {
    "[" + Decimal(e.code) + "] " + e.text
  }

  /** A service error with neither code nor text renders as "[0] ". */
  lemma RenderZero()
    ensures Render(ServiceError(0, "")) == "[0] "
  {
  }

  /** "[d] t" splits back into d and t when d holds no ']'. */
  lemma SplitBracketed(d1: string, t1: string, d2: string, t2: string)
    requires forall j :: 0 <= j < |d1| ==> d1[j] != ']'
    requires forall j :: 0 <= j < |d2| ==> d2[j] != ']'
    requires "[" + d1 + "] " + t1 == "[" + d2 + "] " + t2
    ensures d1 == d2 && t1 == t2
  {
    var s := "[" + d1 + "] " + t1;
    assert s == "[" + d2 + "] " + t2;
    // the first ']' closes the code on both readings
    assert s[1 + |d1|] == ']' && s[1 + |d2|] == ']';
    assert forall j :: 0 <= j < |d1| ==> s[1 + j] == d1[j];
    assert forall j :: 0 <= j < |d2| ==> s[1 + j] == d2[j];
    assert |d1| == |d2|;
    assert d1 == s[1..1 + |d1|] == d2;
    assert t1 == s[3 + |d1|..] == t2;
  }

  /** Two service errors that render alike are the same error. */
  lemma RenderInjective(a: ServiceError, b: ServiceError)
    requires Render(a) == Render(b)
    ensures a == b
  {
    SplitBracketed(Decimal(a.code), a.text, Decimal(b.code), b.text);
    DecimalRoundTrip(a.code);
    DecimalRoundTrip(b.code);
  }

  // ---------------------------------------------------------------------
  // The error values the library returns.

  const MissingTokenMessage := "missing MyTimeStation API auth token"

  /** A Go `error` value as this library produces or passes on. */
  datatype Failure =
    | MissingToken                                      // ErrMissingToken
    | Service(error: ServiceError)                      // *Error
    | Wrapped(context: string, cause: Failure)          // fmt.Errorf("<context>: %w", cause)
    | Opaque(message: string)                           // an error from library code
    | UrlError(op: string, url: string, cause: Failure) // *url.Error from http.Client.Do
    | Aggregate(errors: seq<Failure>)                   // an error list of the sweepers

  /** What `err.Error()` returns. */
  function Message(f: Failure): string
    decreases f, 1
  {
    match f
    case MissingToken => MissingTokenMessage
    case Service(e) => Render(e)
    case Wrapped(context, cause) => context + ": " + Message(cause)
    case Opaque(m) => m
    case UrlError(op, url, cause) => op + " \"" + url + "\": " + Message(cause)
    case Aggregate(errs) => "errors:" + Items(errs)
  }

  /** One " <message>;" per listed error, in order. */
  function Items(errs: seq<Failure>): string
    decreases errs, 0
  {
    if errs == [] then ""
    else Items(errs[..|errs| - 1]) + " " + Message(errs[|errs| - 1]) + ";"
  }

  /** An empty error list renders as just "errors:". */
  lemma EmptyListMessage()
    ensures Message(Aggregate([])) == "errors:"
  {
  }

  /** `sub` sits in `s` at offset `k`. */
  predicate OccursAt(sub: string, s: string, k: int)
  {
    0 <= k <= |s| - |sub| && s[k..k + |sub|] == sub
  }

  ghost predicate IsSubstring(sub: string, s: string)
  {
    exists k :: OccursAt(sub, s, k)
  }

  /** The rendering of an error list carries every element's message, in its slot. */
  lemma {:induction false} ItemsContainEach(errs: seq<Failure>, i: nat)
    requires i < |errs|
    ensures IsSubstring(" " + Message(errs[i]) + ";", Items(errs))
  {
    var last := |errs| - 1;
    var prefix := Items(errs[..last]);
    var item := " " + Message(errs[last]) + ";";
    var whole := Items(errs);
    assert whole == prefix + item;
    if i == last {
      assert whole[|prefix|..|prefix| + |item|] == item;
      assert OccursAt(item, whole, |prefix|);
    } else {
      ItemsContainEach(errs[..last], i);
      assert errs[..last][i] == errs[i];
      var sub := " " + Message(errs[i]) + ";";
      var k :| OccursAt(sub, prefix, k);
      assert whole[k..k + |sub|] == prefix[k..k + |sub|];
      assert OccursAt(sub, whole, k);
    }
  }

  /** Spelling an error list shows each element's message. */
  lemma ListMessageContainsEach(errs: seq<Failure>, i: nat)
    requires i < |errs|
    ensures IsSubstring(" " + Message(errs[i]) + ";", Message(Aggregate(errs)))
  {
    ItemsContainEach(errs, i);
    var sub := " " + Message(errs[i]) + ";";
    var items := Items(errs);
    var k :| OccursAt(sub, items, k);
    assert Message(Aggregate(errs)) == "errors:" + items;
    OccursAfterPrefix(sub, "errors:", items, k);
  }

  /** Putting text in front of a string moves each occurrence in it along by that text's length. */
  lemma OccursAfterPrefix(sub: string, p: string, s: string, k: int)
    requires OccursAt(sub, s, k)
    ensures OccursAt(sub, p + s, |p| + k)
  {
    var whole := p + s;
    forall j | 0 <= j < |sub|
      ensures whole[|p| + k + j] == sub[j]
    {
      assert whole[|p| + k + j] == s[k + j];
      assert s[k..k + |sub|][j] == s[k + j];
    }
    assert whole[|p| + k..|p| + k + |sub|] == sub;
  }

  /** errors.As(f, &*Error): the service error found along the wrap chain. */
  function ServiceCause(f: Failure): Option<ServiceError>
  {
    match f
    case Service(e) => Some(e)
    case Wrapped(_, cause) => ServiceCause(cause)
    case UrlError(_, _, cause) => ServiceCause(cause)
    case _ => None
  }

  /** errors.Is(f, ErrMissingToken). */
  predicate IsMissingToken(f: Failure)
  {
    match f
    case MissingToken => true
    case Wrapped(_, cause) => IsMissingToken(cause)
    case UrlError(_, _, cause) => IsMissingToken(cause)
    case _ => false
  }

  /** A Go (value, error) pair where exactly one side is set. */
  datatype Result<+T> = Ok(value: T) | Err(error: Failure) {

    /** The success value transformed, an error passed on unchanged. */
    function Map<U>(f: T -> U): Result<U>
    {
      match this
      case Ok(v) => Ok(f(v))
      case Err(e) => Err(e)
    }
  }

  /** Unwrapping keeps an error exactly as it was. */
  lemma MapKeepsError<T, U>(r: Result<T>, f: T -> U)
    ensures r.Map(f).Err? <==> r.Err?
    ensures r.Err? ==> r.Map(f).error == r.error
    ensures r.Ok? ==> r.Map(f).value == f(r.value)
  {
  }
}
