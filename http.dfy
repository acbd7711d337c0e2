/**
 * What the chat page sees of an HTTP exchange: either the transport failed,
 * or a response arrived with a status code and a body that did or did not
 * decode into the expected JSON shape. The transport and the JSON decoder
 * themselves are not modelled; their results are given as values.
 */
module Http {

  /** A response status as the client library reports it: an unsigned 16-bit integer. */
  newtype StatusCode = x: int | 0 <= x < 0x1_0000

  /** The client library's `ok()` test on a response: a 2xx status. */
  predicate IsSuccess(code: StatusCode) {
    200 <= code <= 299
  }

  /** The result of decoding a response body as JSON of type `T`. */
  datatype Body<T> = Parsed(value: T) | Malformed(detail: string)

  /** The result of sending one request and, for a 2xx response, decoding its body. */
  datatype Fetch<T> =
    | TransportFailed(detail: string)
    | Responded(status: StatusCode, body: Body<T>)

  /** The four ways the page's nested `match response { ... }` can end. */
  datatype Outcome<T> =
    | Delivered(value: T)
    | TransportError(detail: string)
    | StatusError(code: StatusCode)
    | ParseError(detail: string)

  /**
   * The branch structure shared by model discovery and chat completion: a
   * transport error first, then the status test, and only for a 2xx status
   * the body decoding.
   */
  function Classify<T>(f: Fetch<T>): (o: Outcome<T>)
    ensures o.TransportError? <==> f.TransportFailed?
    ensures o.StatusError? <==> f.Responded? && !IsSuccess(f.status)
    ensures o.ParseError? <==> f.Responded? && IsSuccess(f.status) && f.body.Malformed?
    ensures o.Delivered? <==> f.Responded? && IsSuccess(f.status) && f.body.Parsed?
    ensures o.TransportError? ==> o.detail == f.detail
    ensures o.StatusError? ==> o.code == f.status
    ensures o.ParseError? ==> o.detail == f.body.detail
    ensures o.Delivered? ==> o.value == f.body.value
  {
    match f
    case TransportFailed(d) => TransportError(d)
    case Responded(code, body) =>
      if !IsSuccess(code) then StatusError(code)
      else match body
        case Parsed(v) => Delivered(v)
        case Malformed(d) => ParseError(d)
  }

  predicate IsDigit(c: char) {
    '0' <= c <= '9'
  }

  predicate AllDigits(s: string) {
    forall i :: 0 <= i < |s| ==> IsDigit(s[i])
  }

  function DigitChar(d: nat): (c: char)
    requires d < 10
    ensures IsDigit(c)
    ensures c as int - '0' as int == d
  {
    ('0' as int + d) as char
  }

  /**
   * Rust's `Display` of an unsigned integer: its decimal digits, most
   * significant first, with no leading zero.
   */
  function Decimal(n: nat): (s: string)
    ensures |s| >= 1
    ensures AllDigits(s)
    ensures s[0] == '0' <==> n == 0
    ensures s[0] == '0' ==> s == "0"
  {
    if n < 10 then [DigitChar(n)] else Decimal(n / 10) + [DigitChar(n % 10)]
  }

  /** The number a string of decimal digits denotes. */
  function DigitsValue(s: string): nat
    requires AllDigits(s)
  {
    if s == [] then 0
    else DigitsValue(s[..|s| - 1]) * 10 + (s[|s| - 1] as int - '0' as int)
  }

  /** Reading the digits back gives the number that was printed. */
  lemma {:induction false} DecimalRoundTrip(n: nat)
    ensures DigitsValue(Decimal(n)) == n
  {
    if n >= 10 {
      var s := Decimal(n);
      assert s[..|s| - 1] == Decimal(n / 10);
      DecimalRoundTrip(n / 10);
    }
  }

  /** Two numbers print the same only if they are equal. */
  lemma DecimalInjective(a: nat, b: nat)
    requires Decimal(a) == Decimal(b)
    ensures a == b
  {
    DecimalRoundTrip(a);
    DecimalRoundTrip(b);
  }

  /** The text both pages use for a non-2xx response: `format!("API Error: {}", status)`. */
  function StatusErrorText(code: StatusCode): (text: string)
    ensures |text| > 11 && text[..11] == "API Error: "
    ensures AllDigits(text[11..]) && DigitsValue(text[11..]) == code as int
  {
    var digits := Decimal(code as int);
    DecimalRoundTrip(code as int);
    assert ("API Error: " + digits)[11..] == digits;
    "API Error: " + digits
  }
}
