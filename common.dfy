/** Small value types shared by the backend and the three session clients. */
module Common {

  /** A value that may be absent: C#'s `T?`, TypeScript's `T | null`. */
  datatype Option<+T> = None | Some(value: T)

  /** What a client-side HTTP call delivers once its promise settles: the parsed
      body of a 2xx response, or an error response with its status and raw text. */
  datatype HttpOutcome<+T> = Ok(body: T) | Err(status: int, text: string)

  /** The HTTP status that every client reads as "not logged in". */
  const Unauthorized: int := 401

  /** Decimal rendering of a natural number, as `${n}` in a template literal. */
  function NatToDecimal(n: nat): (r: string)
    ensures |r| > 0
    ensures forall i :: 0 <= i < |r| ==> '0' <= r[i] <= '9'
    ensures |r| > 1 ==> r[0] != '0'
  {
    if n < 10 then [DigitChar(n)] else NatToDecimal(n / 10) + [DigitChar(n % 10)]
  }

  /** The value of a string of decimal digits; the inverse of NatToDecimal. */
  function DecimalValue(s: string): nat
    requires forall i :: 0 <= i < |s| ==> '0' <= s[i] <= '9'
  {
    if s == [] then 0 else 10 * DecimalValue(s[..|s| - 1]) + (s[|s| - 1] as int - '0' as int)
  }

  function DigitChar(d: nat): (c: char)
    requires d < 10
    ensures '0' <= c <= '9' && c as int - '0' as int == d
  {
    (d + '0' as int) as char
  }

  /** Rendering a status code and reading it back gives the same number, so the
      status in a "Request failed with status N" message is recoverable. */
  lemma {:induction false} DecimalRoundTrip(n: nat)
    ensures DecimalValue(NatToDecimal(n)) == n
  {
    if n >= 10 {
      var s := NatToDecimal(n);
      assert s[..|s| - 1] == NatToDecimal(n / 10);
      DecimalRoundTrip(n / 10);
    }
  }
}
