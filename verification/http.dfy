/** Vocabulary shared by the client and the server crates: HTTP versions,
    bytes, header maps and the decimal header values `HeaderValue::from(usize)`
    produces. */
module Http {

  /** An octet. */
  newtype byte = x: int | 0 <= x < 256

  /** `bytes::Bytes`: an immutable byte buffer. */
  type Bytes = seq<byte>

  /** A TCP port (`u16`). */
  newtype Port = x: int | 0 <= x < 0x1_0000

  /** A span of time in some fixed unit; clocks are not modelled. */
  type Duration = nat

  /** `http::Version`: the five protocol versions, oldest first. */
  datatype HttpVersion = Http09 | Http10 | Http11 | Http2 | Http3 {

    /** Position in protocol history. */
    function Rank(): nat {
      match this
      case Http09 => 0
      case Http10 => 1
      case Http11 => 2
      case Http2 => 3
      case Http3 => 4
    }

    /** Versions that multiplex several requests over one connection. */
    predicate IsMultiplexed() {
      Http2? || Http3?
    }
  }

  function MaxVersion(a: HttpVersion, b: HttpVersion): HttpVersion {
    if a.Rank() >= b.Rank() then a else b
  }

  function MinVersion(a: HttpVersion, b: HttpVersion): HttpVersion {
    if a.Rank() <= b.Rank() then a else b
  }

  /** Header names are lower-case ASCII; values are their text. A header map
      holds one value per name, so a name carrying several values cannot be
      represented. `HeaderMap::insert` replaces every earlier value of the
      name it inserts, which is what writing into this map does. */
  type HeaderName = string
  type HeaderValue = string
  type HeaderMap = map<HeaderName, HeaderValue>

  const ContentLength: HeaderName := "content-length"
  const ContentType: HeaderName := "content-type"

  /** The `text/plain; charset=utf-8` content type both crates attach to
      plain-text bodies. */
  const TextUtf8: HeaderValue := "text/plain; charset=utf-8"

  predicate IsDigit(c: char) {
    '0' <= c <= '9'
  }

  /** The value of one decimal digit. */
  function DigitValue(c: char): (d: nat)
    requires IsDigit(c)
    ensures d < 10
  {
    c as int - 48
  }

  predicate IsDecimal(s: string) {
    |s| > 0 && forall i :: 0 <= i < |s| ==> IsDigit(s[i])
  }

  function DigitChar(d: nat): (c: char)
    requires d < 10
    ensures IsDigit(c)
    ensures d == 0 <==> c == '0'
  {
    (48 + d) as char
  }

  /** `HeaderValue::from(n)`: the shortest decimal spelling of `n`. */
  function DecimalText(n: nat): (s: HeaderValue)
    ensures IsDecimal(s)
    ensures |s| > 1 ==> s[0] != '0'
    decreases n
  {
    if n < 10 then [DigitChar(n)] else DecimalText(n / 10) + [DigitChar(n % 10)]
  }

  /** The number a decimal header value denotes, read most significant digit
      first, as a peer reading `Content-Length` does. */
  function DecimalValue(s: string): nat
    requires forall i :: 0 <= i < |s| ==> IsDigit(s[i])
  {
    if |s| == 0 then 0
    else DecimalValue(s[..|s| - 1]) * 10 + DigitValue(s[|s| - 1])
  }

  /** Reading back the value written for `n` gives `n`. */
  lemma {:induction false} DecimalRoundTrip(n: nat)
    ensures DecimalValue(DecimalText(n)) == n
    decreases n
  {
    if n >= 10 {
      var s := DecimalText(n);
      var init := DecimalText(n / 10);
      assert s[..|s| - 1] == init;
      DecimalRoundTrip(n / 10);
      assert DigitValue(DigitChar(n % 10)) == n % 10;
    }
  }

  /** `std::io::Error`, reduced to the text its `Display` prints, kept as
      the UTF-8 bytes of that text. */
  datatype IoError = IoError(display: Bytes)
}
