/**
 * The Content-Length frame reader that sits between the input stream and the
 * JSON-RPC engine. The buffer collects raw input; each read peels off one
 * `Content-Length: n` header, the blank line after it and an n-byte body, the
 * same header/body framing as the Language Server Protocol base protocol.
 * A read either finds no complete frame (null, buffer untouched), finds a
 * malformed header (throws, buffer untouched) or consumes one frame and
 * decodes its body. The JSON decoder is a parameter of the buffer.
 */
module Framing {
  import opened Wrappers
  import opened Values
  import opened Errors

  newtype byte = x: int | 0 <= x < 256

  type Bytes = seq<byte>

  /** "Content-Length: " */
  const HeaderName: Bytes := [67, 111, 110, 116, 101, 110, 116, 45, 76, 101, 110, 103, 116, 104, 58, 32]

  /** "\r\n\r\n", the blank line that ends the header. */
  const Separator: Bytes := [13, 10, 13, 10]

  /** PHP's largest integer: `(int)` of a longer digit string saturates here. */
  const PHP_INT_MAX: int := 0x7FFF_FFFF_FFFF_FFFF

  /**
   * What `json_decode($content, true)` gives: a value, or the failure's description.
   * With `true` PHP decodes objects as arrays, so a real decoder never yields
   * `EmptyObject`; the `decode` field is not constrained to exclude it.
   */
  datatype Decoded = Decoded(value: Value) | DecodeError(reason: string)

  /** The least position in [i, n) where P holds, if any. */
  function FirstFrom(n: nat, P: nat -> bool, i: nat): (r: Option<nat>)
    requires i <= n
    decreases n - i
    ensures r.Some? ==> i <= r.value < n && P(r.value)
    ensures forall j :: i <= j < (if r.Some? then r.value else n) ==> !P(j)
  {
    if i == n then None
    else if P(i) then Some(i)
    else FirstFrom(n, P, i + 1)
  }

  predicate OccursAt(s: Bytes, pat: Bytes, i: nat) {
    i + |pat| <= |s| && s[i..i + |pat|] == pat
  }

  /** `strpos($s, $pat)`: the leftmost occurrence. */
  function Find(s: Bytes, pat: Bytes): (r: Option<nat>)
    ensures r.Some? ==> OccursAt(s, pat, r.value)
    ensures forall j :: 0 <= j < (if r.Some? then r.value else |s| + 1) ==> !OccursAt(s, pat, j)
  {
    var P := (j: nat) => OccursAt(s, pat, j);
    assert forall j: nat :: P(j) == OccursAt(s, pat, j);
    FirstFrom(|s| + 1, P, 0)
  }

  /** A position where P holds with no earlier one is what the search returns. */
  lemma {:induction false} FirstFromAt(n: nat, P: nat -> bool, i: nat, p: nat)
    requires i <= p < n && P(p)
    requires forall j :: i <= j < p ==> !P(j)
    ensures FirstFrom(n, P, i) == Some(p)
    decreases p - i
  {
    if i < p {
      assert !P(i);
      FirstFromAt(n, P, i + 1, p);
    }
  }

  lemma FindAt(s: Bytes, pat: Bytes, p: nat)
    requires OccursAt(s, pat, p)
    requires forall j :: 0 <= j < p ==> !OccursAt(s, pat, j)
    ensures Find(s, pat) == Some(p)
  {
    FirstFromAt(|s| + 1, (j: nat) => OccursAt(s, pat, j), 0, p);
  }

  predicate IsDigit(b: byte) {
    48 <= b <= 57
  }

  /** ASCII case folding, as PCRE's caseless matching does without the u flag. */
  function Lower(b: byte): byte {
    if 65 <= b <= 90 then b + 32 else b
  }

  /** The pattern `Content-Length: (\d+)` matches at i: the name, caselessly, then a digit. */
  predicate HeaderMatchAt(h: Bytes, i: nat) {
    i + |HeaderName| < |h|
    && (forall k :: 0 <= k < |HeaderName| ==> Lower(h[i + k]) == Lower(HeaderName[k]))
    && IsDigit(h[i + |HeaderName|])
  }

  /** Where `preg_match('/Content-Length: (\d+)/i', $h)` matches: the leftmost position. */
  function HeaderMatch(h: Bytes): (r: Option<nat>)
    ensures r.Some? ==> HeaderMatchAt(h, r.value)
    ensures forall j :: 0 <= j < (if r.Some? then r.value else |h|) ==> !HeaderMatchAt(h, j)
  {
    var P := (j: nat) => HeaderMatchAt(h, j);
    assert forall j: nat :: P(j) == HeaderMatchAt(h, j);
    FirstFrom(|h|, P, 0)
  }

  /** The end of the longest digit run starting at i (the greedy `\d+`). */
  function DigitRunEnd(h: Bytes, i: nat): (e: nat)
    requires i <= |h|
    decreases |h| - i
    ensures i <= e <= |h|
    ensures forall k :: i <= k < e ==> IsDigit(h[k])
    ensures e == |h| || !IsDigit(h[e])
  {
    if i < |h| && IsDigit(h[i]) then DigitRunEnd(h, i + 1) else i
  }

  /** The number a digit string denotes. */
  function DigitsValue(ds: Bytes): (v: nat)
    requires forall k :: 0 <= k < |ds| ==> IsDigit(ds[k])
  {
    if ds == [] then 0
    else
      assert IsDigit(ds[|ds| - 1]);
      10 * DigitsValue(ds[..|ds| - 1]) + (ds[|ds| - 1] as int - 48)
  }

  /** `(int)` of the captured digits, which saturates at PHP_INT_MAX. */
  function ContentLength(h: Bytes, m: nat): (n: nat)
    requires HeaderMatchAt(h, m)
    ensures n <= PHP_INT_MAX
  {
    var start := m + |HeaderName|;
    var v := DigitsValue(h[start..DigitRunEnd(h, start)]);
    if v > PHP_INT_MAX then PHP_INT_MAX else v
  }

  /** Bytes read as characters, for the text of an exception message. */
  function AsChars(bs: Bytes): (cs: string)
    ensures |cs| == |bs|
    ensures forall k :: 0 <= k < |bs| ==> cs[k] as int == bs[k] as int
  {
    seq(|bs|, k requires 0 <= k < |bs| => (bs[k] as int) as char)
  }

  /** What `readMessage` returns for a decoded body; its return type is `?array`. */
  function Interpret(d: Decoded): (r: Outcome<Option<PhpArray>>)
    ensures d.DecodeError? ==> r == Throw(Exception(PlainException, "Invalid JSON message: " + d.reason))
    ensures d.Decoded? && d.value.Arr? ==> r == Ok(Some(d.value.entries))
    ensures d.Decoded? && d.value == Null ==> r == Ok(None)
    ensures r.Fatal? <==> d.Decoded? && !d.value.Arr? && d.value != Null
  {
    match d
    case DecodeError(reason) => Throw(Exception(PlainException, "Invalid JSON message: " + reason))
    case Decoded(Null) => Ok(None)
    case Decoded(Arr(entries)) => Ok(Some(entries))
    case Decoded(_) => Fatal("TypeError: readMessage(): Return value must be of type ?array")
  }

  /**
   * One `readMessage` on buffer contents buf: its outcome and the buffer
   * afterwards.
   */
  function Read(buf: Bytes, decode: Bytes -> Decoded): (r: (Outcome<Option<PhpArray>>, Bytes))
    ensures r.1 != buf ==> |r.1| + |Separator| <= |buf|
    ensures r.0.Ok? && r.0.value.Some? ==> r.1 != buf && r.1 == buf[|buf| - |r.1|..]
  {
    match Find(buf, Separator)
    case None => (Ok(None), buf)
    case Some(headerEnd) =>
      var header := buf[..headerEnd];
      match HeaderMatch(header)
      case None => (Throw(Exception(PlainException, "Invalid message header: " + AsChars(header))), buf)
      case Some(m) =>
        var n := ContentLength(header, m);
        var start := headerEnd + |Separator|;
        if |buf| < start + n then (Ok(None), buf)
        else (Interpret(decode(buf[start..start + n])), buf[start + n..])
  }

  /** Decimal digits of n as bytes, as a sender writes the header value. */
  function DecimalBytes(n: nat): (ds: Bytes)
    ensures |ds| >= 1
    ensures forall k :: 0 <= k < |ds| ==> IsDigit(ds[k])
  {
    if n < 10 then [(48 + n) as byte] else DecimalBytes(n / 10) + [(48 + n % 10) as byte]
  }

  /** A well-formed frame: header, blank line, body. */
  function Frame(body: Bytes): Bytes {
    HeaderName + DecimalBytes(|body|) + Separator + body
  }

  class ReadBuffer {
    var buffer: Bytes
    const decode: Bytes -> Decoded

    constructor (decode: Bytes -> Decoded)
      ensures buffer == [] && this.decode == decode
    {
      buffer := [];
      this.decode := decode;
    }

    /** `append($data)`. */
    method Append(data: Bytes)
      modifies this
      ensures buffer == old(buffer) + data
    {
      buffer := buffer + data;
    }

    /** `readMessage()`: the outcome and the new buffer are those of Read. */
    method ReadMessage() returns (r: Outcome<Option<PhpArray>>)
      modifies this
      ensures (r, buffer) == Read(old(buffer), decode)
    {
      var headerEnd := Find(buffer, Separator);
      if headerEnd.None? {
        return Ok(None);
      }
      var header := buffer[..headerEnd.value];
      var m := HeaderMatch(header);
      if m.None? {
        return Throw(Exception(PlainException, "Invalid message header: " + AsChars(header)));
      }
      var contentLength := ContentLength(header, m.value);
      var contentStart := headerEnd.value + 4;
      if |buffer| < contentStart + contentLength {
        return Ok(None);
      }
      var content := buffer[contentStart..contentStart + contentLength];
      buffer := buffer[contentStart + contentLength..];
      r := Interpret(decode(content));
    }

    /** `clear()`. */
    method Clear()
      modifies this
      ensures buffer == []
    {
      buffer := [];
    }
  }

  // ---------------------------------------------------------------------------
  // Properties of Read

  /** Without a blank line there is no message and nothing is consumed. */
  lemma NoSeparatorIsIncomplete(buf: Bytes, decode: Bytes -> Decoded)
    requires forall j :: 0 <= j <= |buf| ==> !OccursAt(buf, Separator, j)
    ensures Read(buf, decode) == (Ok(None), buf)
  {
  }

  /** A header without a Content-Length field throws and leaves the buffer as it was. */
  lemma MalformedHeaderThrows(buf: Bytes, decode: Bytes -> Decoded, headerEnd: nat)
    requires Find(buf, Separator) == Some(headerEnd)
    requires forall j :: 0 <= j < headerEnd ==> !HeaderMatchAt(buf[..headerEnd], j)
    ensures Read(buf, decode).1 == buf
    ensures Read(buf, decode).0 == Throw(Exception(PlainException, "Invalid message header: " + AsChars(buf[..headerEnd])))
  {
  }

  /** A read never adds bytes: what remains is a suffix of what was there. */
  lemma RemainderIsSuffix(buf: Bytes, decode: Bytes -> Decoded)
    ensures |Read(buf, decode).1| <= |buf|
    ensures Read(buf, decode).1 == buf[|buf| - |Read(buf, decode).1|..]
  {
  }

  /**
   * A body that has not fully arrived is not consumed; otherwise the decoder
   * sees exactly the n bytes after the blank line and the buffer keeps exactly
   * what follows them, whether or not they decode.
   */
  lemma CompleteFrameIsConsumed(buf: Bytes, decode: Bytes -> Decoded, headerEnd: nat, m: nat)
    requires Find(buf, Separator) == Some(headerEnd)
    requires HeaderMatch(buf[..headerEnd]) == Some(m)
    ensures var n := ContentLength(buf[..headerEnd], m);
            var start := headerEnd + 4;
            if |buf| < start + n then Read(buf, decode) == (Ok(None), buf)
            else Read(buf, decode) == (Interpret(decode(buf[start..start + n])), buf[start + n..])
  {
  }

  lemma DecimalBytesValue(n: nat)
    ensures DigitsValue(DecimalBytes(n)) == n
  {
    if n >= 10 {
      var ds := DecimalBytes(n);
      assert ds[..|ds| - 1] == DecimalBytes(n / 10);
    }
  }

  /** The greedy digit run stops at the first non-digit. */
  lemma {:induction false} DigitRunStops(h: Bytes, i: nat, end: nat)
    requires i <= end <= |h|
    requires forall k :: i <= k < end ==> IsDigit(h[k])
    requires end == |h| || !IsDigit(h[end])
    ensures DigitRunEnd(h, i) == end
    decreases end - i
  {
    if i < end {
      DigitRunStops(h, i + 1, end);
    }
  }

  /** No byte of the header name nor a digit is '\r', so the first blank line is the one after the digits. */
  lemma FrameSeparatorAt(body: Bytes, rest: Bytes)
    ensures Find(Frame(body) + rest, Separator) == Some(|HeaderName| + |DecimalBytes(|body|)|)
  {
    var buf := Frame(body) + rest;
    var ds := DecimalBytes(|body|);
    var p := |HeaderName| + |ds|;
    assert buf[..p] == HeaderName + ds;
    assert buf[p..p + 4] == Separator;
    assert OccursAt(buf, Separator, p);
    forall j | 0 <= j < p
      ensures !OccursAt(buf, Separator, j)
    {
      assert buf[j] == (HeaderName + ds)[j];
      if j < |HeaderName| {
        assert buf[j] == HeaderName[j];
      } else {
        assert buf[j] == ds[j - |HeaderName|];
      }
      assert buf[j] != 13;
    }
    FindAt(buf, Separator, p);
  }

  /** The header of a frame matches at its start. */
  lemma FrameHeaderMatches(ds: Bytes)
    requires |ds| >= 1 && IsDigit(ds[0])
    ensures HeaderMatchAt(HeaderName + ds, 0)
    ensures HeaderMatch(HeaderName + ds) == Some(0)
  {
    var h := HeaderName + ds;
    assert h[..|HeaderName|] == HeaderName;
    assert h[|HeaderName|] == ds[0];
    assert forall k :: 0 <= k < |HeaderName| ==> h[k] == HeaderName[k];
    FirstFromAt(|h|, (j: nat) => HeaderMatchAt(h, j), 0, 0);
  }

  /** The captured digits of a header that is the name followed by digits only. */
  lemma HeaderDigits(ds: Bytes)
    requires |ds| >= 1
    requires forall k :: 0 <= k < |ds| ==> IsDigit(ds[k])
    requires DigitsValue(ds) <= PHP_INT_MAX
    requires HeaderMatchAt(HeaderName + ds, 0)
    ensures ContentLength(HeaderName + ds, 0) == DigitsValue(ds)
  {
    var h := HeaderName + ds;
    var n := |HeaderName|;
    assert h[n..] == ds;
    forall k | n <= k < |h|
      ensures IsDigit(h[k])
    {
      assert h[k] == ds[k - n];
    }
    DigitRunStops(h, n, |h|);
    var e := DigitRunEnd(h, n);
    assert h[n..e] == ds;
  }

  /** The header of a frame carries the body's length. */
  lemma FrameHeader(body: Bytes)
    requires |body| <= PHP_INT_MAX
    ensures var h := HeaderName + DecimalBytes(|body|);
            HeaderMatch(h) == Some(0) && ContentLength(h, 0) == |body|
  {
    var ds := DecimalBytes(|body|);
    FrameHeaderMatches(ds);
    DecimalBytesValue(|body|);
    HeaderDigits(ds);
  }

  /**
   * Round trip: a frame written with the body's length, followed by anything,
   * reads as the decoded body and leaves exactly what followed buffered.
   */
  lemma FrameRoundTrip(body: Bytes, rest: Bytes, decode: Bytes -> Decoded)
    requires |body| <= PHP_INT_MAX
    ensures Read(Frame(body) + rest, decode) == (Interpret(decode(body)), rest)
  {
    var buf := Frame(body) + rest;
    var h := HeaderName + DecimalBytes(|body|);
    FrameSeparatorAt(body, rest);
    assert buf[..|h|] == h;
    FrameHeader(body);
    var start := |h| + 4;
    assert buf[start..start + |body|] == body;
    assert buf[start + |body|..] == rest;
  }

  /** Frames that arrive back to back are read in order. */
  lemma TwoFrames(b1: Bytes, b2: Bytes, rest: Bytes, decode: Bytes -> Decoded)
    requires |b1| <= PHP_INT_MAX && |b2| <= PHP_INT_MAX
    ensures Read(Frame(b1) + Frame(b2) + rest, decode) == (Interpret(decode(b1)), Frame(b2) + rest)
    ensures Read(Read(Frame(b1) + Frame(b2) + rest, decode).1, decode) == (Interpret(decode(b2)), rest)
  {
    assert Frame(b1) + Frame(b2) + rest == Frame(b1) + (Frame(b2) + rest);
    FrameRoundTrip(b1, Frame(b2) + rest, decode);
    FrameRoundTrip(b2, rest, decode);
  }

  /** Once a frame is complete, more input arriving does not change what is read. */
  lemma CompleteReadIsStable(buf: Bytes, more: Bytes, decode: Bytes -> Decoded)
    requires Read(buf, decode).1 != buf
    ensures Read(buf + more, decode) == (Read(buf, decode).0, Read(buf, decode).1 + more)
  {
    var headerEnd := Find(buf, Separator).value;
    FindExtends(buf, more, Separator);
    var big := buf + more;
    assert big[..headerEnd] == buf[..headerEnd];
    var m := HeaderMatch(buf[..headerEnd]).value;
    var n := ContentLength(buf[..headerEnd], m);
    var start := headerEnd + 4;
    assert big[start..start + n] == buf[start..start + n];
    assert big[start + n..] == buf[start + n..] + more;
  }

  /** An occurrence in a prefix is still the leftmost one after appending. */
  lemma FindExtends(s: Bytes, more: Bytes, pat: Bytes)
    requires Find(s, pat).Some?
    ensures Find(s + more, pat) == Find(s, pat)
  {
    var p := Find(s, pat).value;
    var big := s + more;
    assert big[p..p + |pat|] == s[p..p + |pat|];
    assert OccursAt(big, pat, p);
    forall j | 0 <= j < p
      ensures !OccursAt(big, pat, j)
    {
      assert !OccursAt(s, pat, j);
      assert big[j..j + |pat|] == s[j..j + |pat|];
    }
    FindAt(big, pat, p);
  }

  /** After `clear` there is nothing to read. */
  lemma ClearedBufferIsEmpty(decode: Bytes -> Decoded)
    ensures Read([], decode) == (Ok(None), [])
  {
    assert !OccursAt([], Separator, 0);
  }
}
