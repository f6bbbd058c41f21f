/**
 * The "Decode" button: the pasted token is trimmed, rejected when empty or when it
 * is not three dot-separated segments, and otherwise its header and payload
 * segments are read and the payload's `exp` and `nbf` give the status line.
 * `atob` followed by `JSON.parse` is the `readJson` parameter; the current time
 * is `nowMs`, in milliseconds.
 */
module TokenDecoder {
  import opened Wrappers
  import opened JsString
  import opened Base64Url
  import opened TokenStatus

  /**
   * What the page can see of a parsed segment: JSON `null`, whose members cannot
   * be read, or any other value, with its numeric `exp` and `nbf` members when it
   * has them.
   */
  datatype JsonView = Null | Value(exp: Option<int>, nbf: Option<int>)

  /** Reads a standard base64 string as JSON; `None` when `atob` or `JSON.parse` throws. */
  type JsonReader = string -> Option<JsonView>

  datatype DecodeError =
    | EmptyInput      // "Please enter a JWT token"
    | WrongPartCount  // "Invalid JWT format. Expected 3 parts separated by dots."
    | Unreadable      // "Failed to decode JWT: " followed by the thrown error's message

  datatype Decoded = Decoded(header: JsonView, payload: JsonView, status: Status)

  const Dot: char := '.'

  /** The structural checks, made before any segment is decoded. */
  function SplitToken(raw: string): (r: Result<seq<string>, DecodeError>)
    ensures r == Failure(EmptyInput) <==> AllWhiteSpace(raw)
    ensures r == Failure(WrongPartCount) <==> !AllWhiteSpace(raw) && Count(Trim(raw), Dot) != 2
    ensures r.Success? <==> !AllWhiteSpace(raw) && Count(Trim(raw), Dot) == 2
    ensures r.Success? ==>
              && |r.value| == 3
              && Join(r.value, Dot) == Trim(raw)
              && forall i :: 0 <= i < 3 ==> Dot !in r.value[i]
  {
    var jwt := Trim(raw);
    if jwt == [] then Failure(EmptyInput)
    else
      var parts := Split(jwt, Dot);
      JoinSplit(jwt, Dot);
      if |parts| != 3 then Failure(WrongPartCount) else Success(parts)
  }

  /**
   * Reference definition of the whole decode: it succeeds exactly when the token
   * is well formed, its header segment reads, and its payload segment reads as
   * something other than `null` (reading `exp` of `null` throws inside the `try`).
   */
  function DecodeResult(raw: string, nowMs: int, readJson: JsonReader): (r: Result<Decoded, DecodeError>)
    ensures r.Success? <==>
              && SplitToken(raw).Success?
              && readJson(Normalized(SplitToken(raw).value[0])).Some?
              && readJson(Normalized(SplitToken(raw).value[1])).Some?
              && readJson(Normalized(SplitToken(raw).value[1])).value.Value?
  {
    match SplitToken(raw)
    case Failure(e) => Failure(e)
    case Success(parts) =>
      match (readJson(Normalized(parts[0])), readJson(Normalized(parts[1])))
      case (Some(header), Some(Value(exp, nbf))) =>
        Success(Decoded(header, Value(exp, nbf), Classify(exp, nbf, nowMs / 1000)))
      case _ => Failure(Unreadable)
  }

  /**
   * The click handler, with `now` taken as whole seconds (`Math.floor(Date.now() / 1000)`).
   * A structural rejection is passed on; a well-formed token fails with `Unreadable`
   * exactly when its header does not read, or its payload does not read or is
   * `null`; otherwise the header and payload are what the reader gave and the
   * status classifies the payload's `exp` and `nbf`.
   */
  method Decode(raw: string, nowMs: int, readJson: JsonReader) returns (r: Result<Decoded, DecodeError>)
    ensures SplitToken(raw).Failure? ==> r == Failure(SplitToken(raw).error)
    ensures SplitToken(raw).Success? ==>
              var parts := SplitToken(raw).value;
              var header, payload := readJson(Normalized(parts[0])), readJson(Normalized(parts[1]));
              && (r.Failure? <==> header.None? || payload.None? || payload.value.Null?)
              && (r.Failure? ==> r.error == Unreadable)
              && (r.Success? ==>
                    && r.value.header == header.value
                    && r.value.payload == payload.value
                    && r.value.status == Classify(payload.value.exp, payload.value.nbf, nowMs / 1000))
    ensures r == DecodeResult(raw, nowMs, readJson)
  {
    var split := SplitToken(raw);
    if split.Failure? {
      return Failure(split.error);
    }
    var parts := split.value;
    var headerText := NormalizeBase64Url(parts[0]);
    var header := readJson(headerText);
    if header.None? {
      return Failure(Unreadable);
    }
    var payloadText := NormalizeBase64Url(parts[1]);
    var payload := readJson(payloadText);
    if payload.None? {
      return Failure(Unreadable);
    }
    if payload.value.Null? {
      // `payload.exp` throws a TypeError, caught by the handler
      return Failure(Unreadable);
    }
    var now := nowMs / 1000;
    var status := Classify(payload.value.exp, payload.value.nbf, now);
    return Success(Decoded(header.value, payload.value, status));
  }

  /** A malformed token is rejected whatever its segments would have decoded to. */
  lemma MalformedNeverRead(raw: string, nowMs: int, read1: JsonReader, read2: JsonReader)
    requires AllWhiteSpace(raw) || Count(Trim(raw), Dot) != 2
    ensures DecodeResult(raw, nowMs, read1) == DecodeResult(raw, nowMs, read2)
    ensures DecodeResult(raw, nowMs, read1).Failure?
  {
  }

  /** Only the first two segments are read; the signature, possibly empty, is never checked. */
  lemma SignatureIgnored(header: string, payload: string, sig1: string, sig2: string, nowMs: int, readJson: JsonReader)
    requires Dot !in header && Dot !in payload && Dot !in sig1 && Dot !in sig2
    requires header == [] || !IsWhiteSpace(header[0])
    requires sig1 == [] || !IsWhiteSpace(sig1[|sig1| - 1])
    requires sig2 == [] || !IsWhiteSpace(sig2[|sig2| - 1])
    ensures DecodeResult(Join([header, payload, sig1], Dot), nowMs, readJson)
         == DecodeResult(Join([header, payload, sig2], Dot), nowMs, readJson)
  {
    TokenSplits(header, payload, sig1);
    TokenSplits(header, payload, sig2);
    SameFirstTwoParts(Join([header, payload, sig1], Dot), Join([header, payload, sig2], Dot), nowMs, readJson);
  }

  /** Two well-formed tokens that agree on their header and payload segments decode alike. */
  lemma SameFirstTwoParts(raw1: string, raw2: string, nowMs: int, readJson: JsonReader)
    requires SplitToken(raw1).Success? && SplitToken(raw2).Success?
    requires SplitToken(raw1).value[..2] == SplitToken(raw2).value[..2]
    ensures DecodeResult(raw1, nowMs, readJson) == DecodeResult(raw2, nowMs, readJson)
  {
    var p1, p2 := SplitToken(raw1).value, SplitToken(raw2).value;
    assert p1[0] == p1[..2][0] == p2[0] && p1[1] == p1[..2][1] == p2[1];
  }

  /**
   * Three dot-free segments joined with dots, with no white space at either end
   * of the token, split back apart; any of the segments may be empty.
   */
  lemma TokenSplits(header: string, payload: string, sig: string)
    requires Dot !in header && Dot !in payload && Dot !in sig
    requires header == [] || !IsWhiteSpace(header[0])
    requires sig == [] || !IsWhiteSpace(sig[|sig| - 1])
    ensures SplitToken(Join([header, payload, sig], Dot)) == Success([header, payload, sig])
  {
    var parts := [header, payload, sig];
    var token := Join(parts, Dot);
    SplitJoin(parts, Dot);
    JoinShape(header, payload, sig);
    assert token[0] == if header == [] then Dot else header[0];
    assert token[|token| - 1] == if sig == [] then Dot else sig[|sig| - 1];
    TrimUnpadded(token);
  }

  lemma JoinShape(header: string, payload: string, sig: string)
    ensures Join([header, payload, sig], Dot) == header + ([Dot] + (payload + ([Dot] + sig)))
  {
    assert [header, payload, sig][1..] == [payload, sig] && [payload, sig][1..] == [sig];
    assert Join([payload, sig], Dot) == payload + [Dot] + sig;
  }

  /**
   * For a well-formed token whose segments both read, the status is the
   * classification of the payload's `exp` and `nbf` at the current whole second.
   */
  lemma DecodedStatus(raw: string, nowMs: int, readJson: JsonReader)
    requires DecodeResult(raw, nowMs, readJson).Success?
    ensures SplitToken(raw).Success?
    ensures var d := DecodeResult(raw, nowMs, readJson).value;
      && readJson(Normalized(SplitToken(raw).value[1])) == Some(d.payload)
      && d.payload.Value?
      && d.status == Classify(d.payload.exp, d.payload.nbf, nowMs / 1000)
  {
  }
}
