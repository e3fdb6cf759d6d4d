/**
  The two readers of the aws-chunked headers: the classifier that routes an upload
  (modifiers.rs:149-391) and the one that sets up its decoder (aws_chunked.rs:336-474).
*/
module ChunkedHeaders {
  import opened Common
  import opened Text

  /** A header value; `Opaque` is one that is not visible ASCII. */
  datatype Value = Plain(text: string) | Opaque

  /** The headers that decide: every value of a name, in order of appearance, or whether the name occurs. */
  datatype Headers = Headers(
    contentSha256: seq<Value>, trailer: seq<Value>, contentEncoding: seq<Value>,
    decodedLength: bool, ifMatch: bool, ifNoneMatch: bool)

  datatype Algorithm = HmacSha256 | EcdsaP256

  /** `ChecksumAlgorithm` */
  datatype Checksum = Crc32 | Crc32C | Crc64Nvme | Sha1 | Sha256

  /** `AwsChunkedUploadMode` */
  datatype Mode =
    | NonTrailerHmacSha256 | NonTrailerEcdsaP256
    | UnsignedTrailer | SignedTrailerHmacSha256 | SignedTrailerEcdsaP256
    | OtherStreaming

  /** `DecoderMode` */
  datatype Decoder =
    | PlainChunks(signing: Algorithm)
    | UnsignedWithTrailer(checksum: Checksum)
    | SignedWithTrailer(checksum: Checksum, signing: Algorithm)

  /** The ways `decoder_mode_from_headers` rejects. */
  datatype Rejection =
    | MissingSha256 | RepeatedSha256 | OpaqueSha256 | EmptySha256 | UnknownSentinel
    | MissingTrailer | RepeatedTrailer | OpaqueTrailer | UnsupportedTrailer

  datatype Decoding = Decodes(decoder: Decoder) | Rejects(why: Rejection)

  const HMAC_PAYLOAD := "STREAMING-AWS4-HMAC-SHA256-PAYLOAD"
  const ECDSA_PAYLOAD := "STREAMING-AWS4-ECDSA-P256-SHA256-PAYLOAD"
  const UNSIGNED_TRAILER := "STREAMING-UNSIGNED-PAYLOAD-TRAILER"
  const HMAC_TRAILER := "STREAMING-AWS4-HMAC-SHA256-PAYLOAD-TRAILER"
  const ECDSA_TRAILER := "STREAMING-AWS4-ECDSA-P256-SHA256-PAYLOAD-TRAILER"

  predicate StartsWith(s: string, prefix: string) {
    |prefix| <= |s| && s[..|prefix|] == prefix
  }

  /** `ChecksumAlgorithm::from_header_name` */
  function FromHeaderName(name: string): Option<Checksum> {
    var prefix := "x-amz-checksum-";
    if !StartsWith(Lower(name), prefix) then None
    else
      var suffix := Lower(name)[|prefix|..];
      if suffix == "crc32" then Some(Crc32)
      else if suffix == "crc32c" then Some(Crc32C)
      else if suffix == "crc64nvme" then Some(Crc64Nvme)
      else if suffix == "sha1" then Some(Sha1)
      else if suffix == "sha256" then Some(Sha256)
      else None
  }

  // ---------- the classifier ----------

  /** `trailer_algorithm_supported`: only the first value is read. */
  predicate TrailerSupported(h: Headers) {
    h.trailer != [] && h.trailer[0].Plain? && FromHeaderName(Trim(h.trailer[0].text)).Some?
  }

  /** What one `x-amz-content-sha256` value says. */
  function Candidate(v: Value, supported: bool): Option<Mode> {
    if v.Opaque? || Trim(v.text) == "" then None
    else
      var upper := Upper(Trim(v.text));
      if upper == HMAC_PAYLOAD then Some(NonTrailerHmacSha256)
      else if upper == ECDSA_PAYLOAD then Some(NonTrailerEcdsaP256)
      else if upper == UNSIGNED_TRAILER then Some(if supported then UnsignedTrailer else OtherStreaming)
      else if upper == HMAC_TRAILER then Some(if supported then SignedTrailerHmacSha256 else OtherStreaming)
      else if upper == ECDSA_TRAILER then Some(if supported then SignedTrailerEcdsaP256 else OtherStreaming)
      else if StartsWith(upper, "STREAMING-") then Some(OtherStreaming)
      else None
  }

  /** One round of the loop over the `x-amz-content-sha256` values. */
  function Escalate(mode: Option<Mode>, candidate: Option<Mode>): Option<Mode> {
    match (mode, candidate)
    case (None, c) => c
    case (Some(existing), Some(other)) => if existing != other then Some(OtherStreaming) else mode
    case (Some(_), None) => mode
  }

  /** The values escalated one after another. */
  function Escalated(values: seq<Value>, supported: bool): Option<Mode> {
    if values == [] then None
    else Escalate(Escalated(values[..|values| - 1], supported), Candidate(values[|values| - 1], supported))
  }

  predicate TrailerMode(m: Option<Mode>) {
    m == Some(UnsignedTrailer) || m == Some(SignedTrailerHmacSha256) || m == Some(SignedTrailerEcdsaP256)
  }

  /** `str::split(',')` */
  function SplitComma(s: string): seq<string> {
    if s == "" then [""]
    else
      var rest := SplitComma(s[1..]);
      if s[0] == ',' then [""] + rest
      else if rest == [] then [s]
      else [[s[0]] + rest[0]] + rest[1..]
  }

  /** The tokens with commas between them. */
  function JoinComma(tokens: seq<string>): string {
    if tokens == [] then "" else if |tokens| == 1 then tokens[0] else tokens[0] + "," + JoinComma(tokens[1..])
  }

  /** Splitting is undone by joining, and no token has a comma, so the tokens are the text between the commas. */
  lemma {:induction false} SplitThenJoin(s: string)
    ensures SplitComma(s) != [] && JoinComma(SplitComma(s)) == s
    ensures forall token :: token in SplitComma(s) ==> ',' !in token
  {
    if s != "" {
      SplitThenJoin(s[1..]);
      var rest := SplitComma(s[1..]);
      assert s == [s[0]] + s[1..];
      if s[0] == ',' {
        assert ([""] + rest)[1..] == rest;
      } else {
        assert ([[s[0]] + rest[0]] + rest[1..])[1..] == rest[1..];
        if |rest| > 1 { assert JoinComma(rest) == rest[0] + "," + JoinComma(rest[1..]); }
        assert [s[0]] + (rest[0] + "," + JoinComma(rest[1..])) == ([s[0]] + rest[0]) + "," + JoinComma(rest[1..]);
      }
    }
  }

  predicate NamesChunked(v: Value) {
    v.Plain? && exists token :: token in SplitComma(v.text) && Lower(Trim(token)) == "aws-chunked"
  }

  /** What the classifier answers. */
  function Classified(h: Headers): Option<Mode> {
    var mode := Escalated(h.contentSha256, TrailerSupported(h));
    if h.trailer != [] && !TrailerMode(mode) then Some(OtherStreaming)
    else if mode.Some? then mode
    else if (exists v :: v in h.contentEncoding && NamesChunked(v)) || h.decodedLength then Some(OtherStreaming)
    else None
  }

  /** What the values say, as a set. */
  ghost function Said(values: seq<Value>, supported: bool): set<Mode> {
    set v | v in values && Candidate(v, supported).Some? :: Candidate(v, supported).value
  }

  lemma SaidAppend(values: seq<Value>, v: Value, supported: bool)
    ensures Said(values + [v], supported) ==
            Said(values, supported) + if Candidate(v, supported).Some? then {Candidate(v, supported).value} else {}
  {
  }

  /** Nothing was said, or one thing was, or it is ambiguous. */
  ghost predicate Summary(said: set<Mode>, mode: Option<Mode>) {
    && (mode == None <==> said == {})
    && (forall m :: m in said && mode == Some(m) ==> m == OtherStreaming || said == {m})
    && (forall m :: said == {m} ==> mode == Some(m))
    && (mode.Some? && mode != Some(OtherStreaming) ==> said == {mode.value})
  }

  lemma {:induction false} EscalatedSummary(values: seq<Value>, supported: bool)
    ensures Summary(Said(values, supported), Escalated(values, supported))
  {
    if values != [] {
      var init, last := values[..|values| - 1], values[|values| - 1];
      EscalatedSummary(init, supported);
      assert values == init + [last];
      SaidAppend(init, last, supported);
      EscalateSummary(Said(init, supported), Escalated(init, supported), Candidate(last, supported));
    }
  }

  lemma EscalateSummary(said: set<Mode>, mode: Option<Mode>, candidate: Option<Mode>)
    requires Summary(said, mode)
    ensures Summary(said + if candidate.Some? then {candidate.value} else {}, Escalate(mode, candidate))
  {
    if candidate.Some? {
      var said' := said + {candidate.value};
      assert candidate.value in said';
      forall m | said' == {m} ensures Escalate(mode, candidate) == Some(m) {
        assert candidate.value == m;
        assert said <= {m};
        assert said == {} || said == {m};
      }
    } else {
      assert said + {} == said;
    }
  }

  /** `classify_aws_chunked_upload` */
  method Classify(h: Headers) returns (r: Option<Mode>)
    ensures r == Classified(h)
  {
    var supported := TrailerSupported(h);
    var chunked := HasChunkedEncoding(h.contentEncoding);
    var mode: Option<Mode> := None;
    var i := 0;
    while i < |h.contentSha256|
      invariant 0 <= i <= |h.contentSha256|
      invariant mode == Escalated(h.contentSha256[..i], supported)
    {
      assert h.contentSha256[..i + 1][..i] == h.contentSha256[..i];
      mode := Escalate(mode, Candidate(h.contentSha256[i], supported));
      i := i + 1;
    }
    assert h.contentSha256[..i] == h.contentSha256;
    if h.trailer != [] && !TrailerMode(mode) { return Some(OtherStreaming); }
    if mode.Some? { return mode; }
    if chunked || h.decodedLength { return Some(OtherStreaming); }
    r := None;
  }

  /** The outer loop over the `content-encoding` values. */
  method HasChunkedEncoding(values: seq<Value>) returns (chunked: bool)
    ensures chunked <==> exists v :: v in values && NamesChunked(v)
  {
    chunked := false;
    var i := 0;
    while i < |values|
      invariant 0 <= i <= |values|
      invariant chunked <==> exists j :: 0 <= j < i && NamesChunked(values[j])
    {
      if values[i].Plain? {
        var named := HasChunkedToken(SplitComma(values[i].text));
        assert named <==> NamesChunked(values[i]);
        chunked := chunked || named;
      }
      i := i + 1;
    }
  }

  /** The inner loop over the tokens of one `content-encoding` value. */
  method HasChunkedToken(tokens: seq<string>) returns (r: bool)
    ensures r <==> exists token :: token in tokens && Lower(Trim(token)) == "aws-chunked"
  {
    var i := 0;
    while i < |tokens|
      invariant 0 <= i <= |tokens|
      invariant forall j :: 0 <= j < i ==> Lower(Trim(tokens[j])) != "aws-chunked"
    {
      if Lower(Trim(tokens[i])) == "aws-chunked" { return true; }
      i := i + 1;
    }
    r := false;
  }

  lemma SummaryIsUnique(said: set<Mode>, m: Option<Mode>, m': Option<Mode>)
    requires Summary(said, m) && Summary(said, m')
    ensures m == m'
  {
  }

  ghost predicate SameValues(a: seq<Value>, b: seq<Value>) {
    forall v :: v in a <==> v in b
  }

  /** Reordering or repeating `x-amz-content-sha256` and `content-encoding` values never changes the class. */
  lemma OrderDoesNotMatter(h: Headers, h': Headers)
    requires SameValues(h.contentSha256, h'.contentSha256) && SameValues(h.contentEncoding, h'.contentEncoding)
    requires h'.trailer == h.trailer && h'.decodedLength == h.decodedLength
    ensures Classified(h) == Classified(h')
  {
    var s := TrailerSupported(h);
    assert Said(h.contentSha256, s) == Said(h'.contentSha256, s);
    EscalatedSummary(h.contentSha256, s);
    EscalatedSummary(h'.contentSha256, s);
    SummaryIsUnique(Said(h.contentSha256, s), Escalated(h.contentSha256, s), Escalated(h'.contentSha256, s));
  }

  // ---------- the decoder ----------

  /** `read_declared_trailer` */
  function DeclaredTrailer(h: Headers): (r: (Option<Checksum>, Rejection)) {
    if h.trailer == [] then (None, MissingTrailer)
    else if |h.trailer| > 1 then (None, RepeatedTrailer)
    else if h.trailer[0].Opaque? then (None, OpaqueTrailer)
    else (FromHeaderName(Trim(h.trailer[0].text)), UnsupportedTrailer)
  }

  /** `decoder_mode_from_headers` */
  function DecoderMode(h: Headers): Decoding {
    if h.contentSha256 == [] then Rejects(MissingSha256)
    else if |h.contentSha256| > 1 then Rejects(RepeatedSha256)
    else if h.contentSha256[0].Opaque? then Rejects(OpaqueSha256)
    else if Trim(h.contentSha256[0].text) == "" then Rejects(EmptySha256)
    else
      var upper := Upper(Trim(h.contentSha256[0].text));
      if upper == HMAC_PAYLOAD then Decodes(PlainChunks(HmacSha256))
      else if upper == ECDSA_PAYLOAD then Decodes(PlainChunks(EcdsaP256))
      else
        var (checksum, why) := DeclaredTrailer(h);
        if checksum.None? then Rejects(why)
        else if upper == UNSIGNED_TRAILER then Decodes(UnsignedWithTrailer(checksum.value))
        else if upper == HMAC_TRAILER then Decodes(SignedWithTrailer(checksum.value, HmacSha256))
        else if upper == ECDSA_TRAILER then Decodes(SignedWithTrailer(checksum.value, EcdsaP256))
        else Rejects(UnknownSentinel)
  }

  /** `header_name` */
  function HeaderName(c: Checksum): string {
    "x-amz-checksum-" + match c
      case Crc32 => "crc32"
      case Crc32C => "crc32c"
      case Crc64Nvme => "crc64nvme"
      case Sha1 => "sha1"
      case Sha256 => "sha256"
  }

  /** A name is read as an algorithm exactly when it is that algorithm's name, in any case. */
  lemma HeaderNameIff(name: string, c: Checksum)
    ensures FromHeaderName(name) == Some(c) <==> Lower(name) == HeaderName(c)
  {
    var prefix := "x-amz-checksum-";
    assert HeaderName(c)[..|prefix|] == prefix;
    if StartsWith(Lower(name), prefix) {
      assert Lower(name) == prefix + Lower(name)[|prefix|..];
    }
    assert HeaderName(c)[|prefix|..] == match c
      case Crc32 => "crc32"
      case Crc32C => "crc32c"
      case Crc64Nvme => "crc64nvme"
      case Sha1 => "sha1"
      case Sha256 => "sha256";
  }

  function ChecksumOf(d: Decoder): Option<Checksum> {
    match d
    case PlainChunks(_) => None
    case UnsignedWithTrailer(c) => Some(c)
    case SignedWithTrailer(c, _) => Some(c)
  }

  /** How a decoder is asked for: the payload's signing, and whether a trailer follows. */
  function SentinelOf(d: Decoder): string {
    "STREAMING-"
    + (match d
       case PlainChunks(s) => SigningText(s)
       case UnsignedWithTrailer(_) => "UNSIGNED"
       case SignedWithTrailer(_, s) => SigningText(s))
    + "-PAYLOAD" + if ChecksumOf(d).Some? then "-TRAILER" else ""
  }

  function SigningText(s: Algorithm): string {
    match s case HmacSha256 => "AWS4-HMAC-SHA256" case EcdsaP256 => "AWS4-ECDSA-P256-SHA256"
  }

  /** The one value of a header, read as text. */
  predicate Says(values: seq<Value>, text: string) {
    |values| == 1 && values[0].Plain? && Trim(values[0].text) == text
  }

  /**
    The decoder a request gets, from its header texts: exactly the signing its one sentinel names, and
    exactly the checksum its one trailer names, in any case and padding.
  */
  lemma DecoderIff(h: Headers, d: Decoder)
    ensures DecoderMode(h) == Decodes(d) <==>
              && (exists text :: Says(h.contentSha256, text) && Upper(text) == SentinelOf(d))
              && (ChecksumOf(d).Some? ==> exists name :: Says(h.trailer, name) && Lower(name) == HeaderName(ChecksumOf(d).value))
  {
    SentinelText(d);
    SentinelsDiffer();
    SaysIff(h.contentSha256, SentinelFor(d));
    if ChecksumOf(d).Some? { TrailerSays(h, ChecksumOf(d).value); }
  }

  lemma SaysIff(values: seq<Value>, upper: string)
    ensures (exists text :: Says(values, text) && Upper(text) == upper) <==>
              |values| == 1 && values[0].Plain? && Upper(Trim(values[0].text)) == upper
  {
    if |values| == 1 && values[0].Plain? { assert Says(values, Trim(values[0].text)); }
  }

  /** Every rejection means what it says. */
  lemma RejectionMeans(h: Headers)
    requires DecoderMode(h).Rejects?
    ensures match DecoderMode(h).why
            case MissingSha256 => h.contentSha256 == []
            case RepeatedSha256 => |h.contentSha256| > 1
            case OpaqueSha256 => |h.contentSha256| == 1 && h.contentSha256[0].Opaque?
            case EmptySha256 => Says(h.contentSha256, "")
            case UnknownSentinel => |h.contentSha256| == 1 && forall d :: h.contentSha256[0].Plain? && Upper(Trim(h.contentSha256[0].text)) != SentinelOf(d)
            case MissingTrailer => h.trailer == []
            case RepeatedTrailer => |h.trailer| > 1
            case OpaqueTrailer => |h.trailer| == 1 && h.trailer[0].Opaque?
            case UnsupportedTrailer => |h.trailer| == 1 && forall c :: !(h.trailer[0].Plain? && Lower(Trim(h.trailer[0].text)) == HeaderName(c))
  {
    if DecoderMode(h).why.UnknownSentinel? {
      forall d ensures Upper(Trim(h.contentSha256[0].text)) != SentinelOf(d) { SentinelText(d); }
    }
    if DecoderMode(h).why.UnsupportedTrailer? {
      forall c ensures Lower(Trim(h.trailer[0].text)) != HeaderName(c) { HeaderNameIff(Trim(h.trailer[0].text), c); }
    }
  }

  lemma TrailerSays(h: Headers, c: Checksum)
    ensures DeclaredTrailer(h).0 == Some(c) <==> exists name :: Says(h.trailer, name) && Lower(name) == HeaderName(c)
  {
    if |h.trailer| == 1 && h.trailer[0].Plain? {
      var name := Trim(h.trailer[0].text);
      assert Says(h.trailer, name);
      HeaderNameIff(name, c);
    }
  }

  /** The constant the code compares with. */
  function SentinelFor(d: Decoder): string {
    match d
    case PlainChunks(HmacSha256) => HMAC_PAYLOAD
    case PlainChunks(EcdsaP256) => ECDSA_PAYLOAD
    case UnsignedWithTrailer(_) => UNSIGNED_TRAILER
    case SignedWithTrailer(_, HmacSha256) => HMAC_TRAILER
    case SignedWithTrailer(_, EcdsaP256) => ECDSA_TRAILER
  }

  lemma SentinelText(d: Decoder)
    ensures SentinelOf(d) == SentinelFor(d)
  {
    match d {
      case PlainChunks(s) => PayloadText(d, s);
      case UnsignedWithTrailer(_) =>
      case SignedWithTrailer(_, s) => TrailerText(d, s);
    }
  }

  lemma PayloadText(d: Decoder, s: Algorithm)
    requires d == PlainChunks(s)
    ensures SentinelOf(d) == SentinelFor(d)
  {
    if s.HmacSha256? { HmacText(); } else { EcdsaText(); }
  }

  lemma TrailerText(d: Decoder, s: Algorithm)
    requires d.SignedWithTrailer? && d.signing == s
    ensures SentinelOf(d) == SentinelFor(d)
  {
    if s.HmacSha256? { HmacTrailerText(); } else { EcdsaTrailerText(); }
  }

  lemma HmacText()
    ensures "STREAMING-" + "AWS4-HMAC-SHA256" + "-PAYLOAD" + "" == HMAC_PAYLOAD
  {
  }

  lemma EcdsaText()
    ensures "STREAMING-" + "AWS4-ECDSA-P256-SHA256" + "-PAYLOAD" + "" == ECDSA_PAYLOAD
  {
  }

  lemma HmacTrailerText()
    ensures "STREAMING-" + "AWS4-HMAC-SHA256" + "-PAYLOAD" + "-TRAILER" == HMAC_TRAILER
  {
  }

  lemma EcdsaTrailerText()
    ensures "STREAMING-" + "AWS4-ECDSA-P256-SHA256" + "-PAYLOAD" + "-TRAILER" == ECDSA_TRAILER
  {
  }

  lemma SentinelsDiffer()
    ensures |HMAC_PAYLOAD| == 34 && |ECDSA_PAYLOAD| == 40 && |UNSIGNED_TRAILER| == 34 && |HMAC_TRAILER| == 42 && |ECDSA_TRAILER| == 48
    ensures HMAC_PAYLOAD != UNSIGNED_TRAILER
  {
    assert HMAC_PAYLOAD[10] != UNSIGNED_TRAILER[10];
  }

  /** The class a decoder belongs to. */
  function ModeOf(d: Decoder): Mode {
    match d
    case PlainChunks(HmacSha256) => NonTrailerHmacSha256
    case PlainChunks(EcdsaP256) => NonTrailerEcdsaP256
    case UnsignedWithTrailer(_) => UnsignedTrailer
    case SignedWithTrailer(_, HmacSha256) => SignedTrailerHmacSha256
    case SignedWithTrailer(_, EcdsaP256) => SignedTrailerEcdsaP256
  }

  // ---------- the routes ----------

  /** `WriteBodyRoute`; the reject route is declared and checked for, but nothing produces it any more. */
  datatype Route = Typed | DecodeAwsChunked | Passthrough | RejectUnsupportedSignature

  /** `aws_chunked_route_for` */
  function ChunkedRoute(h: Headers): Route {
    match Classified(h)
    case None => Typed
    case Some(OtherStreaming) => Passthrough
    case Some(_) => DecodeAwsChunked
  }

  /** `classify_put_body_route`; `modifying` says whether a header of WRITE_MODIFYING_BASE is present. */
  function PutRoute(h: Headers, modifying: bool): Route {
    var chunked := ChunkedRoute(h);
    if chunked.RejectUnsupportedSignature? then RejectUnsupportedSignature
    else if h.ifMatch || h.ifNoneMatch then Passthrough
    else if modifying then Passthrough
    else chunked
  }

  /** `classify_upload_part_body_route`; `checksums` says the same of MULTIPART_CHECKSUM_HEADERS. */
  function PartRoute(h: Headers, modifying: bool, checksums: bool): Route {
    var chunked := ChunkedRoute(h);
    if chunked.RejectUnsupportedSignature? then RejectUnsupportedSignature
    else if h.ifMatch || h.ifNoneMatch then Passthrough
    else if modifying then Passthrough
    else if chunked.DecodeAwsChunked? then DecodeAwsChunked
    else if checksums then Passthrough
    else chunked
  }

  // ---------- the readers agree ----------

  lemma EscalatedMembers(values: seq<Value>, supported: bool, m: Mode)
    requires Escalated(values, supported) == Some(m) && m != OtherStreaming
    ensures exists v :: v in values && Candidate(v, supported) == Some(m)
  {
    EscalatedSummary(values, supported);
    assert m in Said(values, supported);
  }

  lemma SingleValue(v: Value, supported: bool)
    ensures Escalated([v], supported) == Candidate(v, supported)
  {
    assert [v][..0] == [];
  }

  /**
    With each deciding header given once, the classifier names a decodable mode exactly when the
    decoder would be set up in that mode and a decoder without trailer has no trailer declared.
  */
  lemma ReadersAgree(h: Headers, m: Mode)
    requires |h.contentSha256| == 1 && |h.trailer| <= 1 && m != OtherStreaming
    ensures Classified(h) == Some(m) <==>
              DecoderMode(h).Decodes? && ModeOf(DecoderMode(h).decoder) == m
              && (DecoderMode(h).decoder.PlainChunks? ==> h.trailer == [])
  {
    var v := h.contentSha256[0];
    assert h.contentSha256 == [v];
    SingleValue(v, TrailerSupported(h));
  }

  /** A request routed to the decoder is decoded in the classified mode, or a deciding header is repeated. */
  lemma RoutedIsDecodedIff(h: Headers, m: Mode)
    requires Classified(h) == Some(m) && m != OtherStreaming
    ensures DecoderMode(h).Decodes? <==> |h.contentSha256| == 1 && (TrailerMode(Some(m)) ==> |h.trailer| == 1)
    ensures DecoderMode(h).Decodes? ==> ModeOf(DecoderMode(h).decoder) == m
    ensures DecoderMode(h).Decodes? && DecoderMode(h).decoder.PlainChunks? ==> h.trailer == []
    ensures DecoderMode(h).Rejects? ==> DecoderMode(h).why == RepeatedSha256 || DecoderMode(h).why == RepeatedTrailer
  {
    EscalatedMembers(h.contentSha256, TrailerSupported(h), m);
    if |h.contentSha256| == 1 {
      if |h.trailer| <= 1 {
        ReadersAgree(h, m);
      } else {
        RepeatedTrailerRejects(h, m);
      }
    }
  }

  lemma RepeatedTrailerRejects(h: Headers, m: Mode)
    requires Classified(h) == Some(m) && m != OtherStreaming && |h.contentSha256| == 1 && |h.trailer| > 1
    ensures DecoderMode(h) == Rejects(RepeatedTrailer) && TrailerMode(Some(m))
  {
    var v := h.contentSha256[0];
    assert h.contentSha256 == [v];
    SingleValue(v, TrailerSupported(h));
  }

  /** Both routes decode exactly the same requests: decodable, unconditional, and without modifying headers. */
  lemma DecodeRouteIff(h: Headers, modifying: bool, checksums: bool)
    ensures PutRoute(h, modifying) == DecodeAwsChunked <==>
              Classified(h).Some? && Classified(h) != Some(OtherStreaming) && !h.ifMatch && !h.ifNoneMatch && !modifying
    ensures PartRoute(h, modifying, checksums) == DecodeAwsChunked <==> PutRoute(h, modifying) == DecodeAwsChunked
    ensures PartRoute(h, modifying, checksums) ==
              if checksums && PutRoute(h, modifying) == Typed then Passthrough else PutRoute(h, modifying)
    ensures PutRoute(h, modifying) != RejectUnsupportedSignature
  {
  }

  /** Nothing about a request is chunked. */
  ghost predicate Unmarked(h: Headers) {
    && h.trailer == [] && !h.decodedLength
    && (forall v :: v in h.contentEncoding ==> !NamesChunked(v))
    && (forall v :: v in h.contentSha256 ==> v.Opaque? || !StartsWith(Upper(Trim(v.text)), "STREAMING-"))
  }

  lemma SaysSomethingIff(v: Value, supported: bool)
    ensures Candidate(v, supported).Some? <==> v.Plain? && StartsWith(Upper(Trim(v.text)), "STREAMING-")
  {
    SentinelPrefixes();
    if v.Plain? && Trim(v.text) == "" { assert Upper(Trim(v.text)) == ""; }
  }

  lemma SentinelPrefixes()
    ensures StartsWith(HMAC_PAYLOAD, "STREAMING-") && StartsWith(ECDSA_PAYLOAD, "STREAMING-") && StartsWith(UNSIGNED_TRAILER, "STREAMING-")
    ensures StartsWith(HMAC_TRAILER, "STREAMING-") && StartsWith(ECDSA_TRAILER, "STREAMING-")
  {
  }

  /** A request is taken for an ordinary one exactly when no header marks it as chunked in any way. */
  lemma UnclassifiedIff(h: Headers)
    ensures Classified(h).None? <==> Unmarked(h)
  {
    var supported := TrailerSupported(h);
    EscalatedSummary(h.contentSha256, supported);
    forall v | v in h.contentSha256
      ensures Candidate(v, supported).Some? <==> v.Plain? && StartsWith(Upper(Trim(v.text)), "STREAMING-")
    {
      SaysSomethingIff(v, supported);
    }
    assert Said(h.contentSha256, supported) == {} <==> forall v :: v in h.contentSha256 ==> Candidate(v, supported).None? by {
      if v :| v in h.contentSha256 && Candidate(v, supported).Some? {
        assert Candidate(v, supported).value in Said(h.contentSha256, supported);
      }
    }
  }

  /** The whole routing table of PutObject, and of UploadPart, in terms of the class. */
  lemma RoutesIff(h: Headers, modifying: bool, checksums: bool)
    ensures var special := h.ifMatch || h.ifNoneMatch || modifying;
            && (PutRoute(h, modifying) == Typed <==> Unmarked(h) && !special)
            && (PutRoute(h, modifying) == Passthrough <==> special || Classified(h) == Some(OtherStreaming))
            && (PartRoute(h, modifying, checksums) == Typed <==> Unmarked(h) && !special && !checksums)
            && (PartRoute(h, modifying, checksums) == Passthrough <==>
                  special || Classified(h) == Some(OtherStreaming) || (checksums && Unmarked(h)))
  {
    UnclassifiedIff(h);
  }

  /** A declared trailer is never dropped: such a request is decoded with its trailer or passed through unchanged. */
  lemma TrailerIsNeverDropped(h: Headers, modifying: bool)
    requires h.trailer != []
    ensures PutRoute(h, modifying) != Typed
    ensures PutRoute(h, modifying) == DecodeAwsChunked && DecoderMode(h).Decodes? ==> !DecoderMode(h).decoder.PlainChunks?
  {
    if PutRoute(h, modifying) == DecodeAwsChunked { RoutedIsDecodedIff(h, Classified(h).value); }
  }
}
