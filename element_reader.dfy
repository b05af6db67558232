/**
 * `DICOMElementReader`: reads (or skips) one data element at the reader's cursor, and
 * reads every element up to the end of the stream, in each of the three uncompressed
 * layouts of DICOM PS3.5 sections 7.1.2 (explicit VR) and 7.1.3 (implicit VR).
 *
 * Each element is tag, then (explicit syntax only) a two-character VR, then a length
 * whose width depends on the VR's encoding class, then that many data bytes. A length
 * of 0xFFFFFFFF (-1 as a C# `int`) is the undefined length of PS3.5 section 7.5: the
 * items run up to a sequence delimitation item, which is 8 bytes long.
 *
 * The pure functions below (`ElementAt`, `SkipEndAt`, `ElementsFrom`) say what a read
 * yields and where it leaves the cursor; the methods do it step by step on a
 * `DicomBinaryReader` and are proved to agree with them.
 */
module ElementReading {
  import opened DicomCore
  import opened Wrappers
  import opened ByteOrder
  import opened BinaryStreams

  /** The helpers the reader calls whose own code is not part of this model. */
  datatype Library = Library(
    // TagDictionary.GetVRFromTag: the VR a tag has in the data dictionary
    vrOfTag: Tag -> VR,
    // SequenceReader.ReadIndefiniteLength*: from the given offset, the number of bytes
    // of the items before the sequence delimitation item (None when there is none)
    sequenceLength: (seq<byte>, nat, TransferSyntax) -> Option<nat>
  )

  /** The undefined length 0xFFFFFFFF, as the C# `int` the length reader returns. */
  const UndefinedLength: int32 := -1

  /** Bytes taken by the length field: two reserved bytes plus four for ExplicitLong. */
  function LengthFieldSize(enc: VREncoding): nat {
    match enc
    case Implicit => 4
    case ExplicitShort => 2
    case ExplicitLong => 6
  }

  function DecodeTag(field: seq<byte>, bigEndian: bool): Tag
    requires |field| == 4
  {
    if bigEndian then Tag(U16BE(field[..2]), U16BE(field[2..]))
    else Tag(U16LE(field[..2]), U16LE(field[2..]))
  }

  /** The length a length field holds: unsigned 16 bits, or a signed 32-bit `int`. */
  function DecodeLength(field: seq<byte>, enc: VREncoding, bigEndian: bool): int32
    requires |field| == LengthFieldSize(enc)
  {
    match enc
    case ExplicitShort => if bigEndian then U16BE(field) else U16LE(field)
    case Implicit => Signed32(if bigEndian then U32BE(field) else U32LE(field))
    case ExplicitLong => Signed32(if bigEndian then U32BE(field[2..]) else U32LE(field[2..]))
  }

  // ---------------------------------------------------------------------------
  // What one read yields, as functions of the bytes and the cursor position
  // ---------------------------------------------------------------------------

  function TagAt(bytes: seq<byte>, p: nat, bigEndian: bool): Result<Tag, ReadError> {
    if p + 4 <= |bytes| then Ok(DecodeTag(bytes[p..p + 4], bigEndian)) else Err(EndOfStream)
  }

  /** The VR whose code stands at `p` (`Null` if the two bytes are no VR code). */
  function VRAt(bytes: seq<byte>, p: nat): Result<VR, ReadError> {
    if p + 2 <= |bytes| then Ok(VRFromCode(Chars(bytes[p..p + 2]))) else Err(EndOfStream)
  }

  function LengthAt(bytes: seq<byte>, p: nat, vr: VR, bigEndian: bool): Result<int32, ReadError> {
    var size := LengthFieldSize(EncodingOf(vr));
    if p + size <= |bytes| then Ok(DecodeLength(bytes[p..p + size], EncodingOf(vr), bigEndian))
    else Err(EndOfStream)
  }

  /** The data bytes of a value that starts at `p`, and the position after it. */
  function ValueAt(lib: Library, bytes: seq<byte>, p: nat, length: int32, syntax: TransferSyntax)
    : (r: Result<(seq<byte>, nat), ReadError>)
    ensures r.Ok? ==> p <= r.value.1 <= |bytes|
  {
    if length == UndefinedLength then
      match lib.sequenceLength(bytes, p, syntax)
      case None => Err(UnterminatedSequence)
      case Some(n) => if p + n + 8 <= |bytes| then Ok((bytes[p..p + n], p + n + 8)) else Err(EndOfStream)
    else if length < 0 then Err(NegativeCount)
    else if p + length <= |bytes| then Ok((bytes[p..p + length], p + length))
    else Err(EndOfStream)
  }

  /**
   * Length and value read from `at` by the length rules of `lengthVR`, made into an
   * element with `tag` and `vr`: the part every reader shares.
   */
  function BodyAt(lib: Library, bytes: seq<byte>, at: nat, tag: Tag, vr: VR, lengthVR: VR,
                  bigEndian: bool, syntax: TransferSyntax)
    : (r: Result<(Element, nat), ReadError>)
    ensures r.Ok? ==> at + LengthFieldSize(EncodingOf(lengthVR)) <= r.value.1 <= |bytes|
  {
    var length :- LengthAt(bytes, at, lengthVR, bigEndian);
    var v :- ValueAt(lib, bytes, at + LengthFieldSize(EncodingOf(lengthVR)), length, syntax);
    Ok((Element(tag, vr, v.0, syntax), v.1))
  }

  /** The three element layouts the reader knows. */
  datatype Layout = ExplicitLittleEndian | ImplicitLittleEndian | ExplicitBigEndian

  /**
   * The element a reader of `layout` yields at `pos`, and where it leaves the cursor.
   * Every element takes at least 8 bytes and lies inside the stream.
   */
  function ElementAt(layout: Layout, lib: Library, bytes: seq<byte>, pos: nat)
    : (r: Result<(Element, nat), ReadError>)
    ensures r.Ok? ==> pos + 8 <= r.value.1 <= |bytes|
  {
    match layout
    case ExplicitLittleEndian =>
      var tag :- TagAt(bytes, pos, false);
      var vr :- VRAt(bytes, pos + 4);
      BodyAt(lib, bytes, pos + 6, tag, vr, vr, false, ExplicitVRLittleEndian)
    case ImplicitLittleEndian =>
      var tag :- TagAt(bytes, pos, false);
      // the peek for an explicitly written VR
      var peeked :- VRAt(bytes, pos + 4);
      if peeked != Null then BodyAt(lib, bytes, pos + 6, tag, peeked, peeked, false, ExplicitVRLittleEndian)
      else BodyAt(lib, bytes, pos + 4, tag, lib.vrOfTag(tag), Null, false, ImplicitVRLittleEndian)
    case ExplicitBigEndian =>
      var tag :- TagAt(bytes, pos, true);
      var vr :- VRAt(bytes, pos + 4);
      BodyAt(lib, bytes, pos + 6, tag, vr, vr, true, ExplicitVRBigEndian)
  }

  /** Where a skip of a value of `length` bytes at `p` leaves the cursor. */
  function SkipValue(lib: Library, bytes: seq<byte>, p: nat, length: int32, syntax: TransferSyntax)
    : Result<nat, ReadError>
  {
    if length != UndefinedLength then
      if p + length >= 0 then Ok(p + length) else Err(NegativePosition)
    else
      match lib.sequenceLength(bytes, p, syntax)
      case None => Err(UnterminatedSequence)
      case Some(n) => Ok(p + n + 8)
  }

  /** Where the skipper for `layout` leaves the cursor. The implicit skipper does not peek for a VR. */
  function SkipEndAt(layout: Layout, lib: Library, bytes: seq<byte>, pos: nat): Result<nat, ReadError> {
    match layout
    case ExplicitLittleEndian =>
      var _ :- TagAt(bytes, pos, false);
      var vr :- VRAt(bytes, pos + 4);
      var length :- LengthAt(bytes, pos + 6, vr, false);
      SkipValue(lib, bytes, pos + 6 + LengthFieldSize(EncodingOf(vr)), length, ExplicitVRLittleEndian)
    case ImplicitLittleEndian =>
      var _ :- TagAt(bytes, pos, false);
      var length :- LengthAt(bytes, pos + 4, Null, false);
      SkipValue(lib, bytes, pos + 8, length, ImplicitVRLittleEndian)
    case ExplicitBigEndian =>
      var _ :- TagAt(bytes, pos, true);
      var vr :- VRAt(bytes, pos + 4);
      var length :- LengthAt(bytes, pos + 6, vr, true);
      SkipValue(lib, bytes, pos + 6 + LengthFieldSize(EncodingOf(vr)), length, ExplicitVRBigEndian)
  }

  function Prepend(es: seq<Element>, r: Result<seq<Element>, ReadError>): Result<seq<Element>, ReadError> {
    match r
    case Ok(rest) => Ok(es + rest)
    case Err(e) => Err(e)
  }

  /** Prepending no elements leaves an outcome as it is. */
  lemma PrependNothing(r: Result<seq<Element>, ReadError>)
    ensures Prepend([], r) == r
  {
    if r.Ok? {
      assert [] + r.value == r.value;
    }
  }

  /** Prepending `es` after `[e]` is prepending `es + [e]`. */
  lemma PrependSteps(es: seq<Element>, e: Element, r: Result<seq<Element>, ReadError>)
    ensures Prepend(es, Prepend([e], r)) == Prepend(es + [e], r)
  {
    if r.Ok? {
      assert es + ([e] + r.value) == (es + [e]) + r.value;
    }
  }

  /** Every element from `pos` to the end of the stream, in stream order; the first failing read fails the whole. */
  function ElementsFrom(layout: Layout, lib: Library, bytes: seq<byte>, pos: nat): Result<seq<Element>, ReadError>
    decreases |bytes| - pos
  {
    if pos >= |bytes| then Ok([])
    else
      var step :- ElementAt(layout, lib, bytes, pos);
      Prepend([step.0], ElementsFrom(layout, lib, bytes, step.1))
  }

  /** The layout `ReadAllElements` reads a transfer syntax with. */
  function LayoutOf(syntax: TransferSyntax): (layout: Layout)
    ensures layout == ImplicitLittleEndian <==> syntax == ImplicitVRLittleEndian
    ensures layout == ExplicitBigEndian <==> syntax == ExplicitVRBigEndian
    ensures layout == ExplicitLittleEndian <==> syntax in {ExplicitVRLittleEndian, Encapsulated}
  {
    match syntax
    case ImplicitVRLittleEndian => ImplicitLittleEndian
    case ExplicitVRBigEndian => ExplicitBigEndian
    case _ => ExplicitLittleEndian
  }

  // ---------------------------------------------------------------------------
  // Properties of the readers
  // ---------------------------------------------------------------------------

  /**
   * An explicit little-endian read takes the tag, then the VR, then the length field of
   * that VR's class, then exactly `length` data bytes; the element has that tag and VR.
   */
  lemma ExplicitReadLayout(lib: Library, bytes: seq<byte>, pos: nat)
    requires ElementAt(ExplicitLittleEndian, lib, bytes, pos).Ok?
    ensures var (e, end) := ElementAt(ExplicitLittleEndian, lib, bytes, pos).value;
            var size := LengthFieldSize(EncodingOf(e.vr));
            var length := DecodeLength(bytes[pos + 6..pos + 6 + size], EncodingOf(e.vr), false);
            && e.tag == DecodeTag(bytes[pos..pos + 4], false)
            && e.vr == VRFromCode(Chars(bytes[pos + 4..pos + 6]))
            && e.syntax == ExplicitVRLittleEndian
            && (length != UndefinedLength ==>
                  length == |e.data| && end == pos + 6 + size + length
                  && e.data == bytes[pos + 6 + size..end])
            && (length == UndefinedLength ==>
                  end == pos + 6 + size + |e.data| + 8 && e.data == bytes[pos + 6 + size..end - 8])
  {
    var tag := TagAt(bytes, pos, false).value;
    var vr := VRAt(bytes, pos + 4).value;
    BodyLayout(lib, bytes, pos + 6, tag, vr, vr, false, ExplicitVRLittleEndian);
  }

  /** The shared body: the length field at `at`, then the data; undefined length adds the 8-byte delimiter. */
  lemma BodyLayout(lib: Library, bytes: seq<byte>, at: nat, tag: Tag, vr: VR, lengthVR: VR,
                   bigEndian: bool, syntax: TransferSyntax)
    requires BodyAt(lib, bytes, at, tag, vr, lengthVR, bigEndian, syntax).Ok?
    ensures at + LengthFieldSize(EncodingOf(lengthVR)) <= |bytes|
    ensures var (e, end) := BodyAt(lib, bytes, at, tag, vr, lengthVR, bigEndian, syntax).value;
            var size := LengthFieldSize(EncodingOf(lengthVR));
            var length := DecodeLength(bytes[at..at + size], EncodingOf(lengthVR), bigEndian);
            && e.tag == tag && e.vr == vr && e.syntax == syntax
            && (length != UndefinedLength ==>
                  length == |e.data| && end == at + size + length && e.data == bytes[at + size..end])
            && (length == UndefinedLength ==>
                  end == at + size + |e.data| + 8 && e.data == bytes[at + size..end - 8])
  {
  }

  /**
   * An implicit read whose peek finds no VR code consumes no VR bytes: the tag is
   * followed directly by a 4-byte length, and the VR comes from the dictionary.
   */
  lemma ImplicitReadLayout(lib: Library, bytes: seq<byte>, pos: nat)
    requires ElementAt(ImplicitLittleEndian, lib, bytes, pos).Ok?
    requires VRAt(bytes, pos + 4) == Ok(Null)
    ensures var (e, end) := ElementAt(ImplicitLittleEndian, lib, bytes, pos).value;
            var length := Signed32(U32LE(bytes[pos + 4..pos + 8]));
            && e.tag == DecodeTag(bytes[pos..pos + 4], false)
            && e.vr == lib.vrOfTag(e.tag)
            && e.syntax == ImplicitVRLittleEndian
            && (length != UndefinedLength ==> end == pos + 8 + length && e.data == bytes[pos + 8..end])
  {
    var tag := TagAt(bytes, pos, false).value;
    BodyLayout(lib, bytes, pos + 4, tag, lib.vrOfTag(tag), Null, false, ImplicitVRLittleEndian);
  }

  /**
   * The tolerance for non-compliant files: when the two bytes after the tag are a VR
   * code, the implicit reader reads exactly what the explicit little-endian reader reads.
   */
  lemma ImplicitPeekReadsExplicit(lib: Library, bytes: seq<byte>, pos: nat)
    requires VRAt(bytes, pos + 4).Ok? && VRAt(bytes, pos + 4).value != Null
    ensures ElementAt(ImplicitLittleEndian, lib, bytes, pos) == ElementAt(ExplicitLittleEndian, lib, bytes, pos)
  {
  }

  /** The big-endian reader decodes tag and length most significant byte first. */
  lemma BigEndianReadLayout(lib: Library, bytes: seq<byte>, pos: nat)
    requires ElementAt(ExplicitBigEndian, lib, bytes, pos).Ok?
    ensures var (e, end) := ElementAt(ExplicitBigEndian, lib, bytes, pos).value;
            var size := LengthFieldSize(EncodingOf(e.vr));
            var length := DecodeLength(bytes[pos + 6..pos + 6 + size], EncodingOf(e.vr), true);
            && e.tag == Tag(U16BE(bytes[pos..pos + 2]), U16BE(bytes[pos + 2..pos + 4]))
            && e.syntax == ExplicitVRBigEndian
            && (length != UndefinedLength ==> end == pos + 6 + size + length)
  {
    var tag := TagAt(bytes, pos, true).value;
    var vr := VRAt(bytes, pos + 4).value;
    assert bytes[pos..pos + 4][..2] == bytes[pos..pos + 2] && bytes[pos..pos + 4][2..] == bytes[pos + 2..pos + 4];
    BodyLayout(lib, bytes, pos + 6, tag, vr, vr, true, ExplicitVRBigEndian);
  }

  /**
   * Skipping moves the cursor exactly as far as reading would. For the implicit layout
   * this holds only when the element carries no VR code: the skipper does not peek.
   */
  lemma SkipAgreesWithRead(layout: Layout, lib: Library, bytes: seq<byte>, pos: nat)
    requires ElementAt(layout, lib, bytes, pos).Ok?
    requires layout == ImplicitLittleEndian ==> VRAt(bytes, pos + 4) == Ok(Null)
    ensures SkipEndAt(layout, lib, bytes, pos) == Ok(ElementAt(layout, lib, bytes, pos).value.1)
  {
    var bigEndian := layout == ExplicitBigEndian;
    var tag := TagAt(bytes, pos, bigEndian).value;
    match layout
    case ImplicitLittleEndian =>
      BodySkipAgree(lib, bytes, pos + 4, tag, lib.vrOfTag(tag), Null, false, ImplicitVRLittleEndian);
    case ExplicitLittleEndian =>
      var vr := VRAt(bytes, pos + 4).value;
      BodySkipAgree(lib, bytes, pos + 6, tag, vr, vr, false, ExplicitVRLittleEndian);
    case ExplicitBigEndian =>
      var vr := VRAt(bytes, pos + 4).value;
      BodySkipAgree(lib, bytes, pos + 6, tag, vr, vr, true, ExplicitVRBigEndian);
  }

  /** A read body ends where a skip of the same length field ends. */
  lemma BodySkipAgree(lib: Library, bytes: seq<byte>, at: nat, tag: Tag, vr: VR, lengthVR: VR,
                      bigEndian: bool, syntax: TransferSyntax)
    requires BodyAt(lib, bytes, at, tag, vr, lengthVR, bigEndian, syntax).Ok?
    ensures LengthAt(bytes, at, lengthVR, bigEndian).Ok?
    ensures SkipValue(lib, bytes, at + LengthFieldSize(EncodingOf(lengthVR)), LengthAt(bytes, at, lengthVR, bigEndian).value, syntax)
            == Ok(BodyAt(lib, bytes, at, tag, vr, lengthVR, bigEndian, syntax).value.1)
  {
  }

  /** A skip of an undefined-length value passes the scanned items and the 8-byte delimitation item. */
  lemma SkipUndefinedLength(layout: Layout, lib: Library, bytes: seq<byte>, pos: nat)
    requires layout != ImplicitLittleEndian
    requires TagAt(bytes, pos, layout == ExplicitBigEndian).Ok? && VRAt(bytes, pos + 4).Ok?
    requires var vr := VRAt(bytes, pos + 4).value;
             LengthAt(bytes, pos + 6, vr, layout == ExplicitBigEndian) == Ok(UndefinedLength)
    ensures var vr := VRAt(bytes, pos + 4).value;
            var start := pos + 6 + LengthFieldSize(EncodingOf(vr));
            var syntax := if layout == ExplicitBigEndian then ExplicitVRBigEndian else ExplicitVRLittleEndian;
            match lib.sequenceLength(bytes, start, syntax)
            case None => SkipEndAt(layout, lib, bytes, pos) == Err(UnterminatedSequence)
            case Some(n) => SkipEndAt(layout, lib, bytes, pos) == Ok(start + n + 8)
  {
  }

  /** Each element takes at least 8 bytes, so a stream holds at most one element per 8 bytes. */
  lemma {:induction false} ElementCountBound(layout: Layout, lib: Library, bytes: seq<byte>, pos: nat)
    requires pos <= |bytes|
    requires ElementsFrom(layout, lib, bytes, pos).Ok?
    ensures 8 * |ElementsFrom(layout, lib, bytes, pos).value| <= |bytes| - pos + 7
    decreases |bytes| - pos
  {
    if pos < |bytes| {
      var step := ElementAt(layout, lib, bytes, pos).value;
      ElementCountBound(layout, lib, bytes, step.1);
    }
  }

  /** Reading all elements from a non-empty rest of stream yields the element at the cursor first. */
  lemma {:induction false} ElementsFromStartsAtCursor(layout: Layout, lib: Library, bytes: seq<byte>, pos: nat)
    requires pos < |bytes|
    requires ElementsFrom(layout, lib, bytes, pos).Ok?
    ensures ElementAt(layout, lib, bytes, pos).Ok?
    ensures var es := ElementsFrom(layout, lib, bytes, pos).value;
            var (e, end) := ElementAt(layout, lib, bytes, pos).value;
            && |es| >= 1 && es[0] == e
            && ElementsFrom(layout, lib, bytes, end) == Ok(es[1..])
  {
    var step := ElementAt(layout, lib, bytes, pos).value;
    var rest := ElementsFrom(layout, lib, bytes, step.1);
    assert ElementsFrom(layout, lib, bytes, pos) == Prepend([step.0], rest);
    assert rest.Ok?;
    assert ([step.0] + rest.value)[1..] == rest.value;
  }

  // ---------------------------------------------------------------------------
  // The reader itself, on a DicomBinaryReader
  // ---------------------------------------------------------------------------

  /** `r` is what the specification `spec` says a read yields, and the cursor is where it says. */
  predicate Agrees<T(==)>(spec: Result<(T, nat), ReadError>, r: Result<T, ReadError>, cursor: nat) {
    match spec
    case Err(e) => r == Err(e)
    case Ok(v) => r == Ok(v.0) && cursor == v.1
  }

  /** TagReader.ReadLittleEndian / ReadBigEndian. */
  method ReadTag(dr: DicomBinaryReader, bigEndian: bool) returns (r: Result<Tag, ReadError>)
    modifies dr
    ensures r == TagAt(dr.bytes, old(dr.pos), bigEndian)
    ensures r.Ok? ==> dr.pos == old(dr.pos) + 4
  {
    var field := dr.Take(4);
    if field.Err? { return Err(field.error); }
    r := Ok(DecodeTag(field.value, bigEndian));
  }

  /** VRReader.ReadVR: reads a two-character VR code. */
  method ReadVR(dr: DicomBinaryReader) returns (r: Result<VR, ReadError>)
    modifies dr
    ensures r == VRAt(dr.bytes, old(dr.pos))
    ensures r.Ok? ==> dr.pos == old(dr.pos) + 2
  {
    var code := dr.Take(2);
    if code.Err? { return Err(code.error); }
    r := Ok(VRFromCode(Chars(code.value)));
  }

  /** VRReader.PeekVR: the VR code at the cursor, if any, without moving it. */
  method PeekVR(dr: DicomBinaryReader) returns (r: Result<VR, ReadError>)
    ensures r == VRAt(dr.bytes, dr.pos)
  {
    var code := dr.Peek(2);
    if code.Err? { return Err(code.error); }
    r := Ok(VRFromCode(Chars(code.value)));
  }

  /** LengthReader.ReadLittleEndian / ReadBigEndian: the length field for the class of `vr`. */
  method ReadLength(vr: VR, dr: DicomBinaryReader, bigEndian: bool) returns (r: Result<int32, ReadError>)
    modifies dr
    ensures r == LengthAt(dr.bytes, old(dr.pos), vr, bigEndian)
    ensures r.Ok? ==> dr.pos == old(dr.pos) + LengthFieldSize(EncodingOf(vr))
  {
    var field := dr.Take(LengthFieldSize(EncodingOf(vr)));
    if field.Err? { return Err(field.error); }
    r := Ok(DecodeLength(field.value, EncodingOf(vr), bigEndian));
  }

  /** DataReader.ReadLittleEndian / ReadBigEndian: the data bytes of a value of `length`. */
  method ReadData(lib: Library, length: int32, dr: DicomBinaryReader, syntax: TransferSyntax)
    returns (r: Result<seq<byte>, ReadError>)
    modifies dr
    ensures Agrees(ValueAt(lib, dr.bytes, old(dr.pos), length, syntax), r, dr.pos)
  {
    if length != UndefinedLength {
      if length < 0 { return Err(NegativeCount); }
      r := dr.Take(length);
    } else {
      var scanned := lib.sequenceLength(dr.bytes, dr.pos, syntax);
      if scanned.None? { return Err(UnterminatedSequence); }
      if dr.pos + scanned.value + 8 > |dr.bytes| { return Err(EndOfStream); }
      r := dr.Take(scanned.value);
      var delimiter := dr.Take(8);
    }
  }

  /** Length and data by the rules of `lengthVR`, made into an element with `tag` and `vr`. */
  method ReadBody(lib: Library, tag: Tag, vr: VR, lengthVR: VR, dr: DicomBinaryReader,
                  bigEndian: bool, syntax: TransferSyntax)
    returns (r: Result<Element, ReadError>)
    modifies dr
    ensures Agrees(BodyAt(lib, dr.bytes, old(dr.pos), tag, vr, lengthVR, bigEndian, syntax), r, dr.pos)
  {
    var length := ReadLength(lengthVR, dr, bigEndian);
    if length.Err? { return Err(length.error); }
    var data := ReadData(lib, length.value, dr, syntax);
    if data.Err? { return Err(data.error); }
    r := Ok(Element(tag, vr, data.value, syntax));
  }

  method ReadElementExplicitLittleEndian(dr: DicomBinaryReader, lib: Library) returns (r: Result<Element, ReadError>)
    modifies dr
    ensures Agrees(ElementAt(ExplicitLittleEndian, lib, dr.bytes, old(dr.pos)), r, dr.pos)
  {
    var tag := ReadTag(dr, false);
    if tag.Err? { return Err(tag.error); }
    var vr := ReadVR(dr);
    if vr.Err? { return Err(vr.error); }
    r := ReadBody(lib, tag.value, vr.value, vr.value, dr, false, ExplicitVRLittleEndian);
  }

  /**
   * CheckForExplicitness: true, with the VR read, when the bytes at the cursor are a VR
   * code; otherwise false, with the cursor and the dictionary VR left alone.
   */
  method CheckForExplicitness(dr: DicomBinaryReader, vr: VR)
    returns (r: Result<bool, ReadError>, vr': VR)
    modifies dr
    ensures match VRAt(dr.bytes, old(dr.pos))
            case Err(e) => r == Err(e)
            case Ok(peeked) =>
              && r == Ok(peeked != Null)
              && (peeked != Null ==> vr' == peeked && dr.pos == old(dr.pos) + 2)
              && (peeked == Null ==> vr' == vr && dr.pos == old(dr.pos))
  {
    vr' := vr;
    var peeked := PeekVR(dr);
    if peeked.Err? { return Err(peeked.error), vr'; }
    if peeked.value != Null {
      var read := ReadVR(dr);
      vr' := read.value;
      return Ok(true), vr';
    }
    r := Ok(false);
  }

  method ReadElementImplicitLittleEndian(dr: DicomBinaryReader, lib: Library) returns (r: Result<Element, ReadError>)
    modifies dr
    ensures Agrees(ElementAt(ImplicitLittleEndian, lib, dr.bytes, old(dr.pos)), r, dr.pos)
  {
    var tag := ReadTag(dr, false);
    if tag.Err? { return Err(tag.error); }
    var vr := lib.vrOfTag(tag.value);
    var isExplicit;
    isExplicit, vr := CheckForExplicitness(dr, vr);
    if isExplicit.Err? { return Err(isExplicit.error); }
    if isExplicit.value {
      r := ReadBody(lib, tag.value, vr, vr, dr, false, ExplicitVRLittleEndian);
    } else {
      r := ReadBody(lib, tag.value, vr, Null, dr, false, ImplicitVRLittleEndian);
    }
  }

  method ReadElementExplicitBigEndian(dr: DicomBinaryReader, lib: Library) returns (r: Result<Element, ReadError>)
    modifies dr
    ensures Agrees(ElementAt(ExplicitBigEndian, lib, dr.bytes, old(dr.pos)), r, dr.pos)
  {
    var tag := ReadTag(dr, true);
    if tag.Err? { return Err(tag.error); }
    var vr := ReadVR(dr);
    if vr.Err? { return Err(vr.error); }
    r := ReadBody(lib, tag.value, vr.value, vr.value, dr, true, ExplicitVRBigEndian);
  }

  /** Skips the value of `length` at the cursor: `length` bytes, or the scanned items and their delimiter. */
  method SkipData(lib: Library, length: int32, dr: DicomBinaryReader, syntax: TransferSyntax)
    returns (r: Result<(), ReadError>)
    modifies dr
    ensures match SkipValue(lib, dr.bytes, old(dr.pos), length, syntax)
            case Err(e) => r == Err(e)
            case Ok(end) => r == Ok(()) && dr.pos == end
  {
    if length != UndefinedLength {
      r := dr.Skip(length);
    } else {
      var scanned := lib.sequenceLength(dr.bytes, dr.pos, syntax);
      if scanned.None? { return Err(UnterminatedSequence); }
      r := dr.Skip(scanned.value);
      r := dr.Skip(8);
    }
  }

  method SkipElementExplicitLittleEndian(dr: DicomBinaryReader, lib: Library) returns (r: Result<(), ReadError>)
    modifies dr
    ensures match SkipEndAt(ExplicitLittleEndian, lib, dr.bytes, old(dr.pos))
            case Err(e) => r == Err(e)
            case Ok(end) => r == Ok(()) && dr.pos == end
  {
    var tag := ReadTag(dr, false);
    if tag.Err? { return Err(tag.error); }
    var vr := ReadVR(dr);
    if vr.Err? { return Err(vr.error); }
    var length := ReadLength(vr.value, dr, false);
    if length.Err? { return Err(length.error); }
    r := SkipData(lib, length.value, dr, ExplicitVRLittleEndian);
  }

  method SkipElementImplicitLittleEndian(dr: DicomBinaryReader, lib: Library) returns (r: Result<(), ReadError>)
    modifies dr
    ensures match SkipEndAt(ImplicitLittleEndian, lib, dr.bytes, old(dr.pos))
            case Err(e) => r == Err(e)
            case Ok(end) => r == Ok(()) && dr.pos == end
  {
    var tag := ReadTag(dr, false);
    if tag.Err? { return Err(tag.error); }
    var length := ReadLength(Null, dr, false);
    if length.Err? { return Err(length.error); }
    r := SkipData(lib, length.value, dr, ImplicitVRLittleEndian);
  }

  method SkipElementExplicitBigEndian(dr: DicomBinaryReader, lib: Library) returns (r: Result<(), ReadError>)
    modifies dr
    ensures match SkipEndAt(ExplicitBigEndian, lib, dr.bytes, old(dr.pos))
            case Err(e) => r == Err(e)
            case Ok(end) => r == Ok(()) && dr.pos == end
  {
    var tag := ReadTag(dr, true);
    if tag.Err? { return Err(tag.error); }
    var vr := ReadVR(dr);
    if vr.Err? { return Err(vr.error); }
    var length := ReadLength(vr.value, dr, true);
    if length.Err? { return Err(length.error); }
    r := SkipData(lib, length.value, dr, ExplicitVRBigEndian);
  }

  method ReadAllElements(dr: DicomBinaryReader, syntax: TransferSyntax, lib: Library)
    returns (r: Result<seq<Element>, ReadError>)
    modifies dr
    ensures r == ElementsFrom(LayoutOf(syntax), lib, dr.bytes, old(dr.pos))
    ensures r.Ok? ==> dr.pos >= |dr.bytes|
  {
    match syntax
    case ImplicitVRLittleEndian =>
      r := ReadAllElementsImplicitLittleEndian(dr, lib);
    case ExplicitVRBigEndian =>
      r := ReadAllElementsExplicitBigEndian(dr, lib);
    case _ =>
      r := ReadAllElementsExplicitLittleEndian(dr, lib);
  }

  method ReadAllElementsImplicitLittleEndian(dr: DicomBinaryReader, lib: Library)
    returns (r: Result<seq<Element>, ReadError>)
    modifies dr
    ensures r == ElementsFrom(ImplicitLittleEndian, lib, dr.bytes, old(dr.pos))
    ensures r.Ok? ==> dr.pos >= |dr.bytes|
  {
    var elements: seq<Element> := [];
    PrependNothing(ElementsFrom(ImplicitLittleEndian, lib, dr.bytes, dr.pos));
    while dr.pos < |dr.bytes|
      invariant ElementsFrom(ImplicitLittleEndian, lib, dr.bytes, old(dr.pos))
                == Prepend(elements, ElementsFrom(ImplicitLittleEndian, lib, dr.bytes, dr.pos))
      decreases |dr.bytes| - dr.pos
    {
      ghost var at := dr.pos;
      var e := ReadElementImplicitLittleEndian(dr, lib);
      if e.Err? { return Err(e.error); }
      assert ElementsFrom(ImplicitLittleEndian, lib, dr.bytes, at)
             == Prepend([e.value], ElementsFrom(ImplicitLittleEndian, lib, dr.bytes, dr.pos));
      PrependSteps(elements, e.value, ElementsFrom(ImplicitLittleEndian, lib, dr.bytes, dr.pos));
      elements := elements + [e.value];
    }
    assert elements + [] == elements;
    r := Ok(elements);
  }

  method ReadAllElementsExplicitBigEndian(dr: DicomBinaryReader, lib: Library)
    returns (r: Result<seq<Element>, ReadError>)
    modifies dr
    ensures r == ElementsFrom(ExplicitBigEndian, lib, dr.bytes, old(dr.pos))
    ensures r.Ok? ==> dr.pos >= |dr.bytes|
  {
    var elements: seq<Element> := [];
    PrependNothing(ElementsFrom(ExplicitBigEndian, lib, dr.bytes, dr.pos));
    while dr.pos < |dr.bytes|
      invariant ElementsFrom(ExplicitBigEndian, lib, dr.bytes, old(dr.pos))
                == Prepend(elements, ElementsFrom(ExplicitBigEndian, lib, dr.bytes, dr.pos))
      decreases |dr.bytes| - dr.pos
    {
      ghost var at := dr.pos;
      var e := ReadElementExplicitBigEndian(dr, lib);
      if e.Err? { return Err(e.error); }
      assert ElementsFrom(ExplicitBigEndian, lib, dr.bytes, at)
             == Prepend([e.value], ElementsFrom(ExplicitBigEndian, lib, dr.bytes, dr.pos));
      PrependSteps(elements, e.value, ElementsFrom(ExplicitBigEndian, lib, dr.bytes, dr.pos));
      elements := elements + [e.value];
    }
    assert elements + [] == elements;
    r := Ok(elements);
  }

  method ReadAllElementsExplicitLittleEndian(dr: DicomBinaryReader, lib: Library)
    returns (r: Result<seq<Element>, ReadError>)
    modifies dr
    ensures r == ElementsFrom(ExplicitLittleEndian, lib, dr.bytes, old(dr.pos))
    ensures r.Ok? ==> dr.pos >= |dr.bytes|
  {
    var elements: seq<Element> := [];
    PrependNothing(ElementsFrom(ExplicitLittleEndian, lib, dr.bytes, dr.pos));
    while dr.pos < |dr.bytes|
      invariant ElementsFrom(ExplicitLittleEndian, lib, dr.bytes, old(dr.pos))
                == Prepend(elements, ElementsFrom(ExplicitLittleEndian, lib, dr.bytes, dr.pos))
      decreases |dr.bytes| - dr.pos
    {
      ghost var at := dr.pos;
      var e := ReadElementExplicitLittleEndian(dr, lib);
      if e.Err? { return Err(e.error); }
      assert ElementsFrom(ExplicitLittleEndian, lib, dr.bytes, at)
             == Prepend([e.value], ElementsFrom(ExplicitLittleEndian, lib, dr.bytes, dr.pos));
      PrependSteps(elements, e.value, ElementsFrom(ExplicitLittleEndian, lib, dr.bytes, dr.pos));
      elements := elements + [e.value];
    }
    assert elements + [] == elements;
    r := Ok(elements);
  }
}
