/**
 * `LengthWriter`: writes the length field of a data element. Under implicit VR little
 * endian the field is always 4 bytes. Under an explicit syntax its layout follows the
 * VR's encoding class (DICOM PS3.5 section 7.1.2): two reserved zero bytes and 4 bytes
 * for ExplicitLong, 2 bytes for ExplicitShort, 4 bytes for a VR with no explicit class.
 * Under explicit VR big endian the length bytes are reversed; the reserved bytes are
 * written before them and are not.
 */
module LengthWriting {
  import opened DicomCore
  import opened Wrappers
  import opened ByteOrder
  import opened BinaryStreams
  import opened ElementReading

  /** The exceptions the writer throws. */
  datatype WriteError =
    | ArgumentOutOfRange   // a length an ExplicitShort field is refused for
    | ArgumentNull         // `Array.Reverse` handed the null array of an unknown width

  /** WriteLittleEndian: the low 2 or all 4 bytes of `length`, least significant first; nothing for any other width. */
  method WriteLittleEndian(dw: DicomBinaryWriter, length: int32, numberOfBytes: int)
    modifies dw
    ensures numberOfBytes == 2 ==> dw.written == old(dw.written) + LE16(Unsigned32(length))
    ensures numberOfBytes == 4 ==> dw.written == old(dw.written) + LE32(Unsigned32(length))
    ensures numberOfBytes != 2 && numberOfBytes != 4 ==> dw.written == old(dw.written)
  {
    var lengthBytes: seq<byte> := [];
    if numberOfBytes == 2 {
      lengthBytes := LE16(Unsigned32(length));
    } else if numberOfBytes == 4 {
      lengthBytes := LE32(Unsigned32(length));
    }
    dw.Write(lengthBytes);
  }

  /** WriteBigEndian: the low 2 or all 4 bytes of `length`, most significant first; any other width throws. */
  method WriteBigEndian(dw: DicomBinaryWriter, length: int32, numberOfBytes: int) returns (r: Result<(), WriteError>)
    modifies dw
    ensures numberOfBytes == 2 ==> r.Ok? && dw.written == old(dw.written) + Reverse(LE16(Unsigned32(length)))
    ensures numberOfBytes == 4 ==> r.Ok? && dw.written == old(dw.written) + Reverse(LE32(Unsigned32(length)))
    ensures numberOfBytes != 2 && numberOfBytes != 4 ==> r == Err(ArgumentNull) && dw.written == old(dw.written)
  {
    var lengthBytes: Option<seq<byte>> := None;
    if numberOfBytes == 2 {
      lengthBytes := Some(LE16(Unsigned32(length)));
    } else if numberOfBytes == 4 {
      lengthBytes := Some(LE32(Unsigned32(length)));
    }
    if lengthBytes.None? {
      return Err(ArgumentNull);
    }
    dw.Write(Reverse(lengthBytes.value));
    r := Ok(());
  }

  /** The encoding class the writer lays the field out by: VR-less under implicit syntax. */
  function FieldEncoding(vr: VR, syntax: TransferSyntax): VREncoding {
    if syntax == ImplicitVRLittleEndian then Implicit else EncodingOf(vr)
  }

  /**
   * The bytes `Write` emits for `length`, or the exception it throws. An ExplicitShort
   * length above 65536 is refused; 65536 itself passes the check and is truncated.
   */
  function LengthFieldBytes(vr: VR, syntax: TransferSyntax, length: int32): (r: Result<seq<byte>, WriteError>)
    ensures r.Ok? ==> |r.value| == LengthFieldSize(FieldEncoding(vr, syntax))
    ensures syntax == ImplicitVRLittleEndian ==> r == Ok(LE32(Unsigned32(length)))
    ensures r.Err? <==> FieldEncoding(vr, syntax) == ExplicitShort && length > 65536
    ensures r.Ok? && FieldEncoding(vr, syntax) == ExplicitLong ==>
              r.value[..2] == [0, 0]
              && r.value[2..] == if syntax == ExplicitVRBigEndian then Reverse(LE32(Unsigned32(length)))
                                 else LE32(Unsigned32(length))
  {
    if syntax == ImplicitVRLittleEndian then Ok(LE32(Unsigned32(length)))
    else
      var reserved: seq<byte> := if EncodingOf(vr) == ExplicitLong then [0, 0] else [];
      var lengthBytes := if EncodingOf(vr) == ExplicitShort then LE16(Unsigned32(length)) else LE32(Unsigned32(length));
      if EncodingOf(vr) == ExplicitShort && length > 65536 then Err(ArgumentOutOfRange)
      else if syntax == ExplicitVRBigEndian then Ok(reserved + Reverse(lengthBytes))
      else Ok(reserved + lengthBytes)
  }

  /** Write: the length field of an element of `vr` in `syntax`; nothing is written when it throws. */
  method Write(dw: DicomBinaryWriter, vr: VR, syntax: TransferSyntax, length: int32) returns (r: Result<(), WriteError>)
    modifies dw
    ensures match LengthFieldBytes(vr, syntax, length)
            case Ok(bytes) => r == Ok(()) && dw.written == old(dw.written) + bytes
            case Err(e) => r == Err(e) && dw.written == old(dw.written)
  {
    var lengthBytes := LE32(Unsigned32(length));
    if syntax != ImplicitVRLittleEndian {
      match EncodingOf(vr)
      case ExplicitLong =>
        dw.WriteNullBytes(2);
        lengthBytes := LE32(Unsigned32(length));
      case ExplicitShort =>
        lengthBytes := LE16(Unsigned32(length));
        if length > 65536 {
          return Err(ArgumentOutOfRange);
        }
      case Implicit =>
        lengthBytes := LE32(Unsigned32(length));
    }
    if syntax == ExplicitVRBigEndian {
      lengthBytes := Reverse(lengthBytes);
    }
    dw.Write(lengthBytes);
    r := Ok(());
  }

  lemma ReverseReverse<T>(s: seq<T>)
    ensures Reverse(Reverse(s)) == s
  {
  }

  lemma SignedOfUnsigned(x: int32)
    ensures Signed32(Unsigned32(x)) == x
  {
  }

  /** Four little-endian bytes of `x`, read back in either order they were written in. */
  lemma FourBytesRoundTrip(x: int32)
    ensures Signed32(U32LE(LE32(Unsigned32(x)))) == x
    ensures Signed32(U32BE(Reverse(LE32(Unsigned32(x))))) == x
  {
    var b := LE32(Unsigned32(x));
    SignedOfUnsigned(x);
    ReverseReverse(b);
    BigEndianIsReversed(Reverse(b));
  }

  /** Two little-endian bytes of `u`, read back in either order they were written in. */
  lemma TwoBytesRoundTrip(u: nat)
    requires u < TwoTo16
    ensures U16LE(LE16(u)) == u
    ensures U16BE(Reverse(LE16(u))) == u
  {
    var b := LE16(u);
    ReverseReverse(b);
    BigEndianIsReversed(Reverse(b));
  }

  /**
   * What the writer writes, the element reader's length decoding reads back: for every
   * syntax and VR whose field can hold the length. The reader decodes in big-endian
   * order exactly when the writer reversed.
   */
  lemma LengthRoundTrip(vr: VR, syntax: TransferSyntax, length: int32)
    requires FieldEncoding(vr, syntax) == ExplicitShort ==> 0 <= length < 0x1_0000
    ensures LengthFieldBytes(vr, syntax, length).Ok?
    ensures DecodeLength(LengthFieldBytes(vr, syntax, length).value, FieldEncoding(vr, syntax),
                         syntax == ExplicitVRBigEndian) == length
  {
    var bytes := LengthFieldBytes(vr, syntax, length).value;
    var u := Unsigned32(length);
    var be := syntax == ExplicitVRBigEndian;
    match FieldEncoding(vr, syntax)
    case ExplicitShort =>
      TwoBytesRoundTrip(u);
      assert bytes == if be then Reverse(LE16(u)) else LE16(u);
    case Implicit =>
      FourBytesRoundTrip(length);
      assert bytes == if be then Reverse(LE32(u)) else LE32(u);
    case ExplicitLong =>
      FourBytesRoundTrip(length);
  }

  /**
   * The boundary the explicit-short check lets through: a length of 65536 is written as
   * 00 00 and reads back as 0.
   */
  lemma ShortLength65536Wraps()
    ensures LengthFieldBytes(US, ExplicitVRLittleEndian, 65536) == Ok([0, 0])
    ensures DecodeLength(LengthFieldBytes(US, ExplicitVRLittleEndian, 65536).value, ExplicitShort, false) == 0
  {
    assert LE16(Unsigned32(65536)) == [0, 0];
    var zeros: seq<byte> := [0, 0];
    assert [] + zeros == zeros;
  }

  /** The explicit-short check as the 16-bit field needs it: every length outside 0..65535 is refused. */
  function CheckedLengthFieldBytes(vr: VR, syntax: TransferSyntax, length: int32): (r: Result<seq<byte>, WriteError>)
    ensures r.Err? <==> FieldEncoding(vr, syntax) == ExplicitShort && !(0 <= length <= 65535)
  {
    if FieldEncoding(vr, syntax) == ExplicitShort && !(0 <= length <= 65535) then Err(ArgumentOutOfRange)
    else LengthFieldBytes(vr, syntax, length)
  }

  /** With the corrected check, every length that is written reads back unchanged. */
  lemma CheckedLengthRoundTrip(vr: VR, syntax: TransferSyntax, length: int32)
    requires CheckedLengthFieldBytes(vr, syntax, length).Ok?
    ensures DecodeLength(CheckedLengthFieldBytes(vr, syntax, length).value, FieldEncoding(vr, syntax),
                         syntax == ExplicitVRBigEndian) == length
  {
    LengthRoundTrip(vr, syntax, length);
  }
}
