/**
 * The value types shared by the codec and its callers: bytes, fixed-width integers,
 * tags, value representations (VRs), their length encodings, transfer syntaxes and
 * the raw data element the readers produce.
 */
module DicomCore {

  type byte = b: int | 0 <= b < 0x100
  type uint16 = x: int | 0 <= x < 0x1_0000
  type int32 = x: int | -0x8000_0000 <= x < 0x8000_0000

  /** A data element tag: the (group, element) pair of DICOM PS3.5 section 7.1. */
  datatype Tag = Tag(group: uint16, element: uint16)

  /** The value representations of DICOM PS3.5 section 6.2, plus `Null` for "no VR". */
  datatype VR =
    | AE | AS | AT | CS | DA | DS | DT | FD | FL | IS | LO | LT | OB | OD | OF | OL
    | OW | PN | SH | SL | SQ | SS | ST | TM | UC | UI | UL | UN | UR | US | UT
    | Null

  /** How the length field that follows a VR is laid out (DICOM PS3.5 section 7.1.2). */
  datatype VREncoding = Implicit | ExplicitShort | ExplicitLong

  /**
   * The encoding class of a VR: the VRs of PS3.5 table 7.1-1 that carry two reserved
   * bytes and a 32-bit length are ExplicitLong, `Null` (no VR at all) is Implicit,
   * every other VR has a 16-bit length.
   */
  function EncodingOf(vr: VR): VREncoding {
    match vr
    case OB | OD | OF | OL | OW | SQ | UC | UN | UR | UT => ExplicitLong
    case Null => Implicit
    case _ => ExplicitShort
  }

  /** The two-character code a VR is written as in explicit syntax. */
  function CodeOf(vr: VR): (code: string)
    requires vr != Null
    ensures |code| == 2 && VRFromCode(code) == vr
  {
    match vr
    case AE => "AE" case AS => "AS" case AT => "AT" case CS => "CS" case DA => "DA"
    case DS => "DS" case DT => "DT" case FD => "FD" case FL => "FL" case IS => "IS"
    case LO => "LO" case LT => "LT" case OB => "OB" case OD => "OD" case OF => "OF"
    case OL => "OL" case OW => "OW" case PN => "PN" case SH => "SH" case SL => "SL"
    case SQ => "SQ" case SS => "SS" case ST => "ST" case TM => "TM" case UC => "UC"
    case UI => "UI" case UL => "UL" case UN => "UN" case UR => "UR" case US => "US"
    case UT => "UT"
  }

  /** The VR a two-character code names; `Null` when it names none. */
  function VRFromCode(code: string): VR {
    match code
    case "AE" => AE case "AS" => AS case "AT" => AT case "CS" => CS case "DA" => DA
    case "DS" => DS case "DT" => DT case "FD" => FD case "FL" => FL case "IS" => IS
    case "LO" => LO case "LT" => LT case "OB" => OB case "OD" => OD case "OF" => OF
    case "OL" => OL case "OW" => OW case "PN" => PN case "SH" => SH case "SL" => SL
    case "SQ" => SQ case "SS" => SS case "ST" => ST case "TM" => TM case "UC" => UC
    case "UI" => UI case "UL" => UL case "UN" => UN case "UR" => UR case "US" => US
    case "UT" => UT
    case _ => Null
  }

  /** The characters of a run of bytes, one per byte (the reader's `ReadChars` on ASCII). */
  function Chars(bytes: seq<byte>): (s: string)
    ensures |s| == |bytes|
    ensures forall i :: 0 <= i < |bytes| ==> s[i] as int == bytes[i]
  {
    seq(|bytes|, i requires 0 <= i < |bytes| => bytes[i] as char)
  }

  /** The bytes of an ASCII string. */
  function AsciiBytes(s: string): (bytes: seq<byte>)
    requires forall i :: 0 <= i < |s| ==> s[i] as int < 0x100
    ensures |bytes| == |s| && Chars(bytes) == s
  {
    seq(|s|, i requires 0 <= i < |s| => s[i] as int)
  }

  /** The transfer syntaxes the codec distinguishes; every compressed one is `Encapsulated`. */
  datatype TransferSyntax =
    | ImplicitVRLittleEndian
    | ExplicitVRLittleEndian
    | ExplicitVRBigEndian
    | Encapsulated

  /**
   * A raw data element as the element factory receives it: tag, VR, the data bytes and
   * the syntax they were read in. The typed per-VR view is not part of this model.
   */
  datatype Element = Element(tag: Tag, vr: VR, data: seq<byte>, syntax: TransferSyntax)

  /** An upper-case hexadecimal digit. */
  function HexDigit(d: nat): (c: char)
    requires d < 16
  {
    if d < 10 then ('0' as int + d) as char else ('A' as int + d - 10) as char
  }

  /** The four upper-case hexadecimal digits of a 16-bit value, as a tag's group or element is printed. */
  function Hex4(v: uint16): (s: string)
    ensures |s| == 4
  {
    [HexDigit(v / 0x1000), HexDigit(v / 0x100 % 16), HexDigit(v / 0x10 % 16), HexDigit(v % 16)]
  }
}
