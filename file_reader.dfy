/**
 * `DicomFileReader` of the finder: classifies the 128-byte preamble and the "DICM"
 * prefix of a DICOM file (DICOM PS3.10 section 7.1) and looks up the first element
 * with a given group and element, meta information before the data set.
 */
module DicomFileReading {
  import opened DicomCore
  import opened Wrappers
  import opened BinaryStreams
  import opened ElementReading

  /** How the start of a file compares with the PS3.10 file preamble and prefix. */
  datatype PreambleStatus =
    | None                  // the file is too short to hold preamble and prefix
    | WrongPreambleDicm     // the four bytes after the preamble are not "DICM"
    | MismatchPreamble128   // "DICM" is there, but the preamble is not all zero
    | Ok                    // 128 zero bytes, then "DICM"

  const PreambleSize: nat := 128
  /** The characters D, I, C, M. */
  const DicmPrefix: seq<byte> := [0x44, 0x49, 0x43, 0x4D]

  lemma DicmPrefixSpellsDicm()
    ensures Chars(DicmPrefix) == "DICM"
  {
  }

  /** The status the private `Read` returns when the cursor starts at `pos`. */
  function PreambleAt(bytes: seq<byte>, pos: nat): Result<PreambleStatus, ReadError> {
    if |bytes| <= PreambleSize + 4 then Result.Ok(PreambleStatus.None)
    else if pos + PreambleSize + 4 > |bytes| then Err(EndOfStream)
    else
      var mismatch := exists i :: pos <= i < pos + PreambleSize && bytes[i] != 0;
      if bytes[pos + PreambleSize..pos + PreambleSize + 4] != DicmPrefix then Result.Ok(WrongPreambleDicm)
      else if mismatch then Result.Ok(MismatchPreamble128)
      else Result.Ok(PreambleStatus.Ok)
  }

  /** The status of a file read from its first byte. */
  function PreambleStatusOf(bytes: seq<byte>): PreambleStatus {
    PreambleAt(bytes, 0).value
  }

  /**
   * The four statuses characterised without the order of the tests: the prefix decides
   * before the preamble does, and Ok is exactly 128 zero bytes followed by "DICM".
   */
  lemma PreambleClassification(bytes: seq<byte>)
    ensures PreambleStatusOf(bytes) == PreambleStatus.None <==> |bytes| <= 132
    ensures PreambleStatusOf(bytes) == WrongPreambleDicm <==> |bytes| > 132 && bytes[128..132] != DicmPrefix
    ensures PreambleStatusOf(bytes) == MismatchPreamble128 <==>
              |bytes| > 132 && bytes[128..132] == DicmPrefix && bytes[..128] != seq(128, _ => 0)
    ensures PreambleStatusOf(bytes) == PreambleStatus.Ok <==>
              |bytes| > 132 && bytes[..132] == seq(128, _ => 0) + DicmPrefix
  {
    if |bytes| > 132 {
      var zeros: seq<byte> := seq(128, _ => 0);
      assert bytes[..132] == bytes[..128] + bytes[128..132];
      if bytes[..128] != zeros {
        var i :| 0 <= i < 128 && bytes[..128][i] != zeros[i];
        assert bytes[i] != 0;
      } else {
        assert forall i :: 0 <= i < 128 ==> bytes[i] == bytes[..128][i];
      }
      if bytes[..132] == zeros + DicmPrefix {
        assert bytes[..128] == (zeros + DicmPrefix)[..128];
        assert bytes[128..132] == (zeros + DicmPrefix)[128..132];
      }
    }
  }

  /**
   * The private `Read`: on a file longer than 132 bytes it takes the 128 preamble bytes
   * and the 4 prefix bytes; on a shorter one it takes nothing.
   */
  method ReadPreamble(dr: DicomBinaryReader) returns (r: Result<PreambleStatus, ReadError>)
    modifies dr
    ensures r == PreambleAt(dr.bytes, old(dr.pos))
    ensures r == Result.Ok(PreambleStatus.None) ==> dr.pos == old(dr.pos)
    ensures r.Ok? && r.value != PreambleStatus.None ==> dr.pos == old(dr.pos) + 132
  {
    if |dr.bytes| > 132 {
      var nullPreamble :- dr.Take(PreambleSize);
      var mismatch := exists i :: 0 <= i < |nullPreamble| && nullPreamble[i] != 0;
      assert mismatch <==> exists i :: old(dr.pos) <= i < old(dr.pos) + PreambleSize && dr.bytes[i] != 0 by {
        if mismatch {
          var i :| 0 <= i < |nullPreamble| && nullPreamble[i] != 0;
          assert dr.bytes[old(dr.pos) + i] == nullPreamble[i];
        }
        if i :| old(dr.pos) <= i < old(dr.pos) + PreambleSize && dr.bytes[i] != 0 {
          assert nullPreamble[i - old(dr.pos)] == dr.bytes[i];
        }
      }
      var dcm :- dr.Take(4);
      if dcm != DicmPrefix {
        return Result.Ok(WrongPreambleDicm);
      }
      if mismatch {
        return Result.Ok(MismatchPreamble128);
      }
      return Result.Ok(PreambleStatus.Ok);
    }
    return Result.Ok(PreambleStatus.None);
  }

  /** Read from a fresh reader, the preamble test never fails. */
  lemma PreambleFromStartSucceeds(bytes: seq<byte>)
    ensures PreambleAt(bytes, 0) == Result.Ok(PreambleStatusOf(bytes))
  {
  }

  // ---------------------------------------------------------------------------
  // Single-tag lookup
  // ---------------------------------------------------------------------------

  /** The collaborators of the lookup that are not part of this model. */
  datatype FileLibrary = FileLibrary(
    elements: Library,
    // DICOMFileReader.ReadFileMetadata: from a cursor, the meta elements, the transfer
    // syntax they announce (implicit VR little endian when none), and the cursor after them
    readFileMetadata: (seq<byte>, nat) -> Result<(seq<Element>, TransferSyntax, nat), ReadError>,
    // DData.ToString(): the text of an element's value
    valueString: Element -> string
  )

  /** An element whose tag prints as the queried group and element (four upper-case hex digits each). */
  predicate HasTag(e: Element, group: string, element: string) {
    Hex4(e.tag.group) == group && Hex4(e.tag.element) == element
  }

  /** `FirstOrDefault`: the index of the first element with the queried tag. */
  function FirstMatch(es: seq<Element>, group: string, element: string): (r: Option<nat>)
    ensures r.Some? ==> r.value < |es| && HasTag(es[r.value], group, element)
    ensures r.Some? ==> forall j :: 0 <= j < r.value ==> !HasTag(es[j], group, element)
    ensures r.None? <==> forall j :: 0 <= j < |es| ==> !HasTag(es[j], group, element)
  {
    if |es| == 0 then Option.None
    else if HasTag(es[0], group, element) then Some(0)
    else
      match FirstMatch(es[1..], group, element)
      case Some(k) =>
        assert forall j :: 1 <= j < k + 1 ==> es[j] == es[1..][j - 1];
        Some(k + 1)
      case None =>
        assert forall j :: 1 <= j < |es| ==> es[j] == es[1..][j - 1];
        Option.None
  }

  /** A match among the meta elements is found before any element of the data set. */
  lemma {:induction false} MetaElementsFirst(meta: seq<Element>, data: seq<Element>, group: string, element: string, j: nat)
    requires j < |meta| && HasTag(meta[j], group, element)
    ensures FirstMatch(meta + data, group, element).Some?
    ensures FirstMatch(meta + data, group, element).value <= j
  {
    assert (meta + data)[j] == meta[j];
  }

  /** What the public `Read` returns for the bytes of a file: the value found, if any, and the preamble status. */
  function FileValue(fl: FileLibrary, bytes: seq<byte>, group: string, element: string)
    : Result<(Option<string>, PreambleStatus), ReadError>
  {
    var status :- PreambleAt(bytes, 0);
    if status == PreambleStatus.Ok || status == MismatchPreamble128 then
      var meta :- fl.readFileMetadata(bytes, 132);
      var data :- ElementsFrom(LayoutOf(meta.1), fl.elements, bytes, meta.2);
      var all := meta.0 + data;
      match FirstMatch(all, group, element)
      case Some(i) => Result.Ok((Some(fl.valueString(all[i])), status))
      case None => Result.Ok((Option.None, status))
    else Result.Ok((Option.None, status))
  }

  /** Without "DICM" after the preamble no element is read and no value is found. */
  lemma NoElementsWithoutPrefix(fl: FileLibrary, bytes: seq<byte>, group: string, element: string)
    requires PreambleStatusOf(bytes) !in {PreambleStatus.Ok, MismatchPreamble128}
    ensures FileValue(fl, bytes, group, element) == Result.Ok((Option.None, PreambleStatusOf(bytes)))
  {
    PreambleFromStartSucceeds(bytes);
  }

  /**
   * When the file is read, a value is returned exactly when some meta or data-set
   * element carries the tag, and it is the value of the first such element.
   */
  lemma ValueOfFirstElementWithTag(fl: FileLibrary, bytes: seq<byte>, group: string, element: string)
    requires PreambleStatusOf(bytes) in {PreambleStatus.Ok, MismatchPreamble128}
    requires fl.readFileMetadata(bytes, 132).Ok?
    requires ElementsFrom(LayoutOf(fl.readFileMetadata(bytes, 132).value.1), fl.elements, bytes,
                          fl.readFileMetadata(bytes, 132).value.2).Ok?
    ensures FileValue(fl, bytes, group, element).Ok?
    ensures var meta := fl.readFileMetadata(bytes, 132).value;
            var all := meta.0 + ElementsFrom(LayoutOf(meta.1), fl.elements, bytes, meta.2).value;
            var v := FileValue(fl, bytes, group, element).value.0;
            (v.None? <==> forall j :: 0 <= j < |all| ==> !HasTag(all[j], group, element))
            && (v.Some? ==> exists i :: 0 <= i < |all| && HasTag(all[i], group, element)
                                        && v.value == fl.valueString(all[i])
                                        && forall j :: 0 <= j < i ==> !HasTag(all[j], group, element))
  {
    PreambleFromStartSucceeds(bytes);
  }

  /** The public `Read(path, group, element)`, over the bytes of the file. */
  method Read(fl: FileLibrary, bytes: seq<byte>, group: string, element: string)
    returns (r: Result<(Option<string>, PreambleStatus), ReadError>)
    ensures r == FileValue(fl, bytes, group, element)
  {
    var dr := new DicomBinaryReader(bytes);
    var status :- ReadPreamble(dr);
    PreambleFromStartSucceeds(bytes);
    assert status == PreambleStatusOf(bytes) && dr.bytes == bytes;
    if status == PreambleStatus.Ok || status == MismatchPreamble128 {
      assert dr.pos == 132;
      var meta :- fl.readFileMetadata(dr.bytes, dr.pos);
      var _ := dr.Skip(meta.2 - dr.pos);
      assert dr.pos == meta.2;
      var data :- ReadAllElements(dr, meta.1, fl.elements);
      var all := meta.0 + data;
      var i := FirstMatch(all, group, element);
      if i.Some? {
        return Result.Ok((Some(fl.valueString(all[i.value])), status));
      }
    }
    return Result.Ok((Option.None, status));
  }
}
