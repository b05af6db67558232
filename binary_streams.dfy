/**
 * The byte streams the codec works on: `DICOMBinaryReader`, a cursor over the bytes of
 * a file or message, and `DICOMBinaryWriter`, which appends bytes. Only the operations
 * the modelled code calls are given.
 */
module BinaryStreams {
  import opened DicomCore
  import opened Wrappers

  /** Why a read stopped: the exceptions the stream and the codec helpers throw. */
  datatype ReadError =
    | EndOfStream            // fewer bytes left than the read needs
    | NegativeCount          // a byte count below zero handed to a read
    | NegativePosition       // a skip that would move the cursor before the first byte
    | UnterminatedSequence   // an undefined-length sequence whose delimiter is never found

  class DicomBinaryReader {
    const bytes: seq<byte>
    var pos: nat

    constructor (bytes: seq<byte>)
      ensures this.bytes == bytes && pos == 0
    {
      this.bytes := bytes;
      pos := 0;
    }

    /** Reads the next `n` bytes; a read past the end fails and leaves the cursor where it was. */
    method Take(n: nat) returns (r: Result<seq<byte>, ReadError>)
      modifies this
      ensures old(pos) + n <= |bytes| ==> r == Ok(bytes[old(pos)..old(pos) + n]) && pos == old(pos) + n
      ensures old(pos) + n > |bytes| ==> r == Err(EndOfStream) && pos == old(pos)
    {
      if pos + n <= |bytes| {
        r := Ok(bytes[pos..pos + n]);
        pos := pos + n;
      } else {
        r := Err(EndOfStream);
      }
    }

    /** The next `n` bytes, without moving the cursor. */
    method Peek(n: nat) returns (r: Result<seq<byte>, ReadError>)
      ensures pos + n <= |bytes| ==> r == Ok(bytes[pos..pos + n])
      ensures pos + n > |bytes| ==> r == Err(EndOfStream)
    {
      if pos + n <= |bytes| {
        r := Ok(bytes[pos..pos + n]);
      } else {
        r := Err(EndOfStream);
      }
    }

    /**
     * Moves the cursor by `n`, which may be negative. As with a seek on a stream, the
     * cursor may land past the end; only a position before the start is refused.
     */
    method Skip(n: int) returns (r: Result<(), ReadError>)
      modifies this
      ensures old(pos) + n >= 0 ==> r == Ok(()) && pos == old(pos) + n
      ensures old(pos) + n < 0 ==> r == Err(NegativePosition) && pos == old(pos)
    {
      if pos + n >= 0 {
        pos := pos + n;
        r := Ok(());
      } else {
        r := Err(NegativePosition);
      }
    }
  }

  class DicomBinaryWriter {
    var written: seq<byte>

    constructor ()
      ensures written == []
    {
      written := [];
    }

    method Write(bytes: seq<byte>)
      modifies this
      ensures written == old(written) + bytes
    {
      written := written + bytes;
    }

    /** Appends `n` zero bytes. */
    method WriteNullBytes(n: nat)
      modifies this
      ensures written == old(written) + seq(n, _ => 0)
    {
      written := written + seq(n, _ => 0);
    }
  }
}
