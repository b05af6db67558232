/**
 * `DicomDirectory.Search` of the finder: a pre-order walk of a directory tree that
 * reads each file's value for a tag and appends the files whose value is present (and,
 * with the value filter on, contains the filter text ignoring case) to the caller's
 * list. In one-file mode only the first file of each directory is read. Any exception
 * abandons the rest of the directory being searched; its parent goes on.
 */
module DicomDirectorySearch {
  import opened DicomCore
  import opened Wrappers
  import DicomFileReading

  /** A directory as the enumeration sees it, and whether listing its files or its subdirectories throws. */
  datatype Dir = Dir(files: seq<string>, filesThrow: bool, subdirs: seq<Dir>, subdirsThrow: bool)

  /** One result row: the file, its value and its preamble status. */
  datatype FileContext = FileContext(path: string, value: string, status: DicomFileReading.PreambleStatus)

  /** What a search looks for: the reader of each file's value, and the filter text. */
  datatype Query = Query(
    // DicomFileReader.Read(path, group, element); `None` where it throws
    read: string -> Option<(Option<string>, DicomFileReading.PreambleStatus)>,
    valueBox: string
  )

  /**
   * The reader a search uses for `group` and `element`, given the bytes of each file
   * (`None` where opening it throws): the file lookup, with each exception caught.
   */
  function FileReader(disk: string -> Option<seq<byte>>, fl: DicomFileReading.FileLibrary, group: string, element: string)
    : string -> Option<(Option<string>, DicomFileReading.PreambleStatus)>
  {
    path =>
      match disk(path)
      case None => None
      case Some(bytes) =>
        match DicomFileReading.FileValue(fl, bytes, group, element)
        case Ok(v) => Some(v)
        case Err(_) => None
  }

  function ReadFile(q: Query, path: string): Option<(Option<string>, DicomFileReading.PreambleStatus)> {
    q.read(path)
  }

  /** `ToLower` on the ASCII letters. */
  function Lower(s: string): (r: string)
    ensures |r| == |s|
  {
    seq(|s|, i requires 0 <= i < |s| => if 'A' <= s[i] <= 'Z' then (s[i] as int + 32) as char else s[i])
  }

  /** `s.Contains(t)`. */
  predicate Contains(s: string, t: string) {
    exists i | 0 <= i <= |s| - |t| :: OccursAt(s, t, i)
  }

  predicate OccursAt(s: string, t: string, i: int) {
    0 <= i <= |s| - |t| && s[i..i + |t|] == t
  }

  /** Whether a present value is added: always without the value filter, otherwise when it contains the filter text, ignoring case. */
  predicate Accepts(valueFilter: bool, valueBox: string, value: string) {
    !valueFilter || Contains(Lower(value), Lower(valueBox))
  }

  /**
   * The rows the files `paths` add, read in order, and whether a read threw. In
   * one-file mode the walk stops after the first file.
   */
  function FilesFound(oneFile: bool, valueFilter: bool, q: Query, paths: seq<string>): (r: (seq<FileContext>, bool))
    ensures oneFile ==> |r.0| <= 1
    ensures oneFile ==> forall e :: e in r.0 ==> |paths| > 0 && e.path == paths[0]
  {
    if |paths| == 0 then ([], false)
    else
      match ReadFile(q, paths[0])
      case None => ([], true)
      case Some(readData) =>
        var here := if readData.0.Some? && Accepts(valueFilter, q.valueBox, readData.0.value)
                    then [FileContext(paths[0], readData.0.value, readData.1)] else [];
        if oneFile then (here, false)
        else
          var rest := FilesFound(oneFile, valueFilter, q, paths[1..]);
          (here + rest.0, rest.1)
  }

  /** The rows a search of `d` appends: its files first, then each subdirectory in turn. */
  function Found(oneFile: bool, valueFilter: bool, q: Query, d: Dir): seq<FileContext>
    decreases d, 1, 0
  {
    if d.filesThrow then []
    else
      var fromFiles := FilesFound(oneFile, valueFilter, q, d.files);
      if fromFiles.1 || d.subdirsThrow then fromFiles.0
      else fromFiles.0 + FoundIn(oneFile, valueFilter, q, d, 0)
  }

  /** The rows the searches of the subdirectories of `d` from the `i`-th on append. */
  function FoundIn(oneFile: bool, valueFilter: bool, q: Query, d: Dir, i: nat): seq<FileContext>
    requires i <= |d.subdirs|
    decreases d, 0, |d.subdirs| - i
  {
    if i == |d.subdirs| then []
    else
      assert d.subdirs[i] in d.subdirs;
      Found(oneFile, valueFilter, q, d.subdirs[i]) + FoundIn(oneFile, valueFilter, q, d, i + 1)
  }

  // ---------------------------------------------------------------------------
  // Properties of the search
  // ---------------------------------------------------------------------------

  /** A row of the files' part carries what the reader returned for its path, which is one of `paths`, and passes the filter. */
  lemma {:induction false} FilesFoundSound(oneFile: bool, valueFilter: bool, q: Query, paths: seq<string>)
    ensures forall e :: e in FilesFound(oneFile, valueFilter, q, paths).0 ==>
              e.path in paths && ReadFile(q, e.path) == Some((Some(e.value), e.status))
              && Accepts(valueFilter, q.valueBox, e.value)
  {
    if |paths| > 0 && ReadFile(q, paths[0]).Some? && !oneFile {
      FilesFoundSound(oneFile, valueFilter, q, paths[1..]);
    }
  }

  /** Every row a search adds carries exactly what the reader returned for its path, and its value passes the filter. */
  lemma {:induction false} FoundSound(oneFile: bool, valueFilter: bool, q: Query, d: Dir)
    ensures forall e :: e in Found(oneFile, valueFilter, q, d) ==>
              ReadFile(q, e.path) == Some((Some(e.value), e.status)) && Accepts(valueFilter, q.valueBox, e.value)
    decreases d, 1, 0
  {
    if !d.filesThrow {
      FilesFoundSound(oneFile, valueFilter, q, d.files);
      if !FilesFound(oneFile, valueFilter, q, d.files).1 && !d.subdirsThrow {
        FoundInSound(oneFile, valueFilter, q, d, 0);
      }
    }
  }

  lemma {:induction false} FoundInSound(oneFile: bool, valueFilter: bool, q: Query, d: Dir, i: nat)
    requires i <= |d.subdirs|
    ensures forall e :: e in FoundIn(oneFile, valueFilter, q, d, i) ==>
              ReadFile(q, e.path) == Some((Some(e.value), e.status)) && Accepts(valueFilter, q.valueBox, e.value)
    decreases d, 0, |d.subdirs| - i
  {
    if i < |d.subdirs| {
      assert d.subdirs[i] in d.subdirs;
      FoundSound(oneFile, valueFilter, q, d.subdirs[i]);
      FoundInSound(oneFile, valueFilter, q, d, i + 1);
    }
  }

  /**
   * With the file lookup as the reader, every row of a search names a file that opens,
   * and carries the value and preamble status the lookup gives for its bytes.
   */
  lemma FoundReadsFileValue(oneFile: bool, valueFilter: bool, disk: string -> Option<seq<byte>>,
                            fl: DicomFileReading.FileLibrary, group: string, element: string, valueBox: string, d: Dir)
    ensures var q := Query(FileReader(disk, fl, group, element), valueBox);
            forall e :: e in Found(oneFile, valueFilter, q, d) ==>
              disk(e.path).Some?
              && DicomFileReading.FileValue(fl, disk(e.path).value, group, element) == Ok((Some(e.value), e.status))
  {
    FoundSound(oneFile, valueFilter, Query(FileReader(disk, fl, group, element), valueBox), d);
  }

  /**
   * Outside one-file mode, when no read throws, every file of the directory whose value
   * is present and passes the filter is added.
   */
  lemma {:induction false} EveryPresentValueAdded(valueFilter: bool, q: Query, paths: seq<string>)
    requires forall k :: 0 <= k < |paths| ==> ReadFile(q, paths[k]).Some?
    ensures !FilesFound(false, valueFilter, q, paths).1
    ensures forall k :: 0 <= k < |paths| && ReadFile(q, paths[k]).value.0.Some?
                        && Accepts(valueFilter, q.valueBox, ReadFile(q, paths[k]).value.0.value) ==>
              FileContext(paths[k], ReadFile(q, paths[k]).value.0.value, ReadFile(q, paths[k]).value.1)
                in FilesFound(false, valueFilter, q, paths).0
  {
    if |paths| > 0 {
      EveryPresentValueAdded(valueFilter, q, paths[1..]);
      assert forall k :: 1 <= k < |paths| ==> paths[k] == paths[1..][k - 1];
    }
  }

  /** With the filter "ct", of three files valued CT, MR and CT exactly the two CT files are added, in order. */
  lemma FilterKeepsMatchingValues(q: Query, paths: seq<string>, status: DicomFileReading.PreambleStatus)
    requires |paths| == 3 && q.valueBox == "ct"
    requires ReadFile(q, paths[0]) == Some((Some("CT"), status))
    requires ReadFile(q, paths[1]) == Some((Some("MR"), status))
    requires ReadFile(q, paths[2]) == Some((Some("CT"), status))
    ensures FilesFound(false, true, q, paths) == ([FileContext(paths[0], "CT", status), FileContext(paths[2], "CT", status)], false)
  {
    assert Lower("CT") == "ct" && Lower("ct") == "ct" && Lower("MR") == "mr";
    assert OccursAt("ct", "ct", 0);
    assert !Contains("mr", "ct") by {
      forall i | 0 <= i <= 0
        ensures !OccursAt("mr", "ct", i)
      {
        assert "mr"[0..2][0] == 'm';
      }
    }
    assert Accepts(true, q.valueBox, "CT") && !Accepts(true, q.valueBox, "MR");
    var ct0, ct2 := FileContext(paths[0], "CT", status), FileContext(paths[2], "CT", status);
    assert paths[2..][0] == paths[2] && paths[2..][1..] == [];
    assert FilesFound(false, true, q, []) == ([], false);
    assert [ct2] + [] == [ct2];
    assert FilesFound(false, true, q, paths[2..]) == ([ct2], false);
    assert paths[1..][0] == paths[1] && paths[1..][1..] == paths[2..];
    assert [] + [ct2] == [ct2];
    assert FilesFound(false, true, q, paths[1..]) == ([ct2], false);
    assert [ct0] + [ct2] == [ct0, ct2];
  }

  /** An exception at the `k`-th file keeps only rows of the files before it. */
  lemma {:induction false} ExceptionAbandonsRest(oneFile: bool, valueFilter: bool, q: Query, paths: seq<string>, k: nat)
    requires k < |paths| && ReadFile(q, paths[k]).None?
    requires oneFile ==> k == 0
    requires forall j :: 0 <= j < k ==> ReadFile(q, paths[j]).Some?
    ensures FilesFound(oneFile, valueFilter, q, paths).1
    ensures forall e :: e in FilesFound(oneFile, valueFilter, q, paths).0 ==> e.path in paths[..k]
  {
    if k > 0 {
      ExceptionAbandonsRest(oneFile, valueFilter, q, paths[1..], k - 1);
      assert forall j :: 1 <= j < |paths| ==> paths[j] == paths[1..][j - 1];
      assert paths[..k] == [paths[0]] + paths[1..][..k - 1];
    }
  }

  /** When a file's read throws, the directory's subdirectories are not searched. */
  lemma ExceptionSkipsSubdirectories(oneFile: bool, valueFilter: bool, q: Query, d: Dir)
    requires !d.filesThrow && FilesFound(oneFile, valueFilter, q, d.files).1
    ensures Found(oneFile, valueFilter, q, d) == FilesFound(oneFile, valueFilter, q, d.files).0
  {
  }

  /** The directories of a tree, itself included, that the walk can enter. */
  function DirCount(d: Dir): nat
    decreases d, 1, 0
  {
    1 + DirCountIn(d, 0)
  }

  function DirCountIn(d: Dir, i: nat): nat
    requires i <= |d.subdirs|
    decreases d, 0, |d.subdirs| - i
  {
    if i == |d.subdirs| then 0
    else
      assert d.subdirs[i] in d.subdirs;
      DirCount(d.subdirs[i]) + DirCountIn(d, i + 1)
  }

  /** In one-file mode a search adds at most one row per directory. */
  lemma {:induction false} OneFilePerDirectory(valueFilter: bool, q: Query, d: Dir)
    ensures |Found(true, valueFilter, q, d)| <= DirCount(d)
    decreases d, 1, 0
  {
    if !d.filesThrow && !d.subdirsThrow {
      OneFilePerDirectoryIn(valueFilter, q, d, 0);
    }
  }

  lemma {:induction false} OneFilePerDirectoryIn(valueFilter: bool, q: Query, d: Dir, i: nat)
    requires i <= |d.subdirs|
    ensures |FoundIn(true, valueFilter, q, d, i)| <= DirCountIn(d, i)
    decreases d, 0, |d.subdirs| - i
  {
    if i < |d.subdirs| {
      assert d.subdirs[i] in d.subdirs;
      OneFilePerDirectory(valueFilter, q, d.subdirs[i]);
      OneFilePerDirectoryIn(valueFilter, q, d, i + 1);
    }
  }

  // ---------------------------------------------------------------------------
  // The search, as objects
  // ---------------------------------------------------------------------------

  /** The caller's `List<FileContext>`. */
  class FileList {
    var items: seq<FileContext>

    constructor ()
      ensures items == []
    {
      items := [];
    }

    method Add(e: FileContext)
      modifies this
      ensures items == old(items) + [e]
    {
      items := items + [e];
    }
  }

  class DicomDirectory {
    const oneFile: bool
    const valueFilter: bool

    constructor (oneFileCheckBox: bool, valueCheckBox: bool)
      ensures oneFile == oneFileCheckBox && valueFilter == valueCheckBox
    {
      oneFile := oneFileCheckBox;
      valueFilter := valueCheckBox;
    }

    /** The loop over a directory's files: appends their rows and reports whether a read threw. */
    method SearchFiles(files: FileList, paths: seq<string>, q: Query) returns (threw: bool)
      modifies files
      ensures files.items == old(files.items) + FilesFound(oneFile, valueFilter, q, paths).0
      ensures threw == FilesFound(oneFile, valueFilter, q, paths).1
    {
      var i := 0;
      while i < |paths|
        invariant 0 <= i <= |paths|
        invariant !oneFile || i == 0
        invariant files.items + FilesFound(oneFile, valueFilter, q, paths[i..]).0
                  == old(files.items) + FilesFound(oneFile, valueFilter, q, paths).0
        invariant FilesFound(oneFile, valueFilter, q, paths[i..]).1 == FilesFound(oneFile, valueFilter, q, paths).1
      {
        var readData := ReadFile(q, paths[i]);
        if readData.None? {
          return true;
        }
        var value := readData.value.0;
        if value.Some? {
          if valueFilter {
            if Contains(Lower(value.value), Lower(q.valueBox)) {
              files.Add(FileContext(paths[i], value.value, readData.value.1));
            }
          } else {
            files.Add(FileContext(paths[i], value.value, readData.value.1));
          }
        }
        if oneFile {
          return false;
        }
        assert paths[i..][1..] == paths[i + 1..];
        i := i + 1;
      }
      return false;
    }

    /** Search: appends the rows of `dir` to `files`, keeping what was there. */
    method Search(files: FileList, dir: Dir, q: Query)
      modifies files
      ensures files.items == old(files.items) + Found(oneFile, valueFilter, q, dir)
      decreases dir
    {
      if dir.filesThrow {
        return;
      }
      var threw := SearchFiles(files, dir.files, q);
      if threw || dir.subdirsThrow {
        return;
      }
      assert files.items + FoundIn(oneFile, valueFilter, q, dir, 0) == old(files.items) + Found(oneFile, valueFilter, q, dir);
      for j := 0 to |dir.subdirs|
        invariant files.items + FoundIn(oneFile, valueFilter, q, dir, j) == old(files.items) + Found(oneFile, valueFilter, q, dir)
      {
        ghost var before := files.items;
        assert dir.subdirs[j] in dir.subdirs;
        ghost var here := Found(oneFile, valueFilter, q, dir.subdirs[j]);
        ghost var rest := FoundIn(oneFile, valueFilter, q, dir, j + 1);
        assert FoundIn(oneFile, valueFilter, q, dir, j) == here + rest;
        Search(files, dir.subdirs[j], q);
        assert files.items + rest == before + (here + rest);
      }
      assert FoundIn(oneFile, valueFilter, q, dir, |dir.subdirs|) == [];
      assert files.items == files.items + [];
    }
  }
}
