/**
 * Drumkit::install, the libarchive branch: every entry of the archive is
 * re-rooted under the user drumkit directory and extracted, a warning lets
 * the loop go on, any other failure ends it, and the handle is always
 * closed and released.
 */
module Install {

  /** What libarchive reports: ARCHIVE_OK, ARCHIVE_WARN, or any other failure code. */
  datatype Status = Ok | Warn | Failed

  /** One archive entry: its stored pathname, what reading its header reports, and what extracting it reports. */
  datatype Entry = Entry(pathname: string, header: Status, extract: Status)

  /** archive_read_next_header: the end of the archive, or a header with its status. */
  datatype HeaderRead = Eof | Header(status: Status, pathname: string)

  /**
   * The pathnames handed to archive_read_extract, in order, when every entry
   * is re-rooted under `dkDir`: an entry is extracted when its header reads
   * OK, and the loop goes on after it unless extracting it failed.
   */
  function Extractions(dkDir: string, entries: seq<Entry>): (r: seq<string>)
    ensures |r| <= |entries|
  {
    if entries == [] || entries[0].header != Ok then []
    else if entries[0].extract == Failed then [dkDir + entries[0].pathname]
    else [dkDir + entries[0].pathname] + Extractions(dkDir, entries[1..])
  }

  /** How many entries the loop extracts. */
  function Reached(entries: seq<Entry>): (k: nat)
    ensures k <= |entries|
  {
    if entries == [] || entries[0].header != Ok then 0
    else if entries[0].extract == Failed then 1
    else 1 + Reached(entries[1..])
  }

  /**
   * The loop extracts a prefix of the archive, entry `j` under the name
   * dkDir + its stored pathname. Every entry it reaches had an OK header; it
   * went past each one whose extraction was OK or WARN; and when it stops
   * before the end, the last entry extracted failed or the next header did
   * not read OK.
   */
  lemma {:induction false} ExtractionsPrefix(dkDir: string, entries: seq<Entry>)
    ensures var k := Reached(entries);
            var r := Extractions(dkDir, entries);
            && |r| == k
            && (forall j :: 0 <= j < k ==> r[j] == dkDir + entries[j].pathname && entries[j].header == Ok)
            && (forall j :: 0 <= j < k - 1 ==> entries[j].extract != Failed)
            && (k < |entries| ==> (0 < k && entries[k - 1].extract == Failed) || entries[k].header != Ok)
  {
    if entries != [] && entries[0].header == Ok && entries[0].extract != Failed {
      ExtractionsPrefix(dkDir, entries[1..]);
      var k := Reached(entries[1..]);
      var r := Extractions(dkDir, entries[1..]);
      assert forall j :: 0 < j <= k ==> entries[j] == entries[1..][j - 1];
      assert Extractions(dkDir, entries) == [dkDir + entries[0].pathname] + r;
    }
  }

  /** Every pathname extracted starts with dkDir; nothing more is promised (no `..` is removed). */
  lemma {:induction false} ExtractionsPrefixed(dkDir: string, entries: seq<Entry>)
    ensures forall p :: p in Extractions(dkDir, entries) ==> dkDir <= p
  {
    if entries != [] && entries[0].header == Ok && entries[0].extract != Failed {
      ExtractionsPrefixed(dkDir, entries[1..]);
      assert dkDir <= dkDir + entries[0].pathname;
    }
  }

  /** An archive without failures is extracted entry by entry, to the end. */
  lemma {:induction false} ExtractionsComplete(dkDir: string, entries: seq<Entry>)
    requires forall j :: 0 <= j < |entries| ==> entries[j].header == Ok && entries[j].extract != Failed
    ensures Reached(entries) == |entries|
    ensures Extractions(dkDir, entries) == seq(|entries|, j requires 0 <= j < |entries| => dkDir + entries[j].pathname)
  {
    if entries != [] {
      assert forall j :: 0 <= j < |entries| - 1 ==> entries[1..][j] == entries[j + 1];
      ExtractionsComplete(dkDir, entries[1..]);
    }
  }

  /** The prefixing is plain concatenation: an entry named "../x" is extracted as dkDir + "../x". */
  lemma DotDotIsKept(usrDrumkitsDir: string)
    ensures Extractions(usrDrumkitsDir + "/", [Entry("../x", Ok, Ok)]) == [usrDrumkitsDir + "/../x"]
  {
    assert usrDrumkitsDir + "/" + "../x" == usrDrumkitsDir + "/../x";
  }

  /**
   * A libarchive read handle over an archive: whether opening it succeeds,
   * its entries, how far reading has gone, whether it has been closed and
   * released, and the pathnames it has extracted so far.
   */
  class ArchiveReader {
    const openOk: bool
    const entries: seq<Entry>
    var pos: nat
    var closed: bool
    var finished: bool
    var extracted: seq<string>

    /** archive_read_new, before the archive is opened. */
    constructor (openOk: bool, entries: seq<Entry>)
      ensures this.openOk == openOk && this.entries == entries
      ensures pos == 0 && !closed && !finished && extracted == []
    {
      this.openOk, this.entries := openOk, entries;
      pos, closed, finished, extracted := 0, false, false, [];
    }

    /** archive_read_open_file: reports whether the archive could be opened. */
    method Open() returns (ok: bool)
      ensures ok == openOk
    {
      ok := openOk;
    }

    /** archive_read_next_header: the next entry's header, or the end. */
    method NextHeader() returns (h: HeaderRead)
      requires pos <= |entries|
      modifies this`pos
      ensures old(pos) == |entries| ==> h == Eof && pos == old(pos)
      ensures old(pos) < |entries| ==> pos == old(pos) + 1
      ensures old(pos) < |entries| ==> h == Header(entries[old(pos)].header, entries[old(pos)].pathname)
    {
      if pos == |entries| {
        h := Eof;
      } else {
        h := Header(entries[pos].header, entries[pos].pathname);
        pos := pos + 1;
      }
    }

    /** archive_read_extract of the current entry, under the pathname set on it. */
    method Extract(pathname: string) returns (r: Status)
      requires 0 < pos <= |entries|
      modifies this`extracted
      ensures r == entries[pos - 1].extract
      ensures extracted == old(extracted) + [pathname]
    {
      r := entries[pos - 1].extract;
      extracted := extracted + [pathname];
    }

    /** archive_read_close. */
    method Close()
      modifies this`closed
      ensures closed
    {
      closed := true;
    }

    /** archive_read_finish. */
    method Finish()
      modifies this`finished
      ensures finished
    {
      finished := true;
    }
  }

  /**
   * Drumkit::install over `reader`: false when the archive does not open;
   * otherwise the extractions of Extractions(usrDrumkitsDir + "/", ...) and
   * true, however the loop ended. The handle is closed and released on both paths.
   */
  method InstallArchive(usrDrumkitsDir: string, reader: ArchiveReader) returns (ok: bool)
    requires reader.pos == 0 && reader.extracted == []
    modifies reader
    ensures ok == reader.openOk
    ensures reader.closed && reader.finished
    ensures reader.extracted == if ok then Extractions(usrDrumkitsDir + "/", reader.entries) else []
  {
    var isOpen := reader.Open();
    if !isOpen {
      reader.Close();
      reader.Finish();
      return false;
    }
    var dkDir := usrDrumkitsDir + "/";
    while true
      invariant reader.pos <= |reader.entries|
      invariant Extractions(dkDir, reader.entries)
             == reader.extracted + Extractions(dkDir, reader.entries[reader.pos..])
      decreases |reader.entries| - reader.pos
    {
      var h := reader.NextHeader();
      if h == Eof {
        break;
      }
      ghost var e := reader.entries[reader.pos - 1];
      assert reader.entries[reader.pos - 1..] == [e] + reader.entries[reader.pos..];
      if h.status != Ok {
        break;
      }
      var r := reader.Extract(dkDir + h.pathname);
      if r == Warn {
        // only logged: go on with the next entry
      } else if r != Ok {
        break;
      }
    }
    reader.Close();
    reader.Finish();
    return true;
  }
}
