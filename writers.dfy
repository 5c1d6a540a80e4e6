/**
 * The journal writer: where each transaction, chart and configuration file
 * goes, and the file system it writes to. Files are only ever created new
 * (an existing file is never overwritten) and then appended to. Month and
 * single shards keep their open journal in one of twelve slots; transaction
 * shards open a new file for every transaction.
 *
 * Each operation is a pure function on a file system value (the
 * specification) and a method on the `Disk` and `JournalWriter` objects
 * proved to do exactly that.
 */
module Writers {
  import opened Common
  import opened Time
  import opened Setup

  // ---------------------------------------------------------------------
  // The file system
  // ---------------------------------------------------------------------

  /** The contents of every file and the set of directories. */
  datatype Fs = Fs(files: map<Path, string>, dirs: set<Path>)

  predicate Exists(fs: Fs, p: Path) {
    p in fs.files || p in fs.dirs
  }

  /** Every file of `a` is still in `b` with the same content. */
  predicate SameFiles(a: Fs, b: Fs) {
    forall p :: p in a.files ==> p in b.files && b.files[p] == a.files[p]
  }

  /** Every non-empty leading part of `dir`: `dir` itself and its ancestors. */
  function Ancestors(dir: Path): set<Path> {
    set k | 1 <= k <= |dir| :: dir[..k]
  }

  /** `fs::create_dir_all`: creates `dir` and its missing ancestors; fails when one of them is a file. */
  function DirsMade(fs: Fs, dir: Path): Result<Fs> {
    if exists k :: 1 <= k <= |dir| && dir[..k] in fs.files then Err(IoFailure(dir))
    else Ok(Fs(fs.files, fs.dirs + Ancestors(dir)))
  }

  /** `File::create_new`: a new empty file; fails when anything exists at that path. */
  function FileCreated(fs: Fs, file: Path): Result<Fs> {
    if Exists(fs, file) then Err(PathConflict(file)) else Ok(fs.(files := fs.files[file := ""]))
  }

  /** Writing `text` at the end of an existing file. */
  function Appended(fs: Fs, file: Path, text: string): Fs
    requires file in fs.files
  {
    fs.(files := fs.files[file := fs.files[file] + text])
  }

  /** The file system after a step, and what the step returned. */
  datatype Step<T> = Step(fs: Fs, result: Result<T>)

  /**
   * `make_writer`: makes the directory, then creates the file new. It never
   * touches an existing file: when anything is at the path already it fails
   * and every file keeps its content; on success exactly one file, empty,
   * has been added, inside the directory now made.
   */
  function OpenNew(fs: Fs, dir: Path, file: Path): (s: Step<Path>)
    ensures SameFiles(fs, s.fs) && fs.dirs <= s.fs.dirs
    ensures Exists(fs, file) ==> s.result.Err? && s.fs.files == fs.files
    ensures s.result.Err? ==> s.fs.files == fs.files
    ensures s.result.Ok? ==>
      && s.result.value == file && file !in fs.files
      && s.fs.files == fs.files[file := ""]
      && Ancestors(dir) <= s.fs.dirs
  {
    match DirsMade(fs, dir)
    case Err(e) => Step(fs, Err(e))
    case Ok(made) =>
      match FileCreated(made, file)
      case Err(e) => Step(made, Err(e))
      case Ok(created) => Step(created, Ok(file))
  }

  /**
   * Writing a whole artifact (a chart or the configuration): a new file
   * holding exactly `text`; nothing else changes, and an artifact that
   * exists already is an error that leaves every file as it was.
   */
  function ArtifactWritten(fs: Fs, at: (Path, Path), text: string): (s: Step<Path>)
    ensures s.result.Ok? ==> at.1 !in fs.files && s.fs.files == fs.files[at.1 := text]
    ensures s.result.Err? ==> s.fs.files == fs.files
    ensures Exists(fs, at.1) ==> s.result.Err?
  {
    var made := OpenNew(fs, at.0, at.1);
    if made.result.Err? then made
    else
      assert "" + text == text;
      Step(Appended(made.fs, at.1, text), made.result)
  }

  // ---------------------------------------------------------------------
  // The writer: its setup and its twelve slots
  // ---------------------------------------------------------------------

  const SLOTS: nat := 12

  /** Open journals, cached per slot. */
  type Slots = seq<Option<Path>>

  function NoSlots(): (slots: Slots)
    ensures |slots| == SLOTS && forall i :: 0 <= i < SLOTS ==> slots[i].None?
  {
    seq(SLOTS, _ => None)
  }

  /** Twelve slots, and every cached journal is a file that exists. */
  predicate SlotsValid(slots: Slots, fs: Fs) {
    |slots| == SLOTS && forall i :: 0 <= i < |slots| && slots[i].Some? ==> slots[i].value in fs.files
  }

  /** `try_new`: the setup, and for sharded sets the set directory must not exist yet. */
  function Opened(flavor: JournalFlavor, path: Path, txnSet: SetSize, shard: ShardType, fs: Fs): (r: Result<JournalSetup>)
    ensures r.Ok? <==>
      && (flavor == Tackler || shard == Single)
      && (shard == Single || !Exists(fs, path + [TxnSetDir(JournalSetup(flavor, path, txnSet, shard))]))
    ensures r.Ok? ==> r.value == JournalSetup(flavor, path, txnSet, shard)
    ensures r.Err? && (flavor == Tackler || shard == Single) ==>
      r.error == PathConflict(path + [TxnSetDir(JournalSetup(flavor, path, txnSet, shard))])
  {
    var setup :- TryNewSetup(flavor, path, txnSet, shard);
    if shard != Single && Exists(fs, TxnSetPath(setup)) then Err(PathConflict(TxnSetPath(setup)))
    else Ok(setup)
  }

  /** The slot a journal is cached in: 0 for the single shard, the month less one for month shards. */
  function Slot(setup: JournalSetup, ts: Zoned): (i: nat)
    requires setup.shardType != Txn
    ensures i < SLOTS
  {
    if setup.shardType == Single then 0 else ts.month - 1
  }

  /** The slots, the file system, and the journal written to. */
  datatype Routed = Routed(slots: Slots, fs: Fs, result: Result<Path>)

  /**
   * `journal_writer` for a transaction at `ts` whose journal path
   * (`journal_path`) is `at`. A cached slot is reused as it is, creating
   * nothing; an empty slot, or any transaction shard, opens the journal path
   * new. Existing files keep their content, and the journal returned exists.
   */
  function Routing(setup: JournalSetup, slots: Slots, fs: Fs, ts: Zoned, at: (Path, Path)): (r: Routed)
    requires SlotsValid(slots, fs)
    ensures SlotsValid(r.slots, r.fs)
    ensures SameFiles(fs, r.fs)
    ensures r.result.Ok? ==> r.result.value in r.fs.files
    ensures setup.shardType != Txn && slots[Slot(setup, ts)].Some? ==>
      r == Routed(slots, fs, Ok(slots[Slot(setup, ts)].value))
    ensures (setup.shardType == Txn || slots[Slot(setup, ts)].None?) && r.result.Ok? ==>
      r.result.value == at.1 && at.1 !in fs.files && r.fs.files == fs.files[at.1 := ""]
  {
    var (dir, file) := at;
    if setup.shardType == Txn then
      var s := OpenNew(fs, dir, file);
      Routed(slots, s.fs, s.result)
    else
      var m := Slot(setup, ts);
      if slots[m].Some? then Routed(slots, fs, Ok(slots[m].value))
      else
        var s := OpenNew(fs, dir, file);
        Routed(if s.result.Ok? then slots[m := Some(file)] else slots, s.fs, s.result)
  }

  /**
   * `write_txn` for a transaction at `ts` whose journal path is `at`: routes
   * the transaction and appends its text to that journal; that is the only
   * content that changes.
   */
  function TxnWritten(setup: JournalSetup, slots: Slots, fs: Fs, ts: Zoned, at: (Path, Path), txn: string): (r: Routed)
    requires SlotsValid(slots, fs)
    ensures SlotsValid(r.slots, r.fs)
    ensures var routed := Routing(setup, slots, fs, ts, at);
      && r.result == routed.result && r.slots == routed.slots
      && (routed.result.Ok? ==>
            r.fs.files == routed.fs.files[routed.result.value := routed.fs.files[routed.result.value] + txn])
    ensures r.result.Err? ==> SameFiles(fs, r.fs)
  {
    var routed := Routing(setup, slots, fs, ts, at);
    if routed.result.Err? then routed
    else Routed(routed.slots, Appended(routed.fs, routed.result.value, txn), routed.result)
  }

  // ---------------------------------------------------------------------
  // What the writer promises
  // ---------------------------------------------------------------------

  /**
   * Single shard: once the journal is opened, every later transaction goes
   * to it whatever its time and index, and no file is created. The journal
   * opened is the set's one journal path.
   */
  lemma {:induction false} SingleReusesJournal(
    setup: JournalSetup, slots: Slots, fs: Fs, ts: Zoned, idx: U32, ts2: Zoned, idx2: U32)
    requires setup.shardType == Single && SlotsValid(slots, fs) && slots[0].None?
    requires Routing(setup, slots, fs, ts, JournalPath(setup, ts, idx)).result.Ok?
    ensures var first := Routing(setup, slots, fs, ts, JournalPath(setup, ts, idx));
      && first.result.value == JournalPath(setup, ts2, idx2).1
      && Routing(setup, first.slots, first.fs, ts2, JournalPath(setup, ts2, idx2)) == first
  {
    var first := Routing(setup, slots, fs, ts, JournalPath(setup, ts, idx));
    SingleJournalPath(setup, ts, idx);
    SingleJournalPath(setup, ts2, idx2);
    assert first.slots[0] == Some(first.result.value);
  }

  /**
   * Month shard: the slot is the month alone. After a journal is open for a
   * month, a transaction of the same month in another year goes to that
   * same journal although its own journal path is a different file.
   */
  lemma {:induction false} MonthReusesAcrossYears(
    setup: JournalSetup, slots: Slots, fs: Fs, a: Zoned, i: U32, b: Zoned, j: U32)
    requires setup.shardType == Month && SlotsValid(slots, fs)
    requires slots[a.month - 1].None? && a.month == b.month
    requires Routing(setup, slots, fs, a, JournalPath(setup, a, i)).result.Ok?
    ensures var first := Routing(setup, slots, fs, a, JournalPath(setup, a, i));
      && first.result.value == JournalPath(setup, a, i).1
      && Routing(setup, first.slots, first.fs, b, JournalPath(setup, b, j)) == first
      && (a.year != b.year ==> first.result.value != JournalPath(setup, b, j).1)
  {
    var first := Routing(setup, slots, fs, a, JournalPath(setup, a, i));
    assert first.slots[a.month - 1] == Some(first.result.value);
    MonthJournalPath(setup, a, i, b, j);
  }

  /** Month shard: different months use different slots, so different journals. */
  lemma MonthSlotsApart(setup: JournalSetup, a: Zoned, b: Zoned)
    requires setup.shardType == Month
    ensures Slot(setup, a) == Slot(setup, b) <==> a.month == b.month
  {
  }

  /**
   * Transaction shard: nothing is cached, so writing the same time and
   * index a second time finds its journal existing and fails.
   */
  lemma {:induction false} TxnRepeatFails(
    setup: JournalSetup, slots: Slots, fs: Fs, ts: Zoned, idx: U32, t1: string, t2: string)
    requires setup.shardType == Txn && SlotsValid(slots, fs)
    requires TxnWritten(setup, slots, fs, ts, JournalPath(setup, ts, idx), t1).result.Ok?
    ensures var first := TxnWritten(setup, slots, fs, ts, JournalPath(setup, ts, idx), t1);
      && first.slots == slots
      && TxnWritten(setup, first.slots, first.fs, ts, JournalPath(setup, ts, idx), t2).result.Err?
      && TxnWritten(setup, first.slots, first.fs, ts, JournalPath(setup, ts, idx), t2).fs.files == first.fs.files
  {
    var first := TxnWritten(setup, slots, fs, ts, JournalPath(setup, ts, idx), t1);
    assert JournalPath(setup, ts, idx).1 in first.fs.files;
  }

  /**
   * `write_txn` changes one file: the journal it returns ends with the
   * transaction after its earlier content (none when just opened), and
   * every other file keeps its content.
   */
  lemma TxnWriteTouchesOneFile(
    setup: JournalSetup, slots: Slots, fs: Fs, ts: Zoned, at: (Path, Path), txn: string)
    requires SlotsValid(slots, fs)
    ensures var r := TxnWritten(setup, slots, fs, ts, at, txn);
      && (forall p :: p in fs.files && (r.result.Err? || p != r.result.value) ==>
            p in r.fs.files && r.fs.files[p] == fs.files[p])
      && (r.result.Ok? ==>
            r.fs.files[r.result.value]
              == (if r.result.value in fs.files then fs.files[r.result.value] else "") + txn)
  {
    var r := TxnWritten(setup, slots, fs, ts, at, txn);
    var routed := Routing(setup, slots, fs, ts, at);
    if r.result.Ok? {
      var j := r.result.value;
      if j !in fs.files {
        assert routed.fs.files[j] == "";
      }
    }
  }

  /** A slot changes only to cache the journal just opened. */
  lemma RoutingCachesOnlyResult(setup: JournalSetup, slots: Slots, fs: Fs, ts: Zoned, at: (Path, Path))
    requires SlotsValid(slots, fs)
    ensures var r := Routing(setup, slots, fs, ts, at);
      forall i :: 0 <= i < |r.slots| && r.slots[i] != slots[i] ==> r.slots[i].Some? && r.result == Ok(r.slots[i].value)
  {
    var r := Routing(setup, slots, fs, ts, at);
    if setup.shardType != Txn {
      var m := Slot(setup, ts);
      assert forall i :: 0 <= i < |r.slots| && i != m ==> r.slots[i] == slots[i];
    }
  }

  /** An artifact can be written once: a second write of it fails and changes no file. */
  lemma ArtifactOnce(fs: Fs, at: (Path, Path), t1: string, t2: string)
    requires ArtifactWritten(fs, at, t1).result.Ok?
    ensures var first := ArtifactWritten(fs, at, t1);
      && first.fs.files[at.1] == t1
      && ArtifactWritten(first.fs, at, t2).result.Err?
      && ArtifactWritten(first.fs, at, t2).fs.files == first.fs.files
  {
  }

  // ---------------------------------------------------------------------
  // The objects
  // ---------------------------------------------------------------------

  /** The file system the program writes to. */
  class Disk {
    var fs: Fs

    constructor (initial: Fs)
      ensures fs == initial
    {
      fs := initial;
    }

    method MakeDirs(dir: Path) returns (r: Result<()>)
      modifies this
      ensures DirsMade(old(fs), dir).Ok? ==> r == Ok(()) && fs == DirsMade(old(fs), dir).value
      ensures DirsMade(old(fs), dir).Err? ==> r == Err(DirsMade(old(fs), dir).error) && fs == old(fs)
    {
      if exists k :: 1 <= k <= |dir| && dir[..k] in fs.files {
        r := Err(IoFailure(dir));
      } else {
        fs := Fs(fs.files, fs.dirs + Ancestors(dir));
        r := Ok(());
      }
    }

    method CreateNew(file: Path) returns (r: Result<()>)
      modifies this
      ensures FileCreated(old(fs), file).Ok? ==> r == Ok(()) && fs == FileCreated(old(fs), file).value
      ensures FileCreated(old(fs), file).Err? ==> r == Err(FileCreated(old(fs), file).error) && fs == old(fs)
    {
      if file in fs.files || file in fs.dirs {
        r := Err(PathConflict(file));
      } else {
        fs := fs.(files := fs.files[file := ""]);
        r := Ok(());
      }
    }

    method Append(file: Path, text: string)
      requires file in fs.files
      modifies this
      ensures fs == Appended(old(fs), file, text)
    {
      fs := fs.(files := fs.files[file := fs.files[file] + text]);
    }
  }

  /** `JournalWriter`: the setup and the twelve slots of open journals. */
  class JournalWriter {
    const setup: JournalSetup
    var slots: Slots

    constructor (setup: JournalSetup)
      ensures this.setup == setup && slots == NoSlots()
    {
      this.setup := setup;
      slots := NoSlots();
    }

    /** `try_new`: creates nothing on the disk. */
    static method TryNew(flavor: JournalFlavor, path: Path, txnSet: SetSize, shard: ShardType, disk: Disk)
      returns (r: Result<JournalWriter>)
      ensures Opened(flavor, path, txnSet, shard, disk.fs).Err? ==>
        r == Err(Opened(flavor, path, txnSet, shard, disk.fs).error)
      ensures Opened(flavor, path, txnSet, shard, disk.fs).Ok? ==>
        && r.Ok? && fresh(r.value)
        && r.value.setup == Opened(flavor, path, txnSet, shard, disk.fs).value
        && r.value.slots == NoSlots()
    {
      var setup := TryNewSetup(flavor, path, txnSet, shard);
      if setup.Err? {
        return Err(setup.error);
      }
      var w := new JournalWriter(setup.value);
      var setPath := TxnSetPath(w.setup);
      if shard != Single && (setPath in disk.fs.files || setPath in disk.fs.dirs) {
        return Err(PathConflict(setPath));
      }
      r := Ok(w);
    }

    /** `make_writer`. */
    static method MakeWriter(disk: Disk, dir: Path, file: Path) returns (r: Result<Path>)
      modifies disk
      ensures Step(disk.fs, r) == OpenNew(old(disk.fs), dir, file)
    {
      var made := disk.MakeDirs(dir);
      if made.Err? {
        return Err(made.error);
      }
      var created := disk.CreateNew(file);
      if created.Err? {
        return Err(created.error);
      }
      r := Ok(file);
    }

    /** `journal_writer`. */
    method JournalWriterFor(disk: Disk, ts: Zoned, idx: U32) returns (r: Result<Path>)
      requires SlotsValid(slots, disk.fs)
      modifies this, disk
      ensures Routed(slots, disk.fs, r) == Routing(setup, old(slots), old(disk.fs), ts, JournalPath(setup, ts, idx))
    {
      var (dir, file) := JournalPath(setup, ts, idx);
      if setup.shardType == Txn {
        r := MakeWriter(disk, dir, file);
      } else {
        var m := Slot(setup, ts);
        if slots[m].Some? {
          r := Ok(slots[m].value);
        } else {
          r := MakeWriter(disk, dir, file);
          if r.Ok? {
            slots := slots[m := Some(file)];
          }
        }
      }
    }

    /** `write_txn`. */
    method WriteTxn(disk: Disk, ts: Zoned, idx: U32, txn: string) returns (r: Result<Path>)
      requires SlotsValid(slots, disk.fs)
      modifies this, disk
      ensures Routed(slots, disk.fs, r) == TxnWritten(setup, old(slots), old(disk.fs), ts, JournalPath(setup, ts, idx), txn)
      ensures SlotsValid(slots, disk.fs)
    {
      r := JournalWriterFor(disk, ts, idx);
      if r.Ok? {
        disk.Append(r.value, txn);
      }
    }

    /** Writes one artifact new: a chart or the configuration. */
    static method WriteArtifact(disk: Disk, at: (Path, Path), text: string) returns (r: Result<Path>)
      modifies disk
      ensures Step(disk.fs, r) == ArtifactWritten(old(disk.fs), at, text)
    {
      r := MakeWriter(disk, at.0, at.1);
      if r.Ok? {
        disk.Append(at.1, text);
      }
    }

    /** `write_chart_of_accounts`. */
    method WriteChartOfAccounts(disk: Disk, chart: string) returns (r: Result<Path>)
      modifies disk
      ensures Step(disk.fs, r) == ArtifactWritten(old(disk.fs), ChartOfAccountsPath(setup), chart)
    {
      r := WriteArtifact(disk, ChartOfAccountsPath(setup), chart);
    }

    /** `write_chart_of_commodities`. */
    method WriteChartOfCommodities(disk: Disk, chart: string) returns (r: Result<Path>)
      modifies disk
      ensures Step(disk.fs, r) == ArtifactWritten(old(disk.fs), ChartOfCommoditiesPath(setup), chart)
    {
      r := WriteArtifact(disk, ChartOfCommoditiesPath(setup), chart);
    }

    /** `write_config`. */
    method WriteConfig(disk: Disk, config: string) returns (r: Result<Path>)
      modifies disk
      ensures Step(disk.fs, r) == ArtifactWritten(old(disk.fs), ConfigPath(setup), config)
    {
      r := WriteArtifact(disk, ConfigPath(setup), config);
    }
  }
}
