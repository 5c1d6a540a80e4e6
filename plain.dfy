/**
 * The `plain` command: a set of plain transactions under `<data>/plain` in
 * the Tackler or the Ledger flavour, and for Tackler a configuration
 * (neither strict nor audited). Beancount is refused once the writer is set
 * up, before anything is written.
 */
module Plain {
  import opened Common
  import opened Time
  import opened Setup
  import opened Generators
  import opened Writers
  import opened Runs
  import Tackler
  import Ledger

  /** `plain_txn` of the flavour: only a text, referring to nothing. */
  function Generate(flavor: JournalFlavor, txnSet: SetSize): Generator
    requires flavor != Beancount
  {
    match flavor
    case Tackler => (ts: Zoned, idx: U32) => Ok(Rendered(Tackler.PlainTxn(txnSet, ts, idx), TxnAccComm([], [])))
    case Ledger => (ts: Zoned, idx: U32) => Ok(Rendered(Ledger.PlainTxn(txnSet, ts, idx), TxnAccComm([], [])))
  }

  /** Tackler gets its configuration, Ledger nothing more. */
  function Finals(setup: JournalSetup): seq<Artifact> {
    if setup.flavor == Tackler then [Artifact(ConfigPath(setup), Ok(Tackler.Config(false, false, setup)))] else []
  }

  const BEANCOUNT_PLAIN := NotSupported("plain mode for beancount")

  /** Where the set goes: `<data>/plain`. */
  function Root(args: Args): Path {
    args.dataPath + ["plain"]
  }

  /** The run over `fs`: every step in order, the first error ending it. */
  function Run(cal: Calendar, flavor: Option<string>, args: Args, fs: Fs): Step<()> {
    match FlavorOption(flavor)
    case Err(e) => Step(fs, Err(e))
    case Ok(f) =>
      match ParseSetSize(args.setSize)
      case Err(e) => Step(fs, Err(e))
      case Ok(txnSet) =>
        match ParseShardType(args.shardType)
        case Err(e) => Step(fs, Err(e))
        case Ok(shard) =>
          match Opened(f, Root(args), txnSet, shard, fs)
          case Err(e) => Step(fs, Err(e))
          case Ok(setup) =>
            if f == Beancount then Step(fs, Err(BEANCOUNT_PLAIN))
            else
              var p := Loop(Generate(f, txnSet), cal, setup, JournalRoute(setup), args.start,
                            StepSeconds(args.spanSecs, txnSet), Size(txnSet), Fresh(fs));
              Finish(p, Finals(setup))
  }

  /** The options a run that got past `try_new` with Tackler or Ledger was given. */
  predicate Accepted(flavor: Option<string>, args: Args) {
    && FlavorOption(flavor).Ok? && FlavorOption(flavor).value != Beancount
    && ParseSetSize(args.setSize).Ok? && ParseShardType(args.shardType).Ok?
  }

  function SetupOf(flavor: Option<string>, args: Args): JournalSetup
    requires Accepted(flavor, args)
  {
    JournalSetup(FlavorOption(flavor).value, Root(args), ParseSetSize(args.setSize).value, ParseShardType(args.shardType).value)
  }

  function GenerateOf(flavor: Option<string>, args: Args): Generator
    requires Accepted(flavor, args)
  {
    Generate(FlavorOption(flavor).value, ParseSetSize(args.setSize).value)
  }

  /** The writer's state after the transactions of a run that got past `try_new`. */
  function Written(cal: Calendar, flavor: Option<string>, args: Args, fs: Fs): Progress
    requires Accepted(flavor, args)
  {
    var txnSet := ParseSetSize(args.setSize).value;
    Loop(GenerateOf(flavor, args), cal, SetupOf(flavor, args), JournalRoute(SetupOf(flavor, args)), args.start,
         StepSeconds(args.spanSecs, txnSet), Size(txnSet), Fresh(fs))
  }

  /** A successful run got through every step, and so did not ask for Beancount. */
  lemma RunSucceeded(cal: Calendar, flavor: Option<string>, args: Args, fs: Fs)
    requires Run(cal, flavor, args, fs).result.Ok?
    ensures Accepted(flavor, args)
    ensures Opened(FlavorOption(flavor).value, Root(args), ParseSetSize(args.setSize).value, ParseShardType(args.shardType).value, fs).Ok?
    ensures Written(cal, flavor, args, fs).failure.None?
    ensures Run(cal, flavor, args, fs) == Emit(Written(cal, flavor, args, fs).fs, Finals(SetupOf(flavor, args)))
  {
  }

  /** Beancount is refused after `try_new` and before any write: no file changes. */
  lemma RunRefusesBeancount(cal: Calendar, flavor: Option<string>, args: Args, fs: Fs)
    requires FlavorOption(flavor) == Ok(Beancount)
    ensures Run(cal, flavor, args, fs).result.Err? && Run(cal, flavor, args, fs).fs == fs
  {
  }

  /** Whatever its outcome, a run leaves every file that was there before it as it was. */
  lemma RunLeavesFilesAlone(cal: Calendar, flavor: Option<string>, args: Args, fs: Fs)
    ensures SameFiles(fs, Run(cal, flavor, args, fs).fs)
  {
    if Accepted(flavor, args) {
      var txnSet, setup := ParseSetSize(args.setSize).value, SetupOf(flavor, args);
      if Opened(setup.flavor, Root(args), txnSet, setup.shardType, fs).Ok? {
        FreshLeavesAlone(fs);
        LoopLeavesAlone(GenerateOf(flavor, args), cal, setup, JournalRoute(setup), args.start,
                        StepSeconds(args.spanSecs, txnSet), Size(txnSet), Fresh(fs), fs);
        FinishLeavesAlone(Written(cal, flavor, args, fs), Finals(setup), fs);
      }
    }
  }

  /**
   * A successful Tackler run leaves its configuration (neither strict nor
   * audited), new; a successful Ledger run writes nothing but its journal.
   */
  lemma RunWritesFinals(cal: Calendar, flavor: Option<string>, args: Args, fs: Fs)
    requires Run(cal, flavor, args, fs).result.Ok?
    ensures Accepted(flavor, args)
    ensures var setup, out := SetupOf(flavor, args), Run(cal, flavor, args, fs).fs;
      && (setup.flavor == Tackler ==>
            ConfigPath(setup).1 !in fs.files && ConfigPath(setup).1 in out.files
            && out.files[ConfigPath(setup).1] == Tackler.Config(false, false, setup))
      && (setup.flavor == Ledger ==> out == Written(cal, flavor, args, fs).fs)
  {
    RunSucceeded(cal, flavor, args, fs);
    var txnSet, setup := ParseSetSize(args.setSize).value, SetupOf(flavor, args);
    FreshLeavesAlone(fs);
    LoopLeavesAlone(GenerateOf(flavor, args), cal, setup, JournalRoute(setup), args.start,
                    StepSeconds(args.spanSecs, txnSet), Size(txnSet), Fresh(fs), fs);
    FinishedArtifacts(Written(cal, flavor, args, fs), Finals(setup), fs);
  }

  /**
   * Single shard: a successful run leaves one journal, new, at the first
   * transaction's journal path, holding every transaction in index order.
   */
  lemma RunSingleJournal(cal: Calendar, flavor: Option<string>, args: Args, fs: Fs)
    requires Run(cal, flavor, args, fs).result.Ok? && ParseShardType(args.shardType) == Ok(Single)
    ensures Accepted(flavor, args)
    ensures var txnSet, out := ParseSetSize(args.setSize).value, Run(cal, flavor, args, fs).fs.files;
      var journal := JournalPath(SetupOf(flavor, args), args.start, 1).1;
      && journal !in fs.files && journal in out
      && out[journal] == TextsUpTo(GenerateOf(flavor, args), cal, args.start, StepSeconds(args.spanSecs, txnSet), Size(txnSet))
  {
    RunSucceeded(cal, flavor, args, fs);
    var txnSet, setup, gen := ParseSetSize(args.setSize).value, SetupOf(flavor, args), GenerateOf(flavor, args);
    var step := StepSeconds(args.spanSecs, txnSet);
    FreshLeavesAlone(fs);
    FinishedSingleJournal(gen, cal, setup, JournalRoute(setup), args.start, step, Size(txnSet), Fresh(fs),
                          JournalPath(setup, args.start, 1).1, "", fs, Finals(setup));
    assert "" + TextsUpTo(gen, cal, args.start, step, Size(txnSet)) == TextsUpTo(gen, cal, args.start, step, Size(txnSet));
  }

  /**
   * Transaction shard (Tackler only): a successful run leaves every
   * transaction alone in a new file of its own, at its journal path.
   */
  lemma RunOneFileEach(cal: Calendar, flavor: Option<string>, args: Args, fs: Fs)
    requires Run(cal, flavor, args, fs).result.Ok? && ParseShardType(args.shardType) == Ok(Txn)
    ensures Accepted(flavor, args) && FlavorOption(flavor) == Ok(Tackler)
    ensures var txnSet, out := ParseSetSize(args.setSize).value, Run(cal, flavor, args, fs).fs.files;
      forall i: nat :: 1 <= i <= Size(txnSet) ==>
        HoldsTxn(GenerateOf(flavor, args), cal, JournalRoute(SetupOf(flavor, args)), args.start,
                 StepSeconds(args.spanSecs, txnSet), i, fs.files, out)
  {
    RunSucceeded(cal, flavor, args, fs);
    var txnSet, setup := ParseSetSize(args.setSize).value, SetupOf(flavor, args);
    FinishedOneFileEach(GenerateOf(flavor, args), cal, setup, JournalRoute(setup), args.start,
                        StepSeconds(args.spanSecs, txnSet), Size(txnSet), Fresh(fs), Finals(setup));
  }

  /**
   * Month shard (Tackler only): a successful run leaves, for every month
   * some transaction fell in, one new journal at the journal path of that
   * month's first transaction, in whatever year, holding every transaction
   * of the month in index order; different months have different journals.
   */
  lemma RunMonthJournals(cal: Calendar, flavor: Option<string>, args: Args, fs: Fs)
    requires Run(cal, flavor, args, fs).result.Ok? && ParseShardType(args.shardType) == Ok(Month)
    ensures Accepted(flavor, args) && FlavorOption(flavor) == Ok(Tackler)
    ensures var txnSet, out := ParseSetSize(args.setSize).value, Run(cal, flavor, args, fs).fs.files;
      var gen, route, step := GenerateOf(flavor, args), JournalRoute(SetupOf(flavor, args)), StepSeconds(args.spanSecs, txnSet);
      && (forall m :: 1 <= m <= SLOTS && FirstInMonth(cal, args.start, step, m, Size(txnSet)).Some? ==>
            MonthJournalLeft(gen, cal, route, args.start, step, m, Size(txnSet), fs.files, out))
      && (forall m1, m2 ::
            1 <= m1 < m2 <= SLOTS && FirstInMonth(cal, args.start, step, m1, Size(txnSet)).Some?
            && FirstInMonth(cal, args.start, step, m2, Size(txnSet)).Some?
            ==> MonthJournal(cal, route, args.start, step, m1, Size(txnSet)) != MonthJournal(cal, route, args.start, step, m2, Size(txnSet)))
  {
    RunSucceeded(cal, flavor, args, fs);
    var txnSet, setup := ParseSetSize(args.setSize).value, SetupOf(flavor, args);
    FreshLeavesAlone(fs);
    FinishedMonthJournals(GenerateOf(flavor, args), cal, setup, JournalRoute(setup), args.start,
                          StepSeconds(args.spanSecs, txnSet), Size(txnSet), Fresh(fs), fs, Finals(setup));
  }

  /** `exec`: writes the set through a new writer onto `disk`. */
  method Exec(cal: Calendar, flavor: Option<string>, args: Args, disk: Disk) returns (r: Result<()>)
    modifies disk
    ensures Step(disk.fs, r) == Run(cal, flavor, args, old(disk.fs))
  {
    var f :- FlavorOption(flavor);
    var txnSet :- ParseSetSize(args.setSize);
    var shard :- ParseShardType(args.shardType);
    var writer :- JournalWriter.TryNew(f, Root(args), txnSet, shard, disk);
    if f == Beancount {
      return Err(BEANCOUNT_PLAIN);
    }
    r := WriteSet(cal, f, txnSet, args.start, args.spanSecs, writer, disk);
  }

  /** The transactions from a fresh writer, then the configuration for Tackler. */
  method WriteSet(cal: Calendar, flavor: JournalFlavor, txnSet: SetSize, start: Zoned, spanSecs: U32, writer: JournalWriter, disk: Disk)
    returns (r: Result<()>)
    requires flavor != Beancount && writer.setup.flavor == flavor && writer.slots == NoSlots()
    modifies writer, disk
    ensures Step(disk.fs, r)
         == Finish(Loop(Generate(flavor, txnSet), cal, writer.setup, JournalRoute(writer.setup), start,
                        StepSeconds(spanSecs, txnSet), Size(txnSet), Fresh(old(disk.fs))),
                   Finals(writer.setup))
  {
    var failure, accounts, commodities := Transactions(Generate(flavor, txnSet), cal, writer, disk, start,
                                                       StepSeconds(spanSecs, txnSet), Size(txnSet));
    if failure.Some? {
      return Err(failure.value);
    }
    r := WriteFinals(writer, disk);
  }

  /** The closing artifacts: the configuration for tackler, nothing otherwise. */
  method WriteFinals(writer: JournalWriter, disk: Disk) returns (r: Result<()>)
    modifies disk
    ensures Step(disk.fs, r) == Emit(old(disk.fs), Finals(writer.setup))
  {
    if writer.setup.flavor == Tackler {
      EmitFirst(disk.fs, Finals(writer.setup));
      assert Finals(writer.setup)[1..] == [];
      var wrote := writer.WriteConfig(disk, Tackler.Config(false, false, writer.setup));
      if wrote.Err? {
        return Err(wrote.error);
      }
    }
    r := Ok(());
  }
}
