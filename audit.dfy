/**
 * The `audit` command: a Tackler set under `<data>/audit` whose
 * transactions carry a UUID, then its chart of accounts, its chart of
 * commodities and a strict configuration with auditing on.
 */
module Audit {
  import opened Common
  import opened Text
  import opened Time
  import opened Setup
  import opened OrderedSets
  import opened Generators
  import opened Writers
  import opened Runs
  import Tackler

  /** `Tackler::audit_txn` of the set. */
  function Generate(v5: string -> string, cal: Calendar, txnSet: SetSize): Generator {
    (ts: Zoned, idx: U32) => Ok(Tackler.AuditTxn(v5, cal, txnSet, ts, idx))
  }

  /** The charts of the gathered sets, then the configuration (strict, audit on). */
  function Finals(setup: JournalSetup, accounts: seq<string>, commodities: seq<string>): seq<Artifact> {
    [Artifact(ChartOfAccountsPath(setup), Ok(JoinLines(Tackler.AccountsChartLines(accounts)))),
     Artifact(ChartOfCommoditiesPath(setup), Ok(JoinLines(Tackler.CommoditiesChartLines(commodities)))),
     Artifact(ConfigPath(setup), Ok(Tackler.Config(true, true, setup)))]
  }

  /** Where the set goes: `<data>/audit`. */
  function Root(args: Args): Path {
    args.dataPath + ["audit"]
  }

  /** The run over `fs`: every step in order, the first error ending it. */
  function Run(v5: string -> string, cal: Calendar, args: Args, fs: Fs): Step<()> {
    match ParseSetSize(args.setSize)
    case Err(e) => Step(fs, Err(e))
    case Ok(txnSet) =>
      match ParseShardType(args.shardType)
      case Err(e) => Step(fs, Err(e))
      case Ok(shard) =>
        match Opened(Tackler, Root(args), txnSet, shard, fs)
        case Err(e) => Step(fs, Err(e))
        case Ok(setup) =>
          var p := Loop(Generate(v5, cal, txnSet), cal, setup, JournalRoute(setup), args.start,
                        StepSeconds(args.spanSecs, txnSet), Size(txnSet), Fresh(fs));
          Finish(p, Finals(setup, p.accounts, p.commodities))
  }

  /** The setup a run that got past `try_new` writes with. */
  function SetupOf(args: Args): JournalSetup
    requires ParseSetSize(args.setSize).Ok? && ParseShardType(args.shardType).Ok?
  {
    JournalSetup(Tackler, Root(args), ParseSetSize(args.setSize).value, ParseShardType(args.shardType).value)
  }

  /** The writer's state after the transactions of a run that got past `try_new`. */
  function Written(v5: string -> string, cal: Calendar, args: Args, fs: Fs): Progress
    requires ParseSetSize(args.setSize).Ok? && ParseShardType(args.shardType).Ok?
  {
    var txnSet := ParseSetSize(args.setSize).value;
    Loop(Generate(v5, cal, txnSet), cal, SetupOf(args), JournalRoute(SetupOf(args)), args.start,
         StepSeconds(args.spanSecs, txnSet), Size(txnSet), Fresh(fs))
  }

  /** Whatever its outcome, a run leaves every file that was there before it as it was. */
  lemma RunLeavesFilesAlone(v5: string -> string, cal: Calendar, args: Args, fs: Fs)
    ensures SameFiles(fs, Run(v5, cal, args, fs).fs)
  {
    if ParseSetSize(args.setSize).Ok? && ParseShardType(args.shardType).Ok? {
      var txnSet, shard := ParseSetSize(args.setSize).value, ParseShardType(args.shardType).value;
      if Opened(Tackler, Root(args), txnSet, shard, fs).Ok? {
        var setup := SetupOf(args);
        FreshLeavesAlone(fs);
        LoopLeavesAlone(Generate(v5, cal, txnSet), cal, setup, JournalRoute(setup), args.start,
                        StepSeconds(args.spanSecs, txnSet), Size(txnSet), Fresh(fs), fs);
        var p := Written(v5, cal, args, fs);
        FinishLeavesAlone(p, Finals(setup, p.accounts, p.commodities), fs);
      }
    }
  }

  /** A successful run got through every step: the options parsed, `try_new` and every transaction. */
  lemma RunSucceeded(v5: string -> string, cal: Calendar, args: Args, fs: Fs)
    requires Run(v5, cal, args, fs).result.Ok?
    ensures ParseSetSize(args.setSize).Ok? && ParseShardType(args.shardType).Ok?
    ensures Opened(Tackler, Root(args), ParseSetSize(args.setSize).value, ParseShardType(args.shardType).value, fs).Ok?
    ensures Written(v5, cal, args, fs).failure.None?
    ensures var p := Written(v5, cal, args, fs);
      Run(v5, cal, args, fs) == Emit(p.fs, Finals(SetupOf(args), p.accounts, p.commodities))
  {
  }

  /** Audit transactions refer to no commodity. */
  lemma {:induction false} NoCommodities(v5: string -> string, cal: Calendar, txnSet: SetSize, start: Zoned, step: nat, k: nat)
    requires k < 0x1_0000_0000
    ensures CommoditiesUpTo(Generate(v5, cal, txnSet), cal, start, step, k) == []
    decreases k
  {
    if k > 0 {
      NoCommodities(v5, cal, txnSet, start, step, k - 1);
      assert Tackler.AuditTxn(v5, cal, txnSet, TsAt(cal, start, step, k - 1), k).refs.commodities == [];
    }
  }

  /**
   * The transactions of a run that got through all of them refer to
   * exactly the accounts gathered, ascending and each once, and to no
   * commodity.
   */
  lemma RunGathersAccounts(v5: string -> string, cal: Calendar, args: Args, fs: Fs)
    requires ParseSetSize(args.setSize).Ok? && ParseShardType(args.shardType).Ok?
    requires Written(v5, cal, args, fs).failure.None?
    ensures var p, txnSet := Written(v5, cal, args, fs), ParseSetSize(args.setSize).value;
      && Ordered(p.accounts)
      && (forall y :: y in p.accounts <==>
            y in AccountsUpTo(Generate(v5, cal, txnSet), cal, args.start, StepSeconds(args.spanSecs, txnSet), Size(txnSet)))
      && (forall y :: y !in p.commodities)
  {
    var txnSet := ParseSetSize(args.setSize).value;
    var setup, step := SetupOf(args), StepSeconds(args.spanSecs, txnSet);
    var p := Written(v5, cal, args, fs);
    LoopGathersReferences(Generate(v5, cal, txnSet), cal, setup, JournalRoute(setup), args.start, step, Size(txnSet), Fresh(fs));
    NoCommodities(v5, cal, txnSet, args.start, step, Size(txnSet));
  }

  /**
   * A successful run leaves the chart of accounts and the chart of
   * commodities of the sets it gathered, and the strict configuration with
   * auditing on, each a file of its own that was not there before.
   */
  lemma RunWritesFinals(v5: string -> string, cal: Calendar, args: Args, fs: Fs)
    requires Run(v5, cal, args, fs).result.Ok?
    ensures ParseSetSize(args.setSize).Ok? && ParseShardType(args.shardType).Ok?
    ensures Written(v5, cal, args, fs).failure.None?
    ensures var p, setup, out := Written(v5, cal, args, fs), SetupOf(args), Run(v5, cal, args, fs).fs.files;
      && ChartOfAccountsPath(setup).1 !in fs.files && ChartOfAccountsPath(setup).1 in out
      && out[ChartOfAccountsPath(setup).1] == JoinLines(Tackler.AccountsChartLines(p.accounts))
      && ChartOfCommoditiesPath(setup).1 !in fs.files && ChartOfCommoditiesPath(setup).1 in out
      && out[ChartOfCommoditiesPath(setup).1] == JoinLines(Tackler.CommoditiesChartLines(p.commodities))
      && ConfigPath(setup).1 !in fs.files && ConfigPath(setup).1 in out
      && out[ConfigPath(setup).1] == Tackler.Config(true, true, setup)
  {
    RunSucceeded(v5, cal, args, fs);
    var p, setup := Written(v5, cal, args, fs), SetupOf(args);
    var txnSet := ParseSetSize(args.setSize).value;
    FreshLeavesAlone(fs);
    LoopLeavesAlone(Generate(v5, cal, txnSet), cal, setup, JournalRoute(setup), args.start,
                    StepSeconds(args.spanSecs, txnSet), Size(txnSet), Fresh(fs), fs);
    var plan := Finals(setup, p.accounts, p.commodities);
    FinishedArtifacts(p, plan, fs);
    assert plan[0].at.1 == ChartOfAccountsPath(setup).1 && plan[1].at.1 == ChartOfCommoditiesPath(setup).1;
    assert plan[2].at.1 == ConfigPath(setup).1;
  }

  /**
   * Single shard: a successful run leaves one journal, new, at the first
   * transaction's journal path, holding every transaction in index order.
   */
  lemma RunSingleJournal(v5: string -> string, cal: Calendar, args: Args, fs: Fs)
    requires Run(v5, cal, args, fs).result.Ok? && ParseShardType(args.shardType) == Ok(Single)
    ensures ParseSetSize(args.setSize).Ok?
    ensures var txnSet, out := ParseSetSize(args.setSize).value, Run(v5, cal, args, fs).fs.files;
      var journal := JournalPath(SetupOf(args), args.start, 1).1;
      && journal !in fs.files && journal in out
      && out[journal] == TextsUpTo(Generate(v5, cal, txnSet), cal, args.start, StepSeconds(args.spanSecs, txnSet), Size(txnSet))
  {
    RunSucceeded(v5, cal, args, fs);
    var txnSet := ParseSetSize(args.setSize).value;
    var setup, step, gen := SetupOf(args), StepSeconds(args.spanSecs, txnSet), Generate(v5, cal, txnSet);
    var journal := JournalPath(setup, args.start, 1).1;
    FreshLeavesAlone(fs);
    var p := Written(v5, cal, args, fs);
    FinishedSingleJournal(gen, cal, setup, JournalRoute(setup), args.start, step, Size(txnSet), Fresh(fs), journal, "", fs,
                          Finals(setup, p.accounts, p.commodities));
    assert "" + TextsUpTo(gen, cal, args.start, step, Size(txnSet)) == TextsUpTo(gen, cal, args.start, step, Size(txnSet));
  }

  /**
   * Transaction shard: a successful run leaves every transaction alone in a
   * new file of its own, at its journal path.
   */
  lemma RunOneFileEach(v5: string -> string, cal: Calendar, args: Args, fs: Fs)
    requires Run(v5, cal, args, fs).result.Ok? && ParseShardType(args.shardType) == Ok(Txn)
    ensures ParseSetSize(args.setSize).Ok?
    ensures var txnSet, out := ParseSetSize(args.setSize).value, Run(v5, cal, args, fs).fs.files;
      forall i: nat :: 1 <= i <= Size(txnSet) ==>
        HoldsTxn(Generate(v5, cal, txnSet), cal, JournalRoute(SetupOf(args)), args.start, StepSeconds(args.spanSecs, txnSet), i,
                 fs.files, out)
  {
    RunSucceeded(v5, cal, args, fs);
    var txnSet := ParseSetSize(args.setSize).value;
    var setup, step, gen := SetupOf(args), StepSeconds(args.spanSecs, txnSet), Generate(v5, cal, txnSet);
    var p := Written(v5, cal, args, fs);
    FinishedOneFileEach(gen, cal, setup, JournalRoute(setup), args.start, step, Size(txnSet), Fresh(fs),
                        Finals(setup, p.accounts, p.commodities));
  }

  /**
   * Month shard: a successful run leaves, for every month some transaction
   * fell in, one new journal at the journal path of that month's first
   * transaction, in whatever year, holding every transaction of the month
   * in index order; different months have different journals.
   */
  lemma RunMonthJournals(v5: string -> string, cal: Calendar, args: Args, fs: Fs)
    requires Run(v5, cal, args, fs).result.Ok? && ParseShardType(args.shardType) == Ok(Month)
    ensures ParseSetSize(args.setSize).Ok?
    ensures var txnSet, out := ParseSetSize(args.setSize).value, Run(v5, cal, args, fs).fs.files;
      var gen, route, step := Generate(v5, cal, txnSet), JournalRoute(SetupOf(args)), StepSeconds(args.spanSecs, txnSet);
      && (forall m :: 1 <= m <= SLOTS && FirstInMonth(cal, args.start, step, m, Size(txnSet)).Some? ==>
            MonthJournalLeft(gen, cal, route, args.start, step, m, Size(txnSet), fs.files, out))
      && (forall m1, m2 ::
            1 <= m1 < m2 <= SLOTS && FirstInMonth(cal, args.start, step, m1, Size(txnSet)).Some?
            && FirstInMonth(cal, args.start, step, m2, Size(txnSet)).Some?
            ==> MonthJournal(cal, route, args.start, step, m1, Size(txnSet)) != MonthJournal(cal, route, args.start, step, m2, Size(txnSet)))
  {
    RunSucceeded(v5, cal, args, fs);
    var txnSet := ParseSetSize(args.setSize).value;
    var setup, step, gen := SetupOf(args), StepSeconds(args.spanSecs, txnSet), Generate(v5, cal, txnSet);
    FreshLeavesAlone(fs);
    var p := Written(v5, cal, args, fs);
    FinishedMonthJournals(gen, cal, setup, JournalRoute(setup), args.start, step, Size(txnSet), Fresh(fs), fs,
                          Finals(setup, p.accounts, p.commodities));
  }

  /** `exec`: writes the set through a new writer onto `disk`. */
  method Exec(v5: string -> string, cal: Calendar, args: Args, disk: Disk) returns (r: Result<()>)
    modifies disk
    ensures Step(disk.fs, r) == Run(v5, cal, args, old(disk.fs))
  {
    var txnSet :- ParseSetSize(args.setSize);
    var shard :- ParseShardType(args.shardType);
    var writer :- JournalWriter.TryNew(Tackler, Root(args), txnSet, shard, disk);
    var failure, accounts, commodities := Transactions(Generate(v5, cal, txnSet), cal, writer, disk, args.start,
                                                       StepSeconds(args.spanSecs, txnSet), Size(txnSet));
    if failure.Some? {
      return Err(failure.value);
    }
    r := WriteFinals(writer, disk, accounts, commodities);
  }

  /** The two charts and the configuration, each new, in that order; the first error ends it. */
  method WriteFinals(writer: JournalWriter, disk: Disk, accounts: seq<string>, commodities: seq<string>) returns (r: Result<()>)
    modifies disk
    ensures Step(disk.fs, r) == Emit(old(disk.fs), Finals(writer.setup, accounts, commodities))
  {
    ghost var plan := Finals(writer.setup, accounts, commodities);
    EmitFirst(disk.fs, plan);
    var accountsChart := Tackler.ChartOfAccounts(accounts);
    var wrote := writer.WriteChartOfAccounts(disk, accountsChart);
    if wrote.Err? {
      return Err(wrote.error);
    }
    EmitFirst(disk.fs, plan[1..]);
    var commoditiesChart := Tackler.ChartOfCommodities(commodities);
    wrote := writer.WriteChartOfCommodities(disk, commoditiesChart);
    if wrote.Err? {
      return Err(wrote.error);
    }
    EmitFirst(disk.fs, plan[2..]);
    assert plan[1..][1..] == plan[2..] && plan[2..][1..] == [];
    wrote := writer.WriteConfig(disk, Tackler.Config(true, true, writer.setup));
    if wrote.Err? {
      return Err(wrote.error);
    }
    r := Ok(());
  }
}
