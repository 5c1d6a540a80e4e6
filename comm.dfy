/**
 * The `comm` command: a set of commodity transactions under `<data>/comm`
 * in any of the three flavours. Ledger and Beancount journals start with a
 * header including the chart of accounts; then come the transactions, each
 * referring to two accounts and one commodity, and at the end the charts
 * of what they referred to (Tackler also gets a strict configuration
 * without auditing).
 */
module Comm {
  import opened Common
  import opened Text
  import opened Time
  import opened Setup
  import opened OrderedSets
  import opened Generators
  import opened Writers
  import opened Runs
  import Tackler
  import Ledger

  /**
   * The Beancount renderer, which is not part of this model: its commodity
   * transaction and its chart of accounts, each of which may fail.
   */
  datatype BeancountRenderer = BeancountRenderer(
    commodityTxn: (SetSize, Zoned, U32) -> Result<Rendered>,
    chartOfAccounts: seq<string> -> Result<string>)

  /** `commodity_txn` of the flavour. */
  function Generate(bc: BeancountRenderer, flavor: JournalFlavor, txnSet: SetSize): Generator {
    match flavor
    case Tackler => (ts: Zoned, idx: U32) => Ok(Tackler.CommodityTxn(txnSet, ts, idx))
    case Ledger => (ts: Zoned, idx: U32) => Ok(Ledger.CommodityTxn(txnSet, ts, idx))
    case Beancount => (ts: Zoned, idx: U32) => bc.commodityTxn(txnSet, ts, idx)
  }

  /** The file name of the chart of accounts. */
  function ChartName(setup: JournalSetup): string {
    var file := ChartOfAccountsPath(setup).1;
    file[|file| - 1]
  }

  /** What the journal starts with: an include of the chart of accounts for Ledger and Beancount, nothing for Tackler. */
  function Header(setup: JournalSetup): string {
    match setup.flavor
    case Tackler => ""
    case Ledger => "include ../conf/" + ChartName(setup) + "\n\n"
    case Beancount => "include \"../conf/" + ChartName(setup) + "\"\n\n"
  }

  /**
   * The header of the single journal names the chart of accounts, relative
   * to the journal's own directory: one level up, then `conf`.
   */
  lemma HeaderIncludesChart(setup: JournalSetup, ts: Zoned, idx: U32)
    requires setup.shardType == Single
    ensures setup.flavor == Tackler <==> Header(setup) == ""
    ensures setup.flavor == Ledger ==> Header(setup) == "include ../conf/accounts.ledger\n\n"
    ensures setup.flavor == Beancount ==> Header(setup) == "include \"../conf/accounts.beancount\"\n\n"
    ensures var dir := JournalPath(setup, ts, idx).0;
      |dir| >= 1 && dir[..|dir| - 1] + ["conf", ChartName(setup)] == ChartOfAccountsPath(setup).1
  {
    SingleJournalPath(setup, ts, idx);
    assert ChartName(setup) == "accounts." + ChartExtension(setup.flavor);
    var dir := TxnsDir(setup);
    assert dir[..|dir| - 1] == TxnSetPath(setup);
  }

  /** A transaction renderer that gives `text`, referring to nothing. */
  function HeaderGen(text: string): Generator {
    (ts: Zoned, idx: U32) => Ok(Rendered(text, TxnAccComm([], [])))
  }

  /** The writer after the header: written as transaction 0 at the start time, except for Tackler. */
  function Started(setup: JournalSetup, start: Zoned, fs: Fs): (p: Progress)
    ensures ProgressValid(p) && p.accounts == [] && p.commodities == []
  {
    if setup.flavor == Tackler then Fresh(fs)
    else Turn(HeaderGen(Header(setup)), setup, JournalRoute(setup), start, 0, Fresh(fs))
  }

  /** The header opens the single journal new, holding just the header. */
  lemma StartedOpensJournal(setup: JournalSetup, start: Zoned, fs: Fs)
    requires setup.shardType == Single && setup.flavor != Tackler
    requires Started(setup, start, fs).failure.None?
    ensures var journal := JournalPath(setup, start, 1).1;
      && journal !in fs.files
      && JournalHolds(Started(setup, start, fs), journal, Header(setup))
  {
    var route := JournalRoute(setup);
    var gen := HeaderGen(Header(setup));
    SingleJournalPath(setup, start, 0);
    SingleJournalPath(setup, start, 1);
    SingleTurnOpens(gen, setup, route, start, 0, Fresh(fs));
    TxnWriteTouchesOneFile(setup, NoSlots(), fs, start, route(start, 0), Header(setup));
  }

  /** The header writes only to a journal it opened itself. */
  lemma StartedLeavesAlone(setup: JournalSetup, start: Zoned, fs: Fs)
    ensures LeavesAlone(fs, Started(setup, start, fs))
  {
    FreshLeavesAlone(fs);
    if setup.flavor != Tackler {
      TurnLeavesAlone(HeaderGen(Header(setup)), setup, JournalRoute(setup), start, 0, Fresh(fs), fs);
    }
  }

  /**
   * The closing artifacts: for Tackler the configuration (strict, no
   * auditing) and both charts; for Ledger and Beancount only the chart of
   * accounts, so Ledger's missing chart of commodities is never asked for.
   */
  function Finals(bc: BeancountRenderer, setup: JournalSetup, accounts: seq<string>, commodities: seq<string>): seq<Artifact> {
    match setup.flavor
    case Tackler => TacklerFinals(setup, accounts, commodities)
    case Ledger => [Artifact(ChartOfAccountsPath(setup), Ok(JoinLines(Ledger.AccountLines(accounts))))]
    case Beancount => [Artifact(ChartOfAccountsPath(setup), bc.chartOfAccounts(accounts))]
  }

  /** Tackler's closing artifacts: the configuration, then the chart of accounts, then the chart of commodities. */
  function TacklerFinals(setup: JournalSetup, accounts: seq<string>, commodities: seq<string>): seq<Artifact> {
    [Artifact(ConfigPath(setup), Ok(Tackler.Config(true, false, setup))),
     Artifact(ChartOfAccountsPath(setup), Ok(JoinLines(Tackler.AccountsChartLines(accounts)))),
     Artifact(ChartOfCommoditiesPath(setup), Ok(JoinLines(Tackler.CommoditiesChartLines(commodities))))]
  }

  /** Where the set goes: `<data>/comm`. */
  function Root(args: Args): Path {
    args.dataPath + ["comm"]
  }

  /** The run over `fs`: every step in order, the first error ending it. */
  function Run(bc: BeancountRenderer, cal: Calendar, flavor: Option<string>, args: Args, fs: Fs): Step<()> {
    match FlavorOption(flavor)
    case Err(e) => Step(fs, Err(e))
    case Ok(f) =>
      match ParseSetSize(args.setSize)
      case Err(e) => Step(fs, Err(e))
      case Ok(txnSet) =>
        match ParseShardType(args.shardType)
        case Err(e) => Step(fs, Err(e))
        case Ok(shard) =>
          match Opened(f, Root(args), txnSet, shard, fs)
          case Err(e) => Step(fs, Err(e))
          case Ok(setup) =>
            var p := Loop(Generate(bc, f, txnSet), cal, setup, JournalRoute(setup), args.start,
                          StepSeconds(args.spanSecs, txnSet), Size(txnSet), Started(setup, args.start, fs));
            Finish(p, Finals(bc, setup, p.accounts, p.commodities))
  }

  /** The options parsed. */
  predicate Accepted(flavor: Option<string>, args: Args) {
    FlavorOption(flavor).Ok? && ParseSetSize(args.setSize).Ok? && ParseShardType(args.shardType).Ok?
  }

  function SetupOf(flavor: Option<string>, args: Args): JournalSetup
    requires Accepted(flavor, args)
  {
    JournalSetup(FlavorOption(flavor).value, Root(args), ParseSetSize(args.setSize).value, ParseShardType(args.shardType).value)
  }

  function GenerateOf(bc: BeancountRenderer, flavor: Option<string>, args: Args): Generator
    requires Accepted(flavor, args)
  {
    Generate(bc, FlavorOption(flavor).value, ParseSetSize(args.setSize).value)
  }

  /** The writer's state after the header and the transactions of a run that got past `try_new`. */
  function Written(bc: BeancountRenderer, cal: Calendar, flavor: Option<string>, args: Args, fs: Fs): Progress
    requires Accepted(flavor, args)
  {
    var txnSet, setup := ParseSetSize(args.setSize).value, SetupOf(flavor, args);
    Loop(GenerateOf(bc, flavor, args), cal, setup, JournalRoute(setup), args.start,
         StepSeconds(args.spanSecs, txnSet), Size(txnSet), Started(setup, args.start, fs))
  }

  /**
   * A successful run got through every step: the options parsed, `try_new`
   * (so Ledger and Beancount ran with the single shard), the header and
   * every transaction.
   */
  lemma RunSucceeded(bc: BeancountRenderer, cal: Calendar, flavor: Option<string>, args: Args, fs: Fs)
    requires Run(bc, cal, flavor, args, fs).result.Ok?
    ensures Accepted(flavor, args)
    ensures var setup := SetupOf(flavor, args);
      && Opened(setup.flavor, Root(args), setup.txnSet, setup.shardType, fs).Ok?
      && (setup.flavor != Tackler ==> setup.shardType == Single)
      && Started(setup, args.start, fs).failure.None?
    ensures var p := Written(bc, cal, flavor, args, fs);
      && p.failure.None?
      && Run(bc, cal, flavor, args, fs) == Emit(p.fs, Finals(bc, SetupOf(flavor, args), p.accounts, p.commodities))
  {
  }

  /** Whatever its outcome, a run leaves every file that was there before it as it was. */
  lemma RunLeavesFilesAlone(bc: BeancountRenderer, cal: Calendar, flavor: Option<string>, args: Args, fs: Fs)
    ensures SameFiles(fs, Run(bc, cal, flavor, args, fs).fs)
  {
    if Accepted(flavor, args) {
      var txnSet, setup := ParseSetSize(args.setSize).value, SetupOf(flavor, args);
      if Opened(setup.flavor, Root(args), txnSet, setup.shardType, fs).Ok? {
        StartedLeavesAlone(setup, args.start, fs);
        LoopLeavesAlone(GenerateOf(bc, flavor, args), cal, setup, JournalRoute(setup), args.start,
                        StepSeconds(args.spanSecs, txnSet), Size(txnSet), Started(setup, args.start, fs), fs);
        var p := Written(bc, cal, flavor, args, fs);
        FinishLeavesAlone(p, Finals(bc, setup, p.accounts, p.commodities), fs);
      }
    }
  }

  /**
   * The transactions of a run that got through all of them refer to
   * exactly the accounts and the commodities gathered, each set ascending
   * and each element once.
   */
  lemma RunGathersReferences(bc: BeancountRenderer, cal: Calendar, flavor: Option<string>, args: Args, fs: Fs)
    requires Accepted(flavor, args) && Written(bc, cal, flavor, args, fs).failure.None?
    ensures var p, txnSet := Written(bc, cal, flavor, args, fs), ParseSetSize(args.setSize).value;
      var gen, step := GenerateOf(bc, flavor, args), StepSeconds(args.spanSecs, txnSet);
      && Ordered(p.accounts) && Ordered(p.commodities)
      && (forall y :: y in p.accounts <==> y in AccountsUpTo(gen, cal, args.start, step, Size(txnSet)))
      && (forall y :: y in p.commodities <==> y in CommoditiesUpTo(gen, cal, args.start, step, Size(txnSet)))
  {
    var txnSet, setup := ParseSetSize(args.setSize).value, SetupOf(flavor, args);
    LoopGathersReferences(GenerateOf(bc, flavor, args), cal, setup, JournalRoute(setup), args.start,
                          StepSeconds(args.spanSecs, txnSet), Size(txnSet), Started(setup, args.start, fs));
  }

  /**
   * A successful run leaves its closing artifacts, each new: for Tackler
   * the strict configuration without auditing and the charts of the
   * gathered accounts and commodities; for Ledger and Beancount the
   * flavour's chart of the gathered accounts.
   */
  lemma RunWritesFinals(bc: BeancountRenderer, cal: Calendar, flavor: Option<string>, args: Args, fs: Fs)
    requires Run(bc, cal, flavor, args, fs).result.Ok?
    ensures Accepted(flavor, args) && Written(bc, cal, flavor, args, fs).failure.None?
    ensures var p, setup, out := Written(bc, cal, flavor, args, fs), SetupOf(flavor, args), Run(bc, cal, flavor, args, fs).fs.files;
      var accountsChart := ChartOfAccountsPath(setup).1;
      && accountsChart !in fs.files && accountsChart in out
      && (setup.flavor == Tackler ==>
            && out[accountsChart] == JoinLines(Tackler.AccountsChartLines(p.accounts))
            && ChartOfCommoditiesPath(setup).1 !in fs.files && ChartOfCommoditiesPath(setup).1 in out
            && out[ChartOfCommoditiesPath(setup).1] == JoinLines(Tackler.CommoditiesChartLines(p.commodities))
            && ConfigPath(setup).1 !in fs.files && ConfigPath(setup).1 in out
            && out[ConfigPath(setup).1] == Tackler.Config(true, false, setup))
      && (setup.flavor == Ledger ==> out[accountsChart] == JoinLines(Ledger.AccountLines(p.accounts)))
      && (setup.flavor == Beancount ==> bc.chartOfAccounts(p.accounts) == Ok(out[accountsChart]))
  {
    RunSucceeded(bc, cal, flavor, args, fs);
    var p, setup := Written(bc, cal, flavor, args, fs), SetupOf(flavor, args);
    var txnSet := ParseSetSize(args.setSize).value;
    StartedLeavesAlone(setup, args.start, fs);
    LoopLeavesAlone(GenerateOf(bc, flavor, args), cal, setup, JournalRoute(setup), args.start,
                    StepSeconds(args.spanSecs, txnSet), Size(txnSet), Started(setup, args.start, fs), fs);
    var plan := Finals(bc, setup, p.accounts, p.commodities);
    FinishedArtifacts(p, plan, fs);
    if setup.flavor == Tackler {
      assert plan[1].at.1 == ChartOfAccountsPath(setup).1 && plan[2].at.1 == ChartOfCommoditiesPath(setup).1;
      assert plan[0].at.1 == ConfigPath(setup).1;
    } else {
      assert plan[0].at.1 == ChartOfAccountsPath(setup).1;
    }
  }

  /**
   * Single shard: a successful run leaves one journal, new, at the set's
   * journal path, holding the header and then every transaction in index
   * order.
   */
  lemma RunSingleJournal(bc: BeancountRenderer, cal: Calendar, flavor: Option<string>, args: Args, fs: Fs)
    requires Run(bc, cal, flavor, args, fs).result.Ok? && ParseShardType(args.shardType) == Ok(Single)
    ensures Accepted(flavor, args)
    ensures var txnSet, setup, out := ParseSetSize(args.setSize).value, SetupOf(flavor, args), Run(bc, cal, flavor, args, fs).fs.files;
      var journal := JournalPath(setup, args.start, 1).1;
      && journal !in fs.files && journal in out
      && out[journal]
         == Header(setup) + TextsUpTo(GenerateOf(bc, flavor, args), cal, args.start, StepSeconds(args.spanSecs, txnSet), Size(txnSet))
  {
    RunSucceeded(bc, cal, flavor, args, fs);
    var txnSet, setup := ParseSetSize(args.setSize).value, SetupOf(flavor, args);
    var p := Written(bc, cal, flavor, args, fs);
    SingleJournalFromStart(GenerateOf(bc, flavor, args), cal, setup, args.start, StepSeconds(args.spanSecs, txnSet), Size(txnSet),
                           fs, Finals(bc, setup, p.accounts, p.commodities));
  }

  /**
   * Single shard: a run from the header that ends well leaves the journal
   * at the set's journal path, new, holding the header and then every
   * transaction in index order.
   */
  lemma SingleJournalFromStart(gen: Generator, cal: Calendar, setup: JournalSetup, start: Zoned, step: nat, n: nat, fs: Fs, plan: seq<Artifact>)
    requires setup.shardType == Single && 1 <= n < 0x1_0000_0000
    requires Finish(Loop(gen, cal, setup, JournalRoute(setup), start, step, n, Started(setup, start, fs)), plan).result.Ok?
    ensures var out, journal := Finish(Loop(gen, cal, setup, JournalRoute(setup), start, step, n, Started(setup, start, fs)), plan).fs.files,
                                JournalPath(setup, start, 1).1;
      && journal !in fs.files && journal in out
      && out[journal] == Header(setup) + TextsUpTo(gen, cal, start, step, n)
  {
    var init := Started(setup, start, fs);
    var journal := JournalPath(setup, start, 1).1;
    StartedLeavesAlone(setup, start, fs);
    if setup.flavor != Tackler {
      StartedOpensJournal(setup, start, fs);
    } else {
      assert Header(setup) + TextsUpTo(gen, cal, start, step, n) == TextsUpTo(gen, cal, start, step, n);
    }
    FinishedSingleJournal(gen, cal, setup, JournalRoute(setup), start, step, n, init, journal, Header(setup), fs, plan);
  }

  /**
   * Transaction shard (Tackler only): a successful run leaves every
   * transaction alone in a new file of its own, at its journal path.
   */
  lemma RunOneFileEach(bc: BeancountRenderer, cal: Calendar, flavor: Option<string>, args: Args, fs: Fs)
    requires Run(bc, cal, flavor, args, fs).result.Ok? && ParseShardType(args.shardType) == Ok(Txn)
    ensures Accepted(flavor, args) && FlavorOption(flavor) == Ok(Tackler)
    ensures var txnSet, out := ParseSetSize(args.setSize).value, Run(bc, cal, flavor, args, fs).fs.files;
      forall i: nat :: 1 <= i <= Size(txnSet) ==>
        HoldsTxn(GenerateOf(bc, flavor, args), cal, JournalRoute(SetupOf(flavor, args)), args.start,
                 StepSeconds(args.spanSecs, txnSet), i, fs.files, out)
  {
    RunSucceeded(bc, cal, flavor, args, fs);
    var txnSet, setup := ParseSetSize(args.setSize).value, SetupOf(flavor, args);
    var p := Written(bc, cal, flavor, args, fs);
    FinishedOneFileEach(GenerateOf(bc, flavor, args), cal, setup, JournalRoute(setup), args.start,
                        StepSeconds(args.spanSecs, txnSet), Size(txnSet), Fresh(fs), Finals(bc, setup, p.accounts, p.commodities));
  }

  /**
   * Month shard (Tackler only, so no header): a successful run leaves, for
   * every month some transaction fell in, one new journal at the journal
   * path of that month's first transaction, in whatever year, holding every
   * transaction of the month in index order; different months have
   * different journals.
   */
  lemma RunMonthJournals(bc: BeancountRenderer, cal: Calendar, flavor: Option<string>, args: Args, fs: Fs)
    requires Run(bc, cal, flavor, args, fs).result.Ok? && ParseShardType(args.shardType) == Ok(Month)
    ensures Accepted(flavor, args) && FlavorOption(flavor) == Ok(Tackler)
    ensures var txnSet, out := ParseSetSize(args.setSize).value, Run(bc, cal, flavor, args, fs).fs.files;
      var gen, route, step := GenerateOf(bc, flavor, args), JournalRoute(SetupOf(flavor, args)), StepSeconds(args.spanSecs, txnSet);
      && (forall m :: 1 <= m <= SLOTS && FirstInMonth(cal, args.start, step, m, Size(txnSet)).Some? ==>
            MonthJournalLeft(gen, cal, route, args.start, step, m, Size(txnSet), fs.files, out))
      && (forall m1, m2 ::
            1 <= m1 < m2 <= SLOTS && FirstInMonth(cal, args.start, step, m1, Size(txnSet)).Some?
            && FirstInMonth(cal, args.start, step, m2, Size(txnSet)).Some?
            ==> MonthJournal(cal, route, args.start, step, m1, Size(txnSet)) != MonthJournal(cal, route, args.start, step, m2, Size(txnSet)))
  {
    RunSucceeded(bc, cal, flavor, args, fs);
    var txnSet, setup := ParseSetSize(args.setSize).value, SetupOf(flavor, args);
    var p := Written(bc, cal, flavor, args, fs);
    FreshLeavesAlone(fs);
    FinishedMonthJournals(GenerateOf(bc, flavor, args), cal, setup, JournalRoute(setup), args.start,
                          StepSeconds(args.spanSecs, txnSet), Size(txnSet), Fresh(fs), fs, Finals(bc, setup, p.accounts, p.commodities));
  }

  // ---------------------------------------------------------------------
  // The run on the objects
  // ---------------------------------------------------------------------

  /** `exec`: writes the set through a new writer onto `disk`. */
  method Exec(bc: BeancountRenderer, cal: Calendar, flavor: Option<string>, args: Args, disk: Disk) returns (r: Result<()>)
    modifies disk
    ensures Step(disk.fs, r) == Run(bc, cal, flavor, args, old(disk.fs))
  {
    var f :- FlavorOption(flavor);
    var txnSet :- ParseSetSize(args.setSize);
    var shard :- ParseShardType(args.shardType);
    var writer :- JournalWriter.TryNew(f, Root(args), txnSet, shard, disk);
    r := WriteSet(bc, cal, txnSet, args.start, args.spanSecs, writer, disk);
  }

  /** The header, the transactions, then the closing artifacts. */
  method WriteSet(bc: BeancountRenderer, cal: Calendar, txnSet: SetSize, start: Zoned, spanSecs: U32, writer: JournalWriter, disk: Disk)
    returns (r: Result<()>)
    requires writer.slots == NoSlots()
    modifies writer, disk
    ensures var p := Loop(Generate(bc, writer.setup.flavor, txnSet), cal, writer.setup, JournalRoute(writer.setup), start,
                          StepSeconds(spanSecs, txnSet), Size(txnSet), Started(writer.setup, start, old(disk.fs)));
      Step(disk.fs, r) == Finish(p, Finals(bc, writer.setup, p.accounts, p.commodities))
  {
    var failure := WriteHeader(writer, disk, start);
    if failure.Some? {
      return Err(failure.value);
    }
    var accounts, commodities;
    failure, accounts, commodities := CommodityTransactions(Generate(bc, writer.setup.flavor, txnSet), cal, writer, disk, start,
                                                            StepSeconds(spanSecs, txnSet), Size(txnSet));
    if failure.Some? {
      return Err(failure.value);
    }
    r := WriteFinals(bc, writer, disk, accounts, commodities);
  }

  /** The include header as transaction 0, for Ledger and Beancount. */
  method WriteHeader(writer: JournalWriter, disk: Disk, start: Zoned) returns (failure: Option<Error>)
    requires writer.slots == NoSlots()
    modifies writer, disk
    ensures Progress(writer.slots, disk.fs, [], [], failure) == Started(writer.setup, start, old(disk.fs))
  {
    failure := None;
    if writer.setup.flavor != Tackler {
      var wrote := writer.WriteTxn(disk, start, 0, Header(writer.setup));
      if wrote.Err? {
        failure := Some(wrote.error);
      }
    }
  }

  /**
   * One turn on the objects as the command takes it: renders, adds the
   * references to the sets, then writes through `writer`. The journal and
   * the slots end as in `Turn`; the sets do too, except that a failed
   * write leaves the references already added.
   */
  method InsertThenWrite(gen: Generator, writer: JournalWriter, disk: Disk, ts: Zoned, idx: U32, accounts: seq<string>, commodities: seq<string>)
    returns (failure: Option<Error>, accounts': seq<string>, commodities': seq<string>)
    requires ProgressValid(Progress(writer.slots, disk.fs, accounts, commodities, None))
    modifies writer, disk
    ensures var q := Turn(gen, writer.setup, JournalRoute(writer.setup), ts, idx, old(Progress(writer.slots, disk.fs, accounts, commodities, None)));
      && writer.slots == q.slots && disk.fs == q.fs && failure == q.failure
      && (failure.None? ==> accounts' == q.accounts && commodities' == q.commodities)
    ensures gen(ts, idx).Err? ==> accounts' == accounts && commodities' == commodities
    ensures gen(ts, idx).Ok? ==>
      && accounts' == InsertAll(accounts, gen(ts, idx).value.refs.accounts)
      && commodities' == InsertAll(commodities, gen(ts, idx).value.refs.commodities)
  {
    var rendered := gen(ts, idx);
    if rendered.Err? {
      return Some(rendered.error), accounts, commodities;
    }
    accounts' := InsertEach(accounts, rendered.value.refs.accounts);
    commodities' := InsertEach(commodities, rendered.value.refs.commodities);
    var written := writer.WriteTxn(disk, ts, idx, rendered.value.text);
    if written.Err? {
      return Some(written.error), accounts', commodities';
    }
    failure := None;
  }

  /**
   * The loop over the indexes 1..n from the writer as the header left it,
   * with empty sets: each transaction at its time, `step` seconds after the
   * one before; the first error stops it.
   */
  method CommodityTransactions(gen: Generator, cal: Calendar, writer: JournalWriter, disk: Disk, start: Zoned, step: nat, n: U32)
    returns (failure: Option<Error>, accounts: seq<string>, commodities: seq<string>)
    requires SlotsValid(writer.slots, disk.fs)
    modifies writer, disk
    ensures var p := Loop(gen, cal, writer.setup, JournalRoute(writer.setup), start, step, n,
                          old(Progress(writer.slots, disk.fs, [], [], None)));
      && writer.slots == p.slots && disk.fs == p.fs && failure == p.failure
      && (failure.None? ==> accounts == p.accounts && commodities == p.commodities)
  {
    ghost var route := JournalRoute(writer.setup);
    ghost var init := Progress(writer.slots, disk.fs, [], [], None);
    failure, accounts, commodities := None, [], [];
    var ts := start;
    for idx := 1 to n + 1
      invariant ts == TsAt(cal, start, step, idx - 1) && failure.None?
      invariant Loop(gen, cal, writer.setup, route, start, step, idx - 1, init)
             == Progress(writer.slots, disk.fs, accounts, commodities, None)
    {
      failure, accounts, commodities := InsertThenWrite(gen, writer, disk, ts, idx, accounts, commodities);
      if failure.Some? {
        LoopStopsAtFailure(gen, cal, writer.setup, route, start, step, idx, n, init);
        return;
      }
      ts := AddSeconds(cal, ts, step);
    }
  }

  /** The closing artifacts in order; the first error, from rendering or writing, ends it. */
  method WriteFinals(bc: BeancountRenderer, writer: JournalWriter, disk: Disk, accounts: seq<string>, commodities: seq<string>)
    returns (r: Result<()>)
    modifies disk
    ensures Step(disk.fs, r) == Emit(old(disk.fs), Finals(bc, writer.setup, accounts, commodities))
  {
    if writer.setup.flavor == Tackler {
      r := WriteTacklerFinals(writer, disk, accounts, commodities);
      return;
    }
    var chart: string;
    if writer.setup.flavor == Ledger {
      chart := Ledger.ChartOfAccounts(accounts);
    } else {
      var rendered := bc.chartOfAccounts(accounts);
      if rendered.Err? {
        return Err(rendered.error);
      }
      chart := rendered.value;
    }
    ghost var plan := Finals(bc, writer.setup, accounts, commodities);
    EmitFirst(disk.fs, plan);
    assert plan[1..] == [];
    var wrote := writer.WriteChartOfAccounts(disk, chart);
    if wrote.Err? {
      return Err(wrote.error);
    }
    r := Ok(());
  }

  /** Tackler: the configuration, the chart of accounts, the chart of commodities. */
  method WriteTacklerFinals(writer: JournalWriter, disk: Disk, accounts: seq<string>, commodities: seq<string>)
    returns (r: Result<()>)
    modifies disk
    ensures Step(disk.fs, r) == Emit(old(disk.fs), TacklerFinals(writer.setup, accounts, commodities))
  {
    ghost var plan := TacklerFinals(writer.setup, accounts, commodities);
    EmitFirst(disk.fs, plan);
    var wrote := writer.WriteConfig(disk, Tackler.Config(true, false, writer.setup));
    if wrote.Err? {
      return Err(wrote.error);
    }
    EmitFirst(disk.fs, plan[1..]);
    var accountsChart := Tackler.ChartOfAccounts(accounts);
    wrote := writer.WriteChartOfAccounts(disk, accountsChart);
    if wrote.Err? {
      return Err(wrote.error);
    }
    EmitFirst(disk.fs, plan[2..]);
    assert plan[1..][1..] == plan[2..] && plan[2..][1..] == [];
    var commoditiesChart := Tackler.ChartOfCommodities(commodities);
    wrote := writer.WriteChartOfCommodities(disk, commoditiesChart);
    if wrote.Err? {
      return Err(wrote.error);
    }
    r := Ok(());
  }
}
