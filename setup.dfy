/**
 * The generator's configuration vocabulary and its path rules: shard types,
 * set sizes and journal flavours with their tokens, the journal setup, and
 * where every transaction journal, chart and configuration file of a set
 * is placed.
 */
module Setup {
  import opened Common
  import opened Text
  import opened Time

  // ---------------------------------------------------------------------
  // Shard type
  // ---------------------------------------------------------------------

  /** How the transactions of a set are spread over journal files. */
  datatype ShardType = Single | Month | Txn

  const SINGLE: string := "single"
  const MONTH: string := "month"
  const TXN: string := "txn"

  /** The token a shard type displays as. */
  function ShardTypeToken(s: ShardType): string {
    match s
    case Single => SINGLE
    case Month => MONTH
    case Txn => TXN
  }

  /** Reads a shard type: only the three display tokens, matched case-sensitively. */
  function ParseShardType(value: string): (r: Result<ShardType>)
    ensures r.Ok? <==> value == SINGLE || value == MONTH || value == TXN
    ensures r.Ok? ==> ShardTypeToken(r.value) == value
    ensures r.Err? ==> r.error == InvalidArgument("shard type", value)
  {
    if value == SINGLE then Ok(Single)
    else if value == MONTH then Ok(Month)
    else if value == TXN then Ok(Txn)
    else Err(InvalidArgument("shard type", value))
  }

  lemma ShardTypeRoundTrip(s: ShardType)
    ensures ParseShardType(ShardTypeToken(s)) == Ok(s)
  {
  }

  /** Case matters: the upper-case spellings are refused. */
  lemma ShardTypeCaseSensitive(s: ShardType)
    ensures ParseShardType(Upper(ShardTypeToken(s))).Err?
  {
    var u := Upper(ShardTypeToken(s));
    assert u[0] != ShardTypeToken(s)[0];
    assert u != SINGLE && u != MONTH && u != TXN;
  }

  // ---------------------------------------------------------------------
  // Set size
  // ---------------------------------------------------------------------

  /** Number of transactions in a set: ten to the power one to six. */
  datatype SetSize = Sz1e1 | Sz1e2 | Sz1e3 | Sz1e4 | Sz1e5 | Sz1e6

  /** `SetSize::str`: the scientific-notation token, "1e1" to "1e6". */
  function SetSizeToken(x: SetSize): (t: string)
    ensures |t| == 3 && t[..2] == "1e" && IsDigit(t[2]) && 1 <= DigitValue(t[2]) <= 6
  {
    match x
    case Sz1e1 => "1e1"
    case Sz1e2 => "1e2"
    case Sz1e3 => "1e3"
    case Sz1e4 => "1e4"
    case Sz1e5 => "1e5"
    case Sz1e6 => "1e6"
  }

  /** The exponent the token names. */
  function Exponent(x: SetSize): nat {
    DigitValue(SetSizeToken(x)[2])
  }

  /** `SetSize::size`: the number of transactions, the power of ten its token names. */
  function Size(x: SetSize): (n: U32)
    ensures n == Pow10(Exponent(x))
    ensures 10 <= n <= 1_000_000
  {
    Pow10Values();
    match x
    case Sz1e1 => 10
    case Sz1e2 => 100
    case Sz1e3 => 1_000
    case Sz1e4 => 10_000
    case Sz1e5 => 100_000
    case Sz1e6 => 1_000_000
  }

  /** Reads a set size; the token is lower-cased first, so "1E3" reads as well as "1e3". */
  function ParseSetSize(value: string): (r: Result<SetSize>)
    ensures r.Ok? <==> Lower(value) in ["1e1", "1e2", "1e3", "1e4", "1e5", "1e6"]
    ensures r.Ok? ==> SetSizeToken(r.value) == Lower(value)
    ensures r.Err? ==> r.error == InvalidArgument("set size", value)
  {
    var token := Lower(value);
    if token == "1e1" then Ok(Sz1e1)
    else if token == "1e2" then Ok(Sz1e2)
    else if token == "1e3" then Ok(Sz1e3)
    else if token == "1e4" then Ok(Sz1e4)
    else if token == "1e5" then Ok(Sz1e5)
    else if token == "1e6" then Ok(Sz1e6)
    else Err(InvalidArgument("set size", value))
  }

  lemma SetSizeTokenLower(x: SetSize)
    ensures Lower(SetSizeToken(x)) == SetSizeToken(x)
  {
    var t := SetSizeToken(x);
    assert forall i :: 0 <= i < |t| ==> LowerChar(t[i]) == t[i];
  }

  lemma SetSizeTokenUpperLower(x: SetSize)
    ensures Lower(Upper(SetSizeToken(x))) == SetSizeToken(x)
  {
    var t := SetSizeToken(x);
    assert forall i :: 0 <= i < |t| ==> LowerChar(UpperChar(t[i])) == t[i];
  }

  /** Both spellings of every token read back as the size that displays it. */
  lemma SetSizeRoundTrip(x: SetSize)
    ensures ParseSetSize(SetSizeToken(x)) == Ok(x)
    ensures ParseSetSize(Upper(SetSizeToken(x))) == Ok(x)
  {
    SetSizeTokenLower(x);
    SetSizeTokenUpperLower(x);
  }

  /** `size()` agrees with the values the program documents for each size. */
  lemma SizeValues()
    ensures Size(Sz1e1) == 10 && Size(Sz1e2) == 100 && Size(Sz1e3) == 1_000
    ensures Size(Sz1e4) == 10_000 && Size(Sz1e5) == 100_000 && Size(Sz1e6) == 1_000_000
  {
  }

  /** A count written with '_' between groups of three digits, as in `1_000`. */
  function Grouped(n: nat): (s: string)
    decreases n
  {
    if n < 1000 then Decimal(n) else Grouped(n / 1000) + "_" + Padded(n % 1000, 3)
  }

  /** `Display for SetSize`. */
  function SetSizeDisplay(x: SetSize): string {
    match x
    case Sz1e1 => "1e1 (10)"
    case Sz1e2 => "1e2 (100)"
    case Sz1e3 => "1e3 (1_000)"
    case Sz1e4 => "1e4 (10_000)"
    case Sz1e5 => "1e5 (100_000)"
    case Sz1e6 => "1e6 (1_000_000)"
  }

  lemma GroupedValues()
    ensures Grouped(10) == "10" && Grouped(100) == "100" && Grouped(1_000) == "1_000"
    ensures Grouped(10_000) == "10_000" && Grouped(100_000) == "100_000" && Grouped(1_000_000) == "1_000_000"
  {
    assert Decimal(1) == "1";
    assert Decimal(10) == "10";
    assert Decimal(100) == "100";
    assert Zeros(2) == "00";
    assert Padded(0, 3) == "000";
    assert Grouped(1_000) == "1" + "_" + "000";
  }

  /** The display shows the token and then the size it stands for, grouped by thousands. */
  lemma SetSizeDisplayShowsSize(x: SetSize)
    ensures SetSizeDisplay(x) == SetSizeToken(x) + " (" + Grouped(Size(x)) + ")"
  {
    GroupedValues();
    SizeValues();
    match x
    case Sz1e1 => assert "1e1 (10)" == "1e1" + " (" + "10" + ")";
    case Sz1e2 => assert "1e2 (100)" == "1e2" + " (" + "100" + ")";
    case Sz1e3 => assert "1e3 (1_000)" == "1e3" + " (" + "1_000" + ")";
    case Sz1e4 => assert "1e4 (10_000)" == "1e4" + " (" + "10_000" + ")";
    case Sz1e5 => assert "1e5 (100_000)" == "1e5" + " (" + "100_000" + ")";
    case Sz1e6 => assert "1e6 (1_000_000)" == "1e6" + " (" + "1_000_000" + ")";
  }

  // ---------------------------------------------------------------------
  // Journal flavour
  // ---------------------------------------------------------------------

  /** The plain-text accounting dialect a set is written in. */
  datatype JournalFlavor = Tackler | Ledger | Beancount

  const TACKLER: string := "tackler"
  const LEDGER: string := "ledger"
  const BEANCOUNT: string := "beancount"

  function FlavorToken(f: JournalFlavor): string {
    match f
    case Tackler => TACKLER
    case Ledger => LEDGER
    case Beancount => BEANCOUNT
  }

  /** Reads a flavour: only the three display tokens, matched case-sensitively. */
  function ParseFlavor(value: string): (r: Result<JournalFlavor>)
    ensures r.Ok? <==> value == TACKLER || value == LEDGER || value == BEANCOUNT
    ensures r.Ok? ==> FlavorToken(r.value) == value
    ensures r.Err? ==> r.error == InvalidArgument("journal flavor", value)
  {
    if value == TACKLER then Ok(Tackler)
    else if value == LEDGER then Ok(Ledger)
    else if value == BEANCOUNT then Ok(Beancount)
    else Err(InvalidArgument("journal flavor", value))
  }

  lemma FlavorRoundTrip(f: JournalFlavor)
    ensures ParseFlavor(FlavorToken(f)) == Ok(f)
  {
  }

  // ---------------------------------------------------------------------
  // Journal setup and its paths
  // ---------------------------------------------------------------------

  /** Where and how one transaction set is written. */
  datatype JournalSetup = JournalSetup(flavor: JournalFlavor, path: Path, txnSet: SetSize, shardType: ShardType)

  /** Only the Tackler flavour can be sharded; every other flavour needs the single shard. */
  function TryNewSetup(flavor: JournalFlavor, path: Path, txnSet: SetSize, shard: ShardType): (r: Result<JournalSetup>)
    ensures r.Err? <==> flavor != Tackler && shard != Single
    ensures r.Err? ==> r.error == IncompatibleConfiguration(ShardTypeToken(shard), FlavorToken(flavor))
    ensures r.Ok? ==> r.value.flavor == flavor && r.value.path == path
    ensures r.Ok? ==> r.value.txnSet == txnSet && r.value.shardType == shard
  {
    if flavor != Tackler && shard != Single then Err(IncompatibleConfiguration(ShardTypeToken(shard), FlavorToken(flavor)))
    else Ok(JournalSetup(flavor, path, txnSet, shard))
  }

  /** Name of the set directory. */
  function TxnSetDir(setup: JournalSetup): string {
    match setup.shardType
    case Single => "set-" + SetSizeToken(setup.txnSet) + "-single"
    case Month => "set-" + SetSizeToken(setup.txnSet) + "-month"
    case Txn => "set-" + SetSizeToken(setup.txnSet) + "-txn"
  }

  /** The set directory is named after the size token and the shard token. */
  lemma TxnSetDirNamesSetAndShard(setup: JournalSetup)
    ensures TxnSetDir(setup) == "set-" + SetSizeToken(setup.txnSet) + "-" + ShardTypeToken(setup.shardType)
  {
  }

  /** Different sizes or shard types never share a set directory. */
  lemma TxnSetDirInjective(a: JournalSetup, b: JournalSetup)
    requires TxnSetDir(a) == TxnSetDir(b)
    ensures a.txnSet == b.txnSet && a.shardType == b.shardType
  {
    TxnSetDirNamesSetAndShard(a);
    TxnSetDirNamesSetAndShard(b);
    var d := TxnSetDir(a);
    assert d[4..7] == SetSizeToken(a.txnSet) == SetSizeToken(b.txnSet);
    assert d[8..] == ShardTypeToken(a.shardType) == ShardTypeToken(b.shardType);
  }

  /** The set directory's name holds no '/' and no '.'. */
  lemma TxnSetDirPlain(setup: JournalSetup)
    ensures Free(TxnSetDir(setup), '/') && Free(TxnSetDir(setup), '.')
  {
    TxnSetDirNamesSetAndShard(setup);
  }

  function TxnSetPath(setup: JournalSetup): Path {
    setup.path + [TxnSetDir(setup)]
  }

  /** File extension of the charts, per flavour. */
  function ChartExtension(f: JournalFlavor): string {
    match f
    case Tackler => "toml"
    case Ledger => "ledger"
    case Beancount => "beancount"
  }

  /** File extension of a single-shard journal, per flavour. */
  function JournalExtension(f: JournalFlavor): string {
    match f
    case Tackler => "txn"
    case Ledger => "journal"
    case Beancount => "beancount"
  }

  /** Directory of the charts. */
  function ConfDir(setup: JournalSetup): Path {
    TxnSetPath(setup) + ["conf"]
  }

  /** Directory every journal lives under. */
  function TxnsDir(setup: JournalSetup): Path {
    TxnSetPath(setup) + ["txns"]
  }

  /** (directory, file) of the chart of accounts. */
  function ChartOfAccountsPath(setup: JournalSetup): (Path, Path) {
    var chartDir := ConfDir(setup);
    (chartDir, chartDir + ["accounts." + ChartExtension(setup.flavor)])
  }

  /** (directory, file) of the chart of commodities. */
  function ChartOfCommoditiesPath(setup: JournalSetup): (Path, Path) {
    var chartDir := ConfDir(setup);
    (chartDir, chartDir + ["commodities." + ChartExtension(setup.flavor)])
  }

  /**
   * (directory, file) of the configuration: the parent of the set directory,
   * and the set directory's path with the extension "toml" (the directory
   * name has no extension to replace, see `TxnSetDirPlain`).
   */
  function ConfigPath(setup: JournalSetup): (Path, Path) {
    (setup.path, setup.path + [TxnSetDir(setup) + ".toml"])
  }

  /** `%Y%m%dT%H%M%S` of the civil time. */
  function TxnStamp(ts: Zoned): string {
    Padded(ts.year, 4) + Padded(ts.month, 2) + Padded(ts.day, 2) + "T"
    + Padded(ts.hour, 2) + Padded(ts.minute, 2) + Padded(ts.second, 2)
  }

  /** File name of a month shard: `{year}-{month:0>2}.txn`. */
  function MonthJournalName(ts: Zoned): string {
    Decimal(ts.year) + "-" + Padded(ts.month, 2) + ".txn"
  }

  /** File name of a transaction shard: `{stamp}-{idx}.txn`. */
  function TxnJournalName(ts: Zoned, idx: U32): string {
    TxnStamp(ts) + "-" + Decimal(idx) + ".txn"
  }

  /**
   * Month shard, as the program builds it and as its doc comment says:
   * the month's journal lies directly in `txns`, as `<set>/txns/YYYY-MM.txn`.
   */
  function MonthJournalPathAsWritten(setup: JournalSetup, ts: Zoned): (Path, Path) {
    var txnDir := TxnsDir(setup);
    (txnDir, txnDir + [MonthJournalName(ts)])
  }

  /**
   * Month shard, as the command line help and the writer's test expect
   * it: the month's journal lies in a year and month directory under
   * `txns`, as `<set>/txns/YYYY/MM/YYYY-MM.txn`. The writer does not use
   * it (see `MonthPathsDiffer`).
   */
  function MonthJournalPathExpected(setup: JournalSetup, ts: Zoned): (Path, Path) {
    var txnDir := TxnsDir(setup) + [Decimal(ts.year), Padded(ts.month, 2)];
    (txnDir, txnDir + [MonthJournalName(ts)])
  }

  /** (directory, file) of the journal a transaction at `ts` with index `idx` goes to. */
  function JournalPath(setup: JournalSetup, ts: Zoned, idx: U32): (Path, Path) {
    match setup.shardType
    case Single =>
      var txnDir := TxnsDir(setup);
      (txnDir, txnDir + [SetSizeToken(setup.txnSet) + "." + JournalExtension(setup.flavor)])
    case Month => MonthJournalPathAsWritten(setup, ts)
    case Txn =>
      var txnDir := TxnsDir(setup) + [Decimal(ts.year), Padded(ts.month, 2), Padded(ts.day, 2)];
      (txnDir, txnDir + [TxnJournalName(ts, idx)])
  }

  /** Same civil second: the fields a transaction-shard name is built from. */
  predicate SameSecond(a: Zoned, b: Zoned) {
    a.year == b.year && a.month == b.month && a.day == b.day
    && a.hour == b.hour && a.minute == b.minute && a.second == b.second
  }

  // ---------------------------------------------------------------------
  // Path properties
  // ---------------------------------------------------------------------

  /** Every journal file sits directly in the directory returned with it, somewhere under `txns`. */
  lemma JournalPathShape(setup: JournalSetup, ts: Zoned, idx: U32)
    ensures var (dir, file) := JournalPath(setup, ts, idx);
      |file| == |dir| + 1 && file[..|dir|] == dir
      && |dir| >= |TxnsDir(setup)| && dir[..|TxnsDir(setup)|] == TxnsDir(setup)
  {
  }

  /** Single shard: one fixed journal, whatever the time and index. */
  lemma SingleJournalPath(setup: JournalSetup, ts: Zoned, idx: U32)
    requires setup.shardType == Single
    ensures JournalPath(setup, ts, idx).0 == TxnsDir(setup)
    ensures JournalPath(setup, ts, idx).1
         == TxnsDir(setup) + [SetSizeToken(setup.txnSet) + "." + JournalExtension(setup.flavor)]
  {
  }

  /** A month-shard name determines its year and month. */
  lemma MonthJournalNameInjective(a: Zoned, b: Zoned)
    requires MonthJournalName(a) == MonthJournalName(b)
    ensures a.year == b.year && a.month == b.month
  {
    var ya, yb := Decimal(a.year), Decimal(b.year);
    var ra, rb := Padded(a.month, 2) + ".txn", Padded(b.month, 2) + ".txn";
    assert MonthJournalName(a) == ya + ['-'] + ra;
    assert MonthJournalName(b) == yb + ['-'] + rb;
    IndexOfSeparated(ya, '-', ra);
    IndexOfSeparated(yb, '-', rb);
    var n := MonthJournalName(a);
    assert ya == n[..|ya|] == yb;
    DecimalInjective(a.year, b.year);
    assert ra == n[|ya| + 1..] == rb;
    assert Pow10(2) == 100;
    PaddedWidth(a.month, 2);
    PaddedWidth(b.month, 2);
    assert Padded(a.month, 2) == ra[..2] == Padded(b.month, 2);
    PaddedDecimalInjective(a.month, b.month, 2);
  }

  /**
   * Month shard: every transaction of the same month number and year goes to
   * the same file `YYYY-MM.txn`, directly in `txns`, and different months
   * or years never share one; day, time and index play no part.
   */
  lemma MonthJournalPath(setup: JournalSetup, a: Zoned, i: U32, b: Zoned, j: U32)
    requires setup.shardType == Month
    ensures JournalPath(setup, a, i).0 == TxnsDir(setup)
    ensures JournalPath(setup, a, i).1 == TxnsDir(setup) + [MonthJournalName(a)]
    ensures JournalPath(setup, a, i).1 == JournalPath(setup, b, j).1 <==> a.year == b.year && a.month == b.month
  {
    if JournalPath(setup, a, i).1 == JournalPath(setup, b, j).1 {
      var n := |TxnsDir(setup)|;
      assert JournalPath(setup, a, i).1[n] == MonthJournalName(a);
      MonthJournalNameInjective(a, b);
    }
  }

  /**
   * The program puts a month's journal directly in `txns`, as the doc
   * comment of `journal_path` says, while its help text and the writer's
   * test put it two directories deeper, under the year and the month; the
   * file name is the same. So, for every transaction, the path the program
   * writes is not the one the test expects.
   */
  lemma MonthPathsDiffer(setup: JournalSetup, ts: Zoned)
    ensures var (writtenDir, written) := MonthJournalPathAsWritten(setup, ts);
      var (expectedDir, expected) := MonthJournalPathExpected(setup, ts);
      && written != expected && writtenDir != expectedDir
      && written[|written| - 1] == expected[|expected| - 1]
      && expectedDir == writtenDir + [Decimal(ts.year), Padded(ts.month, 2)]
  {
    var written := MonthJournalPathAsWritten(setup, ts).1;
    var expected := MonthJournalPathExpected(setup, ts).1;
    assert |expected| == |written| + 2;
  }

  /** The stamp is 15 characters: fields of fixed width. */
  lemma TxnStampLength(ts: Zoned)
    ensures |TxnStamp(ts)| == 15
  {
    Pow10Values();
    PaddedWidth(ts.year, 4);
    PaddedWidth(ts.month, 2);
    PaddedWidth(ts.day, 2);
    PaddedWidth(ts.hour, 2);
    PaddedWidth(ts.minute, 2);
    PaddedWidth(ts.second, 2);
  }

  /** Equal stamps mean the same civil second. */
  lemma TxnStampInjective(a: Zoned, b: Zoned)
    requires TxnStamp(a) == TxnStamp(b)
    ensures SameSecond(a, b)
  {
    Pow10Values();
    PaddedWidth(a.month, 2);
    PaddedWidth(b.month, 2);
    PaddedWidth(a.day, 2);
    PaddedWidth(b.day, 2);
    PaddedWidth(a.hour, 2);
    PaddedWidth(b.hour, 2);
    PaddedWidth(a.minute, 2);
    PaddedWidth(b.minute, 2);
    PaddedWidth(a.second, 2);
    PaddedWidth(b.second, 2);
    // peel the fields off from the right
    var a5 := Padded(a.year, 4) + Padded(a.month, 2) + Padded(a.day, 2) + "T" + Padded(a.hour, 2) + Padded(a.minute, 2);
    var b5 := Padded(b.year, 4) + Padded(b.month, 2) + Padded(b.day, 2) + "T" + Padded(b.hour, 2) + Padded(b.minute, 2);
    SplitEqual(a5, Padded(a.second, 2), b5, Padded(b.second, 2));
    var a4 := Padded(a.year, 4) + Padded(a.month, 2) + Padded(a.day, 2) + "T" + Padded(a.hour, 2);
    var b4 := Padded(b.year, 4) + Padded(b.month, 2) + Padded(b.day, 2) + "T" + Padded(b.hour, 2);
    SplitEqual(a4, Padded(a.minute, 2), b4, Padded(b.minute, 2));
    var a3 := Padded(a.year, 4) + Padded(a.month, 2) + Padded(a.day, 2) + "T";
    var b3 := Padded(b.year, 4) + Padded(b.month, 2) + Padded(b.day, 2) + "T";
    SplitEqual(a3, Padded(a.hour, 2), b3, Padded(b.hour, 2));
    var a2 := Padded(a.year, 4) + Padded(a.month, 2);
    var b2 := Padded(b.year, 4) + Padded(b.month, 2);
    SplitEqual(a2 + Padded(a.day, 2), "T", b2 + Padded(b.day, 2), "T");
    SplitEqual(a2, Padded(a.day, 2), b2, Padded(b.day, 2));
    SplitEqual(Padded(a.year, 4), Padded(a.month, 2), Padded(b.year, 4), Padded(b.month, 2));
    PaddedDecimalInjective(a.year, b.year, 4);
    PaddedDecimalInjective(a.month, b.month, 2);
    PaddedDecimalInjective(a.day, b.day, 2);
    PaddedDecimalInjective(a.hour, b.hour, 2);
    PaddedDecimalInjective(a.minute, b.minute, 2);
    PaddedDecimalInjective(a.second, b.second, 2);
  }

  /** A transaction-shard name determines its civil second and its index. */
  lemma TxnJournalNameInjective(a: Zoned, i: U32, b: Zoned, j: U32)
    requires TxnJournalName(a, i) == TxnJournalName(b, j)
    ensures SameSecond(a, b) && i == j
  {
    TxnStampLength(a);
    TxnStampLength(b);
    assert TxnJournalName(a, i) == TxnStamp(a) + ("-" + Decimal(i) + ".txn");
    assert TxnJournalName(b, j) == TxnStamp(b) + ("-" + Decimal(j) + ".txn");
    SplitEqual(TxnStamp(a), "-" + Decimal(i) + ".txn", TxnStamp(b), "-" + Decimal(j) + ".txn");
    SplitEqual("-" + Decimal(i), ".txn", "-" + Decimal(j), ".txn");
    SplitEqual("-", Decimal(i), "-", Decimal(j));
    TxnStampInjective(a, b);
    DecimalInjective(i, j);
  }

  /**
   * Transaction shard: a file per (civil second, index), filed under
   * `txns/<year>/<month>/<day>`; two transactions share a file exactly when
   * they agree on both.
   */
  lemma TxnJournalPath(setup: JournalSetup, a: Zoned, i: U32, b: Zoned, j: U32)
    requires setup.shardType == Txn
    ensures JournalPath(setup, a, i).0 == TxnsDir(setup) + [Decimal(a.year), Padded(a.month, 2), Padded(a.day, 2)]
    ensures JournalPath(setup, a, i).1 == JournalPath(setup, b, j).1 <==> SameSecond(a, b) && i == j
  {
    TxnJournalPathParts(setup, a, i);
    TxnJournalPathParts(setup, b, j);
    if JournalPath(setup, a, i).1 == JournalPath(setup, b, j).1 {
      TxnJournalNameInjective(a, i, b, j);
    }
  }

  /** Transaction shard: the journal path is the day directory, then the file name. */
  lemma TxnJournalPathParts(setup: JournalSetup, ts: Zoned, idx: U32)
    requires setup.shardType == Txn
    ensures var dir := TxnsDir(setup) + [Decimal(ts.year), Padded(ts.month, 2), Padded(ts.day, 2)];
      JournalPath(setup, ts, idx) == (dir, dir + [TxnJournalName(ts, idx)])
    ensures var file, n := JournalPath(setup, ts, idx).1, |TxnsDir(setup)| + 3;
      |file| == n + 1 && file[n] == TxnJournalName(ts, idx)
      && file[..n] == TxnsDir(setup) + [Decimal(ts.year), Padded(ts.month, 2), Padded(ts.day, 2)]
  {
  }

  /**
   * The charts sit in `conf` of the set directory under flavour-specific
   * names, apart from each other and from every journal.
   */
  lemma ChartPathsApart(setup: JournalSetup, ts: Zoned, idx: U32)
    ensures ChartOfAccountsPath(setup).0 == ConfDir(setup) == ChartOfCommoditiesPath(setup).0
    ensures ChartOfAccountsPath(setup).1 == ConfDir(setup) + ["accounts." + ChartExtension(setup.flavor)]
    ensures ChartOfCommoditiesPath(setup).1 == ConfDir(setup) + ["commodities." + ChartExtension(setup.flavor)]
    ensures ChartOfAccountsPath(setup).1 != ChartOfCommoditiesPath(setup).1
    ensures ChartOfAccountsPath(setup).1 != JournalPath(setup, ts, idx).1
    ensures ChartOfCommoditiesPath(setup).1 != JournalPath(setup, ts, idx).1
  {
    var n := |TxnSetPath(setup)|;
    assert ChartOfAccountsPath(setup).1[n] == "conf" != "txns" == JournalPath(setup, ts, idx).1[n];
    assert ChartOfCommoditiesPath(setup).1[n] == "conf";
    assert ChartOfAccountsPath(setup).1[n + 1][0] == 'a';
    assert ChartOfCommoditiesPath(setup).1[n + 1][0] == 'c';
  }

  /**
   * The configuration file is `<root>/<set dir>.toml`, a sibling of the set
   * directory, so it never coincides with a chart or a journal.
   */
  lemma ConfigPathApart(setup: JournalSetup, ts: Zoned, idx: U32)
    ensures ConfigPath(setup).0 == setup.path
    ensures ConfigPath(setup).1 == setup.path + [TxnSetDir(setup) + ".toml"]
    ensures ConfigPath(setup).1 != JournalPath(setup, ts, idx).1
    ensures ConfigPath(setup).1 != ChartOfAccountsPath(setup).1
    ensures ConfigPath(setup).1 != ChartOfCommoditiesPath(setup).1
  {
    var n := |setup.path|;
    assert |ConfigPath(setup).1| == n + 1;
    JournalPathShape(setup, ts, idx);
    assert |JournalPath(setup, ts, idx).1| >= n + 3;
  }

  /** The set directory paths the program's tests expect. */
  lemma TxnSetPathGolden()
    ensures var root := ["target", "cbc1a015-a250-4041-ba81-21a26a414a4b"];
      && TxnSetPath(TryNewSetup(Ledger, root, Sz1e3, Single).value) == root + ["set-1e3-single"]
      && TxnSetPath(TryNewSetup(Tackler, root, Sz1e5, Month).value) == root + ["set-1e5-month"]
      && TxnSetPath(TryNewSetup(Tackler, root, Sz1e6, Txn).value) == root + ["set-1e6-txn"]
  {
    assert "set-" + "1e3" + "-single" == "set-1e3-single";
    assert "set-" + "1e5" + "-month" == "set-1e5-month";
    assert "set-" + "1e6" + "-txn" == "set-1e6-txn";
  }

  /** 2025-04-12T12:34:56 in UTC. */
  const GoldenTime: Zoned := DateTime(2025, 4, 12, 12, 34, 56, 0, 0)

  const GoldenRoot: Path := ["target", "746c112a-b6ad-44f4-b8f2-f2bb92953630"]

  lemma GoldenFields()
    ensures Decimal(2025) == "2025" && Padded(2025, 4) == "2025"
    ensures Padded(4, 2) == "04" && Padded(12, 2) == "12" && Padded(34, 2) == "34" && Padded(56, 2) == "56"
    ensures Decimal(333) == "333"
  {
    assert Decimal(2) == "2";
    assert Decimal(20) == "20";
    assert Decimal(202) == "202";
    assert Decimal(2025) == "2025";
    assert Decimal(3) == "3";
    assert Decimal(33) == "33";
    assert Decimal(333) == "333";
    assert Decimal(12) == "12";
    assert Decimal(34) == "34";
    assert Decimal(56) == "56";
    assert Decimal(4) == "4";
    assert Zeros(1) == "0";
    assert Padded(4, 2) == "0" + "4";
  }

  /** The single-shard Ledger journal path the program's tests expect for 2025-04-12T12:34:56. */
  lemma SingleJournalPathGolden()
    ensures JournalPath(JournalSetup(Ledger, GoldenRoot, Sz1e3, Single), GoldenTime, 0)
         == (GoldenRoot + ["set-1e3-single", "txns"], GoldenRoot + ["set-1e3-single", "txns", "1e3.journal"])
  {
    var setup := JournalSetup(Ledger, GoldenRoot, Sz1e3, Single);
    assert TxnSetDir(setup) == "set-1e3-single";
    assert TxnsDir(setup) == GoldenRoot + ["set-1e3-single", "txns"];
    assert SetSizeToken(setup.txnSet) + "." + JournalExtension(setup.flavor) == "1e3.journal";
    assert JournalPath(setup, GoldenTime, 0).1 == TxnsDir(setup) + ["1e3.journal"];
    assert TxnsDir(setup) + ["1e3.journal"] == GoldenRoot + ["set-1e3-single", "txns", "1e3.journal"];
  }

  lemma GoldenMonthNameParts()
    ensures MonthJournalName(GoldenTime) == "2025" + "-" + "04" + ".txn"
  {
    GoldenFields();
  }

  lemma GoldenMonthName()
    ensures MonthJournalName(GoldenTime) == "2025-04.txn"
  {
    GoldenMonthNameParts();
    assert "2025" + "-" + "04" + ".txn" == "2025-04.txn";
  }

  lemma GoldenStampParts()
    ensures TxnStamp(GoldenTime) == "2025" + "04" + "12" + "T" + "12" + "34" + "56"
  {
    GoldenFields();
  }

  lemma GoldenTxnNameParts()
    ensures TxnJournalName(GoldenTime, 333) == TxnStamp(GoldenTime) + "-" + "333" + ".txn"
  {
    GoldenFields();
  }

  lemma GoldenTxnName()
    ensures TxnJournalName(GoldenTime, 333) == "20250412T123456-333.txn"
  {
    GoldenStampParts();
    GoldenTxnNameParts();
    assert "2025" + "04" + "12" + "T" + "12" + "34" + "56" == "20250412T123456";
    assert "20250412T123456" + "-" + "333" + ".txn" == "20250412T123456-333.txn";
  }

  lemma GoldenTxnShard()
    ensures [Decimal(GoldenTime.year), Padded(GoldenTime.month, 2), Padded(GoldenTime.day, 2)] == ["2025", "04", "12"]
  {
    GoldenFields();
  }

  /**
   * The month-shard path for 2025-04-12T12:34:56 as the program builds it,
   * and so what `journal_path` returns: the file lies directly under
   * `txns`, not where the writer's test expects it.
   */
  lemma MonthJournalPathAsWrittenGolden()
    ensures JournalPath(JournalSetup(Tackler, GoldenRoot, Sz1e5, Month), GoldenTime, 0)
         == MonthJournalPathAsWritten(JournalSetup(Tackler, GoldenRoot, Sz1e5, Month), GoldenTime)
    ensures MonthJournalPathAsWritten(JournalSetup(Tackler, GoldenRoot, Sz1e5, Month), GoldenTime)
         == (GoldenRoot + ["set-1e5-month", "txns"], GoldenRoot + ["set-1e5-month", "txns", "2025-04.txn"])
    ensures MonthJournalPathAsWritten(JournalSetup(Tackler, GoldenRoot, Sz1e5, Month), GoldenTime).1
         != GoldenRoot + ["set-1e5-month", "txns", "2025", "04", "2025-04.txn"]
  {
    var setup := JournalSetup(Tackler, GoldenRoot, Sz1e5, Month);
    assert TxnSetDir(setup) == "set-1e5-month";
    assert TxnsDir(setup) == GoldenRoot + ["set-1e5-month", "txns"];
    GoldenMonthName();
    assert MonthJournalPathAsWritten(setup, GoldenTime).1 == TxnsDir(setup) + ["2025-04.txn"];
    assert TxnsDir(setup) + ["2025-04.txn"] == GoldenRoot + ["set-1e5-month", "txns", "2025-04.txn"];
  }

  /** The year and month directories of 2025-04-12: `2025/04`. */
  lemma GoldenMonthShard()
    ensures [Decimal(GoldenTime.year), Padded(GoldenTime.month, 2)] == ["2025", "04"]
  {
    GoldenFields();
  }

  /** The expected month-shard path put together from its directory parts and its file name. */
  lemma MonthPathFromParts(setup: JournalSetup, ts: Zoned, parts: seq<string>, name: string)
    requires [Decimal(ts.year), Padded(ts.month, 2)] == parts && MonthJournalName(ts) == name
    ensures MonthJournalPathExpected(setup, ts) == (TxnsDir(setup) + parts, TxnsDir(setup) + parts + [name])
  {
  }

  /** The month-shard path for 2025-04-12T12:34:56 that the writer's test expects. */
  lemma MonthJournalPathGolden()
    ensures MonthJournalPathExpected(JournalSetup(Tackler, GoldenRoot, Sz1e5, Month), GoldenTime)
         == (GoldenRoot + ["set-1e5-month", "txns", "2025", "04"], GoldenRoot + ["set-1e5-month", "txns", "2025", "04", "2025-04.txn"])
  {
    var setup := JournalSetup(Tackler, GoldenRoot, Sz1e5, Month);
    assert TxnSetDir(setup) == "set-1e5-month";
    assert TxnsDir(setup) == GoldenRoot + ["set-1e5-month", "txns"];
    GoldenMonthShard();
    GoldenMonthName();
    MonthPathFromParts(setup, GoldenTime, ["2025", "04"], "2025-04.txn");
    assert TxnsDir(setup) + ["2025", "04"] == GoldenRoot + ["set-1e5-month", "txns", "2025", "04"];
    assert TxnsDir(setup) + ["2025", "04"] + ["2025-04.txn"] == GoldenRoot + ["set-1e5-month", "txns", "2025", "04", "2025-04.txn"];
  }

  /**
   * The transaction-shard set directory the program's tests expect; with
   * `GoldenTxnShard`, `GoldenTxnName` and `TxnJournalPathParts` it gives
   * the journal path for 2025-04-12T12:34:56 and index 333.
   */
  lemma GoldenTxnDir()
    ensures TxnsDir(JournalSetup(Tackler, GoldenRoot, Sz1e6, Txn)) == GoldenRoot + ["set-1e6-txn", "txns"]
  {
    assert TxnSetDir(JournalSetup(Tackler, GoldenRoot, Sz1e6, Txn)) == "set-1e6-txn";
  }
}
