/**
 * The Tackler flavour: the plain, audit and commodity transactions, the two
 * TOML charts and the configuration file a Tackler test set is read with.
 * Every text is built with `writeln!`, so it is its lines, each followed by
 * a newline; the lemmas read the texts back with `Lines`.
 */
module Tackler {
  import opened Common
  import opened Text
  import opened Time
  import opened Setup
  import opened Generators
  import opened OrderedSets
  import TxnUuid

  // ---------------------------------------------------------------------
  // Transactions
  // ---------------------------------------------------------------------

  /** `{Y:0>4}-{M:0>2}-{D:0>2}`. */
  function IsoDate(ts: Zoned): string {
    Padded(ts.year, 4) + "-" + Padded(ts.month, 2) + "-" + Padded(ts.day, 2)
  }

  /** The first line of a transaction: `<when> (#<serial>) '<SET> txn-<idx>`. */
  function Header(when: string, txnSet: SetSize, idx: U32): string {
    when + " (#" + Serial(idx) + ") '" + SetTag(txnSet) + " txn-" + Decimal(idx)
  }

  /** `plain_txn`: dated header, the expense posting with the day as amount, the asset posting, a blank line. */
  function PlainTxn(txnSet: SetSize, ts: Zoned, idx: U32): string {
    JoinLines([Header(IsoDate(ts), txnSet, idx), "  " + PlainExpenses(ts) + "  " + Amount(ts), "  " + PlainAssets(ts), ""])
  }

  /** The identifier line of an audit transaction. */
  function UuidLine(v5: string -> string, cal: Calendar, txnSet: SetSize, ts: Zoned, idx: U32): string {
    "  # uuid: " + TxnUuid.TxnUuid(v5, txnSet, idx, cal.instantText(ts), Some("audit"))
  }

  /**
   * `audit_txn`: a header stamped with the extended time, the identifier of
   * the transaction's "audit" name, then the postings of a plain
   * transaction; it refers to the asset and the expense account and to no
   * commodity.
   */
  function AuditTxn(v5: string -> string, cal: Calendar, txnSet: SetSize, ts: Zoned, idx: U32): Rendered {
    var assets, expenses := PlainAssets(ts), PlainExpenses(ts);
    var text := JoinLines([Header(cal.extendedText(ts), txnSet, idx), UuidLine(v5, cal, txnSet, ts, idx),
                           "  " + expenses + "  " + Amount(ts), "  " + assets, ""]);
    Rendered(text, TxnAccComm([assets, expenses], []))
  }

  /**
   * `commodity_txn`: the dated header, the expense posting in the commodity
   * of the day, the asset posting; it refers to both accounts and to the
   * commodity.
   */
  function CommodityTxn(txnSet: SetSize, ts: Zoned, idx: U32): Rendered {
    var assets, expenses, commodity := CommodityAssets(ts), CommodityExpenses(ts), CommodityName(ts);
    var text := JoinLines([Header(IsoDate(ts), txnSet, idx), "  " + expenses + "  " + Amount(ts) + " " + commodity,
                           "  " + assets, ""]);
    Rendered(text, TxnAccComm([assets, expenses], [commodity]))
  }

  lemma HeaderSingleLine(when: string, txnSet: SetSize, idx: U32)
    requires Free(when, '\n')
    ensures Free(Header(when, txnSet, idx), '\n')
  {
    NumbersSingleLine(idx, 7);
    SetTagSingleLine(txnSet);
  }

  lemma IsoDateSingleLine(ts: Zoned)
    ensures Free(IsoDate(ts), '\n')
  {
    FieldsSingleLine(ts, 0);
  }

  /** The header of a dated transaction is a single line. */
  lemma DatedHeaderSingleLine(txnSet: SetSize, ts: Zoned, idx: U32)
    ensures Free(Header(IsoDate(ts), txnSet, idx), '\n')
  {
    IsoDateSingleLine(ts);
    HeaderSingleLine(IsoDate(ts), txnSet, idx);
  }

  /** Posting lines built from single-line parts are single lines. */
  lemma PostingsSingleLine(account: string, amount: string, commodity: string)
    requires Free(account, '\n') && Free(amount, '\n') && Free(commodity, '\n')
    ensures Free("  " + account, '\n')
    ensures Free("  " + account + "  " + amount, '\n')
    ensures Free("  " + account + "  " + amount + " " + commodity, '\n')
  {
  }

  lemma PlainPostingsSingleLine(ts: Zoned)
    ensures Free("  " + PlainExpenses(ts) + "  " + Amount(ts), '\n') && Free("  " + PlainAssets(ts), '\n')
  {
    PlainNamesSingleLine(ts);
    FieldsSingleLine(ts, 0);
    PostingsSingleLine(PlainExpenses(ts), Amount(ts), "");
    PostingsSingleLine(PlainAssets(ts), "", "");
  }

  lemma CommodityPostingsSingleLine(ts: Zoned)
    ensures Free("  " + CommodityExpenses(ts) + "  " + Amount(ts) + " " + CommodityName(ts), '\n')
    ensures Free("  " + CommodityAssets(ts), '\n')
  {
    CommodityAccountsSingleLine(ts);
    CommodityCodeSingleLine(ts);
    FieldsSingleLine(ts, 0);
    PostingsSingleLine(CommodityExpenses(ts), Amount(ts), CommodityName(ts));
    PostingsSingleLine(CommodityAssets(ts), "", "");
  }

  /**
   * Reading a plain transaction back line by line gives its header, the
   * expense posting with the unpadded day, the asset posting and the blank
   * line, in that order.
   */
  lemma PlainTxnReadsBack(txnSet: SetSize, ts: Zoned, idx: U32)
    ensures Lines(PlainTxn(txnSet, ts, idx))
         == [Header(IsoDate(ts), txnSet, idx), "  " + PlainExpenses(ts) + "  " + Amount(ts),
             "  " + PlainAssets(ts), ""]
  {
    DatedHeaderSingleLine(txnSet, ts, idx);
    PlainPostingsSingleLine(ts);
    LinesOfBlock3(Header(IsoDate(ts), txnSet, idx), "  " + PlainExpenses(ts) + "  " + Amount(ts), "  " + PlainAssets(ts));
  }

  /**
   * Reading an audit transaction back gives its header, its identifier line
   * and the postings, and the postings name exactly the accounts it returns,
   * expense first; it returns no commodity. The extended time and the
   * identifier are assumed to be single lines, as their formats are.
   */
  lemma AuditTxnReadsBack(v5: string -> string, cal: Calendar, txnSet: SetSize, ts: Zoned, idx: U32)
    requires Free(cal.extendedText(ts), '\n')
    requires Free(TxnUuid.TxnUuid(v5, txnSet, idx, cal.instantText(ts), Some("audit")), '\n')
    ensures var r := AuditTxn(v5, cal, txnSet, ts, idx);
      && |r.refs.accounts| == 2 && r.refs.commodities == []
      && Lines(r.text) == [Header(cal.extendedText(ts), txnSet, idx), UuidLine(v5, cal, txnSet, ts, idx),
                           "  " + r.refs.accounts[1] + "  " + Amount(ts), "  " + r.refs.accounts[0], ""]
  {
    HeaderSingleLine(cal.extendedText(ts), txnSet, idx);
    PlainPostingsSingleLine(ts);
    LinesOfBlock4(Header(cal.extendedText(ts), txnSet, idx), UuidLine(v5, cal, txnSet, ts, idx),
                  "  " + PlainExpenses(ts) + "  " + Amount(ts), "  " + PlainAssets(ts));
  }

  /**
   * Reading a commodity transaction back gives its dated header, the
   * expense posting in the commodity it returns and the asset posting; the
   * postings name exactly the accounts it returns, and those are the
   * commodity-style accounts of the day.
   */
  lemma CommodityTxnReadsBack(txnSet: SetSize, ts: Zoned, idx: U32)
    ensures var r := CommodityTxn(txnSet, ts, idx);
      && r.refs == TxnAccComm([CommodityAssets(ts), CommodityExpenses(ts)], [CommodityName(ts)])
      && Lines(r.text) == [Header(IsoDate(ts), txnSet, idx),
                           "  " + r.refs.accounts[1] + "  " + Amount(ts) + " " + r.refs.commodities[0],
                           "  " + r.refs.accounts[0], ""]
  {
    DatedHeaderSingleLine(txnSet, ts, idx);
    CommodityPostingsSingleLine(ts);
    LinesOfBlock3(Header(IsoDate(ts), txnSet, idx), "  " + CommodityExpenses(ts) + "  " + Amount(ts) + " " + CommodityName(ts),
                  "  " + CommodityAssets(ts));
  }

  // ---------------------------------------------------------------------
  // The transactions of the program's tests: a thousand, number 999, 2024-12-31
  // ---------------------------------------------------------------------

  lemma IsoDateText(y: string, m: string, d: string)
    requires y == "2024" && m == "12" && d == "31"
    ensures y + "-" + m + "-" + d == "2024-12-31"
  {
  }

  lemma IsoDateGiven(ts: Zoned)
    requires Padded(ts.year, 4) == "2024" && Padded(ts.month, 2) == "12" && Padded(ts.day, 2) == "31"
    ensures IsoDate(ts) == "2024-12-31"
  {
    IsoDateText(Padded(ts.year, 4), Padded(ts.month, 2), Padded(ts.day, 2));
  }

  lemma GoldenIsoDate(ts: Zoned)
    requires OnGoldenDay(ts)
    ensures IsoDate(ts) == "2024-12-31"
  {
    GoldenPieces(ts);
    IsoDateGiven(ts);
  }

  lemma HeaderText(when: string, serial: string, tag: string, number: string)
    requires serial == "0000999" && tag == "1E3" && number == "999"
    ensures when + " (#" + serial + ") '" + tag + " txn-" + number == when + " (#0000999) '1E3 txn-999"
  {
  }

  /** The header of transaction 999 of a thousand. */
  lemma GoldenHeader(when: string)
    ensures Header(when, Sz1e3, 999) == when + " (#0000999) '1E3 txn-999"
  {
    GoldenSerial();
    GoldenSetTag();
    HeaderText(when, Serial(999), SetTag(Sz1e3), Decimal(999));
  }

  lemma PlainPostingsText(expenses: string, amount: string, assets: string)
    requires expenses == "e:ey2024:em12:ed31" && amount == "31.0000001" && assets == "a:ay2024:am12"
    ensures "  " + expenses + "  " + amount == "  e:ey2024:em12:ed31  31.0000001"
    ensures "  " + assets == "  a:ay2024:am12"
  {
  }

  lemma PlainTxnGiven(txnSet: SetSize, ts: Zoned, idx: U32)
    requires Header(IsoDate(ts), txnSet, idx) == "2024-12-31 (#0000999) '1E3 txn-999"
    requires PlainExpenses(ts) == "e:ey2024:em12:ed31" && Amount(ts) == "31.0000001"
    requires PlainAssets(ts) == "a:ay2024:am12"
    ensures PlainTxn(txnSet, ts, idx) == JoinLines([
      "2024-12-31 (#0000999) '1E3 txn-999",
      "  e:ey2024:em12:ed31  31.0000001",
      "  a:ay2024:am12",
      ""])
  {
    PlainPostingsText(PlainExpenses(ts), Amount(ts), PlainAssets(ts));
  }

  /** Transaction 999 of a thousand on 2024-12-31, the case of the program's tests. */
  predicate IsGoldenTxn(txnSet: SetSize, ts: Zoned, idx: U32) {
    txnSet == Sz1e3 && idx == 999 && OnGoldenDay(ts)
  }

  lemma GoldenHeaderOf(ts: Zoned, txnSet: SetSize, idx: U32)
    requires IsGoldenTxn(txnSet, ts, idx)
    ensures Header(IsoDate(ts), txnSet, idx) == "2024-12-31 (#0000999) '1E3 txn-999"
  {
    GoldenHeader(IsoDate(ts));
    GoldenIsoDate(ts);
    DatedHeaderText(IsoDate(ts));
  }

  lemma DatedHeaderText(when: string)
    requires when == "2024-12-31"
    ensures when + " (#0000999) '1E3 txn-999" == "2024-12-31 (#0000999) '1E3 txn-999"
  {
  }

  lemma GoldenPlainPieces(txnSet: SetSize, ts: Zoned, idx: U32)
    requires IsGoldenTxn(txnSet, ts, idx)
    ensures Header(IsoDate(ts), txnSet, idx) == "2024-12-31 (#0000999) '1E3 txn-999"
    ensures PlainExpenses(ts) == "e:ey2024:em12:ed31" && Amount(ts) == "31.0000001"
    ensures PlainAssets(ts) == "a:ay2024:am12"
  {
    GoldenHeaderOf(ts, txnSet, idx);
    GoldenPlainAccounts(ts);
    GoldenAmount(ts);
  }

  /**
   * Transaction 999 of a thousand on 2024-12-31 is the text the program's
   * test expects, written here as the lines it is made of.
   */
  lemma PlainTxnGolden(txnSet: SetSize, ts: Zoned, idx: U32)
    requires IsGoldenTxn(txnSet, ts, idx)
    ensures PlainTxn(txnSet, ts, idx) == JoinLines([
      "2024-12-31 (#0000999) '1E3 txn-999",
      "  e:ey2024:em12:ed31  31.0000001",
      "  a:ay2024:am12",
      ""])
  {
    GoldenPlainPieces(txnSet, ts, idx);
    PlainTxnGiven(txnSet, ts, idx);
  }

  lemma CommodityPostingsText(expenses: string, amount: string, commodity: string, assets: string)
    requires expenses == "Expenses:Ey2024:Em12:Ed31" && amount == "31.0000001" && commodity == "EUR"
    requires assets == "Assets:Ay2024:Am12"
    ensures "  " + expenses + "  " + amount + " " + commodity == "  Expenses:Ey2024:Em12:Ed31  31.0000001 EUR"
    ensures "  " + assets == "  Assets:Ay2024:Am12"
  {
    assert "  " + expenses + "  " == "  Expenses:Ey2024:Em12:Ed31  ";
    assert amount + " " + commodity == "31.0000001 EUR";
  }

  lemma CommodityTxnGiven(txnSet: SetSize, ts: Zoned, idx: U32)
    requires Header(IsoDate(ts), txnSet, idx) == "2024-12-31 (#0000999) '1E3 txn-999"
    requires CommodityExpenses(ts) == "Expenses:Ey2024:Em12:Ed31" && Amount(ts) == "31.0000001"
    requires CommodityName(ts) == "EUR" && CommodityAssets(ts) == "Assets:Ay2024:Am12"
    ensures CommodityTxn(txnSet, ts, idx).text == JoinLines([
      "2024-12-31 (#0000999) '1E3 txn-999",
      "  Expenses:Ey2024:Em12:Ed31  31.0000001 EUR",
      "  Assets:Ay2024:Am12",
      ""])
    ensures CommodityTxn(txnSet, ts, idx).refs
         == TxnAccComm(["Assets:Ay2024:Am12", "Expenses:Ey2024:Em12:Ed31"], ["EUR"])
  {
    CommodityPostingsText(CommodityExpenses(ts), Amount(ts), CommodityName(ts), CommodityAssets(ts));
  }

  lemma GoldenCommodityPieces(txnSet: SetSize, ts: Zoned, idx: U32)
    requires IsGoldenTxn(txnSet, ts, idx)
    ensures Header(IsoDate(ts), txnSet, idx) == "2024-12-31 (#0000999) '1E3 txn-999"
    ensures CommodityExpenses(ts) == "Expenses:Ey2024:Em12:Ed31" && Amount(ts) == "31.0000001"
    ensures CommodityName(ts) == "EUR" && CommodityAssets(ts) == "Assets:Ay2024:Am12"
  {
    GoldenHeaderOf(ts, txnSet, idx);
    GoldenCommodityAccounts(ts);
    GoldenAmount(ts);
    CommodityNameGolden(ts);
  }

  /**
   * The commodity transaction 999 of a thousand on 2024-12-31: the lines the
   * program's test expects, both accounts and the euro as the commodity of
   * the 31st.
   */
  lemma CommodityTxnGolden(txnSet: SetSize, ts: Zoned, idx: U32)
    requires IsGoldenTxn(txnSet, ts, idx)
    ensures CommodityTxn(txnSet, ts, idx).text == JoinLines([
      "2024-12-31 (#0000999) '1E3 txn-999",
      "  Expenses:Ey2024:Em12:Ed31  31.0000001 EUR",
      "  Assets:Ay2024:Am12",
      ""])
    ensures CommodityTxn(txnSet, ts, idx).refs
         == TxnAccComm(["Assets:Ay2024:Am12", "Expenses:Ey2024:Em12:Ed31"], ["EUR"])
  {
    GoldenCommodityPieces(txnSet, ts, idx);
    CommodityTxnGiven(txnSet, ts, idx);
  }

  /** 2024-12-31T23:58:00Z seen in UTC: the two renderings the audit transaction uses. */
  predicate AtGoldenInstant(cal: Calendar, ts: Zoned) {
    && cal.instantText(ts) == "2024-12-31T23:58:00Z"
    && cal.extendedText(ts) == "2024-12-31T23:58:00+00:00"
  }

  lemma StampedHeaderText(when: string)
    requires when == "2024-12-31T23:58:00+00:00"
    ensures when + " (#0000999) '1E3 txn-999" == "2024-12-31T23:58:00+00:00 (#0000999) '1E3 txn-999"
  {
  }

  lemma UuidLineText(uuid: string)
    requires uuid == "8e43c795-8fb1-552e-9dde-eae36f233676"
    ensures "  # uuid: " + uuid == "  # uuid: 8e43c795-8fb1-552e-9dde-eae36f233676"
  {
  }

  lemma GoldenAuditHeader(cal: Calendar, txnSet: SetSize, ts: Zoned, idx: U32)
    requires IsGoldenTxn(txnSet, ts, idx) && AtGoldenInstant(cal, ts)
    ensures Header(cal.extendedText(ts), txnSet, idx) == "2024-12-31T23:58:00+00:00 (#0000999) '1E3 txn-999"
  {
    GoldenHeader(cal.extendedText(ts));
    StampedHeaderText(cal.extendedText(ts));
  }

  lemma GoldenUuidLine(v5: string -> string, cal: Calendar, txnSet: SetSize, ts: Zoned, idx: U32)
    requires IsGoldenTxn(txnSet, ts, idx) && AtGoldenInstant(cal, ts)
    requires TxnUuid.AgreesWithPublishedVectors(v5)
    ensures UuidLine(v5, cal, txnSet, ts, idx) == "  # uuid: 8e43c795-8fb1-552e-9dde-eae36f233676"
  {
    TxnUuid.TxnUuidGolden(v5);
    UuidLineText(TxnUuid.TxnUuid(v5, txnSet, idx, cal.instantText(ts), Some("audit")));
  }

  lemma AuditTxnGiven(v5: string -> string, cal: Calendar, txnSet: SetSize, ts: Zoned, idx: U32)
    requires Header(cal.extendedText(ts), txnSet, idx) == "2024-12-31T23:58:00+00:00 (#0000999) '1E3 txn-999"
    requires UuidLine(v5, cal, txnSet, ts, idx) == "  # uuid: 8e43c795-8fb1-552e-9dde-eae36f233676"
    requires PlainExpenses(ts) == "e:ey2024:em12:ed31" && Amount(ts) == "31.0000001"
    requires PlainAssets(ts) == "a:ay2024:am12"
    ensures AuditTxn(v5, cal, txnSet, ts, idx).text == JoinLines([
      "2024-12-31T23:58:00+00:00 (#0000999) '1E3 txn-999",
      "  # uuid: 8e43c795-8fb1-552e-9dde-eae36f233676",
      "  e:ey2024:em12:ed31  31.0000001",
      "  a:ay2024:am12",
      ""])
    ensures AuditTxn(v5, cal, txnSet, ts, idx).refs == TxnAccComm(["a:ay2024:am12", "e:ey2024:em12:ed31"], [])
  {
    PlainPostingsText(PlainExpenses(ts), Amount(ts), PlainAssets(ts));
  }

  /**
   * The audit transaction 999 of a thousand at 2024-12-31T23:58:00Z in UTC,
   * with a hash that agrees with the published version-5 identifiers: the
   * lines the program's test expects.
   */
  lemma AuditTxnGolden(v5: string -> string, cal: Calendar, txnSet: SetSize, ts: Zoned, idx: U32)
    requires IsGoldenTxn(txnSet, ts, idx) && AtGoldenInstant(cal, ts)
    requires TxnUuid.AgreesWithPublishedVectors(v5)
    ensures AuditTxn(v5, cal, txnSet, ts, idx).text == JoinLines([
      "2024-12-31T23:58:00+00:00 (#0000999) '1E3 txn-999",
      "  # uuid: 8e43c795-8fb1-552e-9dde-eae36f233676",
      "  e:ey2024:em12:ed31  31.0000001",
      "  a:ay2024:am12",
      ""])
    ensures AuditTxn(v5, cal, txnSet, ts, idx).refs == TxnAccComm(["a:ay2024:am12", "e:ey2024:em12:ed31"], [])
  {
    GoldenAuditHeader(cal, txnSet, ts, idx);
    GoldenUuidLine(v5, cal, txnSet, ts, idx);
    GoldenPlainAccounts(ts);
    GoldenAmount(ts);
    AuditTxnGiven(v5, cal, txnSet, ts, idx);
  }

  // ---------------------------------------------------------------------
  // Charts
  // ---------------------------------------------------------------------

  /** `   "<name>",`: one element of a TOML list, on a line of its own. */
  function Entry(name: string): string {
    "   \"" + name + "\","
  }

  /** The name an element line holds, between the opening and the closing quote. */
  function EntryName(line: string): string {
    if |line| >= 6 then line[4..|line| - 2] else ""
  }

  lemma EntryNameEntry(name: string)
    ensures EntryName(Entry(name)) == name
  {
    assert Entry(name)[4..|Entry(name)| - 2] == name;
  }

  /** One element line per name, in order. */
  function Entries(names: seq<string>): (ls: seq<string>)
    ensures |ls| == |names|
    ensures forall k :: 0 <= k < |names| ==> ls[k] == Entry(names[k])
  {
    if names == [] then [] else Entries(names[..|names| - 1]) + [Entry(names[|names| - 1])]
  }

  function AccountsChartLines(accounts: seq<string>): seq<string> {
    ["accounts = ["] + Entries(accounts) + ["]"]
  }

  function CommoditiesChartLines(commodities: seq<string>): seq<string> {
    ["permit-empty-commodity = true", "commodities = ["] + Entries(commodities) + ["]"]
  }

  /** The opening lines followed by the entries of `names[..i]`, extended by the entry of `names[i]`. */
  lemma EntriesSnoc(opening: seq<string>, names: seq<string>, i: nat)
    requires i < |names|
    ensures JoinLines(opening + Entries(names[..i])) + Entry(names[i]) + "\n"
         == JoinLines(opening + Entries(names[..i + 1]))
  {
    JoinLinesSnoc(opening + Entries(names[..i]), Entry(names[i]));
    assert names[..i + 1][..i] == names[..i];
    assert opening + Entries(names[..i]) + [Entry(names[i])] == opening + Entries(names[..i + 1]);
  }

  /** `chart_of_accounts`: the accounts as the TOML list `accounts`, one per line, in the order given. */
  method ChartOfAccounts(accounts: seq<string>) returns (chart: string)
    ensures chart == JoinLines(AccountsChartLines(accounts))
  {
    chart := "accounts = [" + "\n";
    assert chart == JoinLines(["accounts = ["] + Entries(accounts[..0]));
    for i := 0 to |accounts|
      invariant chart == JoinLines(["accounts = ["] + Entries(accounts[..i]))
    {
      EntriesSnoc(["accounts = ["], accounts, i);
      chart := chart + Entry(accounts[i]) + "\n";
    }
    assert accounts[..|accounts|] == accounts;
    JoinLinesSnoc(["accounts = ["] + Entries(accounts), "]");
    chart := chart + "]" + "\n";
  }

  /**
   * `chart_of_commodities`: the flag that allows postings without a
   * commodity, then the commodities as the TOML list `commodities`.
   */
  method ChartOfCommodities(commodities: seq<string>) returns (chart: string)
    ensures chart == JoinLines(CommoditiesChartLines(commodities))
  {
    chart := "permit-empty-commodity = true" + "\n";
    chart := chart + "commodities = [" + "\n";
    assert JoinLines(["commodities = ["]) == "commodities = [" + "\n";
    assert chart == JoinLines(["permit-empty-commodity = true", "commodities = ["] + Entries(commodities[..0]));
    for i := 0 to |commodities|
      invariant chart == JoinLines(["permit-empty-commodity = true", "commodities = ["] + Entries(commodities[..i]))
    {
      EntriesSnoc(["permit-empty-commodity = true", "commodities = ["], commodities, i);
      chart := chart + Entry(commodities[i]) + "\n";
    }
    assert commodities[..|commodities|] == commodities;
    JoinLinesSnoc(["permit-empty-commodity = true", "commodities = ["] + Entries(commodities), "]");
    chart := chart + "]" + "\n";
  }

  lemma EntriesSingleLine(names: seq<string>)
    requires forall k :: 0 <= k < |names| ==> Free(names[k], '\n')
    ensures forall k :: 0 <= k < |names| ==> Free(Entries(names)[k], '\n')
  {
  }

  /**
   * Reading the chart of accounts back gives the opening line, one element
   * line per account holding exactly that account, in the order given, and
   * the closing line. Given a `BTreeSet`'s contents the elements are
   * therefore ascending and each appears once.
   */
  lemma ChartOfAccountsReadsBack(accounts: seq<string>)
    requires forall k :: 0 <= k < |accounts| ==> Free(accounts[k], '\n')
    ensures var ls := Lines(JoinLines(AccountsChartLines(accounts)));
      && |ls| == |accounts| + 2 && ls[0] == "accounts = [" && ls[|ls| - 1] == "]"
      && forall k :: 0 <= k < |accounts| ==> EntryName(ls[k + 1]) == accounts[k]
  {
    EntriesSingleLine(accounts);
    var lines := AccountsChartLines(accounts);
    assert forall k :: 0 <= k < |lines| ==> Free(lines[k], '\n') by {
      forall k | 0 <= k < |lines| ensures Free(lines[k], '\n') {
        if 0 < k < |lines| - 1 {
          assert lines[k] == Entries(accounts)[k - 1];
        }
      }
    }
    LinesJoinLines(lines);
    forall k | 0 <= k < |accounts| ensures EntryName(lines[k + 1]) == accounts[k] {
      EntryNameEntry(accounts[k]);
    }
  }

  /**
   * Reading the chart of commodities back gives the permit line, the
   * opening line, one element line per commodity in the order given, and
   * the closing line.
   */
  lemma ChartOfCommoditiesReadsBack(commodities: seq<string>)
    requires forall k :: 0 <= k < |commodities| ==> Free(commodities[k], '\n')
    ensures var ls := Lines(JoinLines(CommoditiesChartLines(commodities)));
      && |ls| == |commodities| + 3
      && ls[0] == "permit-empty-commodity = true" && ls[1] == "commodities = [" && ls[|ls| - 1] == "]"
      && forall k :: 0 <= k < |commodities| ==> EntryName(ls[k + 2]) == commodities[k]
  {
    EntriesSingleLine(commodities);
    var lines := CommoditiesChartLines(commodities);
    assert forall k :: 0 <= k < |lines| ==> Free(lines[k], '\n') by {
      forall k | 0 <= k < |lines| ensures Free(lines[k], '\n') {
        if 1 < k < |lines| - 1 {
          assert lines[k] == Entries(commodities)[k - 2];
        }
      }
    }
    LinesJoinLines(lines);
    forall k | 0 <= k < |commodities| ensures EntryName(lines[k + 2]) == commodities[k] {
      EntryNameEntry(commodities[k]);
    }
  }

  /** An ordered chart lists its elements in strictly ascending order, so each once. */
  lemma ChartOfAccountsAscending(accounts: seq<string>)
    requires Ordered(accounts)
    requires forall k :: 0 <= k < |accounts| ==> Free(accounts[k], '\n')
    ensures var ls := Lines(JoinLines(AccountsChartLines(accounts)));
      forall i, j :: 1 <= i < j < |ls| - 1 ==> Below(EntryName(ls[i]), EntryName(ls[j]))
  {
    ChartOfAccountsReadsBack(accounts);
    var ls := Lines(JoinLines(AccountsChartLines(accounts)));
    forall i, j | 1 <= i < j < |ls| - 1 ensures Below(EntryName(ls[i]), EntryName(ls[j])) {
      assert EntryName(ls[i]) == accounts[i - 1] && EntryName(ls[j]) == accounts[j - 1];
    }
  }

  // ---------------------------------------------------------------------
  // Configuration
  // ---------------------------------------------------------------------

  /** Rust's `Display for bool`. */
  function BoolText(b: bool): string {
    if b then "true" else "false"
  }

  /** The chart of accounts the configuration refers to: the chart under the set directory, or "none". */
  function AccountsRef(strict: bool, setup: JournalSetup): string {
    if strict then TxnSetDir(setup) + "/conf/accounts.toml" else "none"
  }

  /** The chart of commodities the configuration refers to: the chart under the set directory, or "none". */
  function CommoditiesRef(strict: bool, setup: JournalSetup): string {
    if strict then TxnSetDir(setup) + "/conf/commodities.toml" else "none"
  }

  // Lines longer than a few dozen characters are written as concatenations
  // at their TOML key boundaries; the text is the same.

  function KernelSection(strict: bool, audit: bool): seq<string> {
    [ "#",
      "[kernel]",
      "strict = " + BoolText(strict),
      "audit = { mode = " + BoolText(audit) + ", hash = \"SHA-256\" }",
      "timestamp = { " + "default-time = 00:00:00, " + "timezone = { name = \"UTC\" } }",
      "" ]
  }

  function InputSection(dir: string): seq<string> {
    [ "[kernel.input]",
      "storage = \"fs\"",
      "fs  = { path = \"" + dir + "\",      " + "dir = \"txns\", " + "suffix = \"txn\" }",
      "git = { repo = \"" + dir + "/.git\", " + "dir = \"txns\", " + "suffix = \"txn\", " + "ref = \"main\" }",
      "" ]
  }

  function TransactionSection(accounts: string, commodities: string): seq<string> {
    [ "[transaction]",
      "accounts    = { path = \"" + accounts + "\" }",
      "commodities = { path = \"" + commodities + "\" }",
      "tags        = " + "{ path = \"none\" }",
      "" ]
  }

  function ReportSection(txnSet: string): seq<string> {
    [ "[report]",
      "report-timezone = \"UTC\"",
      "scale = { min = 2, max = 7 }",
      "accounts = [ ]",
      "targets = [ \"balance\" ]",
      "",
      "balance       = { " + "title = \"Tackler: " + txnSet + " Balance Report\", " + "type = \"flat\" }",
      "balance-group = { " + "title = \"Tackler: " + txnSet + " Balance Group Report\", "
        + "type = \"flat\", " + "group-by = \"month\" }",
      "register      = { " + "title = \"Tackler: " + txnSet + " Register Report\" }",
      "" ]
  }

  function ExportSection(): seq<string> {
    [ "[export]",
      "targets = [ ]",
      "equity = { " + "accounts = [ \"Assets(:.*)?\", ], " + "equity-account = \"Equity:Balance\" }" ]
  }

  function ConfigLines(strict: bool, audit: bool, setup: JournalSetup): seq<string> {
    KernelSection(strict, audit)
    + InputSection(TxnSetDir(setup))
    + TransactionSection(AccountsRef(strict, setup), CommoditiesRef(strict, setup))
    + ReportSection(SetSizeDisplay(setup.txnSet))
    + ExportSection()
  }

  /** `config`: the Tackler configuration of a set, written next to the set directory. */
  function Config(strict: bool, audit: bool, setup: JournalSetup): string {
    JoinLines(ConfigLines(strict, audit, setup))
  }

  lemma KernelSingleLine(strict: bool, audit: bool)
    ensures SingleLines(KernelSection(strict, audit))
  {
    assert Free(BoolText(strict), '\n') && Free(BoolText(audit), '\n');
  }

  lemma InputSingleLine(dir: string)
    requires Free(dir, '\n')
    ensures SingleLines(InputSection(dir))
  {
  }

  lemma TransactionSingleLine(accounts: string, commodities: string)
    requires Free(accounts, '\n') && Free(commodities, '\n')
    ensures SingleLines(TransactionSection(accounts, commodities))
  {
  }

  lemma BalanceTitleSingleLine(txnSet: string)
    requires Free(txnSet, '\n')
    ensures Free("balance       = { " + "title = \"Tackler: " + txnSet + " Balance Report\", " + "type = \"flat\" }", '\n')
  {
  }

  lemma GroupTitleSingleLine(txnSet: string)
    requires Free(txnSet, '\n')
    ensures Free("balance-group = { " + "title = \"Tackler: " + txnSet + " Balance Group Report\", "
                 + "type = \"flat\", " + "group-by = \"month\" }", '\n')
  {
  }

  lemma RegisterTitleSingleLine(txnSet: string)
    requires Free(txnSet, '\n')
    ensures Free("register      = { " + "title = \"Tackler: " + txnSet + " Register Report\" }", '\n')
  {
  }

  lemma ReportSingleLine(txnSet: string)
    requires Free(txnSet, '\n')
    ensures SingleLines(ReportSection(txnSet))
  {
    BalanceTitleSingleLine(txnSet);
    GroupTitleSingleLine(txnSet);
    RegisterTitleSingleLine(txnSet);
    var ls := ReportSection(txnSet);
    assert SingleLines(ls[..6]);
  }

  lemma ExportSingleLine()
    ensures SingleLines(ExportSection())
  {
  }

  lemma SetDirSingleLine(setup: JournalSetup)
    ensures Free(TxnSetDir(setup), '\n')
  {
    TxnSetDirNamesSetAndShard(setup);
    assert Free(SetSizeToken(setup.txnSet), '\n');
  }

  lemma RefsSingleLine(strict: bool, setup: JournalSetup)
    ensures Free(AccountsRef(strict, setup), '\n') && Free(CommoditiesRef(strict, setup), '\n')
  {
    SetDirSingleLine(setup);
  }

  lemma SetSizeDisplaySingleLine(x: SetSize)
    ensures Free(SetSizeDisplay(x), '\n')
  {
  }

  lemma ConfigSingleLines(strict: bool, audit: bool, setup: JournalSetup)
    ensures SingleLines(ConfigLines(strict, audit, setup))
  {
    var dir := TxnSetDir(setup);
    KernelSingleLine(strict, audit);
    SetDirSingleLine(setup);
    InputSingleLine(dir);
    RefsSingleLine(strict, setup);
    TransactionSingleLine(AccountsRef(strict, setup), CommoditiesRef(strict, setup));
    SetSizeDisplaySingleLine(setup.txnSet);
    ReportSingleLine(SetSizeDisplay(setup.txnSet));
    ExportSingleLine();
  }

  /**
   * The configuration reads back as its 29 lines: the kernel's strict and
   * audit switches, the set directory as the input, the two chart
   * references and the set's size in the report titles.
   */
  lemma ConfigReadsBack(strict: bool, audit: bool, setup: JournalSetup)
    ensures var ls := Lines(Config(strict, audit, setup));
      && |ls| == 29
      && ls[2] == "strict = " + BoolText(strict)
      && ls[3] == "audit = { mode = " + BoolText(audit) + ", hash = \"SHA-256\" }"
      && ls[8] == "fs  = { path = \"" + TxnSetDir(setup) + "\",      " + "dir = \"txns\", " + "suffix = \"txn\" }"
      && ls[12] == "accounts    = { path = \"" + AccountsRef(strict, setup) + "\" }"
      && ls[13] == "commodities = { path = \"" + CommoditiesRef(strict, setup) + "\" }"
      && ls[22] == "balance       = { " + "title = \"Tackler: " + SetSizeDisplay(setup.txnSet) + " Balance Report\", " + "type = \"flat\" }"
  {
    ConfigSingleLines(strict, audit, setup);
    LinesJoinLines(ConfigLines(strict, audit, setup));
  }

  /**
   * In strict mode the configuration, which sits next to the set directory,
   * refers to the charts where the set's charts are written; otherwise to
   * no chart at all.
   */
  lemma ConfigRefsResolve(strict: bool, setup: JournalSetup)
    requires setup.flavor == Tackler
    ensures strict ==> ConfigPath(setup).0 + Split(AccountsRef(strict, setup), '/') == ChartOfAccountsPath(setup).1
    ensures strict ==> ConfigPath(setup).0 + Split(CommoditiesRef(strict, setup), '/') == ChartOfCommoditiesPath(setup).1
    ensures !strict ==> AccountsRef(strict, setup) == "none" && CommoditiesRef(strict, setup) == "none"
  {
    if strict {
      AccountsRefResolves(setup);
      CommoditiesRefResolves(setup);
    }
  }

  lemma AccountsRefResolves(setup: JournalSetup)
    requires setup.flavor == Tackler
    ensures ConfigPath(setup).0 + Split(AccountsRef(true, setup), '/') == ChartOfAccountsPath(setup).1
  {
    var dir := TxnSetDir(setup);
    TxnSetDirPlain(setup);
    assert "/conf/accounts.toml" == "/conf/" + "accounts.toml";
    assert dir + "/conf/accounts.toml" == dir + "/conf/" + "accounts.toml";
    assert "accounts." + ChartExtension(setup.flavor) == "accounts.toml";
    RefResolves(dir, "accounts.toml");
    assert ConfDir(setup) + ["accounts.toml"] == setup.path + [dir, "conf", "accounts.toml"];
  }

  lemma CommoditiesRefResolves(setup: JournalSetup)
    requires setup.flavor == Tackler
    ensures ConfigPath(setup).0 + Split(CommoditiesRef(true, setup), '/') == ChartOfCommoditiesPath(setup).1
  {
    var dir := TxnSetDir(setup);
    TxnSetDirPlain(setup);
    assert "/conf/commodities.toml" == "/conf/" + "commodities.toml";
    assert dir + "/conf/commodities.toml" == dir + "/conf/" + "commodities.toml";
    assert "commodities." + ChartExtension(setup.flavor) == "commodities.toml";
    RefResolves(dir, "commodities.toml");
    assert ConfDir(setup) + ["commodities.toml"] == setup.path + [dir, "conf", "commodities.toml"];
  }

  /** `<dir>/conf/<file>` splits into its three names when `file` holds no '/'. */
  lemma RefResolves(dir: string, file: string)
    requires Free(dir, '/') && Free(file, '/')
    ensures Split(dir + "/conf/" + file, '/') == [dir, "conf", file]
  {
    assert dir + "/conf/" + file == dir + ['/'] + ("conf" + ['/'] + file);
    SplitSeparated(dir, '/', "conf" + ['/'] + file);
    SplitSeparated("conf", '/', file);
    IndexOfAbsent(file, '/');
  }

  /**
   * The configured input finds every journal of a Tackler set: the
   * directory `txns` under the set directory holds each journal, and each
   * journal's name ends in the configured suffix ".txn".
   */
  lemma ConfigInputFindsJournals(setup: JournalSetup, ts: Zoned, idx: U32)
    requires setup.flavor == Tackler
    ensures ConfigPath(setup).0 + [TxnSetDir(setup), "txns"] == TxnsDir(setup)
    ensures var file := JournalPath(setup, ts, idx).1;
      && |file| > |TxnsDir(setup)| && file[..|TxnsDir(setup)|] == TxnsDir(setup)
      && var name := file[|file| - 1];
         |name| >= 4 && name[|name| - 4..] == ".txn"
  {
    JournalPathShape(setup, ts, idx);
  }
}
