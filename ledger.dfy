/**
 * The Ledger flavour: the plain and commodity transactions, dated with
 * slashes, and the chart of accounts as `account` directives. Ledger has no
 * chart of commodities.
 */
module Ledger {
  import opened Common
  import opened Text
  import opened Time
  import opened Setup
  import opened Generators
  import opened OrderedSets
  import Tackler

  // ---------------------------------------------------------------------
  // Transactions
  // ---------------------------------------------------------------------

  /** `{Y:0>4}/{M:0>2}/{D:0>2}`. */
  function SlashDate(ts: Zoned): string {
    Padded(ts.year, 4) + "/" + Padded(ts.month, 2) + "/" + Padded(ts.day, 2)
  }

  /** The first line of a transaction: `<date> (#<serial>) <SET> txn-<idx>`, without Tackler's quote. */
  function Header(date: string, txnSet: SetSize, idx: U32): string {
    date + " (#" + Serial(idx) + ") " + SetTag(txnSet) + " txn-" + Decimal(idx)
  }

  /** `plain_txn`: the header, the expense posting with the day as amount, the asset posting, a blank line. */
  function PlainTxn(txnSet: SetSize, ts: Zoned, idx: U32): string {
    JoinLines([Header(SlashDate(ts), txnSet, idx), "  " + PlainExpenses(ts) + "  " + Amount(ts), "  " + PlainAssets(ts), ""])
  }

  /**
   * `commodity_txn`: the header, the expense posting in the commodity of
   * the day, the asset posting; it refers to both accounts and to the
   * commodity.
   */
  function CommodityTxn(txnSet: SetSize, ts: Zoned, idx: U32): Rendered {
    var assets, expenses, commodity := CommodityAssets(ts), CommodityExpenses(ts), CommodityName(ts);
    var text := JoinLines([Header(SlashDate(ts), txnSet, idx), "  " + expenses + "  " + Amount(ts) + " " + commodity,
                           "  " + assets, ""]);
    Rendered(text, TxnAccComm([assets, expenses], [commodity]))
  }

  lemma SlashDateShape(ts: Zoned)
    ensures |SlashDate(ts)| == 10 && SlashDate(ts)[4] == '/' && SlashDate(ts)[7] == '/'
    ensures Free(SlashDate(ts), '\n')
  {
    FieldWidths(ts);
    FieldsSingleLine(ts, 0);
  }

  lemma HeaderSingleLine(date: string, txnSet: SetSize, idx: U32)
    requires Free(date, '\n')
    ensures Free(Header(date, txnSet, idx), '\n')
  {
    NumbersSingleLine(idx, 7);
    SetTagSingleLine(txnSet);
  }

  lemma DatedHeaderSingleLine(txnSet: SetSize, ts: Zoned, idx: U32)
    ensures Free(Header(SlashDate(ts), txnSet, idx), '\n')
  {
    SlashDateShape(ts);
    HeaderSingleLine(SlashDate(ts), txnSet, idx);
  }

  /** Reading a plain transaction back gives its header, the two postings and the blank line. */
  lemma PlainTxnReadsBack(txnSet: SetSize, ts: Zoned, idx: U32)
    ensures Lines(PlainTxn(txnSet, ts, idx))
         == [Header(SlashDate(ts), txnSet, idx), "  " + PlainExpenses(ts) + "  " + Amount(ts), "  " + PlainAssets(ts), ""]
  {
    DatedHeaderSingleLine(txnSet, ts, idx);
    Tackler.PlainPostingsSingleLine(ts);
    LinesOfBlock3(Header(SlashDate(ts), txnSet, idx), "  " + PlainExpenses(ts) + "  " + Amount(ts), "  " + PlainAssets(ts));
  }

  /**
   * Reading a commodity transaction back gives its header and postings, and
   * the postings name exactly the accounts and the commodity it returns.
   */
  lemma CommodityTxnReadsBack(txnSet: SetSize, ts: Zoned, idx: U32)
    ensures var r := CommodityTxn(txnSet, ts, idx);
      && r.refs == TxnAccComm([CommodityAssets(ts), CommodityExpenses(ts)], [CommodityName(ts)])
      && Lines(r.text) == [Header(SlashDate(ts), txnSet, idx),
                           "  " + r.refs.accounts[1] + "  " + Amount(ts) + " " + r.refs.commodities[0],
                           "  " + r.refs.accounts[0], ""]
  {
    DatedHeaderSingleLine(txnSet, ts, idx);
    Tackler.CommodityPostingsSingleLine(ts);
    LinesOfBlock3(Header(SlashDate(ts), txnSet, idx), "  " + CommodityExpenses(ts) + "  " + Amount(ts) + " " + CommodityName(ts),
                  "  " + CommodityAssets(ts));
  }

  /**
   * Ledger and Tackler render the same plain transaction with the same
   * postings; only the header differs, at the first date separator.
   */
  lemma PlainTxnLikeTackler(txnSet: SetSize, ts: Zoned, idx: U32)
    ensures var ledger, tackler := Lines(PlainTxn(txnSet, ts, idx)), Lines(Tackler.PlainTxn(txnSet, ts, idx));
      && |ledger| == |tackler| == 4
      && ledger[1..] == tackler[1..]
      && |ledger[0]| > 4 && ledger[0][4] == '/'
      && |tackler[0]| > 4 && tackler[0][4] == '-'
  {
    PlainTxnReadsBack(txnSet, ts, idx);
    Tackler.PlainTxnReadsBack(txnSet, ts, idx);
    HeadersApart(txnSet, ts, idx);
  }

  /**
   * Ledger and Tackler commodity transactions refer to the same accounts and
   * commodity and carry the same posting lines; only the header differs.
   */
  lemma CommodityTxnLikeTackler(txnSet: SetSize, ts: Zoned, idx: U32)
    ensures var ledger, tackler := CommodityTxn(txnSet, ts, idx), Tackler.CommodityTxn(txnSet, ts, idx);
      && ledger.refs == tackler.refs
      && |Lines(ledger.text)| == |Lines(tackler.text)| == 4
      && Lines(ledger.text)[1..] == Lines(tackler.text)[1..]
      && |Lines(ledger.text)[0]| > 4 && Lines(ledger.text)[0][4] == '/'
      && |Lines(tackler.text)[0]| > 4 && Lines(tackler.text)[0][4] == '-'
  {
    CommodityTxnReadsBack(txnSet, ts, idx);
    Tackler.CommodityTxnReadsBack(txnSet, ts, idx);
    HeadersApart(txnSet, ts, idx);
  }

  /** The two headers differ at the first date separator. */
  lemma HeadersApart(txnSet: SetSize, ts: Zoned, idx: U32)
    ensures |Header(SlashDate(ts), txnSet, idx)| > 4 && Header(SlashDate(ts), txnSet, idx)[4] == '/'
    ensures |Tackler.Header(Tackler.IsoDate(ts), txnSet, idx)| > 4
    ensures Tackler.Header(Tackler.IsoDate(ts), txnSet, idx)[4] == '-'
  {
    SlashDateShape(ts);
    FieldWidths(ts);
    var iso := Tackler.IsoDate(ts);
    assert |iso| == 10 && iso[4] == '-';
    assert Header(SlashDate(ts), txnSet, idx)[..10] == SlashDate(ts);
    assert Tackler.Header(iso, txnSet, idx)[..10] == iso;
  }

  // ---------------------------------------------------------------------
  // The transactions of the program's tests: a thousand, number 999, 2024-12-31
  // ---------------------------------------------------------------------

  lemma SlashDateText(y: string, m: string, d: string)
    requires y == "2024" && m == "12" && d == "31"
    ensures y + "/" + m + "/" + d == "2024/12/31"
  {
  }

  lemma SlashDateGiven(ts: Zoned)
    requires Padded(ts.year, 4) == "2024" && Padded(ts.month, 2) == "12" && Padded(ts.day, 2) == "31"
    ensures SlashDate(ts) == "2024/12/31"
  {
    SlashDateText(Padded(ts.year, 4), Padded(ts.month, 2), Padded(ts.day, 2));
  }

  lemma HeaderText(date: string, serial: string, tag: string, number: string)
    requires date == "2024/12/31" && serial == "0000999" && tag == "1E3" && number == "999"
    ensures date + " (#" + serial + ") " + tag + " txn-" + number == "2024/12/31 (#0000999) 1E3 txn-999"
  {
  }

  lemma HeaderGiven(date: string, txnSet: SetSize, idx: U32)
    requires date == "2024/12/31"
    requires Serial(idx) == "0000999" && SetTag(txnSet) == "1E3" && Decimal(idx) == "999"
    ensures Header(date, txnSet, idx) == "2024/12/31 (#0000999) 1E3 txn-999"
  {
    HeaderText(date, Serial(idx), SetTag(txnSet), Decimal(idx));
  }

  lemma GoldenNumbers(txnSet: SetSize, idx: U32)
    requires txnSet == Sz1e3 && idx == 999
    ensures Serial(idx) == "0000999" && SetTag(txnSet) == "1E3" && Decimal(idx) == "999"
  {
    GoldenSerial();
    GoldenSetTag();
  }

  lemma GoldenHeader(txnSet: SetSize, ts: Zoned, idx: U32)
    requires Tackler.IsGoldenTxn(txnSet, ts, idx)
    ensures Header(SlashDate(ts), txnSet, idx) == "2024/12/31 (#0000999) 1E3 txn-999"
  {
    GoldenPieces(ts);
    SlashDateGiven(ts);
    GoldenNumbers(txnSet, idx);
    HeaderGiven(SlashDate(ts), txnSet, idx);
  }

  lemma PlainTxnGiven(txnSet: SetSize, ts: Zoned, idx: U32)
    requires Header(SlashDate(ts), txnSet, idx) == "2024/12/31 (#0000999) 1E3 txn-999"
    requires PlainExpenses(ts) == "e:ey2024:em12:ed31" && Amount(ts) == "31.0000001"
    requires PlainAssets(ts) == "a:ay2024:am12"
    ensures PlainTxn(txnSet, ts, idx) == JoinLines([
      "2024/12/31 (#0000999) 1E3 txn-999",
      "  e:ey2024:em12:ed31  31.0000001",
      "  a:ay2024:am12",
      ""])
  {
    Tackler.PlainPostingsText(PlainExpenses(ts), Amount(ts), PlainAssets(ts));
  }

  /** Transaction 999 of a thousand on 2024-12-31: the lines the program's test expects. */
  lemma PlainTxnGolden(txnSet: SetSize, ts: Zoned, idx: U32)
    requires Tackler.IsGoldenTxn(txnSet, ts, idx)
    ensures PlainTxn(txnSet, ts, idx) == JoinLines([
      "2024/12/31 (#0000999) 1E3 txn-999",
      "  e:ey2024:em12:ed31  31.0000001",
      "  a:ay2024:am12",
      ""])
  {
    GoldenHeader(txnSet, ts, idx);
    GoldenPlainAccounts(ts);
    GoldenAmount(ts);
    PlainTxnGiven(txnSet, ts, idx);
  }

  lemma CommodityTxnGiven(txnSet: SetSize, ts: Zoned, idx: U32)
    requires Header(SlashDate(ts), txnSet, idx) == "2024/12/31 (#0000999) 1E3 txn-999"
    requires CommodityExpenses(ts) == "Expenses:Ey2024:Em12:Ed31" && Amount(ts) == "31.0000001"
    requires CommodityName(ts) == "EUR" && CommodityAssets(ts) == "Assets:Ay2024:Am12"
    ensures CommodityTxn(txnSet, ts, idx).text == JoinLines([
      "2024/12/31 (#0000999) 1E3 txn-999",
      "  Expenses:Ey2024:Em12:Ed31  31.0000001 EUR",
      "  Assets:Ay2024:Am12",
      ""])
    ensures CommodityTxn(txnSet, ts, idx).refs
         == TxnAccComm(["Assets:Ay2024:Am12", "Expenses:Ey2024:Em12:Ed31"], ["EUR"])
  {
    Tackler.CommodityPostingsText(CommodityExpenses(ts), Amount(ts), CommodityName(ts), CommodityAssets(ts));
  }

  /** The commodity transaction 999 of a thousand on 2024-12-31: the lines and references the program's test expects. */
  lemma CommodityTxnGolden(txnSet: SetSize, ts: Zoned, idx: U32)
    requires Tackler.IsGoldenTxn(txnSet, ts, idx)
    ensures CommodityTxn(txnSet, ts, idx).text == JoinLines([
      "2024/12/31 (#0000999) 1E3 txn-999",
      "  Expenses:Ey2024:Em12:Ed31  31.0000001 EUR",
      "  Assets:Ay2024:Am12",
      ""])
    ensures CommodityTxn(txnSet, ts, idx).refs
         == TxnAccComm(["Assets:Ay2024:Am12", "Expenses:Ey2024:Em12:Ed31"], ["EUR"])
  {
    GoldenHeader(txnSet, ts, idx);
    GoldenCommodityAccounts(ts);
    GoldenAmount(ts);
    CommodityNameGolden(ts);
    CommodityTxnGiven(txnSet, ts, idx);
  }

  // ---------------------------------------------------------------------
  // Charts
  // ---------------------------------------------------------------------

  /** The directive declaring one account. */
  function AccountLine(account: string): string {
    "account " + account
  }

  /** The account an `account` directive declares. */
  function DeclaredAccount(line: string): string {
    if |line| >= 8 then line[8..] else ""
  }

  lemma DeclaredAccountLine(account: string)
    ensures DeclaredAccount(AccountLine(account)) == account
  {
  }

  /** One directive per account, in the order given. */
  function AccountLines(accounts: seq<string>): (ls: seq<string>)
    ensures |ls| == |accounts|
    ensures forall k :: 0 <= k < |accounts| ==> ls[k] == AccountLine(accounts[k])
  {
    if accounts == [] then [] else AccountLines(accounts[..|accounts| - 1]) + [AccountLine(accounts[|accounts| - 1])]
  }

  /** `chart_of_accounts`: one `account` directive per account, in the order given. */
  method ChartOfAccounts(accounts: seq<string>) returns (chart: string)
    ensures chart == JoinLines(AccountLines(accounts))
  {
    chart := "";
    for i := 0 to |accounts|
      invariant chart == JoinLines(AccountLines(accounts[..i]))
    {
      assert accounts[..i + 1][..i] == accounts[..i];
      JoinLinesSnoc(AccountLines(accounts[..i]), AccountLine(accounts[i]));
      chart := chart + AccountLine(accounts[i]) + "\n";
    }
    assert accounts[..|accounts|] == accounts;
  }

  /**
   * Reading the chart back gives one directive per account, declaring
   * exactly that account, in the order given; no account gives the empty
   * chart.
   */
  lemma ChartOfAccountsReadsBack(accounts: seq<string>)
    requires forall k :: 0 <= k < |accounts| ==> Free(accounts[k], '\n')
    ensures accounts == [] ==> JoinLines(AccountLines(accounts)) == ""
    ensures var ls := Lines(JoinLines(AccountLines(accounts)));
      && |ls| == |accounts|
      && forall k :: 0 <= k < |accounts| ==> ls[k] == AccountLine(accounts[k]) && DeclaredAccount(ls[k]) == accounts[k]
  {
    var lines := AccountLines(accounts);
    assert SingleLines(lines);
    LinesJoinLines(lines);
  }

  /** A chart of an ordered set declares its accounts in strictly ascending order, so each once. */
  lemma ChartOfAccountsAscending(accounts: seq<string>)
    requires Ordered(accounts)
    requires forall k :: 0 <= k < |accounts| ==> Free(accounts[k], '\n')
    ensures var ls := Lines(JoinLines(AccountLines(accounts)));
      forall i, j :: 0 <= i < j < |ls| ==> Below(DeclaredAccount(ls[i]), DeclaredAccount(ls[j]))
  {
    ChartOfAccountsReadsBack(accounts);
  }

  /** `chart_of_commodities` is not implemented for Ledger; asking for it is an error. */
  function ChartOfCommodities(commodities: seq<string>): Result<string> {
    Err(NotSupported("chart_of_commodities"))
  }
}
