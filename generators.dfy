/**
 * What the transaction renderers share: the commodity of a day, the record of
 * the names a transaction refers to, and the account names, amount and
 * header fields every flavour builds the same way.
 */
module Generators {
  import opened Common
  import opened Text
  import opened Time
  import opened Setup

  /** `TxnAccComm`: the account and commodity names a transaction refers to, in order. */
  datatype TxnAccComm = TxnAccComm(accounts: seq<string>, commodities: seq<string>)

  /** A rendered transaction with the names it refers to. */
  datatype Rendered = Rendered(text: string, refs: TxnAccComm)

  /** The commodity table: one code per day of the month. */
  const CommodityCodes: seq<string> := [
    "CAA", "CAB", "CAC", "CAD", "CAE",
    "CBA", "CBB", "CBC", "CBD", "CBE",
    "CCA", "CCB", "CCC", "CCD", "CCE",
    "CDA", "CDB", "CDC", "CDD", "CDE",
    "CEA", "CEB", "CEC", "CED", "CEE",
    "CFA", "CFB", "CFC", "CFD", "CFE",
    "EUR"
  ]

  /** The code days 1 to 30 get: 'C', then a letter per five days, then a letter within the five. */
  function DayCode(day: int): string
    requires 1 <= day <= 30
  {
    ['C', ('A' as int + (day - 1) / 5) as char, ('A' as int + (day - 1) % 5) as char]
  }

  predicate UpperCode(c: string) {
    |c| == 3 && forall i :: 0 <= i < 3 ==> 'A' <= c[i] <= 'Z'
  }

  /** `commodity_name`: the table entry for the day of the month; nothing else of the time matters. */
  function CommodityName(ts: Zoned): (c: string)
    ensures UpperCode(c)
    ensures ts.day <= 30 ==> c == DayCode(ts.day)
    ensures ts.day == 31 ==> c == "EUR"
  {
    CommodityTable();
    CommodityCodes[ts.day - 1]
  }

  /** The table has 31 entries: the day codes of days 1 to 30, then "EUR". */
  lemma CommodityTable()
    ensures |CommodityCodes| == 31 && CommodityCodes[30] == "EUR"
    ensures forall k :: 0 <= k < 30 ==> CommodityCodes[k] == DayCode(k + 1)
    ensures forall k :: 0 <= k < 31 ==> UpperCode(CommodityCodes[k])
  {
    CommodityRowA();
    CommodityRowB();
    CommodityRowC();
    CommodityRowD();
    CommodityRowE();
    CommodityRowF();
  }

  lemma CommodityRowA()
    ensures forall k :: 0 <= k < 5 ==> CommodityCodes[k] == DayCode(k + 1)
  {
    assert CommodityCodes[0] == DayCode(1);
    assert CommodityCodes[1] == DayCode(2);
    assert CommodityCodes[2] == DayCode(3);
    assert CommodityCodes[3] == DayCode(4);
    assert CommodityCodes[4] == DayCode(5);
  }

  lemma CommodityRowB()
    ensures forall k :: 5 <= k < 10 ==> CommodityCodes[k] == DayCode(k + 1)
  {
    assert CommodityCodes[5] == DayCode(6);
    assert CommodityCodes[6] == DayCode(7);
    assert CommodityCodes[7] == DayCode(8);
    assert CommodityCodes[8] == DayCode(9);
    assert CommodityCodes[9] == DayCode(10);
  }

  lemma CommodityRowC()
    ensures forall k :: 10 <= k < 15 ==> CommodityCodes[k] == DayCode(k + 1)
  {
    assert CommodityCodes[10] == DayCode(11);
    assert CommodityCodes[11] == DayCode(12);
    assert CommodityCodes[12] == DayCode(13);
    assert CommodityCodes[13] == DayCode(14);
    assert CommodityCodes[14] == DayCode(15);
  }

  lemma CommodityRowD()
    ensures forall k :: 15 <= k < 20 ==> CommodityCodes[k] == DayCode(k + 1)
  {
    assert CommodityCodes[15] == DayCode(16);
    assert CommodityCodes[16] == DayCode(17);
    assert CommodityCodes[17] == DayCode(18);
    assert CommodityCodes[18] == DayCode(19);
    assert CommodityCodes[19] == DayCode(20);
  }

  lemma CommodityRowE()
    ensures forall k :: 20 <= k < 25 ==> CommodityCodes[k] == DayCode(k + 1)
  {
    assert CommodityCodes[20] == DayCode(21);
    assert CommodityCodes[21] == DayCode(22);
    assert CommodityCodes[22] == DayCode(23);
    assert CommodityCodes[23] == DayCode(24);
    assert CommodityCodes[24] == DayCode(25);
  }

  lemma CommodityRowF()
    ensures forall k :: 25 <= k < 30 ==> CommodityCodes[k] == DayCode(k + 1)
  {
    assert CommodityCodes[25] == DayCode(26);
    assert CommodityCodes[26] == DayCode(27);
    assert CommodityCodes[27] == DayCode(28);
    assert CommodityCodes[28] == DayCode(29);
    assert CommodityCodes[29] == DayCode(30);
  }

  /** Two days share a commodity exactly when they are the same day of the month. */
  lemma CommodityNameDistinct(a: Zoned, b: Zoned)
    ensures CommodityName(a) == CommodityName(b) <==> a.day == b.day
  {
  }

  /** The days the program's tests look up. */
  lemma CommodityNameGolden(ts: Zoned)
    ensures ts.day == 1 ==> CommodityName(ts) == "CAA"
    ensures ts.day == 15 ==> CommodityName(ts) == "CCE"
    ensures ts.day == 31 ==> CommodityName(ts) == "EUR"
  {
  }

  // ---------------------------------------------------------------------
  // Names and fields every flavour renders the same way
  // ---------------------------------------------------------------------

  /** `a:ay{Y:0>4}:am{M:0>2}`: the asset account of the plain and audit transactions. */
  function PlainAssets(ts: Zoned): string {
    "a:ay" + Padded(ts.year, 4) + ":am" + Padded(ts.month, 2)
  }

  /** `e:ey{Y:0>4}:em{M:0>2}:ed{D:0>2}`: the expense account of the plain and audit transactions. */
  function PlainExpenses(ts: Zoned): string {
    "e:ey" + Padded(ts.year, 4) + ":em" + Padded(ts.month, 2) + ":ed" + Padded(ts.day, 2)
  }

  /** `Assets:Ay{Y:0>4}:Am{M:0>2}`: the asset account of the commodity transactions. */
  function CommodityAssets(ts: Zoned): string {
    "Assets:Ay" + Padded(ts.year, 4) + ":Am" + Padded(ts.month, 2)
  }

  /** `Expenses:Ey{Y:0>4}:Em{M:0>2}:Ed{D:0>2}`: the expense account of the commodity transactions. */
  function CommodityExpenses(ts: Zoned): string {
    "Expenses:Ey" + Padded(ts.year, 4) + ":Em" + Padded(ts.month, 2) + ":Ed" + Padded(ts.day, 2)
  }

  /** The posted amount: the unpadded day of the month and the fixed fraction `.0000001`. */
  function Amount(ts: Zoned): string {
    Decimal(ts.day) + ".0000001"
  }

  /** `#{idx:0>7}`'s digits. */
  function Serial(idx: U32): string {
    Padded(idx, 7)
  }

  /** The set token in upper case, "1E3" for a set of a thousand. */
  function SetTag(txnSet: SetSize): string {
    Upper(SetSizeToken(txnSet))
  }

  lemma FieldWidths(ts: Zoned)
    ensures |Padded(ts.year, 4)| == 4 && |Padded(ts.month, 2)| == 2 && |Padded(ts.day, 2)| == 2
  {
    Pow10Values();
    PaddedWidth(ts.year, 4);
    PaddedWidth(ts.month, 2);
    PaddedWidth(ts.day, 2);
  }

  /** The asset account names one (year, month), and every (year, month) its own account. */
  lemma AssetsAccountsInjective(a: Zoned, b: Zoned)
    ensures PlainAssets(a) == PlainAssets(b) <==> a.year == b.year && a.month == b.month
    ensures CommodityAssets(a) == CommodityAssets(b) <==> a.year == b.year && a.month == b.month
  {
    FieldWidths(a);
    FieldWidths(b);
    if PlainAssets(a) == PlainAssets(b) {
      SplitEqual("a:ay" + Padded(a.year, 4) + ":am", Padded(a.month, 2), "a:ay" + Padded(b.year, 4) + ":am", Padded(b.month, 2));
      SplitEqual("a:ay" + Padded(a.year, 4), ":am", "a:ay" + Padded(b.year, 4), ":am");
      SplitEqual("a:ay", Padded(a.year, 4), "a:ay", Padded(b.year, 4));
      PaddedDecimalInjective(a.year, b.year, 4);
      PaddedDecimalInjective(a.month, b.month, 2);
    }
    if CommodityAssets(a) == CommodityAssets(b) {
      SplitEqual("Assets:Ay" + Padded(a.year, 4) + ":Am", Padded(a.month, 2), "Assets:Ay" + Padded(b.year, 4) + ":Am", Padded(b.month, 2));
      SplitEqual("Assets:Ay" + Padded(a.year, 4), ":Am", "Assets:Ay" + Padded(b.year, 4), ":Am");
      SplitEqual("Assets:Ay", Padded(a.year, 4), "Assets:Ay", Padded(b.year, 4));
      PaddedDecimalInjective(a.year, b.year, 4);
      PaddedDecimalInjective(a.month, b.month, 2);
    }
  }

  /** The expense account names one calendar day, and every day its own account. */
  lemma ExpensesAccountsInjective(a: Zoned, b: Zoned)
    ensures PlainExpenses(a) == PlainExpenses(b) <==> a.year == b.year && a.month == b.month && a.day == b.day
    ensures CommodityExpenses(a) == CommodityExpenses(b) <==> a.year == b.year && a.month == b.month && a.day == b.day
  {
    FieldWidths(a);
    FieldWidths(b);
    if PlainExpenses(a) == PlainExpenses(b) {
      var pa := "e:ey" + Padded(a.year, 4) + ":em" + Padded(a.month, 2);
      var pb := "e:ey" + Padded(b.year, 4) + ":em" + Padded(b.month, 2);
      SplitEqual(pa + ":ed", Padded(a.day, 2), pb + ":ed", Padded(b.day, 2));
      SplitEqual(pa, ":ed", pb, ":ed");
      SplitEqual("e:ey" + Padded(a.year, 4) + ":em", Padded(a.month, 2), "e:ey" + Padded(b.year, 4) + ":em", Padded(b.month, 2));
      SplitEqual("e:ey" + Padded(a.year, 4), ":em", "e:ey" + Padded(b.year, 4), ":em");
      SplitEqual("e:ey", Padded(a.year, 4), "e:ey", Padded(b.year, 4));
      PaddedDecimalInjective(a.year, b.year, 4);
      PaddedDecimalInjective(a.month, b.month, 2);
      PaddedDecimalInjective(a.day, b.day, 2);
    }
    if CommodityExpenses(a) == CommodityExpenses(b) {
      var pa := "Expenses:Ey" + Padded(a.year, 4) + ":Em" + Padded(a.month, 2);
      var pb := "Expenses:Ey" + Padded(b.year, 4) + ":Em" + Padded(b.month, 2);
      SplitEqual(pa + ":Ed", Padded(a.day, 2), pb + ":Ed", Padded(b.day, 2));
      SplitEqual(pa, ":Ed", pb, ":Ed");
      SplitEqual("Expenses:Ey" + Padded(a.year, 4) + ":Em", Padded(a.month, 2), "Expenses:Ey" + Padded(b.year, 4) + ":Em", Padded(b.month, 2));
      SplitEqual("Expenses:Ey" + Padded(a.year, 4), ":Em", "Expenses:Ey" + Padded(b.year, 4), ":Em");
      SplitEqual("Expenses:Ey", Padded(a.year, 4), "Expenses:Ey", Padded(b.year, 4));
      PaddedDecimalInjective(a.year, b.year, 4);
      PaddedDecimalInjective(a.month, b.month, 2);
      PaddedDecimalInjective(a.day, b.day, 2);
    }
  }

  /** The serial digits read back as the index; below ten million they are exactly seven wide. */
  lemma SerialReadsBack(idx: U32)
    ensures AllDigits(Serial(idx)) && ParseDecimal(Serial(idx)) == idx
    ensures idx < 10_000_000 ==> |Serial(idx)| == 7
  {
    PaddedDecimalRoundTrip(idx, 7);
    if idx < 10_000_000 {
      assert Pow10(7) == 10_000_000 by {
        Pow10Values();
      }
      PaddedWidth(idx, 7);
    }
  }

  /** No number field holds a line break. */
  lemma FieldsSingleLine(ts: Zoned, idx: U32)
    ensures Free(Serial(idx), '\n') && Free(Decimal(idx), '\n') && Free(Amount(ts), '\n')
    ensures Free(Padded(ts.year, 4), '\n') && Free(Padded(ts.month, 2), '\n') && Free(Padded(ts.day, 2), '\n')
  {
    NumbersSingleLine(ts.year, 4);
    NumbersSingleLine(ts.month, 2);
    NumbersSingleLine(ts.day, 2);
    NumbersSingleLine(idx, 7);
  }

  /** No account name of the plain and audit transactions holds a line break. */
  lemma PlainNamesSingleLine(ts: Zoned)
    ensures Free(PlainAssets(ts), '\n') && Free(PlainExpenses(ts), '\n')
  {
    PlainAssetsSingleLine(ts);
    PlainExpensesSingleLine(ts);
  }

  lemma PlainAssetsSingleLine(ts: Zoned)
    ensures Free(PlainAssets(ts), '\n')
  {
    FieldsSingleLine(ts, 0);
  }

  lemma PlainExpensesSingleLine(ts: Zoned)
    ensures Free(PlainExpenses(ts), '\n')
  {
    FieldsSingleLine(ts, 0);
  }

  /** No account name of the commodity transactions holds a line break. */
  lemma CommodityAccountsSingleLine(ts: Zoned)
    ensures Free(CommodityAssets(ts), '\n') && Free(CommodityExpenses(ts), '\n')
  {
    CommodityAssetsSingleLine(ts);
    CommodityExpensesSingleLine(ts);
  }

  lemma CommodityAssetsSingleLine(ts: Zoned)
    ensures Free(CommodityAssets(ts), '\n')
  {
    FieldsSingleLine(ts, 0);
  }

  lemma CommodityExpensesSingleLine(ts: Zoned)
    ensures Free(CommodityExpenses(ts), '\n')
  {
    FieldsSingleLine(ts, 0);
  }

  /** No commodity code holds a line break. */
  lemma CommodityCodeSingleLine(ts: Zoned)
    ensures Free(CommodityName(ts), '\n')
  {
    var c := CommodityName(ts);
    assert forall i :: 0 <= i < |c| ==> c[i] != '\n';
  }

  /** The set tag holds no line break. */
  lemma SetTagSingleLine(txnSet: SetSize)
    ensures Free(SetTag(txnSet), '\n')
  {
    var t := SetSizeToken(txnSet);
    assert forall i :: 0 <= i < |t| ==> SetTag(txnSet)[i] == UpperChar(t[i]);
  }

  // ---------------------------------------------------------------------
  // The day the renderer tests use: 2024-12-31
  // ---------------------------------------------------------------------

  predicate OnGoldenDay(ts: Zoned) {
    ts.year == 2024 && ts.month == 12 && ts.day == 31
  }

  lemma GoldenDateFields()
    ensures Padded(2024, 4) == "2024" && Padded(12, 2) == "12" && Padded(31, 2) == "31"
  {
    assert Decimal(2024) == "2024" by {
      assert Decimal(202) == "202" by {
        assert Decimal(20) == "20";
      }
    }
  }

  lemma GoldenSerial()
    ensures Serial(999) == "0000999" && Decimal(999) == "999"
  {
    assert Decimal(99) == "99";
    assert Zeros(4) == "0000";
  }

  lemma GoldenSetTag()
    ensures SetTag(Sz1e3) == "1E3"
  {
  }

  lemma GoldenAmount(ts: Zoned)
    requires OnGoldenDay(ts)
    ensures Amount(ts) == "31.0000001"
  {
    assert Decimal(31) == "31";
  }

  /** The padded date fields of a time on 2024-12-31. */
  lemma GoldenPieces(ts: Zoned)
    requires OnGoldenDay(ts)
    ensures Padded(ts.year, 4) == "2024" && Padded(ts.month, 2) == "12" && Padded(ts.day, 2) == "31"
  {
    GoldenDateFields();
  }

  /** On 2024-12-31 the accounts of the plain and audit transactions are the ones the tests expect. */
  lemma GoldenPlainAccounts(ts: Zoned)
    requires OnGoldenDay(ts)
    ensures PlainAssets(ts) == "a:ay2024:am12"
    ensures PlainExpenses(ts) == "e:ey2024:em12:ed31"
  {
    GoldenPieces(ts);
    GoldenPlainAssets(ts);
    GoldenPlainExpenses(ts);
  }

  /** On 2024-12-31 the accounts of the commodity transactions are the ones the tests expect. */
  lemma GoldenCommodityAccounts(ts: Zoned)
    requires OnGoldenDay(ts)
    ensures CommodityAssets(ts) == "Assets:Ay2024:Am12"
    ensures CommodityExpenses(ts) == "Expenses:Ey2024:Em12:Ed31"
  {
    GoldenPieces(ts);
    GoldenCommodityAssets(ts);
    GoldenCommodityExpenses(ts);
  }

  lemma GoldenPlainAssets(ts: Zoned)
    requires Padded(ts.year, 4) == "2024" && Padded(ts.month, 2) == "12"
    ensures PlainAssets(ts) == "a:ay2024:am12"
  {
    PlainAssetsText(Padded(ts.year, 4), Padded(ts.month, 2));
  }

  lemma GoldenPlainExpenses(ts: Zoned)
    requires Padded(ts.year, 4) == "2024" && Padded(ts.month, 2) == "12" && Padded(ts.day, 2) == "31"
    ensures PlainExpenses(ts) == "e:ey2024:em12:ed31"
  {
    PlainExpensesText(Padded(ts.year, 4), Padded(ts.month, 2), Padded(ts.day, 2));
  }

  lemma GoldenCommodityAssets(ts: Zoned)
    requires Padded(ts.year, 4) == "2024" && Padded(ts.month, 2) == "12"
    ensures CommodityAssets(ts) == "Assets:Ay2024:Am12"
  {
    CommodityAssetsText(Padded(ts.year, 4), Padded(ts.month, 2));
  }

  lemma GoldenCommodityExpenses(ts: Zoned)
    requires Padded(ts.year, 4) == "2024" && Padded(ts.month, 2) == "12" && Padded(ts.day, 2) == "31"
    ensures CommodityExpenses(ts) == "Expenses:Ey2024:Em12:Ed31"
  {
    CommodityExpensesText(Padded(ts.year, 4), Padded(ts.month, 2), Padded(ts.day, 2));
  }

  lemma PlainAssetsText(y: string, m: string)
    requires y == "2024" && m == "12"
    ensures "a:ay" + y + ":am" + m == "a:ay2024:am12"
  {
  }

  lemma PlainExpensesText(y: string, m: string, d: string)
    requires y == "2024" && m == "12" && d == "31"
    ensures "e:ey" + y + ":em" + m + ":ed" + d == "e:ey2024:em12:ed31"
  {
  }

  lemma CommodityAssetsText(y: string, m: string)
    requires y == "2024" && m == "12"
    ensures "Assets:Ay" + y + ":Am" + m == "Assets:Ay2024:Am12"
  {
  }

  lemma CommodityExpensesText(y: string, m: string, d: string)
    requires y == "2024" && m == "12" && d == "31"
    ensures "Expenses:Ey" + y + ":Em" + m + ":Ed" + d == "Expenses:Ey2024:Em12:Ed31"
  {
  }
}
