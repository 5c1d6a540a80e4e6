# pta-generator, modelled in Dafny

pta-generator writes test sets of plain-text accounting journals. It has three commands:

- `plain` writes plain transactions.
- `audit` writes Tackler transactions that carry a UUID, with both charts and an audit configuration.
- `comm` writes commodity transactions with their charts.

A set has a size of 10 to 1 000 000 transactions. It is written in one of three flavours: Tackler, Ledger or Beancount. Its journals are sharded in one of three ways: one journal (`single`), one per month (`month`), or one file per transaction (`txn`).

This project models the core of the generator and proves properties of it:

- the configuration vocabulary and where every file of a set goes (`Setup`);
- the texts each flavour renders for a transaction, a chart and the Tackler configuration (`Generators`, `Tackler`, `Ledger`, `TxnUuid`);
- the journal writer and the file system it writes to (`Writers`);
- the three command drivers (`Runs`, `Audit`, `Plain`, `Comm`).

Module layout:

- One module per source file: `Setup`, `Generators`, `TxnUuid`, `Tackler`, `Ledger`, `Writers`, `Audit`, `Plain`, `Comm`.
- `Common`, `Text`, `Time` and `OrderedSets` hold what those share:
  - results with a closed error type;
  - decimal and zero-padded numbers;
  - line splitting;
  - the zoned time the generator reads;
  - `BTreeSet<String>` as a strictly ascending sequence.
- `Runs` holds what the three drivers have in common: the step between transactions, the loop over indexes `1..=size`, and the final artifacts.

How the model is built:

- Pure code is modelled as functions:
  - the parsers, the path rules and the renderers;
  - `Fs`, a file system value (a map from paths to contents, plus a set of directories);
  - `Run` for each command, with every step in source order and the first error ending the run.
- Code that changes state is modelled as classes:
  - `Writers.Disk` holds the file system;
  - `Writers.JournalWriter` holds the setup and the twelve cached journal slots.

  Each of their methods is proved to do exactly what the matching function does.
- Each command's `Exec` method runs the real loop over the objects and is proved equal to that command's `Run`. The lemmas about `Run` then state what a run promises:
  - files that existed before are never changed;
  - a single-shard run leaves one journal holding every transaction in index order;
  - a transaction-shard run leaves one new file per transaction;
  - the charts list exactly the gathered names, ascending and each once;
  - the configuration points at the charts that were written.

The date-time library, the UUID v5 hash and the Beancount renderer are parameters of the model (see "Left out").

On one point the code and the program's own test disagree. For a month shard, `journal_path` (src/setup.rs:283-292) puts the journal directly in `<set>/txns`, as `<set>/txns/YYYY-MM.txn`, and its doc comment (src/setup.rs:260-261) says the same. The writer's test (src/writers.rs:175-181) and the command line help (src/cli_args.rs:110) expect `<set>/txns/YYYY/MM/YYYY-MM.txn`. The help text is not reliable elsewhere either: for the single shard it names `SET-journal.txn` (src/cli_args.rs:106), where the code writes `<size>.txn`. The model follows the code in `Setup.JournalPath`. It keeps the test's path as `Setup.MonthJournalPathExpected`, and `Setup.MonthPathsDiffer` states the difference (see "Findings").

## Model

| member | source | states |
|---|---|---|
| Setup.ShardTypeToken | src/setup.rs:45-53 | a shard type displays as "single", "month" or "txn"; `ShardTypeRoundTrip` proves parsing reads it back |
| Setup.ParseShardType | src/setup.rs:26-43 | a shard type parses exactly when the text is one of "single", "month", "txn" (case-sensitive); the result displays as the input; anything else is an invalid-argument error naming the text |
| Setup.ShardTypeRoundTrip | src/setup.rs:26-53 | parsing a shard type's display token gives back that shard type |
| Setup.ShardTypeCaseSensitive | src/setup.rs:29-33 | the upper-case spelling of every shard token is refused |
| Setup.SetSizeToken | src/setup.rs:74-83 | every size token is "1e" followed by an exponent digit from 1 to 6 |
| Setup.Size | src/setup.rs:85-94 | the number of transactions is ten to the power the token names, between 10 and 1 000 000 |
| Setup.ParseSetSize | src/setup.rs:97-115 | a set size parses exactly when the lower-cased text is one of the six tokens; the result's token is that lower-cased text; anything else is an error naming the original text |
| Setup.SetSizeRoundTrip | src/setup.rs:74-115 | both the lower-case and the upper-case spelling of every token read back as that size |
| Setup.SizeValues | src/setup.rs:327-334 | `size()` gives 10, 100, 1 000, 10 000, 100 000, 1 000 000, as the program's test expects |
| Setup.SetSizeDisplay | src/setup.rs:117-128 | a set size displays as `<token> (<size grouped by thousands>)`; `SetSizeDisplayShowsSize` proves both parts |
| Setup.SetSizeDisplayShowsSize | src/setup.rs:117-128 | a set size displays as its token and then its size grouped by thousands with `_` in parentheses |
| Setup.FlavorToken | src/setup.rs:164-172 | a flavour displays as "tackler", "ledger" or "beancount"; `FlavorRoundTrip` proves parsing reads it back |
| Setup.ParseFlavor | src/setup.rs:144-162 | a flavour parses exactly when the text is "tackler", "ledger" or "beancount"; the result displays as the input; anything else is an error naming the text |
| Setup.FlavorRoundTrip | src/setup.rs:144-172 | parsing a flavour's display token gives back that flavour |
| Setup.TryNewSetup | src/setup.rs:182-203 | the setup fails exactly when a flavour other than Tackler asks for a shard other than single; the error names both; otherwise the setup holds the given flavour, path, size and shard |
| Setup.TxnSetDir | src/setup.rs:204-219 | the set directory name `set-<size token>-<shard token>`; `TxnSetDirNamesSetAndShard` and `TxnSetDirInjective` prove what it determines |
| Setup.TxnSetPath | src/setup.rs:247-250 | the set directory under the data path; `ConfigPathApart` and `ChartPathsApart` place the other files relative to it |
| Setup.TxnSetDirNamesSetAndShard | src/setup.rs:204-219 | the set directory is `set-<size token>-<shard token>` |
| Setup.TxnSetDirInjective | src/setup.rs:204-219 | two setups with the same set directory have the same size and the same shard |
| Setup.TxnSetDirPlain | src/setup.rs:240-246 | the set directory name holds no '/' and no '.', so setting the extension "toml" appends ".toml" |
| Setup.JournalPath | src/setup.rs:269-309 | the (directory, file) of a transaction's journal per shard, as `journal_path` builds it: `txns/<size>.<ext>`, `txns/YYYY-MM.txn` or `txns/YYYY/MM/DD/<stamp>-<idx>.txn`; `JournalPathShape`, `SingleJournalPath`, `MonthJournalPath` and `TxnJournalPath` prove its properties |
| Setup.MonthJournalPathAsWritten | src/setup.rs:283-292 | the month-shard path the code builds and its doc comment (src/setup.rs:260-261) describes, `<set>/txns/YYYY-MM.txn`; `JournalPath` uses it; `MonthPathsDiffer` and `MonthJournalPathAsWrittenGolden` state how it departs from the path the test expects |
| Setup.MonthJournalPathExpected | src/writers.rs:175-181 | the month-shard path the writer's test and the help text (src/cli_args.rs:110) expect, `<set>/txns/YYYY/MM/YYYY-MM.txn`; no operation uses it; `MonthJournalPathGolden` states it for the test's input |
| Setup.JournalPathShape | src/setup.rs:269-309 | every journal file lies directly in the directory returned with it, and that directory lies under `<set>/txns` |
| Setup.SingleJournalPath | src/setup.rs:271-282 | the single shard has one journal, `<set>/txns/<size token>.<flavour extension>`, whatever the time and index |
| Setup.MonthJournalNameInjective | src/setup.rs:283-287 | the month-shard file name determines the year and the month |
| Setup.MonthJournalPath | src/setup.rs:283-292 | month shard: the directory is `<set>/txns` and the file `<set>/txns/YYYY-MM.txn`, whatever the day, time and index; two transactions share a journal exactly when they share year and month |
| Setup.MonthPathsDiffer | src/setup.rs:283-292 | for every time, the path the code writes differs from the one the test expects, file and directory alike; the file name is the same, and the expected directory is the written one followed by `<year>/<MM>` |
| Setup.TxnStampLength | src/setup.rs:300 | the `%Y%m%dT%H%M%S` stamp is 15 characters long |
| Setup.TxnStampInjective | src/setup.rs:300 | equal stamps mean the same civil second |
| Setup.TxnJournalNameInjective | src/setup.rs:299-301 | a transaction-shard file name determines the civil second and the index |
| Setup.TxnJournalPath | src/setup.rs:294-307 | transaction shard: the directory is `<set>/txns/<year>/<MM>/<DD>`; two transactions share a file exactly when they have the same second and the same index |
| Setup.TxnJournalPathParts | src/setup.rs:294-307 | transaction shard: the file path is the day directory followed by the `<stamp>-<idx>.txn` name |
| Setup.ChartOfAccountsPath | src/setup.rs:221-229 | `(<set>/conf, <set>/conf/accounts.<chart ext>)`; `ChartPathsApart` proves it is neither the other chart nor a journal |
| Setup.ChartOfCommoditiesPath | src/setup.rs:230-238 | `(<set>/conf, <set>/conf/commodities.<chart ext>)`; `ChartPathsApart` proves it is neither the other chart nor a journal |
| Setup.ConfigPath | src/setup.rs:240-246 | `<set>.toml` beside the set directory; `ConfigPathApart` proves it is neither a journal nor a chart |
| Setup.ChartPathsApart | src/setup.rs:221-238 | both charts lie in `<set>/conf` as `accounts.<ext>` and `commodities.<ext>`; they are different files, and neither is a journal |
| Setup.ConfigPathApart | src/setup.rs:240-250 | the configuration is `<set>.toml` beside the set directory; it is neither a journal nor a chart |
| Setup.TxnSetPathGolden | src/writers.rs:131-156 | the set paths of the program's test: `set-1e3-single`, `set-1e5-month`, `set-1e6-txn` |
| Setup.SingleJournalPathGolden | src/writers.rs:166-173 | the single-shard Ledger journal of the program's test is `set-1e3-single/txns/1e3.journal` |
| Setup.GoldenMonthName | src/setup.rs:283-287 | for 2025-04-12T12:34:56 the month-shard file name is `2025-04.txn` |
| Setup.MonthJournalPathGolden | src/writers.rs:175-181 | for 2025-04-12T12:34:56 in a Tackler `1e5` month set the expected path is `set-1e5-month/txns/2025/04/2025-04.txn` in `set-1e5-month/txns/2025/04`, as the writer's test asserts |
| Setup.MonthJournalPathAsWrittenGolden | src/setup.rs:283-292 | for the same input `journal_path` returns `(set-1e5-month/txns, set-1e5-month/txns/2025-04.txn)`, which is not the path the writer's test expects |
| Setup.GoldenMonthShard | src/writers.rs:178 | the year and month directories of 2025-04-12 are `2025/04` |
| Setup.MonthPathFromParts | src/writers.rs:175-181 | the expected month-shard path is `txns` followed by the year and month directories and the month's file name |
| Setup.GoldenTxnName | src/writers.rs:184-191 | for 2025-04-12T12:34:56 and index 333 the transaction-shard file name is `20250412T123456-333.txn` |
| Setup.GoldenTxnShard | src/writers.rs:184-191 | the day directory of 2025-04-12 is `2025/04/12` |
| Setup.GoldenTxnDir | src/writers.rs:184-191 | the journals of the `set-1e6-txn` test set lie under `set-1e6-txn/txns` |
| Generators.CommodityName | src/generators.rs:19-32 | the commodity is an upper-case code chosen by the day of the month alone: the day's code for days 1-30, "EUR" for day 31 |
| Generators.CommodityTable | src/generators.rs:22-30 | the table has 31 entries: the codes of days 1 to 30 in order, then "EUR" |
| Generators.CommodityNameDistinct | src/generators.rs:19-32 | two times share a commodity exactly when they fall on the same day of the month |
| Generators.CommodityNameGolden | src/generators.rs:73-83 | days 1, 15 and 31 get "CAA", "CCE" and "EUR", as the program's test expects |
| Generators.PlainAssets | src/generators/tackler.rs:92 | the plain asset account `a:ay<YYYY>:am<MM>`; `AssetsAccountsInjective` and `GoldenPlainAccounts` prove its properties |
| Generators.PlainExpenses | src/generators/tackler.rs:93 | the plain expense account `e:ey<YYYY>:em<MM>:ed<DD>`; `ExpensesAccountsInjective` and `GoldenPlainAccounts` prove its properties |
| Generators.CommodityAssets | src/generators/tackler.rs:123 | the commodity asset account `Assets:Ay<YYYY>:Am<MM>`; `AssetsAccountsInjective` and `GoldenCommodityAccounts` prove its properties |
| Generators.CommodityExpenses | src/generators/tackler.rs:124 | the commodity expense account `Expenses:Ey<YYYY>:Em<MM>:Ed<DD>`; `ExpensesAccountsInjective` and `GoldenCommodityAccounts` prove its properties |
| Generators.Amount | src/generators/tackler.rs:107 | the posted amount `<day>.0000001`; `GoldenAmount` states it for the 31st |
| Generators.Serial | src/generators/tackler.rs:96-104 | the serial `#{idx:0>7}`; `SerialReadsBack` proves it reads back as the index |
| Generators.SetTag | src/generators/tackler.rs:96-104 | the upper-cased set token of the header; `GoldenSetTag` states it for a thousand |
| Generators.AssetsAccountsInjective | src/generators/tackler.rs:119-124 | an asset account names one year and month, and each year and month gets its own account (plain and commodity forms) |
| Generators.ExpensesAccountsInjective | src/generators/tackler.rs:88-93 | an expense account names one calendar day, and each day gets its own account (plain and commodity forms) |
| Generators.SerialReadsBack | src/generators/tackler.rs:96-104 | the `#{idx:0>7}` serial is all digits and reads back as the index; below ten million it is exactly seven wide |
| Generators.FieldWidths | src/generators/tackler.rs:92-93 | the padded year, month and day are 4, 2 and 2 characters wide |
| Generators.GoldenPlainAccounts | src/generators/tackler.rs:231-235 | on 2024-12-31 the plain accounts are `a:ay2024:am12` and `e:ey2024:em12:ed31` |
| Generators.GoldenCommodityAccounts | src/generators/tackler.rs:243-256 | on 2024-12-31 the commodity accounts are `Assets:Ay2024:Am12` and `Expenses:Ey2024:Em12:Ed31` |
| Generators.GoldenAmount | src/generators/tackler.rs:231-233 | on the 31st the posted amount is `31.0000001` |
| Generators.GoldenSerial | src/generators/tackler.rs:231 | index 999 has the serial `0000999` |
| Generators.GoldenSetTag | src/generators/tackler.rs:231 | the set tag of a thousand is `1E3` |
| TxnUuid.UuidName | src/txn_uuid.rs:20-26 | the name `pta-generator:/<set>/<number>/<instant>[/<spec>]`; `UuidNameFields` and `UuidNameInjective` prove it determines its fields |
| TxnUuid.TxnUuid | src/txn_uuid.rs:19-28 | the version-5 hash of the name; `TxnUuidGolden` states the program's test table for a hash that agrees with the published vectors |
| TxnUuid.NameWithoutSpecIsPrefix | src/txn_uuid.rs:19-28 | the name without a specifier is a proper prefix of the name with one |
| TxnUuid.PlainSpecChangesName | src/txn_uuid.rs:79-83 | the names with no specifier and with the specifier "plain" differ |
| TxnUuid.UuidNameFields | src/txn_uuid.rs:19-28 | splitting the name at '/' gives back the scheme, the set token, the number and the instant, then a specifier field exactly when one was given |
| TxnUuid.UuidNameInjective | src/txn_uuid.rs:19-28 | different transactions have different names: the name determines the set, the number, the instant and the specifier |
| TxnUuid.NameSpecSuffix | src/txn_uuid.rs:20-26 | a name is the name without a specifier followed by `/<spec>` when a specifier is given |
| TxnUuid.UuidNameGoldenPlain | src/txn_uuid.rs:47-54 | transaction 999 of a thousand at 2024-12-31T23:58:00Z is named `pta-generator:/1e3/999/2024-12-31T23:58:00Z` |
| TxnUuid.UuidNameGolden | src/txn_uuid.rs:65-72 | with the specifier "audit" that name gains the field `/audit` |
| TxnUuid.UuidNameGoldenFirst | src/txn_uuid.rs:80 | transaction 1 of a thousand at 2024-01-02T00:01:02Z, without a specifier, is named `pta-generator:/1e3/1/2024-01-02T00:01:02Z` |
| TxnUuid.UuidNameGoldenMillionFirst | src/txn_uuid.rs:82 | transaction 1 of a million at 2024-01-02T00:01:02Z, without a specifier, is named `pta-generator:/1e6/1/2024-01-02T00:01:02Z` |
| TxnUuid.UuidNameGoldenMillionLast | src/txn_uuid.rs:83 | transaction 999 of a million at 2024-12-31T23:58:00Z, without a specifier, is named `pta-generator:/1e6/999/2024-12-31T23:58:00Z` |
| TxnUuid.UuidNameGoldenFirstPlain | src/txn_uuid.rs:84 | transaction 1 of a thousand at 2024-01-02T00:01:02Z with the specifier "plain" is named `pta-generator:/1e3/1/2024-01-02T00:01:02Z/plain` |
| TxnUuid.TxnUuidGolden | src/txn_uuid.rs:77-91 | when the hash agrees with the published version-5 UUIDs, the identifiers of all six rows of the program's test table are those it lists: 1e3/1, 1e3/999, 1e6/1 and 1e6/999 without a specifier, 1e3/1 with "plain" and 1e3/999 with "audit" |
| Tackler.IsoDate | src/generators/tackler.rs:98-101 | the date `YYYY-MM-DD`; `GoldenIsoDate` states it for 2024-12-31 |
| Tackler.Header | src/generators/tackler.rs:96-104 | the header `<when> (#<serial>) '<SET> txn-<idx>`; `GoldenHeader` states it for transaction 999 of a thousand |
| Tackler.PlainTxn | src/generators/tackler.rs:87-111 | the plain Tackler transaction; `PlainTxnReadsBack` and `PlainTxnGolden` prove its lines |
| Tackler.AuditTxn | src/generators/tackler.rs:47-84 | the audit transaction with its `# uuid:` line; `AuditTxnReadsBack` and `AuditTxnGolden` prove its lines and references |
| Tackler.CommodityTxn | src/generators/tackler.rs:114-149 | the commodity transaction; `CommodityTxnReadsBack` and `CommodityTxnGolden` prove its lines and references |
| Tackler.PlainTxnReadsBack | src/generators/tackler.rs:86-111 | a plain transaction reads back as four lines: the dated header, the expense posting with the unpadded day as the amount, the asset posting, and a blank line |
| Tackler.AuditTxnReadsBack | src/generators/tackler.rs:46-84 | an audit transaction reads back as the stamped header, the `# uuid:` line of the "audit" name, the two postings and a blank line; it refers to exactly the accounts its postings name, and to no commodity |
| Tackler.CommodityTxnReadsBack | src/generators/tackler.rs:113-149 | a commodity transaction reads back as the header, the expense posting in the day's commodity, the asset posting and a blank line; it refers to exactly those accounts and that commodity |
| Tackler.GoldenHeader | src/generators/tackler.rs:96-104 | the header of transaction 999 of a thousand is `<when> (#0000999) '1E3 txn-999` |
| Tackler.GoldenIsoDate | src/generators/tackler.rs:98-101 | 2024-12-31 is written `2024-12-31` |
| Tackler.PlainTxnGolden | src/generators/tackler.rs:227-237 | plain transaction 999 of a thousand on 2024-12-31 is the text the program's test expects |
| Tackler.CommodityTxnGolden | src/generators/tackler.rs:239-257 | commodity transaction 999 of a thousand on 2024-12-31 is the text, accounts and commodity ("EUR") the program's test expects |
| Tackler.AuditTxnGolden | src/generators/tackler.rs:214-225 | audit transaction 999 at 2024-12-31T23:58:00Z in UTC, with a hash that matches the published vectors, is the text the program's test expects and refers to its two accounts only |
| Tackler.ChartOfAccounts | src/generators/tackler.rs:19-30 | the chart of accounts is the TOML list `accounts`: one quoted element line per account, in the order given |
| Tackler.ChartOfCommodities | src/generators/tackler.rs:32-44 | the chart of commodities is `permit-empty-commodity = true` and then the TOML list `commodities`, one element line per commodity, in order |
| Tackler.Entries | src/generators/tackler.rs:24-26 | one element line per name, in order |
| Tackler.EntryNameEntry | src/generators/tackler.rs:25 | an element line holds exactly its name between the quotes |
| Tackler.ChartOfAccountsReadsBack | src/generators/tackler.rs:19-30 | the chart reads back as the opening line, one element line per account holding exactly that account in order, and the closing line |
| Tackler.ChartOfCommoditiesReadsBack | src/generators/tackler.rs:32-44 | the chart reads back as the permit line, the opening line, one element line per commodity in order, and the closing line |
| Tackler.ChartOfAccountsAscending | src/generators/tackler.rs:19-30 | the chart of a `BTreeSet` lists its accounts in strictly ascending order, so each once |
| Tackler.Config | src/generators/tackler.rs:151-204 | the set's TOML configuration; `ConfigReadsBack`, `ConfigRefsResolve` and `ConfigInputFindsJournals` prove what it says |
| Tackler.ConfigReadsBack | src/generators/tackler.rs:151-204 | the configuration reads back as its 29 lines, carrying the strict and audit switches, the set directory as input, the two chart references and the set's display in the report titles |
| Tackler.ConfigRefsResolve | src/generators/tackler.rs:157-166 | in strict mode the chart references, read from beside the set directory, name the files where the set's charts are written; otherwise both are "none" |
| Tackler.AccountsRefResolves | src/generators/tackler.rs:157-161 | the strict accounts reference resolves to the chart of accounts path |
| Tackler.CommoditiesRefResolves | src/generators/tackler.rs:162-166 | the strict commodities reference resolves to the chart of commodities path |
| Tackler.ConfigInputFindsJournals | src/generators/tackler.rs:175-177 | the configured input (`path = <set dir>`, `dir = "txns"`, `suffix = "txn"`) covers every journal of a Tackler set, whatever its shard |
| Ledger.SlashDate | src/generators/ledger.rs:27-29 | the date `YYYY/MM/DD`; `SlashDateShape` proves its shape |
| Ledger.Header | src/generators/ledger.rs:27-34 | the header `<YYYY/MM/DD> (#<serial>) <SET> txn-<idx>`; `HeadersApart` and `GoldenHeader` prove its properties |
| Ledger.SlashDateShape | src/generators/ledger.rs:27-29 | the Ledger date is ten characters with '/' at positions 4 and 7, on one line |
| Ledger.PlainTxnReadsBack | src/generators/ledger.rs:17-42 | a plain Ledger transaction reads back as its header, the two postings and a blank line |
| Ledger.CommodityTxnReadsBack | src/generators/ledger.rs:62-98 | a commodity Ledger transaction reads back as its header and postings; the postings name exactly the accounts and the commodity it returns |
| Ledger.PlainTxnLikeTackler | src/generators/ledger.rs:17-42 | Ledger and Tackler render the same plain postings; only the header line differs |
| Ledger.CommodityTxnLikeTackler | src/generators/ledger.rs:62-98 | Ledger and Tackler commodity transactions refer to the same names and carry the same postings; only the header differs |
| Ledger.HeadersApart | src/generators/ledger.rs:29 | the Ledger header has '/' where the Tackler header has '-', at the first date separator |
| Ledger.GoldenHeader | src/generators/ledger.rs:113 | the header of transaction 999 of a thousand on 2024-12-31 is `2024/12/31 (#0000999) 1E3 txn-999` |
| Ledger.PlainTxnGolden | src/generators/ledger.rs:108-119 | plain Ledger transaction 999 of a thousand on 2024-12-31 is the text the program's test expects |
| Ledger.CommodityTxnGolden | src/generators/ledger.rs:121-139 | commodity Ledger transaction 999 of a thousand on 2024-12-31 is the text, accounts and commodity the program's test expects |
| Ledger.DeclaredAccountLine | src/generators/ledger.rs:49 | an `account` directive declares exactly its account |
| Ledger.AccountLines | src/generators/ledger.rs:48-50 | one directive per account, in order |
| Ledger.PlainTxn | src/generators/ledger.rs:18-42 | the plain Ledger transaction; `PlainTxnReadsBack`, `PlainTxnLikeTackler` and `PlainTxnGolden` prove its lines |
| Ledger.CommodityTxn | src/generators/ledger.rs:63-98 | the commodity Ledger transaction; `CommodityTxnReadsBack`, `CommodityTxnLikeTackler` and `CommodityTxnGolden` prove its lines and references |
| Ledger.ChartOfAccounts | src/generators/ledger.rs:44-53 | the chart is one `account` directive per account, in the order given |
| Ledger.ChartOfAccountsReadsBack | src/generators/ledger.rs:44-53 | the chart reads back as one directive per account, declaring exactly that account in order; with no accounts the chart is empty |
| Ledger.ChartOfAccountsAscending | src/generators/ledger.rs:44-53 | the chart of a `BTreeSet` declares its accounts strictly ascending, so each once |
| Ledger.ChartOfCommodities | src/generators/ledger.rs:56-60 | Ledger has no chart of commodities: always a `NotSupported` error, which no command asks for (see Left out) |
| OrderedSets.BelowIsStrictTotalOrder | src/commands/audit.rs:33-34 | string order (by character, a proper prefix first) is irreflexive, transitive and total |
| OrderedSets.Insert | src/commands/audit.rs:42-44 | `insert` keeps the set strictly ascending; afterwards it holds exactly the old elements and the new one |
| OrderedSets.InsertAll | src/commands/audit.rs:42-47 | inserting a list keeps the set strictly ascending; afterwards it holds exactly the old elements and the list's |
| Text.Decimal | src/setup.rs:287 | `{}` of a number is at least one digit, all digits, with no leading zero |
| Text.DecimalRoundTrip | src/setup.rs:287 | `{}` of a number reads back as the number |
| Text.DecimalInjective | src/setup.rs:299 | different numbers are written differently by `{}` |
| Text.PadLeft | src/setup.rs:287 | `{:0>w}` fills with '0' on the left up to width `w` and ends with the unpadded text |
| Text.PaddedDecimalRoundTrip | src/setup.rs:287 | `{:0>w}` of a number is all digits and reads back as the number |
| Text.PaddedDecimalInjective | src/setup.rs:299 | different numbers are written differently by `{:0>w}` |
| Text.PaddedWidth | src/setup.rs:299 | `{:0>w}` of a number below 10^w is exactly `w` wide |
| Text.LinesJoinLines | src/generators/tackler.rs:64-74 | text written line by line with `writeln!` reads back as those lines when none holds a line break |
| Time.AddSecondsAdds | src/commands/audit.rs:49 | adding no seconds leaves the instant, and two additions add up |
| Runs.StepSeconds | src/commands/audit.rs:24-25 | the step is the whole number of seconds with step × size ≤ span < (step + 1) × size |
| Runs.TsAtIsMultiple | src/commands/audit.rs:36-50 | the transaction after k steps, reached by adding the step k times, is k × step seconds after the start |
| Runs.LastTxnWithinSpan | src/commands/audit.rs:24-50 | the last transaction lies no earlier than the start and no later than the start plus the span |
| Runs.InsertEach | src/commands/audit.rs:42-47 | the loop inserting each name is `InsertAll` |
| Runs.Fresh | src/writers.rs:33-36 | a new writer's state is valid: every cached journal exists and both sets are ascending |
| Runs.Turn | src/commands/audit.rs:38-47 | a turn keeps the slots valid and the sets ascending |
| Runs.Loop | src/commands/audit.rs:36-50 | the loop keeps the slots valid and the sets ascending; once a failure is recorded nothing changes |
| Runs.LoopStopsAtFailure | src/commands/audit.rs:38-40 | the first error ends the run: later indexes change nothing |
| Runs.LoopSucceededBefore | src/commands/audit.rs:37-40 | a run that got through index k got through every earlier index |
| Runs.LoopGathersReferences | src/commands/audit.rs:33-47 | after a successful loop the sets hold exactly their initial elements and every name transactions 1..k referred to, ascending |
| Runs.TurnGathers | src/commands/audit.rs:38-47 | a successful turn rendered without error and added exactly the transaction's names to the sets |
| Runs.SingleTurnAppends | src/writers.rs:65-68 | single shard: a turn through the open journal appends the transaction's text to it and opens nothing |
| Runs.SingleTurnOpens | src/writers.rs:65-76 | single shard: the first turn creates the journal at its path, new, holding just the transaction |
| Runs.SingleStep | src/writers.rs:65-76 | single shard: turn k appends transaction k to the journal open before it |
| Runs.SingleFirst | src/writers.rs:69-74 | single shard: the first turn of a fresh writer creates the first transaction's journal holding transaction 1 |
| Runs.SingleJournalHoldsAll | src/commands/audit.rs:36-50 | single shard: a successful run appends transactions 1..k to the one journal, each once and in index order |
| Runs.TxnTurnCreates | src/writers.rs:91-97 | transaction shard: a turn puts the transaction alone in a new file at its journal path |
| Runs.TxnStepCreates | src/writers.rs:91-97 | transaction shard: turn k creates transaction k's file holding only its text |
| Runs.TxnFileAt | src/writers.rs:91-97 | transaction shard: once written, transaction i's file stays as it is for the rest of a successful run |
| Runs.TxnShardOneFileEach | src/writers.rs:91-97 | transaction shard: after a successful run each transaction 1..k is alone in a new file at its journal path |
| Runs.LoopKeepsFiles | src/writers.rs:50-58 | transaction shard: a run never removes or changes a file that was there before it |
| Runs.TurnLeavesAlone | src/writers.rs:50-58 | a turn writes only to a journal it created itself, never to a file that was there before |
| Runs.LoopLeavesAlone | src/writers.rs:50-58 | a run started clear of the original files never changes one of them |
| Runs.FreshLeavesAlone | src/writers.rs:33-36 | a new writer has no journal cached |
| Runs.EmitFirst | src/commands/audit.rs:52-55 | writing the final artifacts writes the first one and then, only if that worked, the rest |
| Runs.Emit | src/commands/audit.rs:52-55 | the final artifacts keep every earlier file, and the only new files are artifacts; on success each artifact is a new file holding exactly its text; if the first artifact cannot be rendered or already exists, no file changes |
| Runs.FinishLeavesAlone | src/commands/audit.rs:52-55 | a run started clear of the original files ends, with or without error, with each of them unchanged |
| Runs.FinishedSingleJournal | src/commands/audit.rs:36-55 | single shard: a run that ends well leaves its journal new, holding every transaction in index order |
| Runs.FinishedOneFileEach | src/commands/audit.rs:36-55 | transaction shard: a run that ends well leaves every transaction alone in a new file of its own |
| Runs.MonthAt | src/writers.rs:78 | the month of transaction i's time, the number of its journal slot plus one, is between 1 and 12 |
| Runs.FirstInMonth | src/writers.rs:77-90 | the first of the transactions 1..k in month m, in whatever year: when there is one it lies in 1..k, falls in month m and no earlier transaction does; when there is none no transaction of 1..k falls in month m |
| Runs.NoMonthNoTexts | src/writers.rs:77-90 | before the first transaction of a month there is no text of that month |
| Runs.MonthTurnAppends | src/writers.rs:79-80 | month shard: a turn whose month has its journal open appends the transaction to that journal and changes no slot |
| Runs.MonthTurnOpens | src/writers.rs:81-89 | month shard: the first turn of a month creates the transaction's journal path new, holding just the transaction, and caches it in the month's slot |
| Runs.MonthTurnKeeps | src/commands/audit.rs:38-47 | month shard: if every month's journal held its texts before turn j+1, it still does after it, with the new transaction in its month's journal |
| Runs.MonthAppendKeeps | src/writers.rs:79-80 | month shard: appending transaction j+1 to its month's open journal keeps every month holding its texts |
| Runs.MonthOpenKeeps | src/writers.rs:81-89 | month shard: opening a new journal for the first transaction of a month keeps every month holding its texts |
| Runs.MonthOthersKept | src/writers.rs:77-90 | month shard: a turn that writes only its own month's journal leaves every other month's slot and journal as they were |
| Runs.MonthStep | src/commands/audit.rs:36-50 | month shard: turn k of a successful run keeps every month holding the texts of its transactions |
| Runs.MonthJournalsNoneOpen | src/writers.rs:33-36 | before any transaction, a writer with twelve empty slots has no month journal open |
| Runs.MonthJournalsHoldAll | src/commands/audit.rs:36-50 | month shard: after a successful loop each month no transaction fell in has no journal open; each other month's slot holds the journal of its first transaction, holding every transaction of that month in index order; no two slots hold the same journal |
| Runs.FinishedMonthJournals | src/commands/audit.rs:36-55 | month shard: a run that ends well leaves, for every month a transaction fell in, a new journal at the path of the month's first transaction holding all of the month's transactions in index order, across years; different months have different journals |
| Runs.FinishedArtifacts | src/commands/audit.rs:52-55 | a run that ends well has no recorded failure and wrote every final artifact, new, with its text |
| Runs.TakeTurn | src/commands/audit.rs:38-47 | one turn on the writer objects ends in the state `Turn` describes |
| Runs.Transactions | src/commands/audit.rs:36-50 | the loop on the writer objects ends in the state `Loop` describes |
| Writers.OpenNew | src/writers.rs:48-61 | `make_writer` never touches an existing file: if anything is at the path it fails and every file keeps its content; otherwise exactly one new empty file is added inside the directory it made |
| Writers.ArtifactWritten | src/writers.rs:104-123 | a chart or configuration is written to a new file holding exactly its text; nothing else changes; an existing file at that path is an error that changes nothing |
| Writers.NoSlots | src/writers.rs:35 | the writer starts with twelve empty slots |
| Writers.Opened | src/writers.rs:26-46 | `try_new` succeeds exactly when the flavour allows the shard and, for a sharded set, the set directory does not exist; the result is the requested setup; otherwise the error names the existing path |
| Writers.Slot | src/writers.rs:65-90 | the cache slot is 0 for the single shard and the month less one for month shards, always below twelve |
| Writers.Routing | src/writers.rs:63-99 | a cached slot is reused and nothing is created; an empty slot, or any transaction shard, opens the journal path new; existing files keep their content and the returned journal exists |
| Writers.TxnWritten | src/writers.rs:100-103 | `write_txn` routes the transaction and appends its text to that journal; on error no file changes |
| Writers.SingleReusesJournal | src/writers.rs:65-76 | single shard: once the journal is open, every later transaction goes to it whatever its time or index, and no file is created |
| Writers.MonthReusesAcrossYears | src/writers.rs:77-90 | month shard: once a month's journal is open, a transaction from the same month of another year goes to that same journal, although its own journal path is a different file |
| Writers.MonthSlotsApart | src/writers.rs:78 | month shard: two transactions use the same slot exactly when they fall in the same month |
| Writers.TxnRepeatFails | src/writers.rs:91-97 | transaction shard: writing the same time and index a second time finds the file existing and fails |
| Writers.TxnWriteTouchesOneFile | src/writers.rs:100-103 | `write_txn` changes one file: the returned journal holds its earlier content followed by the transaction, and every other file is unchanged |
| Writers.RoutingCachesOnlyResult | src/writers.rs:63-99 | a slot changes only to cache the journal just opened |
| Writers.ArtifactOnce | src/writers.rs:104-123 | an artifact can be written only once: a second write fails and changes no file |
| Writers.Disk.MakeDirs | src/writers.rs:51 | `create_dir_all` on the disk does what `DirsMade` specifies |
| Writers.Disk.CreateNew | src/writers.rs:52-58 | `File::create_new` on the disk does what `FileCreated` specifies |
| Writers.Disk.Append | src/writers.rs:102 | writing to an open file appends the text |
| Writers.JournalWriter.constructor | src/writers.rs:33-36 | a writer holds its setup and twelve empty slots |
| Writers.JournalWriter.TryNew | src/writers.rs:26-46 | `try_new` returns a writer exactly when `Opened` succeeds, creating nothing on the disk |
| Writers.JournalWriter.MakeWriter | src/writers.rs:48-61 | `make_writer` on the objects does what `OpenNew` specifies |
| Writers.JournalWriter.JournalWriterFor | src/writers.rs:63-99 | `journal_writer` on the objects does what `Routing` specifies |
| Writers.JournalWriter.WriteTxn | src/writers.rs:100-103 | `write_txn` on the objects does what `TxnWritten` specifies and keeps the slots valid |
| Writers.JournalWriter.WriteChartOfAccounts | src/writers.rs:104-109 | the chart of accounts is written new at the chart of accounts path |
| Writers.JournalWriter.WriteChartOfCommodities | src/writers.rs:111-116 | the chart of commodities is written new at the chart of commodities path |
| Writers.JournalWriter.WriteConfig | src/writers.rs:118-123 | the configuration is written new at the configuration path |
| Writers.JournalWriter.WriteArtifact | src/writers.rs:104-123 | one artifact is written new, as `ArtifactWritten` specifies |
| Audit.Generate | src/commands/audit.rs:38 | each transaction is `Tackler::audit_txn` of the set; `RunGathersAccounts` and `NoCommodities` prove what it refers to |
| Audit.Finals | src/commands/audit.rs:52-55 | the chart of accounts, the chart of commodities and the strict, audited configuration, in that order; `RunWritesFinals` proves they are written new |
| Audit.Run | src/commands/audit.rs:17-72 | the audit run: parse, `try_new` under `<data>/audit`, the loop, the final artifacts, the first error ending it; the lemmas below and `Exec` state what it does |
| Audit.RunLeavesFilesAlone | src/commands/audit.rs:17-72 | whatever the outcome, an audit run leaves every file that existed before it unchanged |
| Audit.RunSucceeded | src/commands/audit.rs:17-55 | a successful audit run parsed its options, passed `try_new` with the Tackler flavour under `<data>/audit`, and got through every transaction; then only the final artifacts remained |
| Audit.NoCommodities | src/generators/tackler.rs:76-81 | audit transactions refer to no commodity |
| Audit.RunGathersAccounts | src/commands/audit.rs:33-50 | after all transactions the account set holds exactly the accounts they referred to, ascending; the commodity set is empty |
| Audit.RunWritesFinals | src/commands/audit.rs:52-55 | a successful audit run leaves the Tackler chart of the gathered accounts, the chart of the (empty) commodities and the strict, audited configuration, each a file that did not exist before |
| Audit.RunSingleJournal | src/commands/audit.rs:36-50 | single shard: a successful audit run leaves one new journal holding every audit transaction in index order |
| Audit.RunOneFileEach | src/commands/audit.rs:36-50 | transaction shard: a successful audit run leaves every audit transaction alone in a new file at its journal path |
| Audit.RunMonthJournals | src/commands/audit.rs:36-55 | month shard: a successful audit run leaves one new journal per month a transaction fell in, at the path of its first transaction, holding the month's audit transactions in index order; months never share a journal |
| Audit.Exec | src/commands/audit.rs:17-72 | `exec` on the disk ends in the file system and result that `Run` describes |
| Audit.WriteFinals | src/commands/audit.rs:52-55 | the two charts and the configuration are written in that order, as `Emit` specifies |
| Plain.Generate | src/commands/plain.rs:49-56 | each transaction is the flavour's `plain_txn`, referring to no name |
| Plain.Finals | src/commands/plain.rs:58-92 | Tackler gets its configuration, neither strict nor audited; Ledger nothing; `RunWritesFinals` proves what is written |
| Plain.Run | src/commands/plain.rs:16-93 | the plain run: parse, `try_new` under `<data>/plain`, the Beancount refusal, the loop, the final artifacts, the first error ending it; the lemmas below and `Exec` state what it does |
| Plain.RunSucceeded | src/commands/plain.rs:16-86 | a successful plain run parsed its options, passed `try_new` under `<data>/plain` with Tackler or Ledger, and got through every transaction |
| Plain.RunRefusesBeancount | src/commands/plain.rs:42-46 | Beancount is refused after `try_new`, before anything is written: no file changes |
| Plain.RunLeavesFilesAlone | src/commands/plain.rs:16-93 | whatever the outcome, a plain run leaves every file that existed before it unchanged |
| Plain.RunWritesFinals | src/commands/plain.rs:58-86 | a successful Tackler run leaves a new configuration, neither strict nor audited; a successful Ledger run writes nothing but its journals |
| Plain.RunSingleJournal | src/commands/plain.rs:49-56 | single shard: a successful plain run leaves one new journal holding every transaction in index order |
| Plain.RunOneFileEach | src/commands/plain.rs:49-56 | transaction shard (Tackler only): a successful plain run leaves every transaction alone in a new file |
| Plain.RunMonthJournals | src/commands/plain.rs:49-61 | month shard (Tackler only): a successful plain run leaves one new journal per month a transaction fell in, holding that month's transactions in index order; months never share a journal |
| Plain.Exec | src/commands/plain.rs:16-93 | `exec` on the disk ends in the file system and result that `Run` describes |
| Plain.WriteSet | src/commands/plain.rs:49-61 | the transactions from a fresh writer, then the Tackler configuration, end as `Loop` and `Emit` describe |
| Plain.WriteFinals | src/commands/plain.rs:58-61 | Tackler gets its configuration and Ledger nothing, as `Emit` specifies |
| Comm.Generate | src/commands/comm.rs:40-44 | each transaction is the flavour's `commodity_txn` |
| Comm.Header | src/commands/comm.rs:47-67 | Tackler journals start with nothing; Ledger and Beancount journals with an include of `../conf/<chart of accounts file>`; `HeaderIncludesChart` proves it names the chart |
| Comm.Finals | src/commands/comm.rs:85-132 | Tackler gets the strict configuration and both charts; Ledger and Beancount the chart of accounts; `RunWritesFinals` proves what is written |
| Comm.Run | src/commands/comm.rs:17-133 | the comm run: parse, `try_new` under `<data>/comm`, the header, the loop, the final artifacts, the first error ending it; the lemmas below and `Exec` state what it does |
| Comm.HeaderIncludesChart | src/commands/comm.rs:47-67 | Tackler journals get no header; Ledger and Beancount journals begin by including `../conf/accounts.<ext>`, which from the journal's directory is the set's chart of accounts |
| Comm.Started | src/commands/comm.rs:46-67 | after the header the writer is valid and both sets are empty |
| Comm.StartedOpensJournal | src/commands/comm.rs:49-66 | for Ledger and Beancount the header creates the single journal new, holding just the header |
| Comm.StartedLeavesAlone | src/commands/comm.rs:47-67 | the header writes only to a journal it created itself |
| Comm.RunSucceeded | src/commands/comm.rs:17-83 | a successful comm run parsed its options, passed `try_new` under `<data>/comm` (so Ledger and Beancount used the single shard), wrote the header and got through every transaction; then only the final artifacts remained |
| Comm.RunLeavesFilesAlone | src/commands/comm.rs:17-133 | whatever the outcome, a comm run leaves every file that existed before it unchanged |
| Comm.RunGathersReferences | src/commands/comm.rs:68-83 | after all transactions the sets hold exactly the accounts and the commodities they referred to, each ascending and each name once |
| Comm.RunWritesFinals | src/commands/comm.rs:85-121 | a successful Tackler run leaves the strict, non-audited configuration and the charts of the gathered accounts and commodities; Ledger and Beancount runs leave the flavour's chart of the gathered accounts; each is a file that did not exist before |
| Comm.RunSingleJournal | src/commands/comm.rs:46-83 | single shard: a successful comm run leaves one new journal at the set's journal path holding the header and then every transaction in index order |
| Comm.SingleJournalFromStart | src/commands/comm.rs:46-83 | single shard: a run from the header that ends well leaves the journal holding the header followed by every transaction |
| Comm.RunOneFileEach | src/commands/comm.rs:68-83 | transaction shard (Tackler only): a successful comm run leaves every transaction alone in a new file |
| Comm.RunMonthJournals | src/commands/comm.rs:68-91 | month shard (Tackler only, so no header): a successful comm run leaves one new journal per month a transaction fell in, holding that month's transactions in index order; months never share a journal |
| Comm.Exec | src/commands/comm.rs:17-133 | `exec` on the disk ends in the file system and result that `Run` describes |
| Comm.WriteSet | src/commands/comm.rs:46-121 | the header, the transactions and the final artifacts end as `Started`, `Loop` and `Emit` describe |
| Comm.WriteHeader | src/commands/comm.rs:47-67 | writing the header ends in the state `Started` describes |
| Comm.InsertThenWrite | src/commands/comm.rs:71-80 | a turn that adds the names and then writes ends with the journal and slots of `Turn`, and with the same sets when it succeeds |
| Comm.CommodityTransactions | src/commands/comm.rs:68-83 | the loop on the objects ends with the slots, files and failure of `Loop`, and with its sets when no failure occurred |
| Comm.WriteFinals | src/commands/comm.rs:85-121 | the flavour's final artifacts are written in order, as `Emit` specifies |
| Comm.WriteTacklerFinals | src/commands/comm.rs:86-91 | the configuration, then the chart of accounts, then the chart of commodities, as `Emit` specifies |

## Left out

- Command-line parsing, `main`, `GlobalArgs::start_ts`/`stop_ts` and the `f64` span in seconds are left out. A run takes the start time and the span, already as a `U32`, in `Runs.Args`; the `as u32` saturating cast is not modelled.
- The date-time library (jiff) is a `Time.Calendar` parameter. It supplies adding seconds, the RFC 3339 instant and the `%Y-%m-%dT%H:%M:%S%.f%:z` rendering. Years are limited to 0..9999; negative years and years of five digits are not modelled. Time zones appear only through those renderings. The lemmas about transaction times ask the calendar to map instants back and forth only from the start of the run to the start plus the span (`Time.Consistent`).
- The UUID v5 hash (SHA-1 over the URL namespace, section 4.3 of RFC 4122) is the parameter `v5`. `TxnUuid.TxnUuidGolden` holds for any hash that agrees with the published vectors.
- The Beancount renderer (src/generators/beancount.rs) is not part of this model. It is the parameter `Comm.BeancountRenderer`, and each of its functions may fail.
- Ledger.ChartOfCommodities: the source calls `unimplemented!()`, which panics. The model returns a `NotSupported` error, and no command asks for it.
- Error wording is not modelled: the closed `Common.Error` type stands for the boxed error messages. The summary message each `exec` returns on success is not modelled either: `Exec` returns `Ok(())`.
- `BufWriter` buffering, `Rc<RefCell<…>>` sharing and flush-on-drop are left out. A write lands in the file at once, and an I/O failure while writing is not modelled.
- `create_dir_all` is modelled as all-or-nothing. A partial failure that leaves some directories made is not modelled. `File::create_new` fails whenever anything exists at the path.
- Comm.CommodityTransactions: when a transaction's write fails after its names were added, the sets are not stated. `exec` returns that error and discards the sets.
- Plain.WriteSet: plain transactions go through the shared `Runs.Transactions` with a generator that refers to no names. So the model keeps (empty) reference sets that `plain.rs` does not have.
- The second Beancount arm of `plain.rs` (lines 87-91) cannot be reached after the first refusal (lines 42-46), so it is not modelled.
- The full transaction-shard path of the program's test (`set-1e6-txn/txns/2025/04/12/20250412T123456-333.txn`) is not stated as one lemma. It follows from `Setup.GoldenTxnDir`, `Setup.GoldenTxnShard`, `Setup.GoldenTxnName` and `Setup.TxnJournalPathParts`.
- Unicode case mapping beyond ASCII is not modelled: `to_lowercase` and `to_uppercase` apply to the ASCII tokens only.

## Findings

| source | as written | input that shows it | evidently intended | confidence | as-written member | corrected member |
|---|---|---|---|---|---|---|
| src/setup.rs:283-292 | the month-shard journal is `<set>/txns/YYYY-MM.txn`, directly in `txns`, as the doc comment at src/setup.rs:260-261 also says | 2025-04-12T12:34:56, Tackler, size `1e5`, shard `month`, as in src/writers.rs:175-181: the code gives `set-1e5-month/txns/2025-04.txn` | contested: the writer's test and the help text in src/cli_args.rs:110 expect `set-1e5-month/txns/2025/04/2025-04.txn`, so either the code or the test is wrong; the model follows the code | low, not executed | `Setup.JournalPath`, `Setup.MonthJournalPathAsWritten`, `Setup.MonthJournalPathAsWrittenGolden` | `Setup.MonthJournalPathExpected`, `Setup.MonthJournalPathGolden`, `Setup.MonthPathsDiffer` |
