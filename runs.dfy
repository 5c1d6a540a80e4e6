/**
 * What the three run drivers share: the step between transactions, the
 * times of the transactions, the loop over indexes 1..size that renders
 * each transaction, writes it and gathers its references into the two
 * ordered sets, and the final artifacts written one after the other. Every
 * failure stops the run at once with that error.
 */
module Runs {
  import opened Common
  import opened Text
  import opened Time
  import opened Setup
  import opened OrderedSets
  import opened Generators
  import opened Writers

  /** `span_secs / set.size()`: whole seconds between consecutive transactions. */
  function StepSeconds(spanSecs: U32, txnSet: SetSize): (step: nat)
    ensures step * Size(txnSet) <= spanSecs < (step + 1) * Size(txnSet)
  {
    spanSecs / Size(txnSet)
  }

  /** The time of the transaction after `k` steps from `start`, stepping one addition at a time. */
  function TsAt(cal: Calendar, start: Zoned, step: nat, k: nat): Zoned {
    if k == 0 then start else AddSeconds(cal, TsAt(cal, start, step, k - 1), step)
  }

  /** The transaction after `k >= 1` steps is `k * step` seconds after the start. */
  lemma {:induction false} TsAtIsMultiple(cal: Calendar, start: Zoned, step: nat, k: nat)
    requires k >= 1 && Consistent(cal, cal.instant(start), cal.instant(start) + k * step)
    ensures TsAt(cal, start, step, k) == AddSeconds(cal, start, k * step)
    decreases k
  {
    if k > 1 {
      TsAtIsMultiple(cal, start, step, k - 1);
      OneMoreStep(k, step);
      AddSecondsAdds(cal, start, (k - 1) * step, step);
    }
  }

  lemma OneMoreStep(k: nat, step: nat)
    requires k >= 1
    ensures (k - 1) * step + step == k * step
  {
  }

  /** The last transaction lies no further from the start than the span. */
  lemma LastTxnWithinSpan(cal: Calendar, start: Zoned, spanSecs: U32, txnSet: SetSize)
    requires Consistent(cal, cal.instant(start), cal.instant(start) + spanSecs)
    ensures var last := TsAt(cal, start, StepSeconds(spanSecs, txnSet), Size(txnSet) - 1);
      cal.instant(start) <= cal.instant(last) <= cal.instant(start) + spanSecs
  {
    var step := StepSeconds(spanSecs, txnSet);
    var k := Size(txnSet) - 1;
    if k >= 1 {
      TsAtIsMultiple(cal, start, step, k);
      assert k * step <= Size(txnSet) * step;
    }
  }

  /** A renderer for one transaction: its text and the references it used, or an error. */
  type Generator = (Zoned, U32) -> Result<Rendered>

  /** Where the journal of a transaction lies (`journal_path` of the writer's setup). */
  type Route = (Zoned, U32) -> (Path, Path)

  /** `BTreeSet::insert` of each element in turn. */
  method InsertEach(s: seq<string>, xs: seq<string>) returns (r: seq<string>)
    requires Ordered(s)
    ensures r == InsertAll(s, xs)
  {
    r := s;
    for j := 0 to |xs|
      invariant r == InsertAll(s, xs[..j])
    {
      assert xs[..j + 1][..j] == xs[..j];
      r := Insert(r, xs[j]);
    }
    assert xs[..|xs|] == xs;
  }

  /** The state of a run: the writer's slots, the files, the two reference sets, and the error that stopped it. */
  datatype Progress = Progress(
    slots: Slots, fs: Fs, accounts: seq<string>, commodities: seq<string>, failure: Option<Error>)

  predicate ProgressValid(p: Progress) {
    SlotsValid(p.slots, p.fs) && Ordered(p.accounts) && Ordered(p.commodities)
  }

  /** A fresh writer over `fs`, with both sets empty. */
  function Fresh(fs: Fs): (p: Progress)
    ensures ProgressValid(p)
  {
    Progress(NoSlots(), fs, [], [], None)
  }

  /**
   * One turn of the loop: render the transaction, write its text, then add
   * its references to the sets. An error from either step stops the run.
   */
  function Turn(gen: Generator, setup: JournalSetup, route: Route, ts: Zoned, idx: U32, p: Progress): (q: Progress)
    requires ProgressValid(p) && p.failure.None?
    ensures ProgressValid(q)
  {
    match gen(ts, idx)
    case Err(e) => p.(failure := Some(e))
    case Ok(txn) =>
      var w := TxnWritten(setup, p.slots, p.fs, ts, route(ts, idx), txn.text);
      if w.result.Err? then Progress(w.slots, w.fs, p.accounts, p.commodities, Some(w.result.error))
      else Progress(w.slots, w.fs, InsertAll(p.accounts, txn.refs.accounts),
                    InsertAll(p.commodities, txn.refs.commodities), None)
  }

  /** The run after the transactions with indexes 1..k, or stopped at the first failure. */
  function Loop(gen: Generator, cal: Calendar, setup: JournalSetup, route: Route, start: Zoned, step: nat, k: nat, init: Progress)
    : (p: Progress)
    requires k < 0x1_0000_0000 && ProgressValid(init)
    ensures ProgressValid(p)
    ensures init.failure.Some? ==> p == init
    decreases k
  {
    if k == 0 then init
    else
      var prev := Loop(gen, cal, setup, route, start, step, k - 1, init);
      if prev.failure.Some? then prev
      else Turn(gen, setup, route, TsAt(cal, start, step, k - 1), k, prev)
  }

  /** The text of transaction `idx` (empty when it is an error). */
  function TextAt(gen: Generator, cal: Calendar, start: Zoned, step: nat, idx: U32): string
    requires idx >= 1
  {
    match gen(TsAt(cal, start, step, idx - 1), idx)
    case Ok(txn) => txn.text
    case Err(_) => ""
  }

  /** The texts of transactions 1..k, in index order. */
  function TextsUpTo(gen: Generator, cal: Calendar, start: Zoned, step: nat, k: nat): string
    requires k < 0x1_0000_0000
  {
    if k == 0 then "" else TextsUpTo(gen, cal, start, step, k - 1) + TextAt(gen, cal, start, step, k)
  }

  /** The references of transactions 1..k, all of them, in index order. */
  function AccountsUpTo(gen: Generator, cal: Calendar, start: Zoned, step: nat, k: nat): seq<string>
    requires k < 0x1_0000_0000
  {
    if k == 0 then []
    else
      AccountsUpTo(gen, cal, start, step, k - 1)
        + match gen(TsAt(cal, start, step, k - 1), k) { case Ok(txn) => txn.refs.accounts case Err(_) => [] }
  }

  function CommoditiesUpTo(gen: Generator, cal: Calendar, start: Zoned, step: nat, k: nat): seq<string>
    requires k < 0x1_0000_0000
  {
    if k == 0 then []
    else
      CommoditiesUpTo(gen, cal, start, step, k - 1)
        + match gen(TsAt(cal, start, step, k - 1), k) { case Ok(txn) => txn.refs.commodities case Err(_) => [] }
  }

  /** A failure ends the run: nothing after it changes anything. */
  lemma {:induction false} LoopStopsAtFailure(
    gen: Generator, cal: Calendar, setup: JournalSetup, route: Route, start: Zoned, step: nat, j: nat, k: nat, init: Progress)
    requires j <= k < 0x1_0000_0000 && ProgressValid(init)
    requires Loop(gen, cal, setup, route, start, step, j, init).failure.Some?
    ensures Loop(gen, cal, setup, route, start, step, k, init) == Loop(gen, cal, setup, route, start, step, j, init)
    decreases k - j
  {
    if j < k {
      LoopStopsAtFailure(gen, cal, setup, route, start, step, j, k - 1, init);
    }
  }

  /** A run that gets through index k got through every earlier index. */
  lemma {:induction false} LoopSucceededBefore(
    gen: Generator, cal: Calendar, setup: JournalSetup, route: Route, start: Zoned, step: nat, j: nat, k: nat, init: Progress)
    requires j <= k < 0x1_0000_0000 && ProgressValid(init)
    requires Loop(gen, cal, setup, route, start, step, k, init).failure.None?
    ensures Loop(gen, cal, setup, route, start, step, j, init).failure.None?
  {
    if Loop(gen, cal, setup, route, start, step, j, init).failure.Some? {
      LoopStopsAtFailure(gen, cal, setup, route, start, step, j, k, init);
    }
  }

  /**
   * The sets at the end of a successful run hold what they started with
   * and the references of every transaction, and nothing else.
   */
  lemma {:induction false} LoopGathersReferences(
    gen: Generator, cal: Calendar, setup: JournalSetup, route: Route, start: Zoned, step: nat, k: nat, init: Progress)
    requires k < 0x1_0000_0000 && ProgressValid(init) && init.failure.None?
    requires Loop(gen, cal, setup, route, start, step, k, init).failure.None?
    ensures var p := Loop(gen, cal, setup, route, start, step, k, init);
      && (forall y :: y in p.accounts <==> y in init.accounts || y in AccountsUpTo(gen, cal, start, step, k))
      && (forall y :: y in p.commodities <==> y in init.commodities || y in CommoditiesUpTo(gen, cal, start, step, k))
    decreases k
  {
    if k > 0 {
      var ts := TsAt(cal, start, step, k - 1);
      var prev := Loop(gen, cal, setup, route, start, step, k - 1, init);
      LoopSucceededBefore(gen, cal, setup, route, start, step, k - 1, k, init);
      assert Loop(gen, cal, setup, route, start, step, k, init) == Turn(gen, setup, route, ts, k, prev);
      LoopGathersReferences(gen, cal, setup, route, start, step, k - 1, init);
      TurnGathers(gen, setup, route, ts, k, prev);
      var refs := gen(ts, k).value.refs;
      assert AccountsUpTo(gen, cal, start, step, k) == AccountsUpTo(gen, cal, start, step, k - 1) + refs.accounts;
      assert CommoditiesUpTo(gen, cal, start, step, k) == CommoditiesUpTo(gen, cal, start, step, k - 1) + refs.commodities;
    }
  }

  /** A successful turn adds the transaction's references to the sets, and nothing else. */
  lemma TurnGathers(gen: Generator, setup: JournalSetup, route: Route, ts: Zoned, idx: U32, p: Progress)
    requires ProgressValid(p) && p.failure.None?
    requires Turn(gen, setup, route, ts, idx, p).failure.None?
    ensures gen(ts, idx).Ok?
    ensures var q := Turn(gen, setup, route, ts, idx, p);
      && q.accounts == InsertAll(p.accounts, gen(ts, idx).value.refs.accounts)
      && q.commodities == InsertAll(p.commodities, gen(ts, idx).value.refs.commodities)
  {
  }

  /** Single shard: a turn through an open journal appends the transaction to it. */
  lemma SingleTurnAppends(gen: Generator, setup: JournalSetup, route: Route, ts: Zoned, idx: U32, p: Progress, journal: Path)
    requires setup.shardType == Single && ProgressValid(p) && p.failure.None?
    requires p.slots[0] == Some(journal)
    requires Turn(gen, setup, route, ts, idx, p).failure.None?
    ensures var q := Turn(gen, setup, route, ts, idx, p);
      && q.slots[0] == Some(journal)
      && q.fs.files[journal] == p.fs.files[journal] + gen(ts, idx).value.text
  {
    var txn := gen(ts, idx).value;
    assert Routing(setup, p.slots, p.fs, ts, route(ts, idx)) == Routed(p.slots, p.fs, Ok(journal));
  }

  /** Single shard: the first turn opens the set's journal and writes the transaction into it. */
  lemma SingleTurnOpens(gen: Generator, setup: JournalSetup, route: Route, ts: Zoned, idx: U32, p: Progress)
    requires setup.shardType == Single && ProgressValid(p) && p.failure.None?
    requires p.slots[0].None?
    requires Turn(gen, setup, route, ts, idx, p).failure.None?
    ensures var q := Turn(gen, setup, route, ts, idx, p);
      var journal := route(ts, idx).1;
      && q.slots[0] == Some(journal)
      && q.fs.files[journal] == gen(ts, idx).value.text
  {
    var txn := gen(ts, idx).value;
    var journal := route(ts, idx).1;
    var routed := Routing(setup, p.slots, p.fs, ts, route(ts, idx));
    assert routed.result == Ok(journal) && routed.fs.files[journal] == "";
    assert "" + txn.text == txn.text;
  }

  /** The single journal is open in slot 0 and holds `content`. */
  predicate JournalHolds(p: Progress, journal: Path, content: string) {
    |p.slots| == SLOTS && p.slots[0] == Some(journal) && journal in p.fs.files && p.fs.files[journal] == content
  }

  /** Single shard: turn k of a run appends transaction k to the journal open before it. */
  lemma SingleStep(
    gen: Generator, cal: Calendar, setup: JournalSetup, route: Route, start: Zoned, step: nat, k: nat, init: Progress,
    journal: Path, content: string)
    requires setup.shardType == Single
    requires 1 <= k < 0x1_0000_0000 && ProgressValid(init) && init.failure.None?
    requires Loop(gen, cal, setup, route, start, step, k, init).failure.None?
    requires JournalHolds(Loop(gen, cal, setup, route, start, step, k - 1, init), journal, content)
    ensures JournalHolds(Loop(gen, cal, setup, route, start, step, k, init), journal, content + TextAt(gen, cal, start, step, k))
  {
    var ts := TsAt(cal, start, step, k - 1);
    var prev := Loop(gen, cal, setup, route, start, step, k - 1, init);
    LoopSucceededBefore(gen, cal, setup, route, start, step, k - 1, k, init);
    assert Loop(gen, cal, setup, route, start, step, k, init) == Turn(gen, setup, route, ts, k, prev);
    TurnGathers(gen, setup, route, ts, k, prev);
    SingleTurnAppends(gen, setup, route, ts, k, prev, journal);
  }

  /** Single shard: the first turn of a run with no journal open creates the first transaction's journal. */
  lemma SingleFirst(
    gen: Generator, cal: Calendar, setup: JournalSetup, route: Route, start: Zoned, step: nat, init: Progress)
    requires setup.shardType == Single
    requires ProgressValid(init) && init.failure.None? && init.slots[0].None?
    requires Loop(gen, cal, setup, route, start, step, 1, init).failure.None?
    ensures JournalHolds(Loop(gen, cal, setup, route, start, step, 1, init), route(start, 1).1, TextAt(gen, cal, start, step, 1))
  {
    assert Loop(gen, cal, setup, route, start, step, 1, init) == Turn(gen, setup, route, start, 1, init);
    TurnGathers(gen, setup, route, start, 1, init);
    SingleTurnOpens(gen, setup, route, start, 1, init);
  }

  /** Text appended after `before + earlier` is text appended after `before`. */
  lemma AppendedInTurn(before: string, earlier: string, text: string, all: string)
    requires all == earlier + text
    ensures before + all == (before + earlier) + text
  {
  }

  /**
   * Single shard: a successful run appends the transactions 1..k, each
   * once and in index order, to the one journal. The journal is the one
   * the writer had open (then `before` is what it held), or else the first
   * transaction's journal path, created by that transaction (then `before`
   * is empty).
   */
  lemma {:induction false} SingleJournalHoldsAll(
    gen: Generator, cal: Calendar, setup: JournalSetup, route: Route, start: Zoned, step: nat, k: nat, init: Progress,
    journal: Path, before: string)
    requires setup.shardType == Single
    requires 1 <= k < 0x1_0000_0000 && ProgressValid(init) && init.failure.None?
    requires init.slots[0].Some? ==> JournalHolds(init, journal, before)
    requires init.slots[0].None? ==> journal == route(start, 1).1 && before == ""
    requires Loop(gen, cal, setup, route, start, step, k, init).failure.None?
    ensures JournalHolds(Loop(gen, cal, setup, route, start, step, k, init), journal, before + TextsUpTo(gen, cal, start, step, k))
    decreases k
  {
    var text := TextAt(gen, cal, start, step, k);
    var earlier := TextsUpTo(gen, cal, start, step, k - 1);
    assert TextsUpTo(gen, cal, start, step, k) == earlier + text;
    if k == 1 {
      assert earlier == "" && "" + text == text;
      if init.slots[0].Some? {
        SingleStep(gen, cal, setup, route, start, step, 1, init, journal, before);
      } else {
        SingleFirst(gen, cal, setup, route, start, step, init);
      }
    } else {
      LoopSucceededBefore(gen, cal, setup, route, start, step, k - 1, k, init);
      SingleJournalHoldsAll(gen, cal, setup, route, start, step, k - 1, init, journal, before);
      SingleStep(gen, cal, setup, route, start, step, k, init, journal, before + earlier);
      AppendedInTurn(before, earlier, text, TextsUpTo(gen, cal, start, step, k));
    }
  }

  /** Transaction shard: a turn puts the transaction alone into a new file at its journal path. */
  lemma TxnTurnCreates(gen: Generator, setup: JournalSetup, route: Route, ts: Zoned, idx: U32, p: Progress)
    requires setup.shardType == Txn && ProgressValid(p) && p.failure.None?
    requires Turn(gen, setup, route, ts, idx, p).failure.None?
    ensures var file := route(ts, idx).1;
      && file !in p.fs.files
      && Turn(gen, setup, route, ts, idx, p).fs.files == p.fs.files[file := gen(ts, idx).value.text]
  {
    var txn := gen(ts, idx).value;
    var file := route(ts, idx).1;
    var routed := Routing(setup, p.slots, p.fs, ts, route(ts, idx));
    assert routed.result == Ok(file) && routed.fs.files == p.fs.files[file := ""];
    assert "" + txn.text == txn.text;
  }

  /** Transaction shard: turn k of a successful run creates transaction k's file, holding its text alone. */
  lemma TxnStepCreates(
    gen: Generator, cal: Calendar, setup: JournalSetup, route: Route, start: Zoned, step: nat, k: nat, init: Progress)
    requires setup.shardType == Txn
    requires 1 <= k < 0x1_0000_0000 && ProgressValid(init) && init.failure.None?
    requires Loop(gen, cal, setup, route, start, step, k, init).failure.None?
    ensures var file := route(TsAt(cal, start, step, k - 1), k).1;
      && file !in Loop(gen, cal, setup, route, start, step, k - 1, init).fs.files
      && Loop(gen, cal, setup, route, start, step, k, init).fs.files
         == Loop(gen, cal, setup, route, start, step, k - 1, init).fs.files[file := TextAt(gen, cal, start, step, k)]
  {
    var ts := TsAt(cal, start, step, k - 1);
    var prev := Loop(gen, cal, setup, route, start, step, k - 1, init);
    LoopSucceededBefore(gen, cal, setup, route, start, step, k - 1, k, init);
    assert Loop(gen, cal, setup, route, start, step, k, init) == Turn(gen, setup, route, ts, k, prev);
    TurnGathers(gen, setup, route, ts, k, prev);
    TxnTurnCreates(gen, setup, route, ts, k, prev);
  }

  /** Transaction `i`'s file was not there at the start of the run and now holds that transaction alone. */
  predicate HoldsTxn(gen: Generator, cal: Calendar, route: Route, start: Zoned, step: nat, i: nat,
                     before: map<Path, string>, after: map<Path, string>)
    requires 1 <= i < 0x1_0000_0000
  {
    var file := route(TsAt(cal, start, step, i - 1), i).1;
    file !in before && file in after && after[file] == TextAt(gen, cal, start, step, i)
  }

  /** Transaction shard: transaction i's file, once written, stays as it is for the rest of a successful run. */
  lemma {:induction false} TxnFileAt(
    gen: Generator, cal: Calendar, setup: JournalSetup, route: Route, start: Zoned, step: nat, i: nat, k: nat, init: Progress)
    requires setup.shardType == Txn
    requires 1 <= i <= k < 0x1_0000_0000 && ProgressValid(init) && init.failure.None?
    requires Loop(gen, cal, setup, route, start, step, k, init).failure.None?
    ensures HoldsTxn(gen, cal, route, start, step, i, init.fs.files, Loop(gen, cal, setup, route, start, step, k, init).fs.files)
    decreases k
  {
    LoopSucceededBefore(gen, cal, setup, route, start, step, k - 1, k, init);
    TxnStepCreates(gen, cal, setup, route, start, step, k, init);
    if i == k {
      LoopKeepsFiles(gen, cal, setup, route, start, step, k - 1, init);
    } else {
      TxnFileAt(gen, cal, setup, route, start, step, i, k - 1, init);
      var file, last := route(TsAt(cal, start, step, i - 1), i).1, route(TsAt(cal, start, step, k - 1), k).1;
      KeptThrough(Loop(gen, cal, setup, route, start, step, k - 1, init).fs.files,
                  Loop(gen, cal, setup, route, start, step, k, init).fs.files, last, TextAt(gen, cal, start, step, k), file);
    }
  }

  /** A file other than the one created keeps its content. */
  lemma KeptThrough(before: map<Path, string>, after: map<Path, string>, created: Path, text: string, file: Path)
    requires created !in before && after == before[created := text] && file in before
    ensures file in after && after[file] == before[file]
  {
  }

  /**
   * Transaction shard: after a successful run, transaction `i` is alone in
   * a file of its own, at its journal path, for every index 1..k: each index
   * is written exactly once.
   */
  lemma TxnShardOneFileEach(
    gen: Generator, cal: Calendar, setup: JournalSetup, route: Route, start: Zoned, step: nat, k: nat, init: Progress)
    requires setup.shardType == Txn
    requires k < 0x1_0000_0000 && ProgressValid(init) && init.failure.None?
    requires Loop(gen, cal, setup, route, start, step, k, init).failure.None?
    ensures forall i: nat :: 1 <= i <= k ==>
      HoldsTxn(gen, cal, route, start, step, i, init.fs.files, Loop(gen, cal, setup, route, start, step, k, init).fs.files)
  {
    forall i: nat | 1 <= i <= k
      ensures HoldsTxn(gen, cal, route, start, step, i, init.fs.files, Loop(gen, cal, setup, route, start, step, k, init).fs.files)
    {
      TxnFileAt(gen, cal, setup, route, start, step, i, k, init);
    }
  }

  /** Transaction shard: a run never takes a file away nor changes one that was there before it. */
  lemma {:induction false} LoopKeepsFiles(
    gen: Generator, cal: Calendar, setup: JournalSetup, route: Route, start: Zoned, step: nat, k: nat, init: Progress)
    requires setup.shardType == Txn
    requires k < 0x1_0000_0000 && ProgressValid(init)
    ensures SameFiles(init.fs, Loop(gen, cal, setup, route, start, step, k, init).fs)
    decreases k
  {
    if k > 0 {
      var prev := Loop(gen, cal, setup, route, start, step, k - 1, init);
      LoopKeepsFiles(gen, cal, setup, route, start, step, k - 1, init);
      if prev.failure.None? {
        var ts := TsAt(cal, start, step, k - 1);
        if gen(ts, k).Ok? {
          TxnWriteTouchesOneFile(setup, prev.slots, prev.fs, ts, route(ts, k), gen(ts, k).value.text);
          var w := TxnWritten(setup, prev.slots, prev.fs, ts, route(ts, k), gen(ts, k).value.text);
          assert w.result.Ok? ==> w.result.value !in prev.fs.files;
        }
      }
    }
  }

  /** The month of transaction `i`'s time. */
  function MonthAt(cal: Calendar, start: Zoned, step: nat, i: nat): (m: int)
    requires i >= 1
    ensures 1 <= m <= SLOTS
  {
    TsAt(cal, start, step, i - 1).month
  }

  /** The first of the transactions 1..k whose time falls in month `m`, in whatever year. */
  function FirstInMonth(cal: Calendar, start: Zoned, step: nat, m: int, k: nat): (first: Option<nat>)
    ensures first.Some? ==> 1 <= first.value <= k && MonthAt(cal, start, step, first.value) == m
    ensures first.Some? ==> forall i :: 1 <= i < first.value ==> MonthAt(cal, start, step, i) != m
    ensures first.None? ==> forall i :: 1 <= i <= k ==> MonthAt(cal, start, step, i) != m
    decreases k
  {
    if k == 0 then None
    else
      var earlier := FirstInMonth(cal, start, step, m, k - 1);
      if earlier.Some? then earlier
      else if MonthAt(cal, start, step, k) == m then Some(k)
      else None
  }

  /** The texts of those of the transactions 1..k whose time falls in month `m`, in index order. */
  function MonthTextsUpTo(gen: Generator, cal: Calendar, start: Zoned, step: nat, m: int, k: nat): string
    requires k < 0x1_0000_0000
  {
    if k == 0 then ""
    else
      MonthTextsUpTo(gen, cal, start, step, m, k - 1)
        + if MonthAt(cal, start, step, k) == m then TextAt(gen, cal, start, step, k) else ""
  }

  /** Before the first transaction of a month there is no text of that month. */
  lemma {:induction false} NoMonthNoTexts(gen: Generator, cal: Calendar, start: Zoned, step: nat, m: int, k: nat)
    requires k < 0x1_0000_0000 && FirstInMonth(cal, start, step, m, k).None?
    ensures MonthTextsUpTo(gen, cal, start, step, m, k) == ""
    decreases k
  {
    if k > 0 {
      NoMonthNoTexts(gen, cal, start, step, m, k - 1);
    }
  }

  /** Month shard: a turn through the open journal of its month appends the transaction to it; no slot changes. */
  lemma MonthTurnAppends(gen: Generator, setup: JournalSetup, route: Route, ts: Zoned, idx: U32, p: Progress, journal: Path)
    requires setup.shardType == Month && ProgressValid(p) && p.failure.None?
    requires p.slots[ts.month - 1] == Some(journal)
    requires Turn(gen, setup, route, ts, idx, p).failure.None?
    ensures var q := Turn(gen, setup, route, ts, idx, p);
      && q.slots == p.slots
      && q.fs.files == p.fs.files[journal := p.fs.files[journal] + gen(ts, idx).value.text]
  {
    assert Routing(setup, p.slots, p.fs, ts, route(ts, idx)) == Routed(p.slots, p.fs, Ok(journal));
  }

  /**
   * Month shard: the first turn of a month creates the transaction's
   * journal path new, holding the transaction, and caches it in the
   * month's slot.
   */
  lemma MonthTurnOpens(gen: Generator, setup: JournalSetup, route: Route, ts: Zoned, idx: U32, p: Progress)
    requires setup.shardType == Month && ProgressValid(p) && p.failure.None?
    requires p.slots[ts.month - 1].None?
    requires Turn(gen, setup, route, ts, idx, p).failure.None?
    ensures var q, file := Turn(gen, setup, route, ts, idx, p), route(ts, idx).1;
      && file !in p.fs.files
      && q.slots == p.slots[ts.month - 1 := Some(file)]
      && q.fs.files == p.fs.files[file := gen(ts, idx).value.text]
  {
    var txn := gen(ts, idx).value;
    var file := route(ts, idx).1;
    var routed := Routing(setup, p.slots, p.fs, ts, route(ts, idx));
    assert routed.result == Ok(file) && routed.fs.files == p.fs.files[file := ""];
    assert "" + txn.text == txn.text;
  }

  /** No two slots cache the same journal. */
  predicate SlotsApart(slots: Slots) {
    forall i, j :: 0 <= i < j < |slots| && slots[i].Some? && slots[j].Some? ==> slots[i].value != slots[j].value
  }

  /**
   * Month shard, after the transactions 1..k: month `m` has no journal
   * open when none of them fell in it; otherwise its slot holds the
   * journal path of the first of them, and that journal holds the texts
   * of all of them in index order.
   */
  predicate MonthJournalHolds(gen: Generator, cal: Calendar, route: Route, start: Zoned, step: nat, m: int, k: nat, p: Progress)
    requires 1 <= m <= SLOTS && k < 0x1_0000_0000
  {
    |p.slots| == SLOTS &&
    match FirstInMonth(cal, start, step, m, k)
    case None => p.slots[m - 1].None?
    case Some(_) =>
      var journal := MonthJournal(cal, route, start, step, m, k);
      p.slots[m - 1] == Some(journal) && journal in p.fs.files
      && p.fs.files[journal] == MonthTextsUpTo(gen, cal, start, step, m, k)
  }

  /** What `MonthJournalHolds` says of every month, and the journals of different months are different files. */
  predicate MonthJournalsHold(gen: Generator, cal: Calendar, route: Route, start: Zoned, step: nat, k: nat, p: Progress)
    requires k < 0x1_0000_0000
  {
    SlotsApart(p.slots) && forall m :: 1 <= m <= SLOTS ==> MonthJournalHolds(gen, cal, route, start, step, m, k, p)
  }

  /** Month shard: turn k of a successful run writes transaction k to its month's journal and leaves the other months as they were. */
  lemma MonthStep(
    gen: Generator, cal: Calendar, setup: JournalSetup, route: Route, start: Zoned, step: nat, k: nat, init: Progress)
    requires setup.shardType == Month
    requires 1 <= k < 0x1_0000_0000 && ProgressValid(init) && init.failure.None?
    requires Loop(gen, cal, setup, route, start, step, k, init).failure.None?
    requires MonthJournalsHold(gen, cal, route, start, step, k - 1, Loop(gen, cal, setup, route, start, step, k - 1, init))
    ensures MonthJournalsHold(gen, cal, route, start, step, k, Loop(gen, cal, setup, route, start, step, k, init))
  {
    var prev := Loop(gen, cal, setup, route, start, step, k - 1, init);
    LoopSucceededBefore(gen, cal, setup, route, start, step, k - 1, k, init);
    assert Loop(gen, cal, setup, route, start, step, k, init) == Turn(gen, setup, route, TsAt(cal, start, step, k - 1), k, prev);
    MonthTurnKeeps(gen, cal, setup, route, start, step, k - 1, prev);
  }

  /** Month shard: turn j+1 writes transaction j+1 to its month's journal, opening it when it is the month's first. */
  lemma MonthTurnKeeps(
    gen: Generator, cal: Calendar, setup: JournalSetup, route: Route, start: Zoned, step: nat, j: nat, prev: Progress)
    requires setup.shardType == Month
    requires j + 1 < 0x1_0000_0000 && ProgressValid(prev) && prev.failure.None?
    requires MonthJournalsHold(gen, cal, route, start, step, j, prev)
    requires Turn(gen, setup, route, TsAt(cal, start, step, j), j + 1, prev).failure.None?
    ensures MonthJournalsHold(gen, cal, route, start, step, j + 1, Turn(gen, setup, route, TsAt(cal, start, step, j), j + 1, prev))
  {
    var ts := TsAt(cal, start, step, j);
    TurnGathers(gen, setup, route, ts, j + 1, prev);
    assert TextAt(gen, cal, start, step, j + 1) == gen(ts, j + 1).value.text;
    if prev.slots[ts.month - 1].Some? {
      MonthTurnAppends(gen, setup, route, ts, j + 1, prev, prev.slots[ts.month - 1].value);
      MonthAppendKeeps(gen, cal, route, start, step, j, prev, Turn(gen, setup, route, ts, j + 1, prev));
    } else {
      MonthTurnOpens(gen, setup, route, ts, j + 1, prev);
      MonthOpenKeeps(gen, cal, route, start, step, j, prev, Turn(gen, setup, route, ts, j + 1, prev), route(ts, j + 1).1);
    }
  }

  /** Month shard: appending transaction j+1 to the open journal of its month keeps every month as it should be. */
  lemma MonthAppendKeeps(
    gen: Generator, cal: Calendar, route: Route, start: Zoned, step: nat, j: nat, prev: Progress, q: Progress)
    requires j + 1 < 0x1_0000_0000 && SlotsValid(prev.slots, prev.fs)
    requires MonthJournalsHold(gen, cal, route, start, step, j, prev)
    requires prev.slots[MonthAt(cal, start, step, j + 1) - 1].Some?
    requires var journal := prev.slots[MonthAt(cal, start, step, j + 1) - 1].value;
      && q.slots == prev.slots
      && q.fs.files == prev.fs.files[journal := prev.fs.files[journal] + TextAt(gen, cal, start, step, j + 1)]
    ensures MonthJournalsHold(gen, cal, route, start, step, j + 1, q)
  {
    var mk := MonthAt(cal, start, step, j + 1);
    var journal := prev.slots[mk - 1].value;
    assert MonthJournalHolds(gen, cal, route, start, step, mk, j, prev);
    assert FirstInMonth(cal, start, step, mk, j + 1) == FirstInMonth(cal, start, step, mk, j);
    assert q.slots == prev.slots[mk - 1 := Some(journal)];
    MonthOthersKept(gen, cal, route, start, step, j, prev, q, mk, journal);
  }

  /** Month shard: opening the journal of transaction j+1's month new, holding it, keeps every month as it should be. */
  lemma MonthOpenKeeps(
    gen: Generator, cal: Calendar, route: Route, start: Zoned, step: nat, j: nat, prev: Progress, q: Progress, file: Path)
    requires j + 1 < 0x1_0000_0000 && SlotsValid(prev.slots, prev.fs)
    requires MonthJournalsHold(gen, cal, route, start, step, j, prev)
    requires prev.slots[MonthAt(cal, start, step, j + 1) - 1].None?
    requires file == route(TsAt(cal, start, step, j), j + 1).1 && file !in prev.fs.files
    requires q.slots == prev.slots[MonthAt(cal, start, step, j + 1) - 1 := Some(file)]
    requires q.fs.files == prev.fs.files[file := TextAt(gen, cal, start, step, j + 1)]
    ensures MonthJournalsHold(gen, cal, route, start, step, j + 1, q)
  {
    var mk := MonthAt(cal, start, step, j + 1);
    assert MonthJournalHolds(gen, cal, route, start, step, mk, j, prev);
    NoMonthNoTexts(gen, cal, start, step, mk, j);
    assert FirstInMonth(cal, start, step, mk, j + 1) == Some(j + 1);
    var text := TextAt(gen, cal, start, step, j + 1);
    assert MonthTextsUpTo(gen, cal, start, step, mk, j + 1) == "" + text == text;
    MonthOthersKept(gen, cal, route, start, step, j, prev, q, mk, file);
  }

  /**
   * The months other than `mk` keep their slots and journals when turn j+1
   * writes only the journal of month `mk` (one the other slots do not
   * hold), and month `mk` ends holding its texts.
   */
  lemma MonthOthersKept(
    gen: Generator, cal: Calendar, route: Route, start: Zoned, step: nat, j: nat, prev: Progress, q: Progress,
    mk: int, journal: Path)
    requires j + 1 < 0x1_0000_0000 && mk == MonthAt(cal, start, step, j + 1)
    requires |prev.slots| == SLOTS && SlotsApart(prev.slots)
    requires forall m :: 1 <= m <= SLOTS && m != mk ==> MonthJournalHolds(gen, cal, route, start, step, m, j, prev)
    requires forall i :: 0 <= i < SLOTS && i != mk - 1 && prev.slots[i].Some? ==> prev.slots[i].value != journal
    requires q.slots == prev.slots[mk - 1 := Some(journal)]
    requires q.fs.files == prev.fs.files[journal := MonthTextsUpTo(gen, cal, start, step, mk, j + 1)]
    requires FirstInMonth(cal, start, step, mk, j + 1).Some?
    requires journal == MonthJournal(cal, route, start, step, mk, j + 1)
    ensures MonthJournalsHold(gen, cal, route, start, step, j + 1, q)
  {
    var k := j + 1;
    forall m | 1 <= m <= SLOTS
      ensures MonthJournalHolds(gen, cal, route, start, step, m, k, q)
    {
      if m != mk {
        assert MonthJournalHolds(gen, cal, route, start, step, m, j, prev);
        assert q.slots[m - 1] == prev.slots[m - 1];
        assert FirstInMonth(cal, start, step, m, j + 1) == FirstInMonth(cal, start, step, m, j);
        assert MonthTextsUpTo(gen, cal, start, step, m, j + 1) == MonthTextsUpTo(gen, cal, start, step, m, j) + "";
      }
    }
  }

  /**
   * Month shard: a successful run from a writer with no journal open
   * leaves, for every month, the texts of that month's transactions in
   * index order in the journal opened by the first of them, and no journal
   * open for a month no transaction fell in.
   */
  lemma {:induction false} MonthJournalsHoldAll(
    gen: Generator, cal: Calendar, setup: JournalSetup, route: Route, start: Zoned, step: nat, k: nat, init: Progress)
    requires setup.shardType == Month
    requires k < 0x1_0000_0000 && ProgressValid(init) && init.failure.None? && init.slots == NoSlots()
    requires Loop(gen, cal, setup, route, start, step, k, init).failure.None?
    ensures MonthJournalsHold(gen, cal, route, start, step, k, Loop(gen, cal, setup, route, start, step, k, init))
    decreases k
  {
    if k == 0 {
      MonthJournalsNoneOpen(gen, cal, route, start, step, init);
    } else {
      LoopSucceededBefore(gen, cal, setup, route, start, step, k - 1, k, init);
      MonthJournalsHoldAll(gen, cal, setup, route, start, step, k - 1, init);
      MonthStep(gen, cal, setup, route, start, step, k, init);
    }
  }

  /** Before any transaction, a writer with no journal open has every month as it should be. */
  lemma MonthJournalsNoneOpen(gen: Generator, cal: Calendar, route: Route, start: Zoned, step: nat, init: Progress)
    requires init.slots == NoSlots()
    ensures MonthJournalsHold(gen, cal, route, start, step, 0, init)
  {
    forall m | 1 <= m <= SLOTS
      ensures MonthJournalHolds(gen, cal, route, start, step, m, 0, init)
    {
      assert FirstInMonth(cal, start, step, m, 0).None?;
    }
  }

  /** Every file of `orig` is still there with its content, and no cached journal is one of them. */
  predicate LeavesAlone(orig: Fs, p: Progress) {
    SameFiles(orig, p.fs) && forall i :: 0 <= i < |p.slots| && p.slots[i].Some? ==> p.slots[i].value !in orig.files
  }

  /** A turn writes only to a journal it opened itself, never to a file that was there before. */
  lemma TurnLeavesAlone(gen: Generator, setup: JournalSetup, route: Route, ts: Zoned, idx: U32, p: Progress, orig: Fs)
    requires ProgressValid(p) && p.failure.None? && LeavesAlone(orig, p)
    ensures LeavesAlone(orig, Turn(gen, setup, route, ts, idx, p))
  {
    if gen(ts, idx).Ok? {
      var txn := gen(ts, idx).value;
      var routed := Routing(setup, p.slots, p.fs, ts, route(ts, idx));
      RoutingCachesOnlyResult(setup, p.slots, p.fs, ts, route(ts, idx));
      TxnWriteTouchesOneFile(setup, p.slots, p.fs, ts, route(ts, idx), txn.text);
      if routed.result.Ok? {
        assert routed.result.value !in orig.files;
      }
    }
  }

  /** A run started clear of `orig` never changes one of its files. */
  lemma {:induction false} LoopLeavesAlone(
    gen: Generator, cal: Calendar, setup: JournalSetup, route: Route, start: Zoned, step: nat, k: nat, init: Progress, orig: Fs)
    requires k < 0x1_0000_0000 && ProgressValid(init) && LeavesAlone(orig, init)
    ensures LeavesAlone(orig, Loop(gen, cal, setup, route, start, step, k, init))
    decreases k
  {
    if k > 0 {
      var prev := Loop(gen, cal, setup, route, start, step, k - 1, init);
      LoopLeavesAlone(gen, cal, setup, route, start, step, k - 1, init, orig);
      if prev.failure.None? {
        TurnLeavesAlone(gen, setup, route, TsAt(cal, start, step, k - 1), k, prev, orig);
      }
    }
  }

  /** A fresh writer has nothing cached. */
  lemma FreshLeavesAlone(fs: Fs)
    ensures LeavesAlone(fs, Fresh(fs))
  {
  }

  /** `journal_path` of the writer's setup. */
  function JournalRoute(setup: JournalSetup): Route {
    (ts: Zoned, idx: U32) => JournalPath(setup, ts, idx)
  }

  /** The command line options every driver reads (`GlobalArgs`), the two times already turned into a start and a span. */
  datatype Args = Args(dataPath: Path, setSize: string, shardType: string, start: Zoned, spanSecs: U32)

  /** Emitting a rendered artifact first writes it, then, only when that worked, the rest. */
  lemma EmitFirst(fs: Fs, plan: seq<Artifact>)
    requires |plan| > 0 && plan[0].text.Ok?
    ensures var w := ArtifactWritten(fs, plan[0].at, plan[0].text.value);
      Emit(fs, plan) == if w.result.Err? then Step(w.fs, Err(w.result.error)) else Emit(w.fs, plan[1..])
  {
  }

  /** The `--flavor` option: Tackler when it is not given. */
  function FlavorOption(flavor: Option<string>): Result<JournalFlavor> {
    match flavor
    case None => Ok(Tackler)
    case Some(f) => ParseFlavor(f)
  }

  /** The run after `try_new`: stopped with its error, or on to the final artifacts. */
  function Finish(p: Progress, plan: seq<Artifact>): Step<()> {
    if p.failure.Some? then Step(p.fs, Err(p.failure.value)) else Emit(p.fs, plan)
  }

  /** One turn on the objects: renders, writes through `writer`, then adds the references to the sets. */
  method TakeTurn(gen: Generator, writer: JournalWriter, disk: Disk, ts: Zoned, idx: U32, accounts: seq<string>, commodities: seq<string>)
    returns (failure: Option<Error>, accounts': seq<string>, commodities': seq<string>)
    requires ProgressValid(Progress(writer.slots, disk.fs, accounts, commodities, None))
    modifies writer, disk
    ensures Progress(writer.slots, disk.fs, accounts', commodities', failure)
         == Turn(gen, writer.setup, JournalRoute(writer.setup), ts, idx, old(Progress(writer.slots, disk.fs, accounts, commodities, None)))
  {
    accounts', commodities' := accounts, commodities;
    var rendered := gen(ts, idx);
    if rendered.Err? {
      return Some(rendered.error), accounts, commodities;
    }
    var written := writer.WriteTxn(disk, ts, idx, rendered.value.text);
    if written.Err? {
      return Some(written.error), accounts, commodities;
    }
    accounts' := InsertEach(accounts, rendered.value.refs.accounts);
    commodities' := InsertEach(commodities, rendered.value.refs.commodities);
    failure := None;
  }

  /**
   * The loop over the indexes 1..n on the objects, from a writer with
   * empty sets: each transaction at its time, `step` seconds after the one
   * before; the first error stops it.
   */
  method Transactions(gen: Generator, cal: Calendar, writer: JournalWriter, disk: Disk, start: Zoned, step: nat, n: U32)
    returns (failure: Option<Error>, accounts: seq<string>, commodities: seq<string>)
    requires SlotsValid(writer.slots, disk.fs)
    modifies writer, disk
    ensures Progress(writer.slots, disk.fs, accounts, commodities, failure)
         == Loop(gen, cal, writer.setup, JournalRoute(writer.setup), start, step, n, old(Progress(writer.slots, disk.fs, [], [], None)))
  {
    ghost var route := JournalRoute(writer.setup);
    ghost var init := Progress(writer.slots, disk.fs, [], [], None);
    failure, accounts, commodities := None, [], [];
    var ts := start;
    for idx := 1 to n + 1
      invariant ts == TsAt(cal, start, step, idx - 1) && failure.None?
      invariant Loop(gen, cal, writer.setup, route, start, step, idx - 1, init)
             == Progress(writer.slots, disk.fs, accounts, commodities, None)
    {
      failure, accounts, commodities := TakeTurn(gen, writer, disk, ts, idx, accounts, commodities);
      if failure.Some? {
        LoopStopsAtFailure(gen, cal, writer.setup, route, start, step, idx, n, init);
        return;
      }
      ts := AddSeconds(cal, ts, step);
    }
  }

  /** A run started clear of `orig` ends, with or without error, with every file of `orig` as it was. */
  lemma FinishLeavesAlone(p: Progress, plan: seq<Artifact>, orig: Fs)
    requires LeavesAlone(orig, p)
    ensures SameFiles(orig, Finish(p, plan).fs)
  {
  }

  // ---------------------------------------------------------------------
  // The final artifacts
  // ---------------------------------------------------------------------

  /** A chart or the configuration: where it goes and its text, or the error rendering it gave. */
  datatype Artifact = Artifact(at: (Path, Path), text: Result<string>)

  /**
   * Writes the artifacts in order; the first error, from rendering or
   * writing, ends it. Files there before keep their content and the only
   * new files are artifacts. When every write succeeds, each artifact is a
   * new file holding exactly its text; when the first one cannot be
   * rendered or exists already, no file is touched.
   */
  function Emit(fs: Fs, plan: seq<Artifact>): (s: Step<()>)
    ensures SameFiles(fs, s.fs)
    ensures forall p :: p in s.fs.files && p !in fs.files ==> exists i :: 0 <= i < |plan| && plan[i].at.1 == p
    ensures s.result.Ok? ==> forall i :: 0 <= i < |plan| ==>
      && plan[i].text.Ok? && plan[i].at.1 !in fs.files
      && plan[i].at.1 in s.fs.files && s.fs.files[plan[i].at.1] == plan[i].text.value
    ensures |plan| > 0 && (plan[0].text.Err? || Exists(fs, plan[0].at.1)) ==> s.result.Err? && s.fs.files == fs.files
    decreases |plan|
  {
    if plan == [] then Step(fs, Ok(()))
    else
      var a := plan[0];
      if a.text.Err? then Step(fs, Err(a.text.error))
      else
        var w := ArtifactWritten(fs, a.at, a.text.value);
        if w.result.Err? then Step(w.fs, Err(w.result.error))
        else
          var rest := Emit(w.fs, plan[1..]);
          EmitStep(fs, w.fs, rest.fs, plan);
          rest
  }

  /**
   * The step of `Emit` from the rest of the plan to the whole: the first
   * artifact was written new into `mid`, the rest went from `mid` to `out`.
   */
  lemma EmitStep(fs: Fs, mid: Fs, out: Fs, plan: seq<Artifact>)
    requires |plan| > 0 && plan[0].text.Ok? && plan[0].at.1 !in fs.files
    requires mid.files == fs.files[plan[0].at.1 := plan[0].text.value] && SameFiles(mid, out)
    requires forall p :: p in out.files && p !in mid.files ==> exists i :: 0 <= i < |plan[1..]| && plan[1..][i].at.1 == p
    ensures SameFiles(fs, out)
    ensures forall p :: p in out.files && p !in fs.files ==> exists i :: 0 <= i < |plan| && plan[i].at.1 == p
    ensures plan[0].at.1 in out.files && out.files[plan[0].at.1] == plan[0].text.value
    ensures forall i :: 1 <= i < |plan| ==> plan[i] == plan[1..][i - 1]
  {
    forall p | p in out.files && p !in fs.files
      ensures exists i :: 0 <= i < |plan| && plan[i].at.1 == p
    {
      if p != plan[0].at.1 {
        var i :| 0 <= i < |plan[1..]| && plan[1..][i].at.1 == p;
        assert plan[i + 1].at.1 == p;
      }
    }
  }

  // ---------------------------------------------------------------------
  // What a whole run leaves behind
  // ---------------------------------------------------------------------

  /**
   * Single shard: a run that ends well leaves its journal, which was not a
   * file before the run, holding what it held at the start and then every
   * transaction in index order.
   */
  lemma FinishedSingleJournal(
    gen: Generator, cal: Calendar, setup: JournalSetup, route: Route, start: Zoned, step: nat, n: nat, init: Progress,
    journal: Path, before: string, orig: Fs, plan: seq<Artifact>)
    requires setup.shardType == Single
    requires 1 <= n < 0x1_0000_0000 && ProgressValid(init) && init.failure.None? && LeavesAlone(orig, init)
    requires init.slots[0].Some? ==> JournalHolds(init, journal, before)
    requires init.slots[0].None? ==> journal == route(start, 1).1 && before == ""
    requires Finish(Loop(gen, cal, setup, route, start, step, n, init), plan).result.Ok?
    ensures var out := Finish(Loop(gen, cal, setup, route, start, step, n, init), plan).fs.files;
      && journal !in orig.files && journal in out
      && out[journal] == before + TextsUpTo(gen, cal, start, step, n)
  {
    SingleJournalHoldsAll(gen, cal, setup, route, start, step, n, init, journal, before);
    LoopLeavesAlone(gen, cal, setup, route, start, step, n, init, orig);
    assert Loop(gen, cal, setup, route, start, step, n, init).slots[0] == Some(journal);
  }

  /**
   * Transaction shard: a run that ends well leaves every transaction alone
   * in a file of its own at its journal path, none of them a file before.
   */
  lemma FinishedOneFileEach(
    gen: Generator, cal: Calendar, setup: JournalSetup, route: Route, start: Zoned, step: nat, n: nat, init: Progress,
    plan: seq<Artifact>)
    requires setup.shardType == Txn
    requires n < 0x1_0000_0000 && ProgressValid(init) && init.failure.None?
    requires Finish(Loop(gen, cal, setup, route, start, step, n, init), plan).result.Ok?
    ensures forall i: nat :: 1 <= i <= n ==>
      HoldsTxn(gen, cal, route, start, step, i, init.fs.files,
               Finish(Loop(gen, cal, setup, route, start, step, n, init), plan).fs.files)
  {
    var p := Loop(gen, cal, setup, route, start, step, n, init);
    var out := Finish(p, plan).fs.files;
    TxnShardOneFileEach(gen, cal, setup, route, start, step, n, init);
    forall i: nat | 1 <= i <= n
      ensures HoldsTxn(gen, cal, route, start, step, i, init.fs.files, out)
    {
      assert HoldsTxn(gen, cal, route, start, step, i, init.fs.files, p.fs.files);
    }
  }

  /**
   * Month shard: a run from a fresh writer that ends well leaves, for every
   * month some transaction fell in, one journal that was not a file before
   * the run: the journal path of the first transaction of that month, in
   * whatever year, holding every transaction of that month in index order.
   * Different months have different journals.
   */
  lemma FinishedMonthJournals(
    gen: Generator, cal: Calendar, setup: JournalSetup, route: Route, start: Zoned, step: nat, n: nat, init: Progress,
    orig: Fs, plan: seq<Artifact>)
    requires setup.shardType == Month
    requires n < 0x1_0000_0000 && ProgressValid(init) && init.failure.None? && init.slots == NoSlots()
    requires LeavesAlone(orig, init)
    requires Finish(Loop(gen, cal, setup, route, start, step, n, init), plan).result.Ok?
    ensures forall m :: 1 <= m <= SLOTS && FirstInMonth(cal, start, step, m, n).Some? ==>
      MonthJournalLeft(gen, cal, route, start, step, m, n, orig.files,
                       Finish(Loop(gen, cal, setup, route, start, step, n, init), plan).fs.files)
    ensures forall m1, m2 ::
      1 <= m1 < m2 <= SLOTS && FirstInMonth(cal, start, step, m1, n).Some? && FirstInMonth(cal, start, step, m2, n).Some?
      ==> MonthJournal(cal, route, start, step, m1, n) != MonthJournal(cal, route, start, step, m2, n)
  {
    var p := Loop(gen, cal, setup, route, start, step, n, init);
    var out := Finish(p, plan).fs.files;
    MonthJournalsHoldAll(gen, cal, setup, route, start, step, n, init);
    LoopLeavesAlone(gen, cal, setup, route, start, step, n, init, orig);
    forall m | 1 <= m <= SLOTS && FirstInMonth(cal, start, step, m, n).Some?
      ensures MonthJournalLeft(gen, cal, route, start, step, m, n, orig.files, out)
    {
      assert MonthJournalHolds(gen, cal, route, start, step, m, n, p);
      assert p.slots[m - 1] == Some(MonthJournal(cal, route, start, step, m, n));
    }
    forall m1, m2 | 1 <= m1 < m2 <= SLOTS
      && FirstInMonth(cal, start, step, m1, n).Some? && FirstInMonth(cal, start, step, m2, n).Some?
      ensures MonthJournal(cal, route, start, step, m1, n) != MonthJournal(cal, route, start, step, m2, n)
    {
      assert MonthJournalHolds(gen, cal, route, start, step, m1, n, p);
      assert MonthJournalHolds(gen, cal, route, start, step, m2, n, p);
    }
  }

  /** Month shard: the journal of month `m`, opened by the first of the transactions 1..n in that month. */
  function MonthJournal(cal: Calendar, route: Route, start: Zoned, step: nat, m: int, n: nat): Path
    requires n < 0x1_0000_0000 && FirstInMonth(cal, start, step, m, n).Some?
  {
    var first := FirstInMonth(cal, start, step, m, n).value;
    route(TsAt(cal, start, step, first - 1), first).1
  }

  /** Month `m`'s journal was not a file in `before` and holds the month's texts in `after`. */
  predicate MonthJournalLeft(gen: Generator, cal: Calendar, route: Route, start: Zoned, step: nat, m: int, n: nat,
                             before: map<Path, string>, after: map<Path, string>)
    requires n < 0x1_0000_0000 && FirstInMonth(cal, start, step, m, n).Some?
  {
    var journal := MonthJournal(cal, route, start, step, m, n);
    journal !in before && journal in after && after[journal] == MonthTextsUpTo(gen, cal, start, step, m, n)
  }

  /** A run that ends well wrote every final artifact, new, with its text. */
  lemma FinishedArtifacts(p: Progress, plan: seq<Artifact>, orig: Fs)
    requires LeavesAlone(orig, p) && Finish(p, plan).result.Ok?
    ensures p.failure.None?
    ensures forall i :: 0 <= i < |plan| ==>
      && plan[i].text.Ok? && plan[i].at.1 !in orig.files
      && plan[i].at.1 in Finish(p, plan).fs.files && Finish(p, plan).fs.files[plan[i].at.1] == plan[i].text.value
  {
  }
}
