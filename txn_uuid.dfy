/**
 * Stable transaction identifiers: the name a transaction is known by, and
 * its name-based version-5 UUID in the URL namespace (section 4.3 of
 * RFC 4122). The SHA-1 based hash itself is the parameter `v5`.
 */
module TxnUuid {
  import opened Common
  import opened Text
  import opened Setup

  const Scheme: string := "pta-generator:"

  /** `""` without a specifier, `"/" + s` with specifier `s`. */
  function SpecSuffix(spec: Option<string>): string {
    match spec
    case None => ""
    case Some(s) => "/" + s
  }

  /**
   * The name hashed for a transaction: `pta-generator:/<set>/<number>/<instant>[/<spec>]`,
   * where `instant` is the RFC 3339 rendering of the transaction's instant
   * (section 5.6 of RFC 3339).
   */
  function UuidName(txnSet: SetSize, number: U32, instant: string, spec: Option<string>): string {
    Scheme + "/" + (SetSizeToken(txnSet) + "/" + (Decimal(number) + "/" + (instant + SpecSuffix(spec))))
  }

  /** `get_txn_uuid`: the identifier is the hash of the name and of nothing else. */
  function TxnUuid(v5: string -> string, txnSet: SetSize, number: U32, instant: string, spec: Option<string>): string {
    v5(UuidName(txnSet, number, instant, spec))
  }

  /** The name without a specifier is a proper prefix of the name with one. */
  lemma NameWithoutSpecIsPrefix(txnSet: SetSize, number: U32, instant: string, s: string)
    ensures var plain := UuidName(txnSet, number, instant, None);
      var specific := UuidName(txnSet, number, instant, Some(s));
      |plain| < |specific| && specific[..|plain|] == plain && specific[|plain|] == '/'
  {
    var token, digits := SetSizeToken(txnSet), Decimal(number);
    var plain := UuidName(txnSet, number, instant, None);
    assert instant + SpecSuffix(None) == instant;
    assert UuidName(txnSet, number, instant, Some(s)) == plain + ("/" + s);
  }

  /** Without a specifier and with "plain" the names differ. */
  lemma PlainSpecChangesName(txnSet: SetSize, number: U32, instant: string)
    ensures UuidName(txnSet, number, instant, None) != UuidName(txnSet, number, instant, Some("plain"))
  {
    NameWithoutSpecIsPrefix(txnSet, number, instant, "plain");
  }

  /** Three '/'-free fields, each followed by '/', come back first when splitting at '/'. */
  lemma SplitThreeFields(a: string, b: string, d: string, rest: string)
    requires Free(a, '/') && Free(b, '/') && Free(d, '/')
    ensures Split(a + "/" + (b + "/" + (d + "/" + rest)), '/') == [a, b, d] + Split(rest, '/')
  {
    var r2 := d + "/" + rest;
    var r1 := b + "/" + r2;
    var tail := Split(rest, '/');
    SplitSeparated(d, '/', rest);
    assert Split(r2, '/') == [d] + tail;
    SplitSeparated(b, '/', r2);
    assert Split(r1, '/') == [b, d] + tail;
    SplitSeparated(a, '/', r1);
  }

  /** The instant is the next field; a further field follows exactly when there is a specifier. */
  lemma SplitInstant(instant: string, spec: Option<string>)
    requires Free(instant, '/')
    ensures var parts := Split(instant + SpecSuffix(spec), '/');
      parts[0] == instant && (|parts| == 1 <==> spec.None?)
  {
    match spec
    case None =>
      assert instant + SpecSuffix(spec) == instant;
      IndexOfAbsent(instant, '/');
    case Some(s) =>
      assert instant + SpecSuffix(spec) == instant + ['/'] + s;
      SplitSeparated(instant, '/', s);
  }

  lemma SetSizeTokenFree(txnSet: SetSize)
    ensures Free(SetSizeToken(txnSet), '/')
  {
  }

  /**
   * Splitting a name at '/' gives back its fields: the scheme, the set
   * token, the number and the instant (an RFC 3339 instant holds no '/'),
   * followed by nothing exactly when there is no specifier.
   */
  lemma UuidNameFields(txnSet: SetSize, number: U32, instant: string, spec: Option<string>)
    requires Free(instant, '/')
    ensures var parts := Split(UuidName(txnSet, number, instant, spec), '/');
      && |parts| >= 4
      && parts[0] == Scheme && parts[1] == SetSizeToken(txnSet)
      && parts[2] == Decimal(number) && parts[3] == instant
      && (|parts| == 4 <==> spec.None?)
  {
    var token, digits := SetSizeToken(txnSet), Decimal(number);
    var tail := instant + SpecSuffix(spec);
    DigitsFree(digits, '/');
    SetSizeTokenFree(txnSet);
    SplitThreeFields(Scheme, token, digits, tail);
    SplitInstant(instant, spec);
  }

  /**
   * Different transactions have different names: the name determines the
   * set, the number, the instant and the specifier.
   */
  lemma UuidNameInjective(
    set1: SetSize, number1: U32, instant1: string, spec1: Option<string>,
    set2: SetSize, number2: U32, instant2: string, spec2: Option<string>)
    requires Free(instant1, '/') && Free(instant2, '/')
    requires UuidName(set1, number1, instant1, spec1) == UuidName(set2, number2, instant2, spec2)
    ensures set1 == set2 && number1 == number2 && instant1 == instant2 && spec1 == spec2
  {
    UuidNameFields(set1, number1, instant1, spec1);
    UuidNameFields(set2, number2, instant2, spec2);
    SetSizeTokenInjective(set1, set2);
    DecimalInjective(number1, number2);
    var prefix := UuidName(set1, number1, instant1, None);
    NameSpecSuffix(set1, number1, instant1, spec1);
    NameSpecSuffix(set2, number2, instant2, spec2);
    SplitEqual(prefix, SpecSuffix(spec1), prefix, SpecSuffix(spec2));
    if spec1.Some? && spec2.Some? {
      SplitEqual("/", spec1.value, "/", spec2.value);
    }
  }

  lemma SetSizeTokenInjective(a: SetSize, b: SetSize)
    requires SetSizeToken(a) == SetSizeToken(b)
    ensures a == b
  {
    SetSizeRoundTrip(a);
    SetSizeRoundTrip(b);
  }

  /** A name is the name without specifier followed by the specifier suffix. */
  lemma NameSpecSuffix(txnSet: SetSize, number: U32, instant: string, spec: Option<string>)
    ensures UuidName(txnSet, number, instant, spec) == UuidName(txnSet, number, instant, None) + SpecSuffix(spec)
  {
    assert instant + SpecSuffix(None) == instant;
  }

  lemma GoldenNameStart()
    ensures Scheme + "/" + SetSizeToken(Sz1e3) + "/" + Decimal(999) + "/" == "pta-generator:/1e3/999/"
  {
    assert Decimal(99) == "99";
  }

  /** The name of transaction 999 of a thousand at 2024-12-31T23:58:00Z, without a specifier. */
  lemma UuidNameGoldenPlain()
    ensures UuidName(Sz1e3, 999, "2024-12-31T23:58:00Z", None) == "pta-generator:/1e3/999/2024-12-31T23:58:00Z"
  {
    GoldenNameStart();
  }

  /** The name of the audit transaction 999 of a thousand at 2024-12-31T23:58:00Z. */
  lemma UuidNameGolden()
    ensures UuidName(Sz1e3, 999, "2024-12-31T23:58:00Z", Some("audit"))
         == "pta-generator:/1e3/999/2024-12-31T23:58:00Z/audit"
  {
    UuidNameGoldenPlain();
  }

  /** The name of transaction 1 of a thousand at 2024-01-02T00:01:02Z, without a specifier. */
  lemma UuidNameGoldenFirst()
    ensures UuidName(Sz1e3, 1, "2024-01-02T00:01:02Z", None) == "pta-generator:/1e3/1/2024-01-02T00:01:02Z"
  {
    assert Decimal(1) == "1";
  }

  /** The name of transaction 1 of a million at 2024-01-02T00:01:02Z, without a specifier. */
  lemma UuidNameGoldenMillionFirst()
    ensures UuidName(Sz1e6, 1, "2024-01-02T00:01:02Z", None) == "pta-generator:/1e6/1/2024-01-02T00:01:02Z"
  {
    assert Decimal(1) == "1";
  }

  /** The name of transaction 999 of a million at 2024-12-31T23:58:00Z, without a specifier. */
  lemma UuidNameGoldenMillionLast()
    ensures UuidName(Sz1e6, 999, "2024-12-31T23:58:00Z", None) == "pta-generator:/1e6/999/2024-12-31T23:58:00Z"
  {
    assert Decimal(99) == "99";
    assert Decimal(999) == "999";
  }

  /** The name of transaction 1 of a thousand at 2024-01-02T00:01:02Z with the specifier "plain". */
  lemma UuidNameGoldenFirstPlain()
    ensures UuidName(Sz1e3, 1, "2024-01-02T00:01:02Z", Some("plain")) == "pta-generator:/1e3/1/2024-01-02T00:01:02Z/plain"
  {
    UuidNameGoldenFirst();
    NameSpecSuffix(Sz1e3, 1, "2024-01-02T00:01:02Z", Some("plain"));
  }

  /**
   * The hash agrees with the version-5 UUIDs in the URL namespace that the
   * program's tests give for these names: the four checked against the
   * UUID library directly, and the two more that its table of identifiers
   * expects.
   */
  ghost predicate AgreesWithPublishedVectors(v5: string -> string) {
    && v5("pta-generator:/1e3/1/2024-01-02T00:01:02Z") == "94942e79-0153-53d1-9b12-a13f788cbaf1"
    && v5("pta-generator:/1e3/999/2024-12-31T23:58:00Z") == "eed4b0e3-cd5e-5a31-91ee-31c2e65ddb12"
    && v5("pta-generator:/1e6/1/2024-01-02T00:01:02Z") == "4a039481-bf0d-5428-8771-d1a771649037"
    && v5("pta-generator:/1e3/999/2024-12-31T23:58:00Z/audit") == "8e43c795-8fb1-552e-9dde-eae36f233676"
    && v5("pta-generator:/1e6/999/2024-12-31T23:58:00Z") == "5e2bae5f-b79c-5515-a617-e53b955209b3"
    && v5("pta-generator:/1e3/1/2024-01-02T00:01:02Z/plain") == "e36e59d4-6e1d-5685-8c53-7f7ef8254861"
  }

  /**
   * With a hash that agrees with those vectors, `get_txn_uuid` gives the
   * six identifiers of the program's test table: transactions 1 and 999 of
   * a thousand and of a million without a specifier, transaction 1 of a
   * thousand with "plain", and transaction 999 of a thousand with "audit".
   */
  lemma TxnUuidGolden(v5: string -> string)
    requires AgreesWithPublishedVectors(v5)
    ensures TxnUuid(v5, Sz1e3, 1, "2024-01-02T00:01:02Z", None) == "94942e79-0153-53d1-9b12-a13f788cbaf1"
    ensures TxnUuid(v5, Sz1e3, 999, "2024-12-31T23:58:00Z", None) == "eed4b0e3-cd5e-5a31-91ee-31c2e65ddb12"
    ensures TxnUuid(v5, Sz1e6, 1, "2024-01-02T00:01:02Z", None) == "4a039481-bf0d-5428-8771-d1a771649037"
    ensures TxnUuid(v5, Sz1e6, 999, "2024-12-31T23:58:00Z", None) == "5e2bae5f-b79c-5515-a617-e53b955209b3"
    ensures TxnUuid(v5, Sz1e3, 1, "2024-01-02T00:01:02Z", Some("plain")) == "e36e59d4-6e1d-5685-8c53-7f7ef8254861"
    ensures TxnUuid(v5, Sz1e3, 999, "2024-12-31T23:58:00Z", Some("audit")) == "8e43c795-8fb1-552e-9dde-eae36f233676"
  {
    UuidNameGoldenFirst();
    UuidNameGoldenPlain();
    UuidNameGoldenMillionFirst();
    UuidNameGoldenMillionLast();
    UuidNameGoldenFirstPlain();
    UuidNameGolden();
  }
}
