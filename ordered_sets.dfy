/**
 * `BTreeSet<String>` as the generator uses it: a strictly ascending sequence
 * of strings (so each element once, in order) with `insert`.
 */
module OrderedSets {

  /** `Ord for String`: lexicographic by character, a proper prefix first. */
  predicate Below(a: string, b: string)
    decreases |a|
  {
    if |a| == 0 then |b| > 0
    else |b| > 0 && (a[0] < b[0] || (a[0] == b[0] && Below(a[1..], b[1..])))
  }

  lemma {:induction false} BelowIrreflexive(a: string)
    ensures !Below(a, a)
    decreases |a|
  {
    if |a| > 0 {
      BelowIrreflexive(a[1..]);
    }
  }

  lemma {:induction false} BelowTransitive(a: string, b: string, c: string)
    requires Below(a, b) && Below(b, c)
    ensures Below(a, c)
    decreases |a|
  {
    if |a| > 0 && a[0] == b[0] && b[0] == c[0] {
      BelowTransitive(a[1..], b[1..], c[1..]);
    }
  }

  lemma {:induction false} BelowTotal(a: string, b: string)
    ensures a == b || Below(a, b) || Below(b, a)
    decreases |a|
  {
    if |a| > 0 && |b| > 0 && a[0] == b[0] {
      BelowTotal(a[1..], b[1..]);
      if a[1..] == b[1..] {
        assert a == [a[0]] + a[1..] && b == [b[0]] + b[1..];
      }
    }
  }

  /** `Below` is a strict total order. */
  lemma BelowIsStrictTotalOrder()
    ensures forall a :: !Below(a, a)
    ensures forall a, b, c :: Below(a, b) && Below(b, c) ==> Below(a, c)
    ensures forall a, b :: a == b || Below(a, b) || Below(b, a)
  {
    forall a {
      BelowIrreflexive(a);
    }
    forall a, b, c | Below(a, b) && Below(b, c) {
      BelowTransitive(a, b, c);
    }
    forall a, b {
      BelowTotal(a, b);
    }
  }

  /** Strictly ascending: every element once, in ascending order. */
  predicate Ordered(s: seq<string>) {
    forall i, j :: 0 <= i < j < |s| ==> Below(s[i], s[j])
  }

  /** `BTreeSet::insert`: adds `x` in its place; an element already present is kept once. */
  function Insert(s: seq<string>, x: string): (r: seq<string>)
    requires Ordered(s)
    ensures Ordered(r)
    ensures forall y :: y in r <==> y in s || y == x
  {
    BelowIsStrictTotalOrder();
    if s == [] then [x]
    else if x == s[0] then s
    else if Below(x, s[0]) then [x] + s
    else
      var tail := Insert(s[1..], x);
      assert forall y :: y in s[1..] ==> Below(s[0], y);
      assert forall k :: 0 <= k < |tail| ==> Below(s[0], tail[k]) by {
        forall k | 0 <= k < |tail| ensures Below(s[0], tail[k]) {
          assert tail[k] in tail;
        }
      }
      [s[0]] + tail
  }

  /** Inserting every element of `xs`, first to last. */
  function InsertAll(s: seq<string>, xs: seq<string>): (r: seq<string>)
    requires Ordered(s)
    ensures Ordered(r)
    ensures forall y :: y in r <==> y in s || y in xs
  {
    if xs == [] then s
    else
      var init := InsertAll(s, xs[..|xs| - 1]);
      assert forall y :: y in xs <==> y in xs[..|xs| - 1] || y == xs[|xs| - 1] by {
        assert xs == xs[..|xs| - 1] + [xs[|xs| - 1]];
      }
      Insert(init, xs[|xs| - 1])
  }
}
