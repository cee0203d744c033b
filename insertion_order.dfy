/** What a java.util.LinkedHashSet of strings holds after a sequence of
    `add` calls: each distinct string once, in the order it was first added. */
module InsertionOrder {

  /** No element occurs twice. */
  predicate Distinct(xs: seq<string>) {
    forall i, j :: 0 <= i < j < |xs| ==> xs[i] != xs[j]
  }

  /** The offset of the first occurrence of x in xs, or |xs| when x does not occur. */
  function IndexOf(xs: seq<string>, x: string): (n: nat)
    ensures n <= |xs|
    ensures n < |xs| ==> xs[n] == x
    ensures forall m :: 0 <= m < n ==> xs[m] != x
  {
    if xs == [] then 0
    else if xs[0] == x then 0
    else 1 + IndexOf(xs[1..], x)
  }

  /** The set's contents after adding the elements of xs in turn: adding an
      element already present leaves the set as it was. */
  function Dedup(xs: seq<string>): seq<string>
  {
    if xs == [] then []
    else
      var d := Dedup(xs[..|xs| - 1]);
      if xs[|xs| - 1] in d then d else d + [xs[|xs| - 1]]
  }

  /** The result holds exactly the elements of the input. */
  lemma {:induction false} DedupElements(xs: seq<string>)
    ensures forall x :: x in Dedup(xs) <==> x in xs
  {
    if xs != [] {
      var init := xs[..|xs| - 1];
      DedupElements(init);
      assert xs == init + [xs[|xs| - 1]];
    }
  }

  /** The result holds no element twice. */
  lemma {:induction false} DedupDistinct(xs: seq<string>)
    ensures Distinct(Dedup(xs))
  {
    if xs != [] {
      DedupDistinct(xs[..|xs| - 1]);
    }
  }

  /** A list without repeats is its own deduplication. */
  lemma {:induction false} DedupOfDistinct(xs: seq<string>)
    requires Distinct(xs)
    ensures Dedup(xs) == xs
  {
    if xs != [] {
      var init := xs[..|xs| - 1];
      DedupOfDistinct(init);
      assert xs == init + [xs[|xs| - 1]];
    }
  }

  /** Appending an element does not move the first occurrence of one already present. */
  lemma IndexOfAppend(xs: seq<string>, y: string, x: string)
    requires x in xs
    ensures IndexOf(xs + [y], x) == IndexOf(xs, x) < |xs|
  {
    var a := IndexOf(xs, x);
    var b := IndexOf(xs + [y], x);
    assert a < |xs|;
    assert (xs + [y])[a] == x;
    assert b <= a;
    assert forall m :: 0 <= m < b ==> xs[m] == (xs + [y])[m];
  }

  /** The result lists the elements in the order of their first occurrence in the input. */
  lemma {:induction false} DedupFirstOccurrenceOrder(xs: seq<string>)
    ensures forall i, j :: 0 <= i < j < |Dedup(xs)| ==> IndexOf(xs, Dedup(xs)[i]) < IndexOf(xs, Dedup(xs)[j])
  {
    if xs != [] {
      var init := xs[..|xs| - 1];
      var last := xs[|xs| - 1];
      assert xs == init + [last];
      var d := Dedup(init);
      DedupFirstOccurrenceOrder(init);
      DedupElements(init);
      var r := Dedup(xs);
      assert xs[..|xs| - 1] == init;
      assert r == (if last in d then d else d + [last]);
      forall i, j | 0 <= i < j < |r|
        ensures IndexOf(xs, r[i]) < IndexOf(xs, r[j])
      {
        assert r[i] == d[i] && d[i] in d;
        IndexOfAppend(init, last, d[i]);
        if j < |d| {
          assert r[j] == d[j] && d[j] in d;
          IndexOfAppend(init, last, d[j]);
        } else {
          assert r[j] == last && last !in init;
          assert IndexOf(xs, last) == |init|;
        }
      }
    }
  }
}
