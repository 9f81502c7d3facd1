/** The category totals that feed both charts: a left fold over the ledger
    into an accumulator keyed by category, whose keys come out in the order
    they were first added. */
module Aggregation {
  import opened Records

  /** One entry of the accumulator: a category label and its running total. */
  datatype CategoryTotal = CategoryTotal(category: string, total: int)

  /** The chart labels, in accumulator order. */
  function Labels(acc: seq<CategoryTotal>): seq<string>
  {
    seq(|acc|, i requires 0 <= i < |acc| => acc[i].category)
  }

  /** No label appears twice. */
  predicate Distinct(labels: seq<string>)
  {
    forall i, j :: 0 <= i < j < |labels| ==> labels[i] != labels[j]
  }

  /** One step of the fold: `acc[c] = (acc[c] || 0) + amount`. An existing
      key keeps its place and grows; a new key goes at the end. */
  function AddTo(acc: seq<CategoryTotal>, t: Transaction): (r: seq<CategoryTotal>)
    ensures |acc| <= |r| <= |acc| + 1
  {
    if acc == [] then [CategoryTotal(t.category, t.amount)]
    else if acc[0].category == t.category then [CategoryTotal(t.category, acc[0].total + t.amount)] + acc[1..]
    else [acc[0]] + AddTo(acc[1..], t)
  }

  /** `list.reduce(step, {})`. */
  function Aggregate(s: seq<Transaction>): (r: seq<CategoryTotal>)
    ensures |r| <= |s|
    ensures r == [] <==> s == []
  {
    if s == [] then [] else AddTo(Aggregate(s[..|s| - 1]), s[|s| - 1])
  }

  // Reference definitions the fold is checked against.

  /** Sum of all amounts in the list. */
  function Total(s: seq<Transaction>): int
  {
    if s == [] then 0 else Total(s[..|s| - 1]) + s[|s| - 1].amount
  }

  /** Sum of the amounts of the records in category `c`. */
  function SumOf(s: seq<Transaction>, c: string): int
  {
    if s == [] then 0
    else SumOf(s[..|s| - 1], c) + (if s[|s| - 1].category == c then s[|s| - 1].amount else 0)
  }

  /** Sum of the totals in an accumulator. */
  function SumTotals(acc: seq<CategoryTotal>): int
  {
    if acc == [] then 0 else acc[0].total + SumTotals(acc[1..])
  }

  /** Position of the first record in category `c`, or `|s|` if there is none. */
  function FirstIndex(s: seq<Transaction>, c: string): (k: nat)
    ensures k <= |s|
    ensures k < |s| ==> s[k].category == c
    ensures forall j :: 0 <= j < k ==> s[j].category != c
  {
    if s == [] then 0
    else if s[0].category == c then 0
    else 1 + FirstIndex(s[1..], c)
  }

  /** Appending a record does not move the first occurrence of a category
      already present; a category first seen in the new record is first seen
      at the old length. */
  lemma {:induction false} FirstIndexAppend(s: seq<Transaction>, t: Transaction, c: string)
    ensures FirstIndex(s, c) < |s| ==> FirstIndex(s + [t], c) == FirstIndex(s, c)
    ensures FirstIndex(s, c) == |s| && t.category == c ==> FirstIndex(s + [t], c) == |s|
  {
    if s != [] {
      assert (s + [t])[0] == s[0];
      assert (s + [t])[1..] == s[1..] + [t];
      FirstIndexAppend(s[1..], t, c);
    }
  }

  /** Dropping the first entry keeps the remaining labels distinct. */
  lemma DistinctTail(acc: seq<CategoryTotal>)
    requires acc != [] && Distinct(Labels(acc))
    ensures Labels(acc) == [acc[0].category] + Labels(acc[1..])
    ensures Distinct(Labels(acc[1..]))
    ensures acc[0].category !in Labels(acc[1..])
  {
    var rest := acc[1..];
    assert Labels(acc) == [acc[0].category] + Labels(rest);
    forall i, j | 0 <= i < j < |rest| ensures Labels(rest)[i] != Labels(rest)[j] {
      assert Labels(rest)[i] == Labels(acc)[i + 1] && Labels(rest)[j] == Labels(acc)[j + 1];
    }
    forall j | 0 <= j < |rest| ensures Labels(rest)[j] != acc[0].category {
      assert Labels(rest)[j] == Labels(acc)[j + 1] && Labels(acc)[0] == acc[0].category;
      assert Labels(acc)[0] != Labels(acc)[j + 1];
    }
  }

  /** One fold step keeps the labels when the category is known and adds it
      at the end otherwise. */
  lemma {:induction false} AddToLabels(acc: seq<CategoryTotal>, t: Transaction)
    ensures Labels(AddTo(acc, t)) ==
              if t.category in Labels(acc) then Labels(acc) else Labels(acc) + [t.category]
  {
    if acc != [] {
      var rest := acc[1..];
      assert Labels(acc) == [acc[0].category] + Labels(rest);
      if acc[0].category != t.category {
        AddToLabels(rest, t);
        assert Labels(AddTo(acc, t)) == [acc[0].category] + Labels(AddTo(rest, t));
        assert t.category in Labels(acc) <==> t.category in Labels(rest);
      }
    }
  }

  /** One fold step grows the total of the record's category, and only it,
      by the record's amount; a new category starts at that amount. */
  lemma {:induction false} AddToTotals(acc: seq<CategoryTotal>, t: Transaction)
    requires Distinct(Labels(acc))
    ensures |AddTo(acc, t)| >= |acc|
    ensures t.category !in Labels(acc) ==> |AddTo(acc, t)| == |acc| + 1
    ensures forall i :: 0 <= i < |acc| ==>
              AddTo(acc, t)[i].total == acc[i].total + (if acc[i].category == t.category then t.amount else 0)
    ensures t.category !in Labels(acc) ==> AddTo(acc, t)[|acc|].total == t.amount
  {
    if acc != [] {
      DistinctTail(acc);
      var rest := acc[1..];
      if acc[0].category == t.category {
        forall i | 1 <= i < |acc| ensures acc[i].category != t.category {
          assert acc[i].category == Labels(rest)[i - 1];
        }
      } else {
        AddToTotals(rest, t);
      }
    }
  }

  /** One fold step grows the sum of the totals by the record's amount. */
  lemma {:induction false} AddToSum(acc: seq<CategoryTotal>, t: Transaction)
    ensures SumTotals(AddTo(acc, t)) == SumTotals(acc) + t.amount
  {
    if acc != [] && acc[0].category != t.category {
      AddToSum(acc[1..], t);
    }
  }

  /** The labels are distinct and are exactly the categories that occur in
      the list. */
  lemma {:induction false} AggregateLabels(s: seq<Transaction>)
    ensures Distinct(Labels(Aggregate(s)))
    ensures forall c :: c in Labels(Aggregate(s)) <==> FirstIndex(s, c) < |s|
  {
    if s != [] {
      var p, t := s[..|s| - 1], s[|s| - 1];
      assert s == p + [t];
      AggregateLabels(p);
      var a := Aggregate(p);
      AddToLabels(a, t);
      forall c ensures c in Labels(Aggregate(s)) <==> FirstIndex(s, c) < |s| {
        FirstIndexAppend(p, t, c);
      }
      if t.category !in Labels(a) {
        var l := Labels(a) + [t.category];
        forall i, j | 0 <= i < j < |l| ensures l[i] != l[j] {
          if j == |l| - 1 {
            assert l[i] in Labels(a);
          } else {
            assert l[i] == Labels(a)[i] && l[j] == Labels(a)[j];
          }
        }
      }
    }
  }

  /** Labels come out in order of first appearance in the list. */
  lemma {:induction false} AggregateOrder(s: seq<Transaction>)
    ensures forall i, j :: 0 <= i < j < |Aggregate(s)| ==>
              FirstIndex(s, Aggregate(s)[i].category) < FirstIndex(s, Aggregate(s)[j].category)
  {
    if s != [] {
      var p, t := s[..|s| - 1], s[|s| - 1];
      assert s == p + [t];
      AggregateOrder(p);
      AggregateLabels(p);
      var a := Aggregate(p);
      AddToLabels(a, t);
      var r := Aggregate(s);
      assert Labels(r) == Labels(AddTo(a, t));
      forall i, j | 0 <= i < j < |r|
        ensures FirstIndex(s, r[i].category) < FirstIndex(s, r[j].category)
      {
        assert r[i].category == Labels(r)[i] && r[j].category == Labels(r)[j];
        assert r[i].category == Labels(a)[i] && Labels(a)[i] == a[i].category;
        assert Labels(a)[i] in Labels(a);
        FirstIndexAppend(p, t, r[i].category);
        FirstIndexAppend(p, t, r[j].category);
        if j < |a| {
          assert r[j].category == Labels(a)[j] && Labels(a)[j] == a[j].category;
          assert Labels(a)[j] in Labels(a);
        } else {
          assert r[j].category == t.category && t.category !in Labels(a);
        }
      }
    }
  }

  /** Each label's total is the sum of the amounts of the records in that
      category, and a category with no label has no records. */
  lemma {:induction false} AggregateTotals(s: seq<Transaction>)
    ensures forall i :: 0 <= i < |Aggregate(s)| ==> Aggregate(s)[i].total == SumOf(s, Aggregate(s)[i].category)
    ensures forall c :: c !in Labels(Aggregate(s)) ==> SumOf(s, c) == 0
  {
    if s != [] {
      var p, t := s[..|s| - 1], s[|s| - 1];
      AggregateTotals(p);
      AggregateLabels(p);
      var a := Aggregate(p);
      AddToLabels(a, t);
      AddToTotals(a, t);
      var r := Aggregate(s);
      forall i | 0 <= i < |r| ensures r[i].total == SumOf(s, r[i].category) {
        assert r[i].category == Labels(r)[i];
        if i < |a| {
          assert r[i].category == Labels(a)[i] && Labels(a)[i] == a[i].category;
        } else {
          assert r[i].category == t.category && t.category !in Labels(a);
          assert SumOf(p, t.category) == 0;
        }
      }
      forall c | c !in Labels(r) ensures SumOf(s, c) == 0 {
        assert c != t.category;
        assert c !in Labels(a);
      }
    }
  }

  /** The chart totals add up to the sum of all amounts in the list. */
  lemma {:induction false} AggregateSum(s: seq<Transaction>)
    ensures SumTotals(Aggregate(s)) == Total(s)
  {
    if s != [] {
      AggregateSum(s[..|s| - 1]);
      AddToSum(Aggregate(s[..|s| - 1]), s[|s| - 1]);
    }
  }

  /** Adding one record changes only its own category's total, by its amount. */
  lemma SumOfAppend(s: seq<Transaction>, t: Transaction, c: string)
    ensures SumOf(s + [t], c) == SumOf(s, c) + (if t.category == c then t.amount else 0)
  {
    assert (s + [t])[..|s|] == s;
  }
}
