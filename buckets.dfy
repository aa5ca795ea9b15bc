/**
 * Weighted bucket sums: the accumulation pattern that every worksheet loop of
 * Collect_Summary_Products.py follows. Each loop reads one record at a time,
 * adds a weight (a length or a dam count) to a running total and, unless the
 * record's category matches no row, to exactly one row of the worksheet.
 *
 * A record that has been classified is an `Entry`; the spec functions below are
 * defined from the last entry backwards, the same order in which the loops add.
 */
module Buckets {

  /** Where one classified record goes: a worksheet row, or nowhere (the `pass` branches). */
  datatype Slot = Row(index: nat) | Dropped

  /** One classified cursor row: the slot it is added to and the weight it adds. */
  datatype Entry = Entry(slot: Slot, weight: real)

  function Sum(s: seq<real>): real
  {
    if s == [] then 0.0 else Sum(s[..|s| - 1]) + s[|s| - 1]
  }

  /** The running `total` of a loop: every weight, whatever its slot. */
  function Total(es: seq<Entry>): real
  {
    if es == [] then 0.0 else Total(es[..|es| - 1]) + es[|es| - 1].weight
  }

  /** The accumulator of row `k`: the weights of the entries classified into it. */
  function BucketSum(es: seq<Entry>, k: nat): real
  {
    if es == [] then 0.0
    else BucketSum(es[..|es| - 1], k) + (if es[|es| - 1].slot == Row(k) then es[|es| - 1].weight else 0.0)
  }

  /** Whether an entry lands in one of the `n` rows of a worksheet. */
  predicate Assigned(e: Entry, n: nat)
  {
    e.slot.Row? && e.slot.index < n
  }

  /** The weight that reaches the total but none of the `n` rows. */
  function Unassigned(es: seq<Entry>, n: nat): real
  {
    if es == [] then 0.0
    else Unassigned(es[..|es| - 1], n) + (if Assigned(es[|es| - 1], n) then 0.0 else es[|es| - 1].weight)
  }

  /** The `n` row accumulators after a pass over `es`. */
  function Tally(es: seq<Entry>, n: nat): seq<real>
  {
    seq(n, k requires 0 <= k < n => BucketSum(es, k))
  }

  predicate NonNegativeWeights(es: seq<Entry>)
  {
    forall i :: 0 <= i < |es| ==> es[i].weight >= 0.0
  }

  lemma {:induction false} SumUpdate(s: seq<real>, k: nat, d: real)
    requires k < |s|
    ensures Sum(s[k := s[k] + d]) == Sum(s) + d
  {
    var t := s[k := s[k] + d];
    if k == |s| - 1 {
      assert t[..|t| - 1] == s[..|s| - 1];
    } else {
      assert t[..|t| - 1] == s[..|s| - 1][k := s[k] + d];
      SumUpdate(s[..|s| - 1], k, d);
    }
  }

  lemma {:induction false} SumScaled(s: seq<real>, t: seq<real>, c: real)
    requires |s| == |t|
    requires forall i :: 0 <= i < |s| ==> t[i] == s[i] * c
    ensures Sum(t) == Sum(s) * c
  {
    if s != [] {
      SumScaled(s[..|s| - 1], t[..|t| - 1], c);
    }
  }

  lemma {:induction false} SumZeros(s: seq<real>)
    requires forall i :: 0 <= i < |s| ==> s[i] == 0.0
    ensures Sum(s) == 0.0
  {
    if s != [] {
      SumZeros(s[..|s| - 1]);
    }
  }

  /** Adding one entry changes at most the row it is classified into. */
  lemma TallySnoc(es: seq<Entry>, e: Entry, n: nat)
    ensures Tally(es + [e], n) ==
      if Assigned(e, n) then Tally(es, n)[e.slot.index := Tally(es, n)[e.slot.index] + e.weight]
      else Tally(es, n)
  {
    assert (es + [e])[..|es|] == es;
  }

  /**
   * Every weight of a pass reaches exactly one row or none: the rows and the
   * unassigned weight add up to the total.
   */
  lemma {:induction false} Partition(es: seq<Entry>, n: nat)
    ensures Sum(Tally(es, n)) + Unassigned(es, n) == Total(es)
  {
    if es != [] {
      var init, e := es[..|es| - 1], es[|es| - 1];
      assert es == init + [e];
      Partition(init, n);
      TallySnoc(init, e, n);
      if Assigned(e, n) {
        SumUpdate(Tally(init, n), e.slot.index, e.weight);
      }
    } else {
      SumZeros(Tally(es, n));
    }
  }

  /** A scheme with a catch-all row leaves nothing unassigned. */
  lemma {:induction false} NothingUnassigned(es: seq<Entry>, n: nat)
    requires forall i :: 0 <= i < |es| ==> Assigned(es[i], n)
    ensures Unassigned(es, n) == 0.0
  {
    if es != [] {
      NothingUnassigned(es[..|es| - 1], n);
    }
  }

  /**
   * With non-negative weights the unassigned weight is non-negative, and it is
   * zero only if every entry of positive weight is assigned.
   */
  lemma {:induction false} UnassignedBounds(es: seq<Entry>, n: nat)
    requires NonNegativeWeights(es)
    ensures Unassigned(es, n) >= 0.0
    ensures Unassigned(es, n) == 0.0 ==>
      forall i :: 0 <= i < |es| && es[i].weight > 0.0 ==> Assigned(es[i], n)
  {
    if es != [] {
      var init := es[..|es| - 1];
      assert NonNegativeWeights(init) by {
        forall i | 0 <= i < |init| ensures init[i].weight >= 0.0 {
          assert init[i] == es[i];
        }
      }
      UnassignedBounds(init, n);
      forall i | 0 <= i < |es| && es[i].weight > 0.0 && Unassigned(es, n) == 0.0
        ensures Assigned(es[i], n)
      {
        if i < |es| - 1 {
          assert init[i] == es[i];
        }
      }
    }
  }

  /** With non-negative weights one row holds between nothing and the whole total. */
  lemma {:induction false} BucketBounds(es: seq<Entry>, k: nat)
    requires NonNegativeWeights(es)
    ensures 0.0 <= BucketSum(es, k) <= Total(es)
  {
    if es != [] {
      var init := es[..|es| - 1];
      assert NonNegativeWeights(init) by {
        forall i | 0 <= i < |init| ensures init[i].weight >= 0.0 {
          assert init[i] == es[i];
        }
      }
      BucketBounds(init, k);
    }
  }

  /**
   * A pass over two tables one after the other equals the two passes added up:
   * the model's single sequence of reaches stands for the source's loop over
   * every table of a multi-input network.
   */
  lemma {:induction false} AppendTables(a: seq<Entry>, b: seq<Entry>, k: nat)
    ensures Total(a + b) == Total(a) + Total(b)
    ensures BucketSum(a + b, k) == BucketSum(a, k) + BucketSum(b, k)
  {
    if b == [] {
      assert a + b == a;
    } else {
      var init := b[..|b| - 1];
      assert (a + b)[..|a + b| - 1] == a + init;
      AppendTables(a, init, k);
    }
  }

  /**
   * Two passes with the same weights whose entries fall into row `k1` of the
   * first exactly when they fall into row `k2` of the second give those rows
   * the same sum.
   */
  lemma {:induction false} Transfer(es1: seq<Entry>, k1: nat, es2: seq<Entry>, k2: nat)
    requires |es1| == |es2|
    requires forall i :: 0 <= i < |es1| ==> es1[i].weight == es2[i].weight
    requires forall i :: 0 <= i < |es1| ==> (es1[i].slot == Row(k1) <==> es2[i].slot == Row(k2))
    ensures BucketSum(es1, k1) == BucketSum(es2, k2)
  {
    if es1 != [] {
      var m := |es1| - 1;
      Transfer(es1[..m], k1, es2[..m], k2);
    }
  }

  /** Two passes with the same weights have the same total, whatever their slots. */
  lemma {:induction false} SameWeights(es1: seq<Entry>, es2: seq<Entry>)
    requires |es1| == |es2|
    requires forall i :: 0 <= i < |es1| ==> es1[i].weight == es2[i].weight
    ensures Total(es1) == Total(es2)
  {
    if es1 != [] {
      var m := |es1| - 1;
      SameWeights(es1[..m], es2[..m]);
    }
  }

  /** A pass that weighs every record 1 counts the records. */
  lemma {:induction false} CountTotal(es: seq<Entry>)
    requires forall i :: 0 <= i < |es| ==> es[i].weight == 1.0
    ensures Total(es) == |es| as real
  {
    if es != [] {
      CountTotal(es[..|es| - 1]);
    }
  }

  /** A pass whose weights are never negative has a total that is not negative. */
  lemma {:induction false} TotalNonNegative(es: seq<Entry>)
    requires NonNegativeWeights(es)
    ensures Total(es) >= 0.0
  {
    if es != [] {
      var init := es[..|es| - 1];
      assert NonNegativeWeights(init) by {
        forall i | 0 <= i < |init| ensures init[i].weight >= 0.0 {
          assert init[i] == es[i];
        }
      }
      TotalNonNegative(init);
    }
  }

  /**
   * The accumulation loop: start every row and the total at zero, then add
   * each entry's weight to the total and to its row, if it has one.
   */
  method Accumulate(es: seq<Entry>, n: nat) returns (rows: seq<real>, total: real)
    ensures rows == Tally(es, n)
    ensures total == Total(es)
    ensures Sum(rows) + Unassigned(es, n) == total
  {
    rows := seq(n, _ => 0.0);
    total := 0.0;
    for i := 0 to |es|
      invariant rows == Tally(es[..i], n)
      invariant total == Total(es[..i])
    {
      assert es[..i + 1] == es[..i] + [es[i]];
      assert es[..i + 1][..i] == es[..i];
      TallySnoc(es[..i], es[i], n);
      total := total + es[i].weight;
      match es[i].slot
      case Row(k) =>
        if k < n {
          rows := rows[k := rows[k] + es[i].weight];
        }
      case Dropped =>
    }
    assert es[..|es|] == es;
    Partition(es, n);
  }
}
