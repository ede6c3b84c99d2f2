/** The field-repair rules of the engine, related to the Python operations
    the source spells them with: `split`, `strip`, `int` and `str`. */
module DriveRules {
  import opened Text
  import opened DriveData

  // ---------------------------------------------------------------------------
  // get_region_name

  /** The region is the second `.`-separated segment of the hostname, and
      there is one exactly when the hostname contains a `.`. */
  lemma RegionIsSecondSegment(hostname: string)
    ensures RegionName(hostname).Some? <==> |Split(hostname, '.')| >= 2
    ensures RegionName(hostname).Some? ==> RegionName(hostname).value == Split(hostname, '.')[1]
  {
    SplitHasSecond(hostname, '.');
    PrefixBeforeIsPrefix(hostname, '.');
    if '.' in hostname {
      SplitSecond(hostname, '.');
    }
  }

  /** A region never contains a `.`. */
  lemma RegionHasNoDot(hostname: string)
    requires RegionName(hostname).Some?
    ensures '.' !in RegionName(hostname).value
  {
    var host := PrefixBefore(hostname, '.');
    PrefixBeforeIsPrefix(hostname[|host| + 1..], '.');
  }

  // ---------------------------------------------------------------------------
  // Averages

  /** Repeated subtraction finds the largest `q` with `q * d <= n`. */
  lemma {:induction false} IntegerQuotientBounds(n: nat, d: nat)
    requires d > 0
    ensures var q := IntegerQuotient(n, d); q * d <= n < q * d + d
    decreases n
  {
    if n >= d {
      IntegerQuotientBounds(n - d, d);
      var q := IntegerQuotient(n - d, d);
      assert (1 + q) * d == q * d + d;
    }
  }

  lemma CancelFactor(a: real, b: real, d: real)
    requires d > 0.0
    ensures a * d <= b * d ==> a <= b
    ensures a * d < b * d ==> a < b
  {
  }

  lemma ScaledBounds(q: real, n: real, d: real)
    requires d > 0.0 && q * d <= n < q * d + d
    ensures q <= n / d < q + 1.0
  {
    var x := n / d;
    assert x * d == n;
    assert (q + 1.0) * d == q * d + d;
    CancelFactor(q, x, d);
    CancelFactor(x, q + 1.0, d);
  }

  /** `Whole` is the integer part of the average's value. */
  lemma WholeIsFloor(a: Average)
    ensures Whole(a) * a.denominator <= a.numerator < Whole(a) * a.denominator + a.denominator
    ensures Whole(a) as real <= Value(a) < Whole(a) as real + 1.0
  {
    var n, d, q := a.numerator, a.denominator, Whole(a);
    IntegerQuotientBounds(n, d);
    assert (q * d) as real == (q as real) * (d as real);
    ScaledBounds(q as real, n as real, d as real);
  }

  /** `q` is `sum div count`. */
  predicate IsQuotient(q: nat, sum: nat, count: nat)
  {
    q * count <= sum < (q + 1) * count
  }

  /** The integer part of an up-to-date average is `sum div count`. */
  lemma MeanFloor(sum: nat, count: nat)
    requires count > 0
    ensures IsQuotient(Whole(Mean(sum, count)), sum, count)
  {
    var q := Whole(Mean(sum, count));
    IntegerQuotientBounds(sum, count);
    assert (q + 1) * count == q * count + count;
  }

  // ---------------------------------------------------------------------------
  // process_power_on_hours

  /** A non-empty field is cut at its first `.`: the head of `split('.')`. */
  lemma HoursTextCutsAtDot(raw: string, average: Average)
    requires raw != ""
    ensures var r := HoursText(raw, average);
            && r == Split(raw, '.')[0] && r == raw[..|r|] && '.' !in r
  {
    SplitHead(raw, '.');
    PrefixBeforeIsPrefix(raw, '.');
  }

  /** An empty field takes the integer part of the average before the row:
      `str(avg)` cut at its `.`, read back by `int()`. */
  lemma EmptyHoursTakeAverage(average: Average)
    ensures ParseNat(HoursText("", average)) == Some(Whole(average))
  {
    var s := DigitText(Whole(average));
    PrefixBeforeIsPrefix(s, '.');
    ParseDigitText(Whole(average));
  }

  /** The histogram buckets are exactly the ages 0 to MaxAge. */
  lemma FreshBuckets(age: nat)
    ensures age in FreshHistogram() <==> age <= MaxAge
  {
    if age <= MaxAge {
      assert age in {0, 1, 2, 3, 4, 5, 6, 7, 8, 9, 10, 11, 12};
    }
  }

  // ---------------------------------------------------------------------------
  // process_drive_model and process_drive_size

  /** The family is `model.split('-')[0].strip()` of the repaired model, and
      it holds no `-`. */
  lemma FamilyIsFirstSegment(raw: string)
    ensures ModelFamily(raw) == Trim(Split(ModelText(raw), '-')[0])
    ensures '-' !in ModelFamily(raw)
  {
    SplitHead(ModelText(raw), '-');
    PrefixBeforeIsPrefix(ModelText(raw), '-');
    var p := PrefixBefore(ModelText(raw), '-');
    DropLeadingIsSuffix(p);
    var l := DropLeading(p);
    DropTrailingIsPrefix(l);
    var f := DropTrailing(l);
    assert '-' !in f by {
      forall j | 0 <= j < |f|
        ensures f[j] != '-'
      {
        assert f[j] == l[j] == p[|p| - |l| + j];
      }
    }
  }

  /** The size key is `size.split('.')[0].strip()`. */
  lemma SizeKeyIsFirstSegment(raw: string)
    ensures SizeKey(raw) == Trim(Split(raw, '.')[0])
  {
    SplitHead(raw, '.');
  }
}
