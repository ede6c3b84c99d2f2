/** The balance every key of the tables keeps between its drive count and
    its histogram, model and size totals, and the agreement of the Global
    entry with the sum of the regions; both hold after every row. */
module DriveInvariants {
  import opened Text
  import opened Sums
  import opened DriveData
  import opened DriveProperties

  // ---------------------------------------------------------------------------
  // The entries a row starts from

  /** The entry of `k` once add_keys has run for the row's region. */
  function BaseStats(t: Tables, k: string): DriveStats
  {
    if k in t.drivedata then t.drivedata[k] else ZeroStats()
  }

  function BaseAges(t: Tables, k: string): map<nat, nat>
  {
    if k in t.driveage then t.driveage[k] else FreshHistogram()
  }

  function BaseModels(t: Tables, k: string): map<string, nat>
  {
    if k in t.modeldict then t.modeldict[k] else map[]
  }

  function BaseSizes(t: Tables, k: string): map<string, SizeStats>
  {
    if k in t.sizedict then t.sizedict[k] else map[]
  }

  /** The repaired Power_On_Hours value of a drive row of region `r`. */
  function RowHours(t: Tables, r: string, row: Record): Option<nat>
  {
    ParseNat(HoursText(row.powerOnHours, BaseStats(t, r).avgPowerOnHours))
  }

  /** A `drivedata` entry after a whole row: counted, then the hours, the
      cycles and a zero size recorded. */
  function RowApplied(b: DriveStats, r: string, k: string, h: nat, c: nat, key: string): DriveStats
  {
    ZeroApplied(CyclesApplied(HoursApplied(CountApplied(b, r, k), r, k, h), r, k, c), r, k, key)
  }

  // ---------------------------------------------------------------------------
  // One drive row, key by key

  lemma StepUnfold(t: Tables, row: Record, r: string)
    requires WellFormed(t) && !IsComment(row) && RegionName(row.hostname) == Some(r)
    ensures var t1 := CountDrive(AddKeys(t, r), r);
            && Counted(t1, r) && HoursOf(t1, r, row.powerOnHours) == RowHours(t, r, row)
            && Step(t, row) == ProcessFields(t1, r, row)
  {
  }

  lemma CountDriveAt(t: Tables, r: string, k: string)
    requires WellFormed(t) && (k in t.drivedata || k == r)
    ensures var t1 := CountDrive(AddKeys(t, r), r);
            && k in t1.drivedata && t1.drivedata[k] == CountApplied(BaseStats(t, k), r, k)
            && k in t1.driveage && t1.driveage[k] == BaseAges(t, k)
            && k in t1.modeldict && t1.modeldict[k] == BaseModels(t, k)
            && k in t1.sizedict && t1.sizedict[k] == BaseSizes(t, k)
  {
  }

  /** The `drivedata` entry of any key after a successful drive row. */
  lemma StepStatsAt(t: Tables, row: Record, r: string, k: string)
    requires WellFormed(t) && !IsComment(row) && RegionName(row.hostname) == Some(r)
    requires Step(t, row).Success? && (k in t.drivedata || k == r)
    ensures RowHours(t, r, row).Some?
    ensures Step(t, row).value.drivedata[k]
              == RowApplied(BaseStats(t, k), r, k, RowHours(t, r, row).value,
                            CyclesValue(row.powerCycleCount), SizeKey(row.size))
  {
    StepUnfold(t, row, r);
    CountDriveAt(t, r, k);
    FieldsAt(CountDrive(AddKeys(t, r), r), r, row, k);
  }

  /** The age histogram of any key after a successful drive row. */
  lemma StepAgesAt(t: Tables, row: Record, r: string, k: string)
    requires WellFormed(t) && !IsComment(row) && RegionName(row.hostname) == Some(r)
    requires Step(t, row).Success? && (k in t.drivedata || k == r)
    ensures RowHours(t, r, row).Some?
    ensures Hits(r, k) > 0 ==> RowHours(t, r, row).value / HoursPerYear in BaseAges(t, k)
    ensures Step(t, row).value.driveage[k]
              == AgesApplied(BaseAges(t, k), r, k, RowHours(t, r, row).value / HoursPerYear)
  {
    StepUnfold(t, row, r);
    CountDriveAt(t, r, k);
    FieldsAgesAt(CountDrive(AddKeys(t, r), r), r, row, k);
  }

  /** The model-family table of any key after a successful drive row. */
  lemma StepModelsAt(t: Tables, row: Record, r: string, k: string)
    requires WellFormed(t) && !IsComment(row) && RegionName(row.hostname) == Some(r)
    requires Step(t, row).Success? && (k in t.drivedata || k == r)
    ensures Step(t, row).value.modeldict[k] == ModelsApplied(BaseModels(t, k), r, k, ModelFamily(row.model))
  {
    StepUnfold(t, row, r);
    CountDriveAt(t, r, k);
    FieldsModelsAt(CountDrive(AddKeys(t, r), r), r, row, k);
  }

  /** The size table of any key after a successful drive row. */
  lemma StepSizesAt(t: Tables, row: Record, r: string, k: string)
    requires WellFormed(t) && !IsComment(row) && RegionName(row.hostname) == Some(r)
    requires Step(t, row).Success? && (k in t.drivedata || k == r)
    ensures RowHours(t, r, row).Some?
    ensures Step(t, row).value.sizedict[k]
              == SizesApplied(BaseSizes(t, k), r, k, SizeKey(row.size), RowHours(t, r, row).value)
  {
    StepUnfold(t, row, r);
    CountDriveAt(t, r, k);
    FieldsSizesAt(CountDrive(AddKeys(t, r), r), r, row, k);
  }

  /** A drive row counts an empty Power_On_Hours or Power_Cycle_Count field
      and leaves the comment counter as it is. */
  lemma StepCounters(t: Tables, row: Record, r: string)
    requires WellFormed(t) && !IsComment(row) && RegionName(row.hostname) == Some(r)
    requires Step(t, row).Success?
    ensures var u := Step(t, row).value;
            && u.zeroPoh == t.zeroPoh + (if row.powerOnHours == "" then 1 else 0)
            && u.zeroPcc == t.zeroPcc + (if row.powerCycleCount == "" then 1 else 0)
            && u.commentLines == t.commentLines
  {
    StepUnfold(t, row, r);
    FieldsCounters(CountDrive(AddKeys(t, r), r), r, row);
  }

  // ---------------------------------------------------------------------------
  // The balance of one key

  /** Both averages are up to date and no record was ever ignored. */
  predicate StatsCurrent(s: DriveStats)
  {
    && s.avgPowerOnHours == Mean(s.powerOnHours, s.count)
    && s.avgPowerCycleCount == Mean(s.powerCycleCount, s.count)
    && s.ignoredRecords == 0
  }

  /** The histogram has exactly the seeded buckets and one tally per drive. */
  ghost predicate AgesBalanced(count: nat, ages: map<nat, nat>)
  {
    ages.Keys == FreshHistogram().Keys && MapSum(ages) == count
  }

  /** Every family entry is one more than its drives, at least two. */
  ghost predicate ModelsBalanced(count: nat, models: map<string, nat>)
  {
    && (forall f | f in models :: models[f] >= 2)
    && MapSum(models) == count + |models|
  }

  function SizeCounts(sizes: map<string, SizeStats>): map<string, nat>
  {
    map key | key in sizes :: sizes[key].count
  }

  predicate SizeCurrent(e: SizeStats)
  {
    e.count > 0 && e.avgPowerOnHours == Mean(e.powerOnHours, e.count)
  }

  /** No size key is zero, every size entry has a drive and an up-to-date
      average, and the size counts with the zero sizes make up the count. */
  ghost predicate SizesBalanced(count: nat, zeroSize: nat, sizes: map<string, SizeStats>)
  {
    && (forall key | key in sizes :: !IsZeroSize(key) && SizeCurrent(sizes[key]))
    && MapSum(SizeCounts(sizes)) + zeroSize == count
  }

  ghost predicate Balanced(s: DriveStats, ages: map<nat, nat>, models: map<string, nat>,
                           sizes: map<string, SizeStats>)
  {
    && StatsCurrent(s) && AgesBalanced(s.count, ages)
    && ModelsBalanced(s.count, models) && SizesBalanced(s.count, s.zeroSize, sizes)
  }

  lemma FreshBalanced()
    ensures Balanced(ZeroStats(), FreshHistogram(), map[], map[])
  {
    MapSumZero(FreshHistogram());
    assert SizeCounts(map[]) == map[];
  }

  lemma {:induction false} AgesStayBalanced(count: nat, ages: map<nat, nat>, r: string, k: string, age: nat)
    requires AgesBalanced(count, ages)
    requires Hits(r, k) > 0 ==> age in ages
    ensures AgesBalanced(count + Hits(r, k), AgesApplied(ages, r, k, age))
  {
    if Hits(r, k) > 0 {
      MapSumUpdate(ages, age, ages[age] + Hits(r, k));
    }
  }

  lemma {:induction false} ModelsStayBalanced(count: nat, models: map<string, nat>, r: string, k: string, f: string)
    requires ModelsBalanced(count, models)
    ensures ModelsBalanced(count + Hits(r, k), ModelsApplied(models, r, k, f))
  {
    if Hits(r, k) > 0 {
      MapSumUpdate(models, f, Seen(models, f) + Hits(r, k));
    }
  }

  lemma SizeCountsUpdate(sizes: map<string, SizeStats>, key: string, e: SizeStats)
    ensures SizeCounts(sizes[key := e]) == SizeCounts(sizes)[key := e.count]
  {
  }

  lemma {:induction false} SizesStayBalanced(count: nat, zeroSize: nat, sizes: map<string, SizeStats>,
                                             r: string, k: string, key: string, h: nat)
    requires SizesBalanced(count, zeroSize, sizes)
    ensures SizesBalanced(count + Hits(r, k), zeroSize + (if IsZeroSize(key) then Hits(r, k) else 0),
                          SizesApplied(sizes, r, k, key, h))
  {
    if Hits(r, k) > 0 && !IsZeroSize(key) {
      var e := SizeEntry(sizes, key);
      var e' := Accumulate(e, Hits(r, k), Share(r, k, h));
      SizeCountsUpdate(sizes, key, e');
      MapSumUpdate(SizeCounts(sizes), key, e'.count);
    }
  }

  lemma RowStats(b: DriveStats, r: string, k: string, h: nat, c: nat, key: string)
    requires StatsCurrent(b)
    ensures var s := RowApplied(b, r, k, h, c, key);
            && StatsCurrent(s) && s.count == b.count + Hits(r, k)
            && s.zeroSize == b.zeroSize + (if IsZeroSize(key) then Hits(r, k) else 0)
  {
  }

  /** One row keeps the balance of every key: the region's and Global's
      entries gain one drive (two on Global when the region is "global") in
      the count, the histogram, the model table and the size table or the
      zero-size tally alike. */
  lemma RowKeepsBalance(b: DriveStats, ages: map<nat, nat>, models: map<string, nat>, sizes: map<string, SizeStats>,
                        r: string, k: string, h: nat, c: nat, f: string, key: string)
    requires Balanced(b, ages, models, sizes)
    requires Hits(r, k) > 0 ==> h / HoursPerYear in ages
    ensures Balanced(RowApplied(b, r, k, h, c, key), AgesApplied(ages, r, k, h / HoursPerYear),
                     ModelsApplied(models, r, k, f), SizesApplied(sizes, r, k, key, h))
  {
    RowStats(b, r, k, h, c, key);
    AgesStayBalanced(b.count, ages, r, k, h / HoursPerYear);
    ModelsStayBalanced(b.count, models, r, k, f);
    SizesStayBalanced(b.count, b.zeroSize, sizes, r, k, key, h);
  }

  // ---------------------------------------------------------------------------
  // Every key of the tables is balanced, after any number of rows

  ghost predicate KeyBalanced(t: Tables, k: string)
    requires Present(t, k)
  {
    Balanced(t.drivedata[k], t.driveage[k], t.modeldict[k], t.sizedict[k])
  }

  ghost predicate AllBalanced(t: Tables)
  {
    WellFormed(t) && forall k | k in t.drivedata :: KeyBalanced(t, k)
  }

  /** On balanced tables the entry a row starts from has current averages. */
  lemma BaseStatsCurrent(t: Tables, k: string)
    requires AllBalanced(t)
    ensures StatsCurrent(BaseStats(t, k))
  {
    if k in t.drivedata {
      assert KeyBalanced(t, k);
    }
  }

  lemma FreshKeyBalanced(t: Tables, k: string)
    requires Present(t, k) && t.drivedata[k] == ZeroStats() && t.driveage[k] == FreshHistogram()
    requires t.modeldict[k] == map[] && t.sizedict[k] == map[]
    ensures KeyBalanced(t, k)
  {
    FreshBalanced();
  }

  lemma OnlyGlobalBalanced(t: Tables)
    requires WellFormed(t) && t.drivedata.Keys == {Global} && KeyBalanced(t, Global)
    ensures AllBalanced(t)
  {
  }

  /** The tables as the module initialises them are balanced. */
  lemma InitBalanced()
    ensures AllBalanced(Init())
  {
    var t := Init();
    assert WellFormed(t) && t.drivedata.Keys == {Global};
    FreshKeyBalanced(t, Global);
    OnlyGlobalBalanced(t);
  }

  lemma StepBalancedAt(t: Tables, row: Record, r: string, k: string)
    requires AllBalanced(t) && !IsComment(row) && RegionName(row.hostname) == Some(r)
    requires Step(t, row).Success? && (k in t.drivedata || k == r)
    ensures KeyBalanced(Step(t, row).value, k)
  {
    if k !in t.drivedata {
      FreshBalanced();
    } else {
      assert KeyBalanced(t, k);
    }
    StepStatsAt(t, row, r, k);
    StepAgesAt(t, row, r, k);
    StepModelsAt(t, row, r, k);
    StepSizesAt(t, row, r, k);
    RowKeepsBalance(BaseStats(t, k), BaseAges(t, k), BaseModels(t, k), BaseSizes(t, k), r, k,
                    RowHours(t, r, row).value, CyclesValue(row.powerCycleCount), ModelFamily(row.model),
                    SizeKey(row.size));
  }

  lemma DriveRowKeepsBalance(t: Tables, row: Record, r: string)
    requires AllBalanced(t) && !IsComment(row) && RegionName(row.hostname) == Some(r)
    requires Step(t, row).Success?
    ensures AllBalanced(Step(t, row).value)
  {
    var u := Step(t, row).value;
    forall k | k in u.drivedata
      ensures KeyBalanced(u, k)
    {
      StepBalancedAt(t, row, r, k);
    }
  }

  /** Every row keeps every key balanced. */
  lemma StepKeepsBalance(t: Tables, row: Record)
    requires AllBalanced(t) && Step(t, row).Success?
    ensures AllBalanced(Step(t, row).value)
  {
    if IsComment(row) {
      assert Step(t, row).value.(commentLines := t.commentLines) == t;
    } else {
      DriveRowKeepsBalance(t, row, RegionName(row.hostname).value);
    }
  }

  // ---------------------------------------------------------------------------
  // Global is the sum of the regions

  /** The counters of a `drivedata` entry that Global accumulates. */
  datatype Column = Drives | Hours | Cycles | ZeroSizes

  function Cell(s: DriveStats, c: Column): nat
  {
    match c
    case Drives => s.count
    case Hours => s.powerOnHours
    case Cycles => s.powerCycleCount
    case ZeroSizes => s.zeroSize
  }

  /** One column of `drivedata`, over the regions only. */
  function RegionColumn(d: map<string, DriveStats>, c: Column): map<string, nat>
  {
    map k | k in d && k != Global :: Cell(d[k], c)
  }

  ghost predicate GlobalIsTotal(t: Tables)
  {
    Global in t.drivedata && forall c: Column :: MapSum(RegionColumn(t.drivedata, c)) == Cell(t.drivedata[Global], c)
  }

  /** What a drive row adds to one column of its region and of Global. */
  function ColumnDelta(c: Column, h: nat, cycles: nat, key: string): nat
  {
    match c
    case Drives => 1
    case Hours => h
    case Cycles => cycles
    case ZeroSizes => if IsZeroSize(key) then 1 else 0
  }

  lemma CellAt(b: DriveStats, r: string, k: string, h: nat, cycles: nat, key: string, c: Column)
    requires r != Global
    ensures Cell(RowApplied(b, r, k, h, cycles, key), c)
              == Cell(b, c) + if k == r || k == Global then ColumnDelta(c, h, cycles, key) else 0
  {
  }

  /** The delta a drive row of region `r` adds to column `c`. */
  function RowDelta(t: Tables, r: string, row: Record, c: Column): nat
    requires RowHours(t, r, row).Some?
  {
    ColumnDelta(c, RowHours(t, r, row).value, CyclesValue(row.powerCycleCount), SizeKey(row.size))
  }

  lemma StepCell(t: Tables, row: Record, r: string, k: string, c: Column)
    requires WellFormed(t) && !IsComment(row) && RegionName(row.hostname) == Some(r) && r != Global
    requires Step(t, row).Success? && (k in t.drivedata || k == r)
    ensures RowHours(t, r, row).Some?
    ensures Cell(Step(t, row).value.drivedata[k], c)
              == Cell(BaseStats(t, k), c) + if k == r || k == Global then RowDelta(t, r, row, c) else 0
  {
    StepStatsAt(t, row, r, k);
    CellAt(BaseStats(t, k), r, k, RowHours(t, r, row).value, CyclesValue(row.powerCycleCount), SizeKey(row.size), c);
  }

  /** The cells of one column before and after a drive row of region `r`
      that adds `delta` to the region and to Global. */
  ghost predicate Advanced(d0: map<string, DriveStats>, d: map<string, DriveStats>, r: string, c: Column, delta: nat)
  {
    forall k | k in d0 || k == r ::
      && k in d
      && Cell(d[k], c) == (if k in d0 then Cell(d0[k], c) else 0) + (if k == r || k == Global then delta else 0)
  }

  lemma StepAdvances(t: Tables, row: Record, r: string, c: Column)
    requires WellFormed(t) && !IsComment(row) && RegionName(row.hostname) == Some(r) && r != Global
    requires Step(t, row).Success?
    ensures RowHours(t, r, row).Some?
    ensures Advanced(t.drivedata, Step(t, row).value.drivedata, r, c, RowDelta(t, r, row, c))
  {
    StepCell(t, row, r, r, c);
    forall k | k in t.drivedata || k == r
      ensures k in Step(t, row).value.drivedata
      ensures Cell(Step(t, row).value.drivedata[k], c)
                == (if k in t.drivedata then Cell(t.drivedata[k], c) else 0)
                   + (if k == r || k == Global then RowDelta(t, r, row, c) else 0)
    {
      StepCell(t, row, r, k, c);
    }
  }

  /** The cell the region has before the row: zero for a new region. */
  function BaseCell(d0: map<string, DriveStats>, r: string, c: Column): nat
  {
    if r in d0 then Cell(d0[r], c) else 0
  }

  /** After the row, the regions' column is the old one with the region's
      cell advanced. */
  lemma AdvancedColumn(d0: map<string, DriveStats>, d: map<string, DriveStats>, r: string, c: Column, delta: nat)
    requires r != Global && d.Keys == d0.Keys + {r}
    requires Advanced(d0, d, r, c, delta)
    ensures RegionColumn(d, c) == RegionColumn(d0, c)[r := BaseCell(d0, r, c) + delta]
  {
    var m := RegionColumn(d0, c)[r := BaseCell(d0, r, c) + delta];
    var n := RegionColumn(d, c);
    assert n.Keys == m.Keys;
    forall k | k in m
      ensures n[k] == m[k]
    {
      assert k in d0 || k == r;
    }
  }

  /** Advancing the region's and Global's cells by the same amount keeps
      Global's cell the sum of the regions'. */
  lemma AdvancedKeepsTotal(d0: map<string, DriveStats>, d: map<string, DriveStats>, r: string,
                           c: Column, delta: nat)
    requires Global in d0 && r != Global && d.Keys == d0.Keys + {r}
    requires Advanced(d0, d, r, c, delta)
    requires MapSum(RegionColumn(d0, c)) == Cell(d0[Global], c)
    ensures MapSum(RegionColumn(d, c)) == Cell(d[Global], c)
  {
    var before := RegionColumn(d0, c);
    AdvancedColumn(d0, d, r, c, delta);
    MapSumUpdate(before, r, BaseCell(d0, r, c) + delta);
    assert (if r in before then before[r] else 0) == BaseCell(d0, r, c);
    assert Cell(d[Global], c) == Cell(d0[Global], c) + delta;
  }

  /** With a region other than "global", every column of Global keeps
      being the sum of the regions' columns. */
  lemma StepKeepsTotals(t: Tables, row: Record)
    requires WellFormed(t) && GlobalIsTotal(t) && Step(t, row).Success?
    requires !IsComment(row) ==> RegionName(row.hostname) != Some(Global)
    ensures GlobalIsTotal(Step(t, row).value)
  {
    if !IsComment(row) {
      var r := RegionName(row.hostname).value;
      var d := Step(t, row).value.drivedata;
      forall c: Column
        ensures MapSum(RegionColumn(d, c)) == Cell(d[Global], c)
      {
        StepAdvances(t, row, r, c);
        AdvancedKeepsTotal(t.drivedata, d, r, c, RowDelta(t, r, row, c));
      }
    }
  }
}
