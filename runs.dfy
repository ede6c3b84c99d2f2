/** What process_data guarantees after any number of rows: every key stays
    balanced, Global stays the sum of the regions while no row names a
    region "global", and the module counters count the rows they are meant
    to count. */
module DriveRuns {
  import opened Text
  import opened Sums
  import opened DriveData
  import opened DriveProperties
  import opened DriveInvariants

  // ---------------------------------------------------------------------------
  // Kinds of rows

  predicate EmptyHoursRow(row: Record)
  {
    !IsComment(row) && row.powerOnHours == ""
  }

  predicate EmptyCyclesRow(row: Record)
  {
    !IsComment(row) && row.powerCycleCount == ""
  }

  /** A drive row whose region is the reserved key itself. */
  predicate GlobalRegionRow(row: Record)
  {
    !IsComment(row) && RegionName(row.hostname) == Some(Global)
  }

  /** How many of `rows` are of the kind `p`. */
  function CountRows(rows: seq<Record>, p: Record -> bool): (n: nat)
    ensures n <= |rows|
    decreases |rows|
  {
    if rows == [] then 0
    else CountRows(rows[..|rows| - 1], p) + (if p(rows[|rows| - 1]) then 1 else 0)
  }

  predicate NoGlobalRegion(rows: seq<Record>)
  {
    forall i | 0 <= i < |rows| :: !GlobalRegionRow(rows[i])
  }

  // ---------------------------------------------------------------------------
  // Faults stop the run

  /** Once a prefix of the rows raises, the whole run raises the same fault. */
  lemma {:induction false} RunStopsAtFault(t: Tables, rows: seq<Record>, i: nat)
    requires WellFormed(t) && i <= |rows| && Run(t, rows[..i]).Failure?
    ensures Run(t, rows) == Run(t, rows[..i])
    decreases |rows|
  {
    if i < |rows| {
      assert rows[..|rows| - 1][..i] == rows[..i];
      RunStopsAtFault(t, rows[..|rows| - 1], i);
    } else {
      assert rows[..i] == rows;
    }
  }

  /** A successful run succeeded on every prefix of its rows. */
  lemma {:induction false} RunPrefixSucceeds(t: Tables, rows: seq<Record>, i: nat)
    requires WellFormed(t) && i <= |rows| && Run(t, rows).Success?
    ensures Run(t, rows[..i]).Success?
  {
    if Run(t, rows[..i]).Failure? {
      RunStopsAtFault(t, rows, i);
    }
  }

  // ---------------------------------------------------------------------------
  // Balance

  /** Every key stays balanced however many rows are processed. */
  lemma {:induction false} RunKeepsBalance(t: Tables, rows: seq<Record>)
    requires AllBalanced(t) && Run(t, rows).Success?
    ensures AllBalanced(Run(t, rows).value)
    decreases |rows|
  {
    if rows != [] {
      var front := rows[..|rows| - 1];
      RunKeepsBalance(t, front);
      StepKeepsBalance(Run(t, front).value, rows[|rows| - 1]);
    }
  }

  /** From the initial tables, any run that completes leaves every key with
      as many drives in its age histogram, its model table and its size
      table (with the zero-size tally) as in its count. */
  lemma RunFromInitBalanced(rows: seq<Record>)
    requires Run(Init(), rows).Success?
    ensures AllBalanced(Run(Init(), rows).value)
  {
    InitBalanced();
    RunKeepsBalance(Init(), rows);
  }

  // ---------------------------------------------------------------------------
  // Global is the sum of the regions

  lemma NoGlobalRegionSplit(rows: seq<Record>)
    requires rows != [] && NoGlobalRegion(rows)
    ensures NoGlobalRegion(rows[..|rows| - 1]) && !GlobalRegionRow(rows[|rows| - 1])
  {
    var front := rows[..|rows| - 1];
    forall i | 0 <= i < |front|
      ensures !GlobalRegionRow(front[i])
    {
      assert front[i] == rows[i];
    }
  }

  lemma {:induction false} RunKeepsTotals(t: Tables, rows: seq<Record>)
    requires WellFormed(t) && GlobalIsTotal(t) && NoGlobalRegion(rows) && Run(t, rows).Success?
    ensures GlobalIsTotal(Run(t, rows).value)
    decreases |rows|
  {
    if rows != [] {
      var front := rows[..|rows| - 1];
      var last := rows[|rows| - 1];
      NoGlobalRegionSplit(rows);
      RunKeepsTotals(t, front);
      StepKeepsTotals(Run(t, front).value, last);
    }
  }

  lemma InitIsTotal()
    ensures GlobalIsTotal(Init())
  {
    var d := Init().drivedata;
    assert d.Keys == {Global};
    forall c: Column
      ensures MapSum(RegionColumn(d, c)) == Cell(d[Global], c)
    {
      assert RegionColumn(d, c) == map[];
    }
  }

  /** From the initial tables, while no row names the region "global", every
      counter of Global's entry (drives, hours, cycles, zero sizes) is the
      sum of that counter over the regions. */
  lemma RunFromInitTotals(rows: seq<Record>)
    requires NoGlobalRegion(rows) && Run(Init(), rows).Success?
    ensures GlobalIsTotal(Run(Init(), rows).value)
  {
    InitIsTotal();
    RunKeepsTotals(Init(), rows);
  }

  // ---------------------------------------------------------------------------
  // Counters

  /** One row of any kind moves each counter by the row's kind. */
  lemma StepMovesCounters(t: Tables, row: Record)
    requires WellFormed(t) && Step(t, row).Success?
    ensures var u := Step(t, row).value;
            && u.commentLines == t.commentLines + (if IsComment(row) then 1 else 0)
            && u.zeroPoh == t.zeroPoh + (if EmptyHoursRow(row) then 1 else 0)
            && u.zeroPcc == t.zeroPcc + (if EmptyCyclesRow(row) then 1 else 0)
  {
    if !IsComment(row) {
      StepCounters(t, row, RegionName(row.hostname).value);
    }
  }

  /** Global's drive count gains one per drive row, and one more when the
      row's region is "global" itself. */
  lemma StepMovesGlobalCount(t: Tables, row: Record)
    requires WellFormed(t) && Step(t, row).Success?
    ensures Step(t, row).value.drivedata[Global].count
              == t.drivedata[Global].count + (if IsComment(row) then 0 else 1)
                 + (if GlobalRegionRow(row) then 1 else 0)
  {
    if !IsComment(row) {
      StepStatsAt(t, row, RegionName(row.hostname).value, Global);
    }
  }

  lemma {:induction false} RunMovesCounters(t: Tables, rows: seq<Record>)
    requires WellFormed(t) && Run(t, rows).Success?
    ensures var u := Run(t, rows).value;
            && u.commentLines == t.commentLines + CountRows(rows, IsComment)
            && u.zeroPoh == t.zeroPoh + CountRows(rows, EmptyHoursRow)
            && u.zeroPcc == t.zeroPcc + CountRows(rows, EmptyCyclesRow)
            && u.drivedata[Global].count
                 == t.drivedata[Global].count + (|rows| - CountRows(rows, IsComment))
                    + CountRows(rows, GlobalRegionRow)
    decreases |rows|
  {
    if rows != [] {
      var front := rows[..|rows| - 1];
      RunMovesCounters(t, front);
      StepMovesCounters(Run(t, front).value, rows[|rows| - 1]);
      StepMovesGlobalCount(Run(t, front).value, rows[|rows| - 1]);
    }
  }

  /** From the initial tables: commentLines counts the comment rows, zero_poh
      and zero_pcc the drive rows with an empty Power_On_Hours or
      Power_Cycle_Count field, and Global's count the drive rows (a row of
      region "global" twice). */
  lemma RunFromInitCounters(rows: seq<Record>)
    requires Run(Init(), rows).Success?
    ensures var u := Run(Init(), rows).value;
            && u.commentLines == CountRows(rows, IsComment)
            && u.zeroPoh == CountRows(rows, EmptyHoursRow)
            && u.zeroPcc == CountRows(rows, EmptyCyclesRow)
            && u.drivedata[Global].count
                 == (|rows| - CountRows(rows, IsComment)) + CountRows(rows, GlobalRegionRow)
  {
    RunMovesCounters(Init(), rows);
  }

  // ---------------------------------------------------------------------------
  // Model-family counts

  /** How many times a row counts family `f` in the model table of key `k`:
      once for its region and once for Global, so twice in Global's table
      when the region is "global" itself. */
  function FamilyHits(row: Record, k: string, f: string): nat
  {
    if !IsComment(row) && RegionName(row.hostname).Some? && ModelFamily(row.model) == f
    then Hits(RegionName(row.hostname).value, k)
    else 0
  }

  /** How many times the rows count family `f` in the model table of `k`. */
  function FamilyCount(rows: seq<Record>, k: string, f: string): nat
    decreases |rows|
  {
    if rows == [] then 0
    else FamilyCount(rows[..|rows| - 1], k, f) + FamilyHits(rows[|rows| - 1], k, f)
  }

  /** Family `f` has been counted `n` times in the model table of `k`: the
      entry is absent while `n` is 0 and holds `1 + n` once present, and a
      key without a table has counted nothing. */
  predicate FamilyCounted(models: map<string, map<string, nat>>, k: string, f: string, n: nat)
  {
    if k in models then (f in models[k] <==> n > 0) && (f in models[k] ==> models[k][f] == 1 + n)
    else n == 0
  }

  /** Counting family `fam` for a row of region `r` moves the count of
      family `f` in the table of `k` by the table's hits when `fam` is `f`,
      and keeps it otherwise; the region's table is created if needed. */
  lemma FamilyStep(m0: map<string, map<string, nat>>, m1: map<string, map<string, nat>>,
                   r: string, k: string, fam: string, f: string, n: nat)
    requires Global in m0 && m1.Keys == m0.Keys + {r} && FamilyCounted(m0, k, f, n)
    requires k in m1 ==> m1[k] == ModelsApplied(if k in m0 then m0[k] else map[], r, k, fam)
    ensures FamilyCounted(m1, k, f, n + if fam == f then Hits(r, k) else 0)
  {
  }

  lemma StepCountsFamily(t: Tables, row: Record, k: string, f: string, n: nat)
    requires WellFormed(t) && Step(t, row).Success? && FamilyCounted(t.modeldict, k, f, n)
    ensures FamilyCounted(Step(t, row).value.modeldict, k, f, n + FamilyHits(row, k, f))
  {
    if !IsComment(row) {
      var r := RegionName(row.hostname).value;
      var u := Step(t, row).value;
      if k in t.drivedata || k == r {
        StepModelsAt(t, row, r, k);
      }
      FamilyStep(t.modeldict, u.modeldict, r, k, ModelFamily(row.model), f, n);
    }
  }

  /** From the initial tables, every model-family entry is one more than the
      number of times the rows counted that family in its table: a region's
      entry is 1 + its drive rows of that family, Global's is 1 + all drive
      rows of that family (rows of region "global" twice). */
  lemma {:induction false} RunCountsFamilies(rows: seq<Record>, k: string, f: string)
    requires Run(Init(), rows).Success?
    ensures FamilyCounted(Run(Init(), rows).value.modeldict, k, f, FamilyCount(rows, k, f))
    decreases |rows|
  {
    if rows != [] {
      var front := rows[..|rows| - 1];
      RunCountsFamilies(front, k, f);
      StepCountsFamily(Run(Init(), front).value, rows[|rows| - 1], k, f, FamilyCount(front, k, f));
    }
  }

  /** The same, for an entry present in the tables a run leaves. */
  lemma RunFromInitFamilies(rows: seq<Record>, k: string, f: string)
    requires Run(Init(), rows).Success?
    requires k in Run(Init(), rows).value.modeldict
    ensures var m := Run(Init(), rows).value.modeldict[k];
            && (f in m <==> FamilyCount(rows, k, f) > 0)
            && (f in m ==> m[f] == 1 + FamilyCount(rows, k, f))
  {
    RunCountsFamilies(rows, k, f);
  }
}
