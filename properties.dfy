/** What one row does to each table entry, in closed form: the effect of
    each field processor on the entry of any key, and of the four of them
    together. */
module DriveProperties {
  import opened Text
  import opened DriveData

  // ---------------------------------------------------------------------------
  // Vocabulary

  /** How many of a row's paired updates (one on the region, one on Global)
      land on key `k`: two on Global when the region is itself "global". */
  function Hits(region: string, k: string): nat
  {
    (if k == region then 1 else 0) + (if k == Global then 1 else 0)
  }

  /** What a row that adds `v` to the region and `v` to Global adds to key `k`. */
  function Share(region: string, k: string, v: nat): nat
  {
    (if k == region then v else 0) + (if k == Global then v else 0)
  }

  /** The amount process_power_cycle_count adds to both sums: the repaired
      value, or nothing when `int()` rejects it. */
  function CyclesValue(raw: string): nat
  {
    match ParseNat(CyclesText(raw))
    case Some(n) => n
    case None => 0
  }

  /** The Power_On_Hours value of a row, as the first processor repairs and
      parses it against the region's entry in `t`. */
  function HoursOf(t: Tables, r: string, raw: string): Option<nat>
    requires r in t.drivedata
  {
    ParseNat(HoursText(raw, t.drivedata[r].avgPowerOnHours))
  }

  /** The count a family starts from in table `m` before its increment. */
  function Seen(m: map<string, nat>, f: string): nat
  {
    if f in m then m[f] else 1
  }

  /** A size entry, or the zeroed entry the source creates for a new size. */
  function SizeEntry(sizes: map<string, SizeStats>, key: string): SizeStats
  {
    if key in sizes then sizes[key] else ZeroSizeStats()
  }

  /** A size entry after `n` drives with `added` hours between them were
      added to it. */
  function Accumulate(e: SizeStats, n: nat, added: nat): SizeStats
  {
    var sum := e.powerOnHours + added;
    SizeStats(e.count + n, sum, Mean(sum, e.count + n))
  }

  // ---------------------------------------------------------------------------
  // The entry of key `k` after one row whose region is `r`, table by table.
  // Only the region's and Global's entries change.

  /** A `drivedata` entry once both count increments are done. */
  function CountApplied(s: DriveStats, r: string, k: string): DriveStats
  {
    s.(count := s.count + Hits(r, k))
  }

  /** A `drivedata` entry once process_power_on_hours has recorded `h`. */
  function HoursApplied(s: DriveStats, r: string, k: string, h: nat): DriveStats
  {
    if Hits(r, k) == 0 then s
    else
      var sum := s.powerOnHours + Share(r, k, h);
      s.(powerOnHours := sum, avgPowerOnHours := Mean(sum, s.count))
  }

  /** A `drivedata` entry once process_power_cycle_count has recorded `c`. */
  function CyclesApplied(s: DriveStats, r: string, k: string, c: nat): DriveStats
  {
    if Hits(r, k) == 0 then s
    else
      var sum := s.powerCycleCount + Share(r, k, c);
      s.(powerCycleCount := sum, avgPowerCycleCount := Mean(sum, s.count))
  }

  /** A `drivedata` entry once process_drive_size has seen a size key. */
  function ZeroApplied(s: DriveStats, r: string, k: string, key: string): DriveStats
  {
    if IsZeroSize(key) then s.(zeroSize := s.zeroSize + Hits(r, k)) else s
  }

  /** An age histogram once bucket `age` was incremented (a missing bucket
      is a fault before this point). */
  function AgesApplied(ages: map<nat, nat>, r: string, k: string, age: nat): map<nat, nat>
  {
    if Hits(r, k) == 0 || age !in ages then ages
    else
      var n: nat := ages[age] + Hits(r, k);
      ages[age := n]
  }

  /** A model-family table once family `f` was counted. */
  function ModelsApplied(m: map<string, nat>, r: string, k: string, f: string): map<string, nat>
  {
    if Hits(r, k) == 0 then m else m[f := Seen(m, f) + Hits(r, k)]
  }

  /** A size table once a drive of size key `key` and `h` hours was counted;
      a zero size key leaves it as it is. */
  function SizesApplied(sizes: map<string, SizeStats>, r: string, k: string, key: string, h: nat)
    : map<string, SizeStats>
  {
    if Hits(r, k) == 0 || IsZeroSize(key) then sizes
    else sizes[key := Accumulate(SizeEntry(sizes, key), Hits(r, k), Share(r, k, h))]
  }

  // ---------------------------------------------------------------------------
  // process_power_on_hours

  /** Both sums gain the value, and both averages become sum / count. */
  lemma RecordHoursAt(t: Tables, r: string, h: nat, k: string)
    requires Counted(t, r) && k in t.drivedata
    requires RecordHours(t, r, h).Success?
    ensures RecordHours(t, r, h).value.drivedata[k] == HoursApplied(t.drivedata[k], r, k, h)
  {
    var d := AddHours(AddHours(t.drivedata, r, h), Global, h);
    var s := t.drivedata[k];
    assert d[k] == s.(powerOnHours := s.powerOnHours + Share(r, k, h));
  }

  /** Bucket `h div 8760` is incremented in the region and Global histograms. */
  lemma RecordHoursAgeAt(t: Tables, r: string, h: nat, k: string)
    requires Counted(t, r) && k in t.driveage
    requires RecordHours(t, r, h).Success?
    ensures Hits(r, k) > 0 ==> h / HoursPerYear in t.driveage[k]
    ensures RecordHours(t, r, h).value.driveage[k] == AgesApplied(t.driveage[k], r, k, h / HoursPerYear)
  {
  }

  lemma RecordHoursFrame(t: Tables, r: string, h: nat)
    requires Counted(t, r)
    requires RecordHours(t, r, h).Success?
    ensures RecordHours(t, r, h).value.(drivedata := t.drivedata, driveage := t.driveage) == t
  {
  }

  /** The value is recorded unless an age bucket is missing, and the buckets
      are looked up in the histograms as they were before the row. */
  lemma RecordHoursFails(t: Tables, r: string, h: nat)
    requires Counted(t, r)
    ensures RecordHours(t, r, h).Failure? <==> h / HoursPerYear !in t.driveage[r] || h / HoursPerYear !in t.driveage[Global]
  {
  }

  lemma RecordHoursFault(t: Tables, r: string, h: nat)
    requires Counted(t, r)
    requires RecordHours(t, r, h).Failure?
    ensures RecordHours(t, r, h).fault == AgeOutOfRange(h / HoursPerYear)
  {
  }

  /** A repaired text `int()` rejects is an uncaught ValueError. */
  lemma PowerOnHoursRejects(t: Tables, r: string, raw: string)
    requires Counted(t, r)
    requires HoursOf(t, r, raw).None?
    ensures ProcessPowerOnHours(t, r, raw)
              == Failure(InvalidPowerOnHours(HoursText(raw, t.drivedata[r].avgPowerOnHours)))
  {
  }

  /** Otherwise the value is recorded, after zero_poh counts an empty field. */
  lemma PowerOnHoursRecords(t: Tables, r: string, raw: string)
    requires Counted(t, r)
    requires HoursOf(t, r, raw).Some?
    ensures var t1 := if raw == "" then t.(zeroPoh := t.zeroPoh + 1) else t;
            ProcessPowerOnHours(t, r, raw) == RecordHours(t1, r, HoursOf(t, r, raw).value)
  {
  }

  // ---------------------------------------------------------------------------
  // process_power_cycle_count

  /** Both sums gain the repaired value, or nothing when `int()` rejects it,
      and both averages become sum / count either way. */
  lemma PowerCycleAt(t: Tables, r: string, raw: string, k: string)
    requires Counted(t, r) && k in t.drivedata
    ensures ProcessPowerCycleCount(t, r, raw).drivedata[k] == CyclesApplied(t.drivedata[k], r, k, CyclesValue(raw))
  {
    var c := CyclesValue(raw);
    var d := AddCycles(AddCycles(t.drivedata, r, c), Global, c);
    var s := t.drivedata[k];
    assert d[k] == s.(powerCycleCount := s.powerCycleCount + Share(r, k, c));
    if raw == "" {
      assert ParseNat("1") == Some(1);
    } else if ParseNat(raw).None? {
      assert AddCycles(t.drivedata, r, 0) == t.drivedata;
      assert AddCycles(t.drivedata, Global, 0) == t.drivedata;
    }
  }

  lemma PowerCycleFrame(t: Tables, r: string, raw: string)
    requires Counted(t, r)
    ensures var u := ProcessPowerCycleCount(t, r, raw);
            u.(drivedata := t.drivedata, zeroPcc := t.zeroPcc) == t
  {
  }

  /** zero_pcc counts an empty field. */
  lemma PowerCycleCounter(t: Tables, r: string, raw: string)
    requires Counted(t, r)
    ensures ProcessPowerCycleCount(t, r, raw).zeroPcc == t.zeroPcc + if raw == "" then 1 else 0
  {
  }

  // ---------------------------------------------------------------------------
  // process_drive_model

  lemma EnsureFamiliesAt(models: map<string, map<string, nat>>, r: string, f: string, k: string)
    requires r in models && Global in models && k in models
    ensures var m := models[k];
            EnsureFamily(EnsureFamily(models, Global, f), r, f)[k]
              == if Hits(r, k) == 0 then m else m[f := Seen(m, f)]
  {
  }

  lemma BumpFamiliesAt(models: map<string, map<string, nat>>, r: string, f: string, k: string)
    requires r in models && Global in models && k in models
    requires f in models[r] && f in models[Global]
    ensures var m := models[k];
            BumpFamily(BumpFamily(models, Global, f), r, f)[k]
              == if Hits(r, k) == 0 then m else m[f := m[f] + Hits(r, k)]
  {
    if k == Global {
      var m := models[k];
      assert BumpFamily(models, Global, f)[k] == m[f := m[f] + 1];
    }
  }

  /** A family new to a table is stored as 1 and then incremented: each
      entry is one more than the rows of that family. */
  lemma CountFamilyAt(models: map<string, map<string, nat>>, r: string, f: string, k: string)
    requires r in models && Global in models && k in models
    ensures CountFamily(models, r, f)[k] == ModelsApplied(models[k], r, k, f)
  {
    var m1 := EnsureFamily(EnsureFamily(models, Global, f), r, f);
    EnsureFamiliesAt(models, r, f, k);
    BumpFamiliesAt(m1, r, f, k);
    var m := models[k];
    if Hits(r, k) > 0 {
      assert m[f := Seen(m, f)][f := Seen(m, f) + Hits(r, k)] == m[f := Seen(m, f) + Hits(r, k)];
    }
  }

  // ---------------------------------------------------------------------------
  // process_drive_size

  lemma EnsureSizesAt(sizes: map<string, map<string, SizeStats>>, r: string, key: string, k: string)
    requires r in sizes && Global in sizes && k in sizes
    ensures var z := sizes[k];
            EnsureSize(EnsureSize(sizes, Global, key), r, key)[k]
              == if Hits(r, k) == 0 then z else z[key := SizeEntry(z, key)]
  {
  }

  lemma AddToSizesAt(sizes: map<string, map<string, SizeStats>>, r: string, key: string, h: nat, k: string)
    requires r in sizes && Global in sizes && k in sizes
    requires key in sizes[r] && key in sizes[Global]
    ensures var z := sizes[k];
            AddToSize(AddToSize(sizes, r, key, h), Global, key, h)[k]
              == if Hits(r, k) == 0 then z else z[key := Accumulate(z[key], Hits(r, k), Share(r, k, h))]
  {
    if k == r {
      var z := sizes[k];
      assert AddToSize(sizes, r, key, h)[k] == z[key := Accumulate(z[key], 1, h)];
    }
  }

  lemma CountSizeAt(sizes: map<string, map<string, SizeStats>>, r: string, key: string, h: nat, k: string)
    requires r in sizes && Global in sizes && k in sizes
    ensures var z := sizes[k];
            CountSize(sizes, r, key, h)[k]
              == if Hits(r, k) == 0 then z else z[key := Accumulate(SizeEntry(z, key), Hits(r, k), Share(r, k, h))]
  {
    var z1 := EnsureSize(EnsureSize(sizes, Global, key), r, key);
    EnsureSizesAt(sizes, r, key, k);
    AddToSizesAt(z1, r, key, h, k);
    var z := sizes[k];
    var e := SizeEntry(z, key);
    if Hits(r, k) > 0 {
      assert z[key := e][key := Accumulate(e, Hits(r, k), Share(r, k, h))] == z[key := Accumulate(e, Hits(r, k), Share(r, k, h))];
    }
  }

  /** A key of "" or "0" is not entered in the size tables; any other key is
      counted there with the row's hours. */
  lemma DriveSizeAt(t: Tables, r: string, raw: string, h: nat, k: string)
    requires Present(t, r) && Present(t, Global) && k in t.sizedict
    ensures ProcessDriveSize(t, r, raw, h).sizedict[k] == SizesApplied(t.sizedict[k], r, k, SizeKey(raw), h)
  {
    if !IsZeroSize(SizeKey(raw)) {
      CountSizeAt(t.sizedict, r, SizeKey(raw), h, k);
    }
  }

  /** A key of "" or "0" is tallied in zero_size instead. */
  lemma DriveSizeZeroAt(t: Tables, r: string, raw: string, h: nat, k: string)
    requires Present(t, r) && Present(t, Global) && k in t.drivedata
    ensures ProcessDriveSize(t, r, raw, h).drivedata[k] == ZeroApplied(t.drivedata[k], r, k, SizeKey(raw))
  {
  }

  lemma DriveSizeFrame(t: Tables, r: string, raw: string, h: nat)
    requires Present(t, r) && Present(t, Global)
    ensures ProcessDriveSize(t, r, raw, h).(drivedata := t.drivedata, sizedict := t.sizedict) == t
  {
  }

  // ---------------------------------------------------------------------------
  // The four field processors of one row, together

  lemma FieldsUnfold(t: Tables, r: string, row: Record)
    requires Counted(t, r)
    requires ProcessFields(t, r, row).Success?
    ensures HoursOf(t, r, row.powerOnHours).Some?
    ensures var raw := row.powerOnHours;
            var t1 := if raw == "" then t.(zeroPoh := t.zeroPoh + 1) else t;
            var h := HoursOf(t, r, raw).value;
            && RecordHours(t1, r, h).Success?
            && var t3 := ProcessPowerCycleCount(RecordHours(t1, r, h).value, r, row.powerCycleCount);
               ProcessFields(t, r, row).value == ProcessDriveSize(ProcessDriveModel(t3, r, row.model), r, row.size, h)
  {
    PowerOnHoursRecords(t, r, row.powerOnHours);
  }

  /** The `drivedata` entry of any key after a row's fields are processed. */
  lemma FieldsAt(t: Tables, r: string, row: Record, k: string)
    requires Counted(t, r) && k in t.drivedata
    requires ProcessFields(t, r, row).Success?
    ensures HoursOf(t, r, row.powerOnHours).Some?
    ensures var s := HoursApplied(t.drivedata[k], r, k, HoursOf(t, r, row.powerOnHours).value);
            ProcessFields(t, r, row).value.drivedata[k]
              == ZeroApplied(CyclesApplied(s, r, k, CyclesValue(row.powerCycleCount)), r, k, SizeKey(row.size))
  {
    FieldsUnfold(t, r, row);
    var raw := row.powerOnHours;
    var t1 := if raw == "" then t.(zeroPoh := t.zeroPoh + 1) else t;
    var h := HoursOf(t, r, raw).value;
    RecordHoursAt(t1, r, h, k);
    var t2 := RecordHours(t1, r, h).value;
    PowerCycleAt(t2, r, row.powerCycleCount, k);
    var t4 := ProcessDriveModel(ProcessPowerCycleCount(t2, r, row.powerCycleCount), r, row.model);
    DriveSizeZeroAt(t4, r, row.size, h, k);
  }

  /** The age histogram of any key after a row's fields are processed. */
  lemma FieldsAgesAt(t: Tables, r: string, row: Record, k: string)
    requires Counted(t, r) && k in t.driveage
    requires ProcessFields(t, r, row).Success?
    ensures HoursOf(t, r, row.powerOnHours).Some?
    ensures Hits(r, k) > 0 ==> HoursOf(t, r, row.powerOnHours).value / HoursPerYear in t.driveage[k]
    ensures ProcessFields(t, r, row).value.driveage[k]
              == AgesApplied(t.driveage[k], r, k, HoursOf(t, r, row.powerOnHours).value / HoursPerYear)
  {
    FieldsUnfold(t, r, row);
    var raw := row.powerOnHours;
    var t1 := if raw == "" then t.(zeroPoh := t.zeroPoh + 1) else t;
    var h := HoursOf(t, r, raw).value;
    RecordHoursAgeAt(t1, r, h, k);
    var t2 := RecordHours(t1, r, h).value;
    PowerCycleFrame(t2, r, row.powerCycleCount);
    var t4 := ProcessDriveModel(ProcessPowerCycleCount(t2, r, row.powerCycleCount), r, row.model);
    DriveSizeFrame(t4, r, row.size, h);
  }

  /** The model-family table of any key after a row's fields are processed. */
  lemma FieldsModelsAt(t: Tables, r: string, row: Record, k: string)
    requires Counted(t, r) && k in t.modeldict
    requires ProcessFields(t, r, row).Success?
    ensures ProcessFields(t, r, row).value.modeldict[k] == ModelsApplied(t.modeldict[k], r, k, ModelFamily(row.model))
  {
    FieldsUnfold(t, r, row);
    var raw := row.powerOnHours;
    var t1 := if raw == "" then t.(zeroPoh := t.zeroPoh + 1) else t;
    var h := HoursOf(t, r, raw).value;
    RecordHoursFrame(t1, r, h);
    var t2 := RecordHours(t1, r, h).value;
    PowerCycleFrame(t2, r, row.powerCycleCount);
    var t3 := ProcessPowerCycleCount(t2, r, row.powerCycleCount);
    CountFamilyAt(t3.modeldict, r, ModelFamily(row.model), k);
    DriveSizeFrame(ProcessDriveModel(t3, r, row.model), r, row.size, h);
  }

  /** The size table of any key after a row's fields are processed. */
  lemma FieldsSizesAt(t: Tables, r: string, row: Record, k: string)
    requires Counted(t, r) && k in t.sizedict
    requires ProcessFields(t, r, row).Success?
    ensures HoursOf(t, r, row.powerOnHours).Some?
    ensures ProcessFields(t, r, row).value.sizedict[k]
              == SizesApplied(t.sizedict[k], r, k, SizeKey(row.size), HoursOf(t, r, row.powerOnHours).value)
  {
    FieldsUnfold(t, r, row);
    var raw := row.powerOnHours;
    var t1 := if raw == "" then t.(zeroPoh := t.zeroPoh + 1) else t;
    var h := HoursOf(t, r, raw).value;
    RecordHoursFrame(t1, r, h);
    var t2 := RecordHours(t1, r, h).value;
    PowerCycleFrame(t2, r, row.powerCycleCount);
    var t4 := ProcessDriveModel(ProcessPowerCycleCount(t2, r, row.powerCycleCount), r, row.model);
    DriveSizeAt(t4, r, row.size, h, k);
  }

  /** zero_poh counts an empty Power_On_Hours field and zero_pcc an empty
      Power_Cycle_Count field; the comment counter does not move. */
  lemma FieldsCounters(t: Tables, r: string, row: Record)
    requires Counted(t, r)
    requires ProcessFields(t, r, row).Success?
    ensures var u := ProcessFields(t, r, row).value;
            && u.zeroPoh == t.zeroPoh + (if row.powerOnHours == "" then 1 else 0)
            && u.zeroPcc == t.zeroPcc + (if row.powerCycleCount == "" then 1 else 0)
            && u.commentLines == t.commentLines
  {
    FieldsUnfold(t, r, row);
    var raw := row.powerOnHours;
    var t1 := if raw == "" then t.(zeroPoh := t.zeroPoh + 1) else t;
    var h := HoursOf(t, r, raw).value;
    RecordHoursFrame(t1, r, h);
    var t2 := RecordHours(t1, r, h).value;
    PowerCycleFrame(t2, r, row.powerCycleCount);
    PowerCycleCounter(t2, r, row.powerCycleCount);
    var t4 := ProcessDriveModel(ProcessPowerCycleCount(t2, r, row.powerCycleCount), r, row.model);
    DriveSizeFrame(t4, r, row.size, h);
  }

  /** A row whose Power_On_Hours text `int()` rejects stops with ValueError. */
  lemma FieldsRejectHours(t: Tables, r: string, row: Record)
    requires Counted(t, r)
    requires HoursOf(t, r, row.powerOnHours).None?
    ensures ProcessFields(t, r, row)
              == Failure(InvalidPowerOnHours(HoursText(row.powerOnHours, t.drivedata[r].avgPowerOnHours)))
  {
    PowerOnHoursRejects(t, r, row.powerOnHours);
  }

  /** Otherwise the row fails exactly when its age bucket is missing from
      the region's or Global's histogram, with KeyError on that age; the
      later processors never fail. */
  lemma FieldsRejectAge(t: Tables, r: string, row: Record)
    requires Counted(t, r)
    requires HoursOf(t, r, row.powerOnHours).Some?
    ensures var age := HoursOf(t, r, row.powerOnHours).value / HoursPerYear;
            && (ProcessFields(t, r, row).Failure? <==> age !in t.driveage[r] || age !in t.driveage[Global])
            && (ProcessFields(t, r, row).Failure? ==> ProcessFields(t, r, row).fault == AgeOutOfRange(age))
  {
    PowerOnHoursRecords(t, r, row.powerOnHours);
    var t1 := if row.powerOnHours == "" then t.(zeroPoh := t.zeroPoh + 1) else t;
    var h := HoursOf(t, r, row.powerOnHours).value;
    RecordHoursFails(t1, r, h);
    if RecordHours(t1, r, h).Failure? {
      RecordHoursFault(t1, r, h);
    }
  }
}
