/** The aggregation engine of drivedata.py as functions on a value of its
    four tables and three counters: region resolution, lazy key creation,
    the four field processors and the per-row step, each written as the
    sequence of single-entry updates the source performs, in the source's
    order. The imperative store in module Engine is proved to follow these
    functions. */
module DriveData {
  import opened Text

  /** The reserved key of the cross-region tables. */
  const Global: string := "global"

  /** hrs_per_year, 24 * 365. */
  const HoursPerYear: nat := 8760

  /** The age histograms are seeded with the year buckets 0 to MaxAge. */
  const MaxAge: nat := 12

  /** A quotient `numerator / denominator` of two counters. */
  datatype Fraction = Fraction(numerator: nat, denominator: nat)

  /** An average field. The source stores the float `sum / count` (the
      integer 0 before the first drive); the model keeps the exact fraction
      it is computed from, whose value is `Value` and whose text, up to the
      decimal point, is the digits of `Whole`. */
  type Average = f: Fraction | f.denominator > 0 witness Fraction(0, 1)

  /** The initial average 0. */
  const NoAverage: Average := Fraction(0, 1)

  function Value(a: Average): real
  {
    (a.numerator as real) / (a.denominator as real)
  }

  /** The integer part of an average. */
  function Whole(a: Average): nat
  {
    IntegerQuotient(a.numerator, a.denominator)
  }

  /** How many whole times `d` fits into `n`, by repeated subtraction. */
  function IntegerQuotient(n: nat, d: nat): nat
    requires d > 0
    decreases n
  {
    if n < d then 0 else 1 + IntegerQuotient(n - d, d)
  }

  /** One `drivedata` entry. */
  datatype DriveStats = DriveStats(
    count: nat,
    powerOnHours: nat,
    avgPowerOnHours: Average,
    powerCycleCount: nat,
    avgPowerCycleCount: Average,
    ignoredRecords: nat,
    zeroSize: nat)

  /** One `sizedict` entry. */
  datatype SizeStats = SizeStats(count: nat, powerOnHours: nat, avgPowerOnHours: Average)

  /** The module-level tables, each keyed by region and by Global, and the
      module-level counters of rows with a missing field and of comment rows. */
  datatype Tables = Tables(
    drivedata: map<string, DriveStats>,
    driveage: map<string, map<nat, nat>>,
    modeldict: map<string, map<string, nat>>,
    sizedict: map<string, map<string, SizeStats>>,
    zeroPoh: nat,
    zeroPcc: nat,
    commentLines: nat)

  /** One CSV row: the fields the engine reads. */
  datatype Record = Record(
    hostname: string,
    model: string,
    serial: string,
    size: string,
    powerOnHours: string,
    powerCycleCount: string)

  /** The uncaught exceptions a row can raise: IndexError on a hostname with
      no region segment, ValueError on a Power_On_Hours value `int()` rejects,
      KeyError on an age bucket the histogram was not seeded with. */
  datatype Fault =
    | MalformedHostname(hostname: string)
    | InvalidPowerOnHours(text: string)
    | AgeOutOfRange(age: nat)

  datatype Result<T> = Success(value: T) | Failure(fault: Fault)

  /** `sum / count` as the source stores it, for a positive count. */
  function Quotient(sum: nat, count: nat): Average
    requires count > 0
  {
    Fraction(sum, count)
  }

  /** The value an average field holds when it is up to date: the quotient,
      or the initial 0 before the first drive. */
  function Mean(sum: nat, count: nat): Average
  {
    if count == 0 then NoAverage else Quotient(sum, count)
  }

  function ZeroStats(): DriveStats
  {
    DriveStats(0, 0, NoAverage, 0, NoAverage, 0, 0)
  }

  function ZeroSizeStats(): SizeStats
  {
    SizeStats(0, 0, NoAverage)
  }

  /** The pre-seeded histogram: buckets 0 to MaxAge, all zero. */
  function FreshHistogram(): map<nat, nat>
  {
    map[0 := 0, 1 := 0, 2 := 0, 3 := 0, 4 := 0, 5 := 0, 6 := 0,
        7 := 0, 8 := 0, 9 := 0, 10 := 0, 11 := 0, 12 := 0]
  }

  /** The tables as the module initialises them: only Global is present. */
  function Init(): Tables
  {
    Tables(map[Global := ZeroStats()], map[Global := FreshHistogram()],
           map[Global := map[]], map[Global := map[]], 0, 0, 0)
  }

  /** The four tables always have the same keys, Global among them. */
  predicate WellFormed(t: Tables)
  {
    && Global in t.drivedata
    && t.driveage.Keys == t.drivedata.Keys
    && t.modeldict.Keys == t.drivedata.Keys
    && t.sizedict.Keys == t.drivedata.Keys
  }

  // ---------------------------------------------------------------------------
  // Region resolver and field repair rules

  /** `hostname.split(".")[1]`, or None where that index does not exist. */
  function RegionName(hostname: string): Option<string>
  {
    var host := PrefixBefore(hostname, '.');
    if |host| == |hostname| then None
    else Some(PrefixBefore(hostname[|host| + 1..], '.'))
  }

  /** A row whose Hostname starts with `#`. */
  predicate IsComment(row: Record)
  {
    |row.hostname| > 0 && row.hostname[0] == '#'
  }

  /** The Power_On_Hours field after repair: an empty field becomes the text
      of the region's current average, and everything from the first `.` on
      is cut off. */
  function HoursText(raw: string, average: Average): string
  {
    PrefixBefore(if raw == "" then DigitText(Whole(average)) else raw, '.')
  }

  /** The Power_Cycle_Count field after repair. */
  function CyclesText(raw: string): string
  {
    if raw == "" then "1" else raw
  }

  /** The Model field after repair. */
  function ModelText(raw: string): string
  {
    if raw == "" then "(NULL)" else raw
  }

  /** The model family: the repaired model up to its first `-`, stripped. */
  function ModelFamily(raw: string): string
  {
    Trim(PrefixBefore(ModelText(raw), '-'))
  }

  /** The size key: the Size field up to its first `.`, stripped. */
  function SizeKey(raw: string): string
  {
    Trim(PrefixBefore(raw, '.'))
  }

  predicate IsZeroSize(key: string)
  {
    key == "" || key == "0"
  }

  // ---------------------------------------------------------------------------
  // Single-entry updates: each is one statement of the source applied to the
  // entry of key `x` of one table. None of them adds or removes a key.

  function BumpCount(d: map<string, DriveStats>, x: string): map<string, DriveStats>
    requires x in d
  {
    d[x := d[x].(count := d[x].count + 1)]
  }

  function AddHours(d: map<string, DriveStats>, x: string, hours: nat): map<string, DriveStats>
    requires x in d
  {
    d[x := d[x].(powerOnHours := d[x].powerOnHours + hours)]
  }

  function RefreshHoursAverage(d: map<string, DriveStats>, x: string): map<string, DriveStats>
    requires x in d && d[x].count > 0
  {
    d[x := d[x].(avgPowerOnHours := Quotient(d[x].powerOnHours, d[x].count))]
  }

  function AddCycles(d: map<string, DriveStats>, x: string, cycles: nat): map<string, DriveStats>
    requires x in d
  {
    d[x := d[x].(powerCycleCount := d[x].powerCycleCount + cycles)]
  }

  function RefreshCyclesAverage(d: map<string, DriveStats>, x: string): map<string, DriveStats>
    requires x in d && d[x].count > 0
  {
    d[x := d[x].(avgPowerCycleCount := Quotient(d[x].powerCycleCount, d[x].count))]
  }

  function BumpZeroSize(d: map<string, DriveStats>, x: string): map<string, DriveStats>
    requires x in d
  {
    d[x := d[x].(zeroSize := d[x].zeroSize + 1)]
  }

  function BumpAge(ages: map<string, map<nat, nat>>, x: string, age: nat): map<string, map<nat, nat>>
    requires x in ages && age in ages[x]
  {
    var h: map<nat, nat> := ages[x];
    var n: nat := h[age] + 1;
    ages[x := h[age := n]]
  }

  function EnsureFamily(models: map<string, map<string, nat>>, x: string, family: string)
    : map<string, map<string, nat>>
    requires x in models
  {
    if family in models[x] then models else models[x := models[x][family := 1]]
  }

  function BumpFamily(models: map<string, map<string, nat>>, x: string, family: string)
    : map<string, map<string, nat>>
    requires x in models && family in models[x]
  {
    var m: map<string, nat> := models[x];
    var n: nat := m[family] + 1;
    models[x := m[family := n]]
  }

  function EnsureSize(sizes: map<string, map<string, SizeStats>>, x: string, key: string)
    : map<string, map<string, SizeStats>>
    requires x in sizes
  {
    if key in sizes[x] then sizes else sizes[x := sizes[x][key := ZeroSizeStats()]]
  }

  function AddToSize(sizes: map<string, map<string, SizeStats>>, x: string, key: string, hours: nat)
    : map<string, map<string, SizeStats>>
    requires x in sizes && key in sizes[x]
  {
    var e := sizes[x][key];
    var counted := e.(count := e.count + 1, powerOnHours := e.powerOnHours + hours);
    var entry := counted.(avgPowerOnHours := Quotient(counted.powerOnHours, counted.count));
    sizes[x := sizes[x][key := entry]]
  }

  // ---------------------------------------------------------------------------
  // The source's functions

  /** add_keys: zeroed entries for a region not seen before, in all four
      tables; an existing region is left as it is. */
  function AddKeys(t: Tables, region: string): (r: Tables)
    requires WellFormed(t)
    ensures WellFormed(r) && r.drivedata.Keys == t.drivedata.Keys + {region}
    ensures forall k | k in t.drivedata ::
              && r.drivedata[k] == t.drivedata[k] && r.driveage[k] == t.driveage[k]
              && r.modeldict[k] == t.modeldict[k] && r.sizedict[k] == t.sizedict[k]
    ensures region !in t.drivedata ==>
              && r.drivedata[region] == ZeroStats() && r.driveage[region] == FreshHistogram()
              && r.modeldict[region] == map[] && r.sizedict[region] == map[]
    ensures r.zeroPoh == t.zeroPoh && r.zeroPcc == t.zeroPcc && r.commentLines == t.commentLines
  {
    if region in t.drivedata then t
    else
      t.(drivedata := t.drivedata[region := ZeroStats()],
         driveage := t.driveage[region := FreshHistogram()],
         modeldict := t.modeldict[region := map[]],
         sizedict := t.sizedict[region := map[]])
  }

  /** Key `x` has an entry in all four tables. */
  predicate Present(t: Tables, x: string)
  {
    x in t.drivedata && x in t.driveage && x in t.modeldict && x in t.sizedict
  }

  /** What the field processors need: the region's and Global's entries
      exist, and the two numeric processors divide by their counts. */
  predicate Counted(t: Tables, region: string)
  {
    && Present(t, region) && Present(t, Global)
    && t.drivedata[region].count > 0 && t.drivedata[Global].count > 0
  }

  /** The two count increments of the row branch of process_data. */
  function CountDrive(t: Tables, region: string): (r: Tables)
    requires Present(t, region) && Present(t, Global)
    ensures SameKeys(t, r) && Counted(r, region)
  {
    t.(drivedata := BumpCount(BumpCount(t.drivedata, region), Global))
  }

  predicate SameKeys(t: Tables, u: Tables)
  {
    && u.drivedata.Keys == t.drivedata.Keys && u.driveage.Keys == t.driveage.Keys
    && u.modeldict.Keys == t.modeldict.Keys && u.sizedict.Keys == t.sizedict.Keys
  }

  /** process_power_on_hours: repair the field, then record its value. */
  function ProcessPowerOnHours(t: Tables, region: string, raw: string): (r: Result<Tables>)
    requires Counted(t, region)
    ensures r.Success? ==> SameKeys(t, r.value) && Counted(r.value, region)
    ensures r.Success? ==> ParseNat(HoursText(raw, t.drivedata[region].avgPowerOnHours)).Some?
  {
    var t1 := if raw == "" then t.(zeroPoh := t.zeroPoh + 1) else t;
    var text := HoursText(raw, t.drivedata[region].avgPowerOnHours);
    match ParseNat(text)
    case None => Failure(InvalidPowerOnHours(text))
    case Some(hours) => RecordHours(t1, region, hours)
  }

  /** The second half of process_power_on_hours, once the value is known:
      both sums, both averages, then both age buckets. */
  function RecordHours(t: Tables, region: string, hours: nat): (r: Result<Tables>)
    requires Counted(t, region)
    ensures r.Success? ==> SameKeys(t, r.value) && Counted(r.value, region)
  {
    var d := AddHours(AddHours(t.drivedata, region, hours), Global, hours);
    var d' := RefreshHoursAverage(RefreshHoursAverage(d, region), Global);
    var age := hours / HoursPerYear;
    if age !in t.driveage[region] then Failure(AgeOutOfRange(age))
    else
      var ages := BumpAge(t.driveage, region, age);
      if age !in ages[Global] then Failure(AgeOutOfRange(age))
      else Success(t.(drivedata := d', driveage := BumpAge(ages, Global, age)))
  }

  /** process_power_cycle_count: a value `int()` rejects leaves both sums as
      they are and the row goes on. */
  function ProcessPowerCycleCount(t: Tables, region: string, raw: string): (r: Tables)
    requires Counted(t, region)
    ensures SameKeys(t, r) && Counted(r, region)
  {
    var d := match ParseNat(CyclesText(raw))
             case Some(cycles) => AddCycles(AddCycles(t.drivedata, region, cycles), Global, cycles)
             case None => t.drivedata;
    t.(drivedata := RefreshCyclesAverage(RefreshCyclesAverage(d, region), Global),
       zeroPcc := if raw == "" then t.zeroPcc + 1 else t.zeroPcc)
  }

  /** process_drive_model: a family seen for the first time in a table is
      stored as 1, and then both tables are incremented. */
  function ProcessDriveModel(t: Tables, region: string, raw: string): (r: Tables)
    requires Present(t, region) && Present(t, Global)
    ensures SameKeys(t, r) && Present(r, region) && Present(r, Global)
  {
    t.(modeldict := CountFamily(t.modeldict, region, ModelFamily(raw)))
  }

  /** The counting half of process_drive_model, for a known family. */
  function CountFamily(models: map<string, map<string, nat>>, region: string, family: string)
    : (r: map<string, map<string, nat>>)
    requires region in models && Global in models
    ensures r.Keys == models.Keys
  {
    var m := EnsureFamily(EnsureFamily(models, Global, family), region, family);
    BumpFamily(BumpFamily(m, Global, family), region, family)
  }

  /** process_drive_size, given the repaired Power_On_Hours value of the row. */
  function ProcessDriveSize(t: Tables, region: string, raw: string, hours: nat): (r: Tables)
    requires Present(t, region) && Present(t, Global)
    ensures SameKeys(t, r)
  {
    var key := SizeKey(raw);
    if IsZeroSize(key) then t.(drivedata := BumpZeroSize(BumpZeroSize(t.drivedata, region), Global))
    else t.(sizedict := CountSize(t.sizedict, region, key, hours))
  }

  /** The counting half of process_drive_size, for a known non-zero size key. */
  function CountSize(sizes: map<string, map<string, SizeStats>>, region: string, key: string, hours: nat)
    : (r: map<string, map<string, SizeStats>>)
    requires region in sizes && Global in sizes
    ensures r.Keys == sizes.Keys
  {
    var z := EnsureSize(EnsureSize(sizes, Global, key), region, key);
    AddToSize(AddToSize(z, region, key, hours), Global, key, hours)
  }

  /** The body of process_data's loop for one row. */
  function Step(t: Tables, row: Record): (r: Result<Tables>)
    requires WellFormed(t)
    ensures r.Success? ==> WellFormed(r.value)
    ensures IsComment(row) ==> r == Success(t.(commentLines := t.commentLines + 1))
    ensures r.Success? && !IsComment(row) ==>
              && RegionName(row.hostname).Some?
              && r.value.drivedata.Keys == t.drivedata.Keys + {RegionName(row.hostname).value}
  {
    if IsComment(row) then Success(t.(commentLines := t.commentLines + 1))
    else
      match RegionName(row.hostname)
      case None => Failure(MalformedHostname(row.hostname))
      case Some(region) => ProcessFields(CountDrive(AddKeys(t, region), region), region, row)
  }

  /** The four field processors, in the order process_data calls them. The
      size processor reads the Power_On_Hours value as the first processor
      left it in the row. */
  function ProcessFields(t: Tables, region: string, row: Record): (r: Result<Tables>)
    requires Counted(t, region)
    ensures r.Success? ==> SameKeys(t, r.value)
  {
    match ProcessPowerOnHours(t, region, row.powerOnHours)
    case Failure(e) => Failure(e)
    case Success(t2) =>
      var hours := ParseNat(HoursText(row.powerOnHours, t.drivedata[region].avgPowerOnHours)).value;
      var t3 := ProcessPowerCycleCount(t2, region, row.powerCycleCount);
      var t4 := ProcessDriveModel(t3, region, row.model);
      Success(ProcessDriveSize(t4, region, row.size, hours))
  }

  /** process_data over a sequence of rows: each row in file order, stopping
      at the first uncaught exception. */
  function Run(t: Tables, rows: seq<Record>): (r: Result<Tables>)
    requires WellFormed(t)
    ensures r.Success? ==> WellFormed(r.value)
    decreases |rows|
  {
    if rows == [] then Success(t)
    else
      match Run(t, rows[..|rows| - 1])
      case Failure(e) => Failure(e)
      case Success(before) => Step(before, rows[|rows| - 1])
  }
}
