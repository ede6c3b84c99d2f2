/** The aggregation engine as the source runs it: module-level tables and
    counters updated in place, and a CSV row whose fields the processors
    rewrite. Each method is proved to leave the store as the function of
    the same name in module DriveData computes it. */
module Engine {
  import opened Text
  import opened DriveData
  import opened DriveInvariants
  import opened DriveRuns

  /** One row of csv.DictReader: the processors rewrite its Power_On_Hours,
      Power_Cycle_Count and Model fields in place. */
  class Row {
    var hostname: string
    var model: string
    var serial: string
    var size: string
    var powerOnHours: string
    var powerCycleCount: string

    function Fields(): Record
      reads this
    {
      Record(hostname, model, serial, size, powerOnHours, powerCycleCount)
    }

    constructor (r: Record)
      ensures Fields() == r
    {
      hostname, model, serial := r.hostname, r.model, r.serial;
      size, powerOnHours, powerCycleCount := r.size, r.powerOnHours, r.powerCycleCount;
    }
  }

  /** The module-level state: the four tables and the three counters. */
  class Store {
    var drivedata: map<string, DriveStats>
    var driveage: map<string, map<nat, nat>>
    var modeldict: map<string, map<string, nat>>
    var sizedict: map<string, map<string, SizeStats>>
    var zeroPoh: nat
    var zeroPcc: nat
    var commentLines: nat

    function Snapshot(): Tables
      reads this
    {
      Tables(drivedata, driveage, modeldict, sizedict, zeroPoh, zeroPcc, commentLines)
    }

    /** The module initialisation: the counters at zero and only Global's
        entries in the tables. */
    constructor ()
      ensures Snapshot() == Init()
    {
      drivedata := map[Global := DriveStats(0, 0, NoAverage, 0, NoAverage, 0, 0)];
      driveage := map[Global := FreshHistogram()];
      modeldict := map[Global := map[]];
      sizedict := map[Global := map[]];
      zeroPoh, zeroPcc, commentLines := 0, 0, 0;
    }

    method AddKeys(region: string)
      requires WellFormed(Snapshot())
      modifies this
      ensures Snapshot() == DriveData.AddKeys(old(Snapshot()), region)
    {
      if region !in drivedata {
        drivedata := drivedata[region := DriveStats(0, 0, NoAverage, 0, NoAverage, 0, 0)];
        driveage := driveage[region := FreshHistogram()];
        modeldict := modeldict[region := map[]];
        sizedict := sizedict[region := map[]];
      }
    }

    /** Counts the row's drive in its region, then in Global. */
    method CountDrive(region: string)
      requires Present(Snapshot(), region) && Present(Snapshot(), Global)
      modifies this
      ensures Snapshot() == DriveData.CountDrive(old(Snapshot()), region)
    {
      var d := drivedata;
      d := d[region := d[region].(count := d[region].count + 1)];
      d := d[Global := d[Global].(count := d[Global].count + 1)];
      drivedata := d;
    }

    /** Repairs the row's Power_On_Hours field, then records its value;
        returns the exception the source would raise instead. */
    method ProcessPowerOnHours(row: Row, region: string) returns (fault: Option<Fault>)
      requires Counted(Snapshot(), region)
      modifies this, row
      ensures row.Fields() == old(row.Fields()).(powerOnHours := row.powerOnHours)
      ensures row.powerOnHours == HoursText(old(row.powerOnHours), old(drivedata[region].avgPowerOnHours))
      ensures DriveData.ProcessPowerOnHours(old(Snapshot()), region, old(row.powerOnHours))
                == if fault.None? then Success(Snapshot()) else Failure(fault.value)
    {
      ghost var t := Snapshot();
      ghost var raw := row.powerOnHours;
      if row.powerOnHours == "" {
        row.powerOnHours := DigitText(Whole(drivedata[region].avgPowerOnHours));
        zeroPoh := zeroPoh + 1;
      }
      if '.' in row.powerOnHours {
        row.powerOnHours := PrefixBefore(row.powerOnHours, '.');
      } else {
        PrefixBeforeIsPrefix(row.powerOnHours, '.');
      }
      assert Snapshot() == if raw == "" then t.(zeroPoh := t.zeroPoh + 1) else t;
      match ParseNat(row.powerOnHours) {
        case None =>
          return Some(InvalidPowerOnHours(row.powerOnHours));
        case Some(hours) =>
          fault := RecordHours(region, hours);
      }
    }

    /** Adds `hours` to both sums, refreshes both averages and tallies both
        age buckets; a bucket the histogram lacks raises KeyError. */
    method RecordHours(region: string, hours: nat) returns (fault: Option<Fault>)
      requires Counted(Snapshot(), region)
      modifies this
      ensures DriveData.RecordHours(old(Snapshot()), region, hours)
                == if fault.None? then Success(Snapshot()) else Failure(fault.value)
    {
      var d := drivedata;
      d := d[region := d[region].(powerOnHours := d[region].powerOnHours + hours)];
      d := d[Global := d[Global].(powerOnHours := d[Global].powerOnHours + hours)];
      d := d[region := d[region].(avgPowerOnHours := Quotient(d[region].powerOnHours, d[region].count))];
      d := d[Global := d[Global].(avgPowerOnHours := Quotient(d[Global].powerOnHours, d[Global].count))];
      drivedata := d;
      var age: nat := hours / HoursPerYear;
      var tallies := driveage;
      if age !in tallies[region] {
        return Some(AgeOutOfRange(age));
      }
      var ages: map<nat, nat> := tallies[region];
      tallies := tallies[region := ages[age := ages[age] + 1]];
      if age !in tallies[Global] {
        return Some(AgeOutOfRange(age));
      }
      ages := tallies[Global];
      tallies := tallies[Global := ages[age := ages[age] + 1]];
      driveage := tallies;
      return None;
    }

    /** Repairs the row's Power_Cycle_Count field, adds its value to both
        sums unless `int()` rejects it, and refreshes both averages. */
    method ProcessPowerCycleCount(row: Row, region: string)
      requires Counted(Snapshot(), region)
      modifies this, row
      ensures row.Fields() == old(row.Fields()).(powerCycleCount := CyclesText(old(row.powerCycleCount)))
      ensures Snapshot() == DriveData.ProcessPowerCycleCount(old(Snapshot()), region, old(row.powerCycleCount))
    {
      if row.powerCycleCount == "" {
        row.powerCycleCount := "1";
        zeroPcc := zeroPcc + 1;
      }
      var d := drivedata;
      match ParseNat(row.powerCycleCount) {
        case Some(cycles) =>
          d := d[region := d[region].(powerCycleCount := d[region].powerCycleCount + cycles)];
          d := d[Global := d[Global].(powerCycleCount := d[Global].powerCycleCount + cycles)];
          assert d == AddCycles(AddCycles(drivedata, region, cycles), Global, cycles);
        case None =>
      }
      d := d[region := d[region].(avgPowerCycleCount := Quotient(d[region].powerCycleCount, d[region].count))];
      d := d[Global := d[Global].(avgPowerCycleCount := Quotient(d[Global].powerCycleCount, d[Global].count))];
      drivedata := d;
    }

    /** Repairs the row's Model field and counts its family in both tables. */
    method ProcessDriveModel(row: Row, region: string)
      requires Present(Snapshot(), region) && Present(Snapshot(), Global)
      modifies this, row
      ensures row.Fields() == old(row.Fields()).(model := ModelText(old(row.model)))
      ensures Snapshot() == DriveData.ProcessDriveModel(old(Snapshot()), region, old(row.model))
    {
      if row.model == "" {
        row.model := "(NULL)";
      }
      var family := Trim(PrefixBefore(row.model, '-'));
      CountFamily(region, family);
    }

    /** A family new to a table is stored as 1, Global's table first; then
        both entries are incremented. */
    method CountFamily(region: string, family: string)
      requires Present(Snapshot(), region) && Present(Snapshot(), Global)
      modifies this
      ensures Snapshot() == old(Snapshot()).(modeldict := DriveData.CountFamily(old(modeldict), region, family))
    {
      var m := modeldict;
      if family !in m[Global] {
        m := m[Global := m[Global][family := 1]];
      }
      if family !in m[region] {
        m := m[region := m[region][family := 1]];
      }
      var families: map<string, nat> := m[Global];
      m := m[Global := families[family := families[family] + 1]];
      families := m[region];
      m := m[region := families[family := families[family] + 1]];
      modeldict := m;
    }

    /** Counts a zero size in both `drivedata` entries, or adds the drive
        and the row's repaired Power_On_Hours value to its size entries. */
    method ProcessDriveSize(row: Row, region: string)
      requires Present(Snapshot(), region) && Present(Snapshot(), Global)
      requires ParseNat(row.powerOnHours).Some?
      modifies this
      ensures Snapshot()
                == DriveData.ProcessDriveSize(old(Snapshot()), region, row.size, ParseNat(row.powerOnHours).value)
    {
      var size := Trim(PrefixBefore(row.size, '.'));
      if size == "" || size == "0" {
        var d := drivedata;
        d := d[region := d[region].(zeroSize := d[region].zeroSize + 1)];
        d := d[Global := d[Global].(zeroSize := d[Global].zeroSize + 1)];
        drivedata := d;
      } else {
        CountSize(region, size, ParseNat(row.powerOnHours).value);
      }
    }

    /** A size new to a table gets an empty entry, Global's table first; then
        the region's entry and Global's each gain the drive and its hours. */
    method CountSize(region: string, size: string, hours: nat)
      requires Present(Snapshot(), region) && Present(Snapshot(), Global)
      modifies this
      ensures Snapshot() == old(Snapshot()).(sizedict := DriveData.CountSize(old(sizedict), region, size, hours))
    {
      var z: map<string, map<string, SizeStats>> := sizedict;
      if size !in z[Global] {
        z := z[Global := z[Global][size := SizeStats(0, 0, NoAverage)]];
      }
      if size !in z[region] {
        z := z[region := z[region][size := SizeStats(0, 0, NoAverage)]];
      }
      sizedict := z;
      AddToSize(region, size, hours);
      AddToSize(Global, size, hours);
    }

    /** One size entry gains a drive and its hours, and its average is
        refreshed. */
    method AddToSize(x: string, size: string, hours: nat)
      requires x in sizedict && size in sizedict[x]
      modifies this
      ensures Snapshot() == old(Snapshot()).(sizedict := DriveData.AddToSize(old(sizedict), x, size, hours))
    {
      var e: SizeStats := sizedict[x][size];
      e := e.(count := e.count + 1, powerOnHours := e.powerOnHours + hours);
      e := e.(avgPowerOnHours := Quotient(e.powerOnHours, e.count));
      sizedict := sizedict[x := sizedict[x][size := e]];
    }

    /** The body of process_data's loop: a comment row is counted; a drive
        row has its region's keys added and its drive counted in the region
        and in Global before its fields are processed. */
    method ProcessRow(row: Row) returns (fault: Option<Fault>)
      requires WellFormed(Snapshot())
      modifies this, row
      ensures Step(old(Snapshot()), old(row.Fields()))
                == if fault.None? then Success(Snapshot()) else Failure(fault.value)
    {
      if |row.hostname| > 0 && row.hostname[0] == '#' {
        commentLines := commentLines + 1;
        return None;
      }
      var region: string;
      match RegionName(row.hostname) {
        case None =>
          return Some(MalformedHostname(row.hostname));
        case Some(r) =>
          region := r;
      }
      ghost var t0, fields := Snapshot(), row.Fields();
      StepUnfold(t0, fields, region);
      AddKeys(region);
      CountDrive(region);
      fault := ProcessFields(row, region);
    }

    /** The four field processors, in order; the size processor reads the
        Power_On_Hours field as the first one left it. */
    method ProcessFields(row: Row, region: string) returns (fault: Option<Fault>)
      requires Counted(Snapshot(), region)
      modifies this, row
      ensures DriveData.ProcessFields(old(Snapshot()), region, old(row.Fields()))
                == if fault.None? then Success(Snapshot()) else Failure(fault.value)
    {
      fault := ProcessPowerOnHours(row, region);
      if fault.Some? {
        return;
      }
      ProcessPowerCycleCount(row, region);
      ProcessDriveModel(row, region);
      ProcessDriveSize(row, region);
    }

    /** process_data over the rows of a file, in order: stops at the first
        row that raises, with that row's exception. */
    method ProcessData(rows: seq<Record>) returns (fault: Option<Fault>)
      requires WellFormed(Snapshot())
      modifies this
      ensures Run(old(Snapshot()), rows) == if fault.None? then Success(Snapshot()) else Failure(fault.value)
    {
      ghost var t0 := Snapshot();
      var i := 0;
      while i < |rows|
        invariant 0 <= i <= |rows|
        invariant WellFormed(Snapshot())
        invariant Run(t0, rows[..i]) == Success(Snapshot())
      {
        var row := new Row(rows[i]);
        assert rows[..i + 1][..i] == rows[..i];
        fault := ProcessRow(row);
        if fault.Some? {
          RunStopsAtFault(t0, rows, i + 1);
          return;
        }
        i := i + 1;
      }
      assert rows[..i] == rows;
      return None;
    }
  }

  /** A run of the program over the rows of one file: the module state as
      initialised, then process_data. When no row raises, every key is
      balanced and the counters count the rows of their kind. */
  method Aggregate(rows: seq<Record>) returns (store: Store, fault: Option<Fault>)
    ensures fresh(store)
    ensures Run(Init(), rows) == if fault.None? then Success(store.Snapshot()) else Failure(fault.value)
    ensures fault.None? ==>
              && AllBalanced(store.Snapshot())
              && store.commentLines == CountRows(rows, IsComment)
              && store.zeroPoh == CountRows(rows, EmptyHoursRow)
              && store.zeroPcc == CountRows(rows, EmptyCyclesRow)
  {
    store := new Store();
    fault := store.ProcessData(rows);
    if fault.None? {
      RunFromInitBalanced(rows);
      RunFromInitCounters(rows);
    }
  }
}
