/** The three uncaught exceptions a row can raise in process_data, each with
    the condition that raises it, and the hours a row records when it raises
    none. */
module DriveFaults {
  import opened Text
  import opened DriveData
  import opened DriveProperties
  import opened DriveInvariants
  import opened DriveRules

  /** A drive row whose hostname has no `.` raises IndexError. */
  lemma StepMalformed(t: Tables, row: Record)
    requires WellFormed(t)
    ensures (Step(t, row) == Failure(MalformedHostname(row.hostname)))
              <==> !IsComment(row) && |Split(row.hostname, '.')| < 2
  {
    RegionIsSecondSegment(row.hostname);
  }

  /** A Power_On_Hours value that `int()` rejects once repaired raises
      ValueError, carrying the repaired text. */
  lemma StepBadHours(t: Tables, row: Record, r: string)
    requires WellFormed(t) && !IsComment(row) && RegionName(row.hostname) == Some(r)
    requires RowHours(t, r, row).None?
    ensures Step(t, row)
              == Failure(InvalidPowerOnHours(HoursText(row.powerOnHours, BaseStats(t, r).avgPowerOnHours)))
  {
    StepUnfold(t, row, r);
    CountDriveAt(t, r, r);
    FieldsRejectHours(CountDrive(AddKeys(t, r), r), r, row);
  }

  /** Every histogram holds the buckets 0 to MaxAge, so the lookup of the
      age bucket raises KeyError exactly for drives older than MaxAge years. */
  lemma StepAgeFault(t: Tables, row: Record, r: string)
    requires AllBalanced(t) && !IsComment(row) && RegionName(row.hostname) == Some(r)
    requires RowHours(t, r, row).Some?
    ensures var age := RowHours(t, r, row).value / HoursPerYear;
            && (Step(t, row).Failure? <==> age > MaxAge)
            && (Step(t, row).Failure? ==> Step(t, row).fault == AgeOutOfRange(age))
  {
    var age := RowHours(t, r, row).value / HoursPerYear;
    StepUnfold(t, row, r);
    CountDriveAt(t, r, r);
    CountDriveAt(t, r, Global);
    FieldsRejectAge(CountDrive(AddKeys(t, r), r), r, row);
    FreshBuckets(age);
    if r in t.drivedata {
      assert KeyBalanced(t, r);
    }
    assert KeyBalanced(t, Global);
  }

  /** A row raises nothing when its hostname has a region, its
      Power_On_Hours value parses and the drive is at most MaxAge years old. */
  lemma StepSucceeds(t: Tables, row: Record)
    requires AllBalanced(t)
    ensures (Step(t, row).Success?)
              <==> || IsComment(row)
                   || (&& RegionName(row.hostname).Some?
                       && RowHours(t, RegionName(row.hostname).value, row).Some?
                       && RowHours(t, RegionName(row.hostname).value, row).value / HoursPerYear <= MaxAge)
  {
    if !IsComment(row) && RegionName(row.hostname).Some? {
      var r := RegionName(row.hostname).value;
      if RowHours(t, r, row).None? {
        StepBadHours(t, row, r);
      } else {
        StepAgeFault(t, row, r);
      }
    }
  }

  /** An empty Power_On_Hours field records the integer part of the region's
      average over the drives before this row (0 for a new region). */
  lemma EmptyHoursUseAverage(t: Tables, row: Record, r: string)
    requires AllBalanced(t) && !IsComment(row) && RegionName(row.hostname) == Some(r)
    requires row.powerOnHours == ""
    ensures var b := BaseStats(t, r);
            && RowHours(t, r, row) == Some(Whole(Mean(b.powerOnHours, b.count)))
            && (b.count > 0 ==> IsQuotient(Whole(Mean(b.powerOnHours, b.count)), b.powerOnHours, b.count))
  {
    var b := BaseStats(t, r);
    BaseStatsCurrent(t, r);
    EmptyHoursTakeAverage(b.avgPowerOnHours);
    if b.count > 0 {
      MeanFloor(b.powerOnHours, b.count);
    }
  }
}
