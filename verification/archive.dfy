/** The year-keyed archive and the application-level handlers that update it:
    storing an edited record, switching years, adding the next year and
    toggling the lock. The browser's key-value persistence is not modelled; the
    archive is a plain map. */
module Archive {

  import opened Model
  import opened YearTransition

  /** Years the year switcher accepts lie strictly between these bounds. */
  const FIRST_YEAR_EXCLUSIVE: int := 1900
  const LAST_YEAR_EXCLUSIVE: int := 2100

  /** Every record is filed under its own year. */
  ghost predicate WellKeyed(archive: CalculationArchive)
  {
    forall y :: y in archive ==> archive[y].year == y
  }

  lemma {:induction false} LatestYearExists(years: set<int>)
    requires exists y :: y in years
    ensures exists m :: m in years && forall z :: z in years ==> z <= m
    decreases |years|
  {
    var y :| y in years;
    var rest := years - {y};
    assert forall z :: z in years ==> z == y || z in rest;
    if exists z :: z in rest {
      LatestYearExists(rest);
      var m :| m in rest && forall z :: z in rest ==> z <= m;
      if y > m {
        assert forall z :: z in years ==> z <= y;
      } else {
        assert m in years && forall z :: z in years ==> z <= m;
      }
    } else {
      assert forall z :: z in years ==> z <= y;
    }
  }

  /** The largest of a non-empty set of years (`Math.max(...years)`). */
  function LatestYear(years: set<int>): (r: int)
    requires exists y :: y in years
    ensures r in years
    ensures forall y :: y in years ==> y <= r
  {
    LatestYearExists(years);
    var m :| m in years && forall z :: z in years ==> z <= m;
    m
  }

  /** The year shown at start-up: the latest archived year, or the fallback
      (the year before the current calendar year) for an empty archive. */
  function InitialYear(archive: CalculationArchive, fallbackYear: int): (r: int)
    ensures (exists y :: y in archive) ==> r in archive && forall y :: y in archive ==> y <= r
    ensures (forall y :: y !in archive) ==> r == fallbackYear
  {
    if exists y :: y in archive then LatestYear(archive.Keys) else fallbackYear
  }

  /** The record being edited for `year`: the archived one, or a fresh default. */
  function CurrentData(archive: CalculationArchive, year: int, stamp: string): (r: CalculationData)
    ensures year in archive ==> r == archive[year]
    ensures year !in archive ==> r == CreateDefaultData(year, stamp) && r.year == year
  {
    if year in archive then archive[year] else CreateDefaultData(year, stamp)
  }

  /** Storing an edited record: it is filed under its own year, replacing any
      record there, and every other year is left alone. */
  function HandleDataChange(archive: CalculationArchive, updated: CalculationData): (r: CalculationArchive)
    ensures r.Keys == archive.Keys + {updated.year}
    ensures updated.year in r && r[updated.year] == updated
    ensures forall y :: y in archive && y != updated.year ==> r[y] == archive[y]
  {
    archive[updated.year := updated]
  }

  /** Switching years: a year strictly between 1900 and 2100 is accepted, any
      other is ignored. */
  function HandleYearChange(currentYear: int, year: int): (r: int)
    ensures FIRST_YEAR_EXCLUSIVE < year < LAST_YEAR_EXCLUSIVE ==> r == year
    ensures !(FIRST_YEAR_EXCLUSIVE < year < LAST_YEAR_EXCLUSIVE) ==> r == currentYear
  {
    if FIRST_YEAR_EXCLUSIVE < year && year < LAST_YEAR_EXCLUSIVE then year else currentYear
  }

  datatype AddYearOutcome = AddYearOutcome(archive: CalculationArchive, currentYear: int)

  /** Adding the next year: the year after the latest archived one (or after
      the fallback year), seeded from the latest record when there is one.
      The target year is never already archived, so nothing is overwritten. */
  function HandleAddNewYear(archive: CalculationArchive, fallbackYear: int, stamp: string): (r: AddYearOutcome)
    ensures r.currentYear !in archive
    ensures (exists y :: y in archive) ==> forall y :: y in archive ==> y < r.currentYear
    ensures (exists y :: y in archive) ==> r.currentYear - 1 in archive
    ensures (forall y :: y !in archive) ==> r.currentYear == fallbackYear + 1
    ensures r.archive.Keys == archive.Keys + {r.currentYear}
    ensures forall y :: y in archive ==> r.archive[y] == archive[y]
    ensures (exists y :: y in archive) ==>
      r.archive[r.currentYear] == CreateDataFromPreviousYear(archive[r.currentYear - 1], stamp)
    ensures (forall y :: y !in archive) ==> r.archive[r.currentYear] == CreateDefaultData(r.currentYear, stamp)
  {
    var latestYear := InitialYear(archive, fallbackYear);
    var newYear := latestYear + 1;
    var newData :=
      if latestYear in archive then CreateDataFromPreviousYear(archive[latestYear], stamp)
      else CreateDefaultData(newYear, stamp);
    var updated := if newYear !in archive then archive[newYear := newData] else archive;
    AddYearOutcome(updated, newYear)
  }

  datatype Update = Update(data: CalculationData, archive: CalculationArchive)

  /** Toggling the lock flips `isLocked` of the record being edited, changes
      nothing else in it, and stores it. */
  function HandleToggleLock(archive: CalculationArchive, current: CalculationData): (r: Update)
    ensures r.data.isLocked == !current.isLocked
    ensures r.data.(isLocked := current.isLocked) == current
    ensures r.archive.Keys == archive.Keys + {current.year}
    ensures r.archive[current.year] == r.data
    ensures forall y :: y in archive && y != current.year ==> r.archive[y] == archive[y]
  {
    var toggled := current.(isLocked := !current.isLocked);
    Update(toggled, HandleDataChange(archive, toggled))
  }

  // ---------------------------------------------------------------------------
  // Properties relating the handlers

  /** An edit stored for the year on screen is what that year then shows. */
  lemma EditIsShown(archive: CalculationArchive, updated: CalculationData, stamp: string)
    ensures CurrentData(HandleDataChange(archive, updated), updated.year, stamp) == updated
  {
  }

  /** Toggling the lock twice restores both the record and its archive entry. */
  lemma ToggleLockTwiceRestores(archive: CalculationArchive, current: CalculationData)
    ensures var once := HandleToggleLock(archive, current);
            var twice := HandleToggleLock(once.archive, once.data);
            && twice.data == current
            && twice.archive == HandleDataChange(archive, current)
  {
  }

  /** Storing an edit keeps every record filed under its own year. */
  lemma DataChangeKeepsWellKeyed(archive: CalculationArchive, updated: CalculationData)
    requires WellKeyed(archive)
    ensures WellKeyed(HandleDataChange(archive, updated))
  {
  }

  /** Adding a year keeps every record filed under its own year: the new
      record's year is the key it is stored under. */
  lemma AddNewYearKeepsWellKeyed(archive: CalculationArchive, fallbackYear: int, stamp: string)
    requires WellKeyed(archive)
    ensures WellKeyed(HandleAddNewYear(archive, fallbackYear, stamp).archive)
    ensures var r := HandleAddNewYear(archive, fallbackYear, stamp);
            r.archive[r.currentYear].year == r.currentYear
  {
    var r := HandleAddNewYear(archive, fallbackYear, stamp);
    if exists y :: y in archive {
      assert archive[r.currentYear - 1].year == r.currentYear - 1;
    }
  }

  /** Adding a year twice in a row adds two consecutive years, the second
      seeded from the first. */
  lemma AddNewYearTwice(archive: CalculationArchive, fallbackYear: int, stamp: string, stamp': string)
    ensures var first := HandleAddNewYear(archive, fallbackYear, stamp);
            var second := HandleAddNewYear(first.archive, fallbackYear, stamp');
            && second.currentYear == first.currentYear + 1
            && second.archive[second.currentYear]
               == CreateDataFromPreviousYear(first.archive[first.currentYear], stamp')
  {
    var first := HandleAddNewYear(archive, fallbackYear, stamp);
    assert first.currentYear in first.archive;
    assert forall y :: y in first.archive ==> y <= first.currentYear;
  }
}
