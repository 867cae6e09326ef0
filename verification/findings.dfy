/** The boiler-room test of the allocation engine, side by side with the
    summary view, on the record a new installation starts from. The engine
    as written never finds the boiler room, so a reading entered for it
    reaches the summary but not the totals; with the intended key both agree. */
module BoilerRoomFinding {

  import opened Seqs
  import opened Model
  import opened Calculation
  import opened YearTransition
  import Edits
  import Summary

  /** Sub-meter names of the wrong length never pass the intended test. */
  lemma OtherLengthIsNotTheBoilerRoom(name: string)
    requires |name| != |BOILER_ROOM_KEY_INTENDED|
    ensures !MatchesIntended(name)
  {
    assert |ToLower(name)| == |name|;
  }

  /** The default record with an end reading of `kwh` entered for the
      boiler-room sub-meter of entrance 23. */
  function DefaultsWithBoilerReading(year: int, stamp: string, kwh: real): (r: CalculationData)
    ensures |r.electricity.connections| == 2
    ensures |r.electricity.connections[0].subMeters| == 2 && |r.electricity.connections[1].subMeters| == 3
    ensures var sm := r.electricity.connections[1].subMeters[1];
      sm.name == KOTOLNA && sm.startKWh == 0.0 && sm.endKWh == kwh
    ensures r.electricity.connections[0].name == ENTRANCE_25 && r.electricity.connections[1].name == ENTRANCE_23
    ensures forall i, j :: 0 <= i < 2 && 0 <= j < |r.electricity.connections[i].subMeters| ==>
      r.electricity.connections[i].subMeters[j].name == CreateDefaultData(year, stamp).electricity.connections[i].subMeters[j].name
  {
    Edits.HandleElecSubMeterChange(CreateDefaultData(year, stamp), 1, 1, Edits.EndKWh, kwh)
  }

  /** The engine as written charges the boiler room nothing however much it
      consumed. */
  lemma AsWrittenEngineIgnoresBoilerRoom(year: int, stamp: string, kwh: real)
    requires kwh > 0.0
    ensures CalculateTotals(DefaultsWithBoilerReading(year, stamp, kwh)).electricityConsumptionKWh == 0.0
    ensures CalculateTotals(DefaultsWithBoilerReading(year, stamp, kwh)).electricityCost == 0.0
    ensures Summary.SharedRowsOf(DefaultsWithBoilerReading(year, stamp, kwh)).kotolnaKWh == kwh
  {
    SummarySeesBoilerReading(year, stamp, kwh);
  }

  /** With the intended key the engine finds the same sub-meter the summary
      reads and charges its consumption. */
  lemma IntendedEngineSeesBoilerRoom(year: int, stamp: string, kwh: real)
    requires kwh > 0.0
    ensures CalculateTotalsIntended(DefaultsWithBoilerReading(year, stamp, kwh)).electricityConsumptionKWh == kwh
    ensures Summary.SharedRowsOf(DefaultsWithBoilerReading(year, stamp, kwh)).kotolnaKWh == kwh
  {
    var d := DefaultsWithBoilerReading(year, stamp, kwh);
    var conns := d.electricity.connections;
    forall i, j | 0 <= i < |conns| && 0 <= j < |conns[i].subMeters| && (i, j) != (1, 1)
      ensures !MatchesIntended(conns[i].subMeters[j].name)
    {
      OtherLengthIsNotTheBoilerRoom(conns[i].subMeters[j].name);
    }
    IntendedKeyMatchesKotolna();
    assert IsFirstBoilerRoom(conns, MatchesIntended, 1, 1);
    SummarySeesBoilerReading(year, stamp, kwh);
  }

  /** The summary finds entrance 23's connection and its boiler-room
      sub-meter by name and reports the reading difference. */
  lemma SummarySeesBoilerReading(year: int, stamp: string, kwh: real)
    ensures Summary.SharedRowsOf(DefaultsWithBoilerReading(year, stamp, kwh)).kotolnaKWh == kwh
  {
    var d := DefaultsWithBoilerReading(year, stamp, kwh);
    var conns := d.electricity.connections;
    var conn := Summary.Conn23(d);
    assert conns[0].name != ENTRANCE_23;
    assert conn == Some(conns[1]);
    var subs := conns[1].subMeters;
    assert subs[0].name != KOTOLNA;
    assert Summary.FindSubMeter(subs, KOTOLNA) == Some(subs[1]);
  }
}
