/** Building a year's record: the all-zero default (`createDefaultData`) and the
    rollover from the previous year (`createDataFromPreviousYear`). The clock
    reading the source turns into ids is the parameter `stamp`. */
module YearTransition {

  import opened Model
  import opened Calculation

  /** Monthly slots per list: twelve months and one more. */
  const MONTH_SLOTS: nat := 13

  const DEFAULT_GAS_KWH_PER_M3: real := 10.92

  const DEFAULT_TUV_DISTRIBUTION_PERCENT: real := 50.0

  /** A fresh electricity invoice list: slots numbered 1..13, all zero. */
  function ZeroMonthlyReadings(): (r: seq<MonthlyReading>)
    ensures |r| == MONTH_SLOTS
    ensures forall i :: 0 <= i < |r| ==> r[i].month == i + 1 && r[i].kWh == 0.0 && r[i].eur == 0.0
    ensures TotalKWh(r) == 0.0 && TotalEUR(r) == 0.0
  {
    seq(MONTH_SLOTS, i => MonthlyReading(i + 1, 0.0, 0.0))
  }

  /** A fresh water invoice list: slots numbered 1..13, all zero. */
  function ZeroWaterMonthlyReadings(): (r: seq<WaterMonthlyReading>)
    ensures |r| == MONTH_SLOTS
    ensures forall i :: 0 <= i < |r| ==> r[i].month == i + 1 && r[i].m3 == 0.0 && r[i].eur == 0.0
    ensures WaterTotalM3(r) == 0.0 && WaterTotalEUR(r) == 0.0
  {
    seq(MONTH_SLOTS, i => WaterMonthlyReading(i + 1, 0.0, 0.0))
  }

  /** The record of a year nobody has entered yet. */
  function CreateDefaultData(year: int, stamp: string): (r: CalculationData)
    ensures r.year == year && !r.isLocked
    ensures |r.gas.meters| == 1 && r.gas.meters[0].startM3 == 0.0 && r.gas.meters[0].endM3 == 0.0
    ensures r.gas.totalPriceEUR == 0.0
    ensures r.gasKwhPerM3 == DEFAULT_GAS_KWH_PER_M3
    ensures r.water.tuvDistributionPercent == DEFAULT_TUV_DISTRIBUTION_PERCENT
    ensures |r.electricity.connections| == 2
    ensures r.electricity.connections[0].name == ENTRANCE_25 && r.electricity.connections[1].name == ENTRANCE_23
    ensures forall c :: 0 <= c < |r.electricity.connections| ==> r.electricity.connections[c].monthlyReadings == ZeroMonthlyReadings()
    ensures r.water.monthlyReadings == ZeroWaterMonthlyReadings()
    ensures |r.electricity.connections[0].subMeters| == 2 && |r.electricity.connections[1].subMeters| == 3
    ensures r.electricity.connections[0].subMeters[0].name == LIFT_25
    ensures r.electricity.connections[0].subMeters[1].name == STOJISKO
    ensures r.electricity.connections[1].subMeters[0].name == LIFT_23
    ensures r.electricity.connections[1].subMeters[1].name == KOTOLNA
    ensures r.electricity.connections[1].subMeters[2].name == GARAZ
    ensures r.otherCosts == []
  {
    CalculationData(
      year := year,
      isLocked := false,
      gas := Gas([GasMeter(stamp, "", 0.0, 0.0)], 0.0),
      gasKwhPerM3 := DEFAULT_GAS_KWH_PER_M3,
      ukTuvMeterReadings := UkTuvMeterReadings(0.0, 0.0, 0.0, 0.0),
      electricity := Electricity(
        [ ElectricalConnection("conn1", ENTRANCE_25, "", ZeroMonthlyReadings(),
            [ ElectricitySubMeter("sm1", LIFT_25, 0.0, 0.0),
              ElectricitySubMeter("sm2", STOJISKO, 0.0, 0.0) ]),
          ElectricalConnection("conn2", ENTRANCE_23, "", ZeroMonthlyReadings(),
            [ ElectricitySubMeter("sm3", LIFT_23, 0.0, 0.0),
              ElectricitySubMeter("sm4", KOTOLNA, 0.0, 0.0),
              ElectricitySubMeter("sm5", GARAZ, 0.0, 0.0) ]) ],
        UserCounts(0, 0)),
      water := Water(
        meterNumber := "",
        monthlyReadings := ZeroWaterMonthlyReadings(),
        sewerageCost := 0.0,
        mainMeterStartM3 := 0.0,
        mainMeterEndM3 := 0.0,
        subMeters := [ WaterSubMeter("wsm1", KOTOLNA, 0.0, 0.0),
                       WaterSubMeter("wsm2", REFILL, 0.0, 0.0) ],
        measuredConsumptionSvM3 := 0.0,
        measuredConsumptionTuvM3 := 0.0,
        tuvDistributionPercent := DEFAULT_TUV_DISTRIBUTION_PERCENT),
      mandateContractMonthlyCost := 0.0,
      repairFundAnnualCost := 0.0,
      otherCosts := [])
  }

  // ---------------------------------------------------------------------------
  // Rollover, entity by entity: every meter restarts at its previous end
  // reading, with end equal to start until new readings are entered.

  function CarryGasMeters(meters: seq<GasMeter>, stamp: string): (r: seq<GasMeter>)
    ensures |r| == |meters|
    ensures forall i :: 0 <= i < |r| ==>
      && r[i].startM3 == meters[i].endM3 && r[i].endM3 == meters[i].endM3
      && r[i].meterNumber == meters[i].meterNumber
      && r[i].id == stamp + "-" + meters[i].meterNumber
  {
    seq(|meters|, i requires 0 <= i < |meters| =>
      GasMeter(stamp + "-" + meters[i].meterNumber, meters[i].meterNumber, meters[i].endM3, meters[i].endM3))
  }

  function CarrySubMeters(subs: seq<ElectricitySubMeter>, stamp: string): (r: seq<ElectricitySubMeter>)
    ensures |r| == |subs|
    ensures forall i :: 0 <= i < |r| ==>
      && r[i].startKWh == subs[i].endKWh && r[i].endKWh == subs[i].endKWh
      && r[i].name == subs[i].name
      && r[i].id == stamp + "-" + subs[i].name
  {
    seq(|subs|, i requires 0 <= i < |subs| =>
      subs[i].(id := stamp + "-" + subs[i].name, startKWh := subs[i].endKWh))
  }

  function CarryConnections(conns: seq<ElectricalConnection>, stamp: string): (r: seq<ElectricalConnection>)
    ensures |r| == |conns|
    ensures forall i :: 0 <= i < |r| ==>
      && r[i].name == conns[i].name
      && r[i].meterNumber == conns[i].meterNumber
      && r[i].id == stamp + "-" + conns[i].name
      && r[i].monthlyReadings == ZeroMonthlyReadings()
      && r[i].subMeters == CarrySubMeters(conns[i].subMeters, stamp)
  {
    seq(|conns|, i requires 0 <= i < |conns| =>
      conns[i].(id := stamp + "-" + conns[i].name,
                monthlyReadings := ZeroMonthlyReadings(),
                subMeters := CarrySubMeters(conns[i].subMeters, stamp)))
  }

  function CarryWaterSubMeters(subs: seq<WaterSubMeter>, stamp: string): (r: seq<WaterSubMeter>)
    ensures |r| == |subs|
    ensures forall i :: 0 <= i < |r| ==>
      && r[i].startM3 == subs[i].endM3 && r[i].endM3 == subs[i].endM3
      && r[i].name == subs[i].name
      && r[i].id == stamp + "-" + subs[i].name
  {
    seq(|subs|, i requires 0 <= i < |subs| =>
      subs[i].(id := stamp + "-" + subs[i].name, startM3 := subs[i].endM3))
  }

  function CarryOtherCosts(costs: seq<ServiceCost>, stamp: string): (r: seq<ServiceCost>)
    ensures |r| == |costs|
    ensures forall i :: 0 <= i < |r| ==>
      r[i].name == costs[i].name && r[i].cost == costs[i].cost && r[i].id == stamp + "-" + costs[i].name
  {
    seq(|costs|, i requires 0 <= i < |costs| =>
      ServiceCost(stamp + "-" + costs[i].name, costs[i].name, costs[i].cost))
  }

  /** The next year's record: year advanced and unlocked, readings carried
      forward, per-year flows reset, configuration kept. */
  function CreateDataFromPreviousYear(prev: CalculationData, stamp: string): (r: CalculationData)
    ensures r.year == prev.year + 1 && !r.isLocked
    // gas: one meter per previous meter, restarted at its end reading; invoice reset
    ensures r.gas.meters == CarryGasMeters(prev.gas.meters, stamp)
    ensures r.gas.totalPriceEUR == 0.0
    // heat meters restart at their end readings
    ensures r.ukTuvMeterReadings.ukStartGJ == prev.ukTuvMeterReadings.ukEndGJ
    ensures r.ukTuvMeterReadings.ukEndGJ == prev.ukTuvMeterReadings.ukEndGJ
    ensures r.ukTuvMeterReadings.tuvStartGJ == prev.ukTuvMeterReadings.tuvEndGJ
    ensures r.ukTuvMeterReadings.tuvEndGJ == prev.ukTuvMeterReadings.tuvEndGJ
    // electricity: connections and submeters carried, invoices reset
    ensures r.electricity.connections == CarryConnections(prev.electricity.connections, stamp)
    ensures r.electricity.userCounts == prev.electricity.userCounts
    // water: main meter and submeters carried, invoices and measured volumes reset
    ensures r.water.meterNumber == prev.water.meterNumber
    ensures r.water.monthlyReadings == ZeroWaterMonthlyReadings()
    ensures r.water.sewerageCost == 0.0
    ensures r.water.mainMeterStartM3 == prev.water.mainMeterEndM3 && r.water.mainMeterEndM3 == prev.water.mainMeterEndM3
    ensures r.water.subMeters == CarryWaterSubMeters(prev.water.subMeters, stamp)
    ensures r.water.measuredConsumptionSvM3 == 0.0 && r.water.measuredConsumptionTuvM3 == 0.0
    // configuration kept, and the other costs keep their amounts
    ensures r.gasKwhPerM3 == prev.gasKwhPerM3
    ensures r.water.tuvDistributionPercent == prev.water.tuvDistributionPercent
    ensures r.mandateContractMonthlyCost == prev.mandateContractMonthlyCost
    ensures r.repairFundAnnualCost == prev.repairFundAnnualCost
    ensures r.otherCosts == CarryOtherCosts(prev.otherCosts, stamp)
  {
    var heat := prev.ukTuvMeterReadings;
    CalculationData(
      year := prev.year + 1,
      isLocked := false,
      gas := Gas(CarryGasMeters(prev.gas.meters, stamp), 0.0),
      gasKwhPerM3 := prev.gasKwhPerM3,
      ukTuvMeterReadings := UkTuvMeterReadings(heat.ukEndGJ, heat.ukEndGJ, heat.tuvEndGJ, heat.tuvEndGJ),
      electricity := Electricity(CarryConnections(prev.electricity.connections, stamp), prev.electricity.userCounts),
      water := Water(
        meterNumber := prev.water.meterNumber,
        monthlyReadings := ZeroWaterMonthlyReadings(),
        sewerageCost := 0.0,
        mainMeterStartM3 := prev.water.mainMeterEndM3,
        mainMeterEndM3 := prev.water.mainMeterEndM3,
        subMeters := CarryWaterSubMeters(prev.water.subMeters, stamp),
        measuredConsumptionSvM3 := 0.0,
        measuredConsumptionTuvM3 := 0.0,
        tuvDistributionPercent := prev.water.tuvDistributionPercent),
      mandateContractMonthlyCost := prev.mandateContractMonthlyCost,
      repairFundAnnualCost := prev.repairFundAnnualCost,
      otherCosts := CarryOtherCosts(prev.otherCosts, stamp))
  }

  // ---------------------------------------------------------------------------
  // What the engine makes of a fresh record

  /** A record whose every submeter reads the same at both ends draws no
      boiler-room electricity, whatever the name test. */
  lemma FlatSubMetersDrawNothing(conns: seq<ElectricalConnection>, matches: string -> bool)
    requires forall c, s :: 0 <= c < |conns| && 0 <= s < |conns[c].subMeters| ==>
      conns[c].subMeters[s].startKWh == conns[c].subMeters[s].endKWh
    ensures BoilerRoomElectricity(conns, matches) == BoilerRoomShare(0.0, 0.0)
  {
    if AnyBoilerRoom(conns, matches) {
      FirstBoilerRoomExists(conns, matches);
      var c, s :| IsFirstBoilerRoom(conns, matches, c, s);
      assert conns[c].subMeters[s].startKWh == conns[c].subMeters[s].endKWh;
    }
  }

  /** A freshly rolled-over year has consumed and paid nothing yet: no gas, no
      gas invoice, no water, no boiler-room electricity, an even heat split;
      only the carried services cost remains. */
  lemma RolloverStartsEmpty(prev: CalculationData, stamp: string, matches: string -> bool)
    ensures var next := CreateDataFromPreviousYear(prev, stamp);
            var r := CalculateTotalsWith(next, matches);
            && r.gasConsumptionM3 == 0.0 && r.gasCost == 0.0
            && r.waterConsumptionM3 == 0.0 && r.waterCost == 0.0
            && r.electricityConsumptionKWh == 0.0 && r.electricityCost == 0.0
            && r.totalKWh == 0.0 && r.totalGJ == 0.0
            && r.ukEUR == 0.0 && r.tuvEUR == 0.0
            && HeatSplitRatios(next.ukTuvMeterReadings) == HeatRatios(0.5, 0.5)
            && r.servicesCost == CalculateTotalsWith(prev, matches).servicesCost
            && r.totalEUR == r.servicesCost
  {
    var next := CreateDataFromPreviousYear(prev, stamp);
    var conns := next.electricity.connections;
    FlatSubMetersDrawNothing(conns, matches);
    assert CostColumn(next.otherCosts) == CostColumn(prev.otherCosts);
  }

  /** Rolling a year over twice, with nothing entered in between, yields the
      same meter readings as rolling it over once. */
  lemma RolloverSettles(prev: CalculationData, stamp: string, stamp': string)
    ensures var once := CreateDataFromPreviousYear(prev, stamp);
            var twice := CreateDataFromPreviousYear(once, stamp');
            && twice.year == prev.year + 2
            && twice.ukTuvMeterReadings == once.ukTuvMeterReadings
            && |twice.gas.meters| == |once.gas.meters|
            && (forall i :: 0 <= i < |twice.gas.meters| ==>
                  twice.gas.meters[i].startM3 == once.gas.meters[i].startM3
                  && twice.gas.meters[i].endM3 == once.gas.meters[i].endM3)
            && twice.water.mainMeterStartM3 == once.water.mainMeterStartM3
            && twice.water.mainMeterEndM3 == once.water.mainMeterEndM3
            && |twice.electricity.connections| == |once.electricity.connections|
            && (forall c, s ::
                  0 <= c < |twice.electricity.connections| && 0 <= s < |twice.electricity.connections[c].subMeters| ==>
                  && s < |once.electricity.connections[c].subMeters|
                  && twice.electricity.connections[c].subMeters[s].startKWh == once.electricity.connections[c].subMeters[s].startKWh
                  && twice.electricity.connections[c].subMeters[s].endKWh == once.electricity.connections[c].subMeters[s].endKWh)
            && |twice.water.subMeters| == |once.water.subMeters|
            && (forall i :: 0 <= i < |twice.water.subMeters| ==>
                  twice.water.subMeters[i].startM3 == once.water.subMeters[i].startM3
                  && twice.water.subMeters[i].endM3 == once.water.subMeters[i].endM3)
  {
  }

  /** A record with flat meters, empty invoices and no service costs costs
      nothing and produces nothing. */
  lemma IdleRecordCostsNothing(d: CalculationData, matches: string -> bool)
    requires forall i :: 0 <= i < |d.gas.meters| ==> d.gas.meters[i].startM3 == d.gas.meters[i].endM3
    requires forall c, s :: 0 <= c < |d.electricity.connections| && 0 <= s < |d.electricity.connections[c].subMeters| ==>
      d.electricity.connections[c].subMeters[s].startKWh == d.electricity.connections[c].subMeters[s].endKWh
    requires d.gas.totalPriceEUR == 0.0 && d.water.sewerageCost == 0.0
    requires WaterTotalEUR(d.water.monthlyReadings) == 0.0
    requires d.mandateContractMonthlyCost == 0.0 && d.repairFundAnnualCost == 0.0 && d.otherCosts == []
    ensures var r := CalculateTotalsWith(d, matches);
            && r.gasConsumptionM3 == 0.0 && r.totalEUR == 0.0 && r.totalGJ == 0.0
            && r.electricityConsumptionKWh == 0.0
            && r.ukEUR == 0.0 && r.tuvEUR == 0.0
  {
    FlatSubMetersDrawNothing(d.electricity.connections, matches);
    assert ServicesCost(d) == 0.0;
  }

  /** The default record costs nothing. */
  lemma DefaultDataStartsEmpty(year: int, stamp: string, matches: string -> bool)
    ensures var r := CalculateTotalsWith(CreateDefaultData(year, stamp), matches);
            && r.gasConsumptionM3 == 0.0 && r.totalEUR == 0.0 && r.totalGJ == 0.0
            && r.electricityConsumptionKWh == 0.0
            && r.ukEUR == 0.0 && r.tuvEUR == 0.0
  {
    IdleRecordCostsNothing(CreateDefaultData(year, stamp), matches);
  }
}
