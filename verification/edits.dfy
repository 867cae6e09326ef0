/** The edit handlers of the data-entry form. Each takes the record on screen
    and one edit and returns the record handed on for storage. Text input is
    taken as already parsed: an edit carries a number where the form parses
    one. A field/value pair that the form never produces (a number for the
    meter number, say) cannot be written down. */
module Edits {

  import opened Seqs
  import opened Model
  import opened Calculation

  // ---------------------------------------------------------------------------
  // What the engine reads

  /** Two records that agree on the engine's inputs (gas, the heat meters,
      the electrical connections, the water invoices and sewerage, and the
      service costs) get the same results, whatever else differs: the water
      sub-meters, the main water meter, the measured water volumes, the hot
      water percentage, the occupant counts, the year and the lock. */
  lemma EngineReadsOnlyItsInputs(a: CalculationData, b: CalculationData, matches: string -> bool)
    requires a.gas == b.gas && a.gasKwhPerM3 == b.gasKwhPerM3
    requires a.ukTuvMeterReadings == b.ukTuvMeterReadings
    requires a.electricity.connections == b.electricity.connections
    requires a.water.monthlyReadings == b.water.monthlyReadings
    requires a.water.sewerageCost == b.water.sewerageCost
    requires a.mandateContractMonthlyCost == b.mandateContractMonthlyCost
    requires a.repairFundAnnualCost == b.repairFundAnnualCost
    requires a.otherCosts == b.otherCosts
    ensures CalculateTotalsWith(a, matches) == CalculateTotalsWith(b, matches)
  {
    assert TotalKWhOf(a) == TotalKWhOf(b);
    assert TotalGJ(a) == TotalGJ(b);
    assert ServicesCost(a) == ServicesCost(b);
    assert WaterCost(a.water) == WaterCost(b.water);
  }

  // ---------------------------------------------------------------------------
  // Gas meters

  datatype GasMeterEdit =
    | SetGasMeterNumber(meterNumber: string)
    | SetGasStartM3(startM3: real)
    | SetGasEndM3(endM3: real)

  function EditGasMeter(m: GasMeter, e: GasMeterEdit): (r: GasMeter)
    ensures r.id == m.id
  {
    match e
    case SetGasMeterNumber(n) => m.(meterNumber := n)
    case SetGasStartM3(v) => m.(startM3 := v)
    case SetGasEndM3(v) => m.(endM3 := v)
  }

  /** Editing one field of the gas meter at `index`: that meter keeps its id
      and its other fields, every other meter and every other part of the
      record stays as it was. */
  function HandleGasMeterChange(data: CalculationData, index: nat, e: GasMeterEdit): (r: CalculationData)
    requires index < |data.gas.meters|
    ensures r.(gas := data.gas) == data && r.gas.totalPriceEUR == data.gas.totalPriceEUR
    ensures |r.gas.meters| == |data.gas.meters|
    ensures forall i :: 0 <= i < |data.gas.meters| && i != index ==> r.gas.meters[i] == data.gas.meters[i]
    ensures var before, after := data.gas.meters[index], r.gas.meters[index];
      && after.id == before.id
      && after.meterNumber == (if e.SetGasMeterNumber? then e.meterNumber else before.meterNumber)
      && after.startM3 == (if e.SetGasStartM3? then e.startM3 else before.startM3)
      && after.endM3 == (if e.SetGasEndM3? then e.endM3 else before.endM3)
  {
    var meters := data.gas.meters[index := EditGasMeter(data.gas.meters[index], e)];
    data.(gas := data.gas.(meters := meters))
  }

  /** A gas meter edit moves the metered gas by exactly the change in that
      meter's clamped reading difference. */
  lemma GasMeterEditShiftsConsumption(data: CalculationData, index: nat, e: GasMeterEdit)
    requires index < |data.gas.meters|
    ensures var before, after := data.gas.meters[index], HandleGasMeterChange(data, index, e).gas.meters[index];
      GasConsumption(HandleGasMeterChange(data, index, e).gas.meters)
        == GasConsumption(data.gas.meters) - Clamped(before.startM3, before.endM3) + Clamped(after.startM3, after.endM3)
  {
    var r := HandleGasMeterChange(data, index, e);
    var after := r.gas.meters[index];
    assert GasDeltas(r.gas.meters) == GasDeltas(data.gas.meters)[index := Clamped(after.startM3, after.endM3)];
    SumUpdate(GasDeltas(data.gas.meters), index, Clamped(after.startM3, after.endM3));
  }

  /** A new gas meter: `stamp` stands for the creation timestamp used as id. */
  function NewGasMeter(stamp: string): (r: GasMeter)
    ensures r.id == stamp && r.meterNumber == "" && r.startM3 == 0.0 && r.endM3 == 0.0
  {
    GasMeter(stamp, "", 0.0, 0.0)
  }

  /** Adding a gas meter appends an empty one and changes nothing else. */
  function AddGasMeter(data: CalculationData, stamp: string): (r: CalculationData)
    ensures r.(gas := data.gas) == data && r.gas.totalPriceEUR == data.gas.totalPriceEUR
    ensures |r.gas.meters| == |data.gas.meters| + 1
    ensures r.gas.meters[..|data.gas.meters|] == data.gas.meters
    ensures r.gas.meters[|data.gas.meters|] == NewGasMeter(stamp)
  {
    data.(gas := data.gas.(meters := data.gas.meters + [NewGasMeter(stamp)]))
  }

  /** A freshly added meter reads nothing, so every result stays the same. */
  lemma AddGasMeterKeepsResults(data: CalculationData, stamp: string, matches: string -> bool)
    ensures CalculateTotalsWith(AddGasMeter(data, stamp), matches) == CalculateTotalsWith(data, matches)
  {
    var r := AddGasMeter(data, stamp);
    GasConsumptionAppend(data.gas.meters, NewGasMeter(stamp));
    assert GasConsumption(r.gas.meters) == GasConsumption(data.gas.meters);
    assert TotalKWhOf(r) == TotalKWhOf(data);
    assert TotalGJ(r) == TotalGJ(data);
  }

  function KeepGasMeter(id: string): GasMeter -> bool
  {
    (m: GasMeter) => m.id != id
  }

  /** Removing by id drops every gas meter with that id and keeps every other
      meter, as often as it occurs and in order (the laws of `Filter`). */
  function RemoveGasMeter(data: CalculationData, id: string): (r: CalculationData)
    ensures r.(gas := data.gas) == data && r.gas.totalPriceEUR == data.gas.totalPriceEUR
    ensures r.gas.meters == Filter(data.gas.meters, KeepGasMeter(id))
    ensures forall m :: multiset(r.gas.meters)[m] == if m.id != id then multiset(data.gas.meters)[m] else 0
    ensures |r.gas.meters| <= |data.gas.meters|
    ensures forall i :: 0 <= i < |r.gas.meters| ==> r.gas.meters[i].id != id && r.gas.meters[i] in data.gas.meters
    ensures forall i :: 0 <= i < |data.gas.meters| && data.gas.meters[i].id != id ==> data.gas.meters[i] in r.gas.meters
  {
    data.(gas := data.gas.(meters := Filter(data.gas.meters, KeepGasMeter(id))))
  }

  /** Removing a meter just added under a fresh id restores the record. */
  lemma RemoveUndoesAddGasMeter(data: CalculationData, stamp: string)
    requires forall i :: 0 <= i < |data.gas.meters| ==> data.gas.meters[i].id != stamp
    ensures RemoveGasMeter(AddGasMeter(data, stamp), stamp) == data
  {
    var keep := KeepGasMeter(stamp);
    FilterAppend(data.gas.meters, [NewGasMeter(stamp)], keep);
    FilterKeepsAll(data.gas.meters, keep);
    assert Filter([NewGasMeter(stamp)], keep) == [];
  }

  // ---------------------------------------------------------------------------
  // Other service costs

  datatype OtherCostEdit =
    | SetCostName(name: string)
    | SetCostAmount(cost: real)

  function EditOtherCost(c: ServiceCost, e: OtherCostEdit): (r: ServiceCost)
    ensures r.id == c.id
  {
    match e
    case SetCostName(n) => c.(name := n)
    case SetCostAmount(v) => c.(cost := v)
  }

  /** Editing one field of the service cost at `index`; everything else stays. */
  function HandleOtherCostChange(data: CalculationData, index: nat, e: OtherCostEdit): (r: CalculationData)
    requires index < |data.otherCosts|
    ensures r.(otherCosts := data.otherCosts) == data
    ensures |r.otherCosts| == |data.otherCosts|
    ensures forall i :: 0 <= i < |data.otherCosts| && i != index ==> r.otherCosts[i] == data.otherCosts[i]
    ensures var before, after := data.otherCosts[index], r.otherCosts[index];
      && after.id == before.id
      && after.name == (if e.SetCostName? then e.name else before.name)
      && after.cost == (if e.SetCostAmount? then e.cost else before.cost)
  {
    data.(otherCosts := data.otherCosts[index := EditOtherCost(data.otherCosts[index], e)])
  }

  /** A service cost edit moves the services total by the change in that cost. */
  lemma OtherCostEditShiftsServices(data: CalculationData, index: nat, e: OtherCostEdit)
    requires index < |data.otherCosts|
    ensures var r := HandleOtherCostChange(data, index, e);
      ServicesCost(r) == ServicesCost(data) - data.otherCosts[index].cost + r.otherCosts[index].cost
  {
    var r := HandleOtherCostChange(data, index, e);
    assert CostColumn(r.otherCosts) == CostColumn(data.otherCosts)[index := r.otherCosts[index].cost];
    SumUpdate(CostColumn(data.otherCosts), index, r.otherCosts[index].cost);
  }

  function NewOtherCost(stamp: string): (r: ServiceCost)
    ensures r.id == stamp && r.name == "" && r.cost == 0.0
  {
    ServiceCost(stamp, "", 0.0)
  }

  /** Adding a service cost appends an empty one and changes nothing else. */
  function AddOtherCost(data: CalculationData, stamp: string): (r: CalculationData)
    ensures r.(otherCosts := data.otherCosts) == data
    ensures |r.otherCosts| == |data.otherCosts| + 1
    ensures r.otherCosts[..|data.otherCosts|] == data.otherCosts
    ensures r.otherCosts[|data.otherCosts|] == NewOtherCost(stamp)
  {
    data.(otherCosts := data.otherCosts + [NewOtherCost(stamp)])
  }

  /** A freshly added cost is zero, so the services total is unchanged. */
  lemma AddOtherCostKeepsServices(data: CalculationData, stamp: string)
    ensures ServicesCost(AddOtherCost(data, stamp)) == ServicesCost(data)
  {
    var r := AddOtherCost(data, stamp);
    assert CostColumn(r.otherCosts) == CostColumn(data.otherCosts) + [0.0];
    SumAppend(CostColumn(data.otherCosts), [0.0]);
  }

  function KeepOtherCost(id: string): ServiceCost -> bool
  {
    (c: ServiceCost) => c.id != id
  }

  /** Removing by id drops every service cost with that id and keeps the rest,
      as often as each occurs and in order (the laws of `Filter`). */
  function RemoveOtherCost(data: CalculationData, id: string): (r: CalculationData)
    ensures r.(otherCosts := data.otherCosts) == data
    ensures r.otherCosts == Filter(data.otherCosts, KeepOtherCost(id))
    ensures forall c :: multiset(r.otherCosts)[c] == if c.id != id then multiset(data.otherCosts)[c] else 0
    ensures |r.otherCosts| <= |data.otherCosts|
    ensures forall i :: 0 <= i < |r.otherCosts| ==> r.otherCosts[i].id != id && r.otherCosts[i] in data.otherCosts
    ensures forall i :: 0 <= i < |data.otherCosts| && data.otherCosts[i].id != id ==> data.otherCosts[i] in r.otherCosts
  {
    data.(otherCosts := Filter(data.otherCosts, KeepOtherCost(id)))
  }

  /** Removing a cost just added under a fresh id restores the record. */
  lemma RemoveUndoesAddOtherCost(data: CalculationData, stamp: string)
    requires forall i :: 0 <= i < |data.otherCosts| ==> data.otherCosts[i].id != stamp
    ensures RemoveOtherCost(AddOtherCost(data, stamp), stamp) == data
  {
    var keep := KeepOtherCost(stamp);
    FilterAppend(data.otherCosts, [NewOtherCost(stamp)], keep);
    FilterKeepsAll(data.otherCosts, keep);
    assert Filter([NewOtherCost(stamp)], keep) == [];
  }

  // ---------------------------------------------------------------------------
  // Heat meters

  datatype HeatMeterField = UkStartGJ | UkEndGJ | TuvStartGJ | TuvEndGJ

  function HeatReading(m: UkTuvMeterReadings, f: HeatMeterField): real
  {
    match f
    case UkStartGJ => m.ukStartGJ
    case UkEndGJ => m.ukEndGJ
    case TuvStartGJ => m.tuvStartGJ
    case TuvEndGJ => m.tuvEndGJ
  }

  /** Setting one heat-meter reading: that reading takes the value, the other
      three and the rest of the record stay. */
  function HandleUkTuvChange(data: CalculationData, f: HeatMeterField, value: real): (r: CalculationData)
    ensures r.(ukTuvMeterReadings := data.ukTuvMeterReadings) == data
    ensures HeatReading(r.ukTuvMeterReadings, f) == value
    ensures forall g :: g != f ==> HeatReading(r.ukTuvMeterReadings, g) == HeatReading(data.ukTuvMeterReadings, g)
  {
    var m := data.ukTuvMeterReadings;
    var m' := match f
      case UkStartGJ => m.(ukStartGJ := value)
      case UkEndGJ => m.(ukEndGJ := value)
      case TuvStartGJ => m.(tuvStartGJ := value)
      case TuvEndGJ => m.(tuvEndGJ := value);
    data.(ukTuvMeterReadings := m')
  }

  /** A heat-meter edit only moves gas between heating and hot water: every
      result other than the six heating/hot-water shares stays the same. */
  lemma HeatEditOnlyMovesShares(data: CalculationData, f: HeatMeterField, value: real, matches: string -> bool)
    ensures var before := CalculateTotalsWith(data, matches);
            var after := CalculateTotalsWith(HandleUkTuvChange(data, f, value), matches);
            after == before.(ukGJ := after.ukGJ, ukKWh := after.ukKWh, ukEUR := after.ukEUR,
                             tuvGJ := after.tuvGJ, tuvKWh := after.tuvKWh, tuvEUR := after.tuvEUR)
  {
    var r := HandleUkTuvChange(data, f, value);
    assert TotalKWhOf(r) == TotalKWhOf(data);
    assert TotalGJ(r) == TotalGJ(data);
    assert ServicesCost(r) == ServicesCost(data);
  }

  // ---------------------------------------------------------------------------
  // Electrical connections

  datatype ReadingKey = KWhKey | EurKey

  datatype ConnectionEdit =
    | SetConnectionMeterNumber(meterNumber: string)
    | SetMonthlyReading(monthIndex: int, key: ReadingKey, val: real)

  function EditReading(rd: MonthlyReading, key: ReadingKey, val: real): (r: MonthlyReading)
    ensures r.month == rd.month
  {
    match key
    case KWhKey => rd.(kWh := val)
    case EurKey => rd.(eur := val)
  }

  /** The monthly slots with the one at `monthIndex` edited; an index outside
      the list changes nothing. */
  function EditReadings(readings: seq<MonthlyReading>, monthIndex: int, key: ReadingKey, val: real): (r: seq<MonthlyReading>)
    ensures |r| == |readings|
    ensures forall i :: 0 <= i < |readings| && i != monthIndex ==> r[i] == readings[i]
    ensures 0 <= monthIndex < |readings| ==> r[monthIndex] == EditReading(readings[monthIndex], key, val)
  {
    seq(|readings|, i requires 0 <= i < |readings| =>
      if i == monthIndex then EditReading(readings[i], key, val) else readings[i])
  }

  function EditConnection(conn: ElectricalConnection, e: ConnectionEdit): (r: ElectricalConnection)
    ensures r.id == conn.id && r.name == conn.name && r.subMeters == conn.subMeters
  {
    match e
    case SetConnectionMeterNumber(n) => conn.(meterNumber := n)
    case SetMonthlyReading(k, key, v) => conn.(monthlyReadings := EditReadings(conn.monthlyReadings, k, key, v))
  }

  /** Editing the connection at `connIndex`: its meter number or one monthly
      slot changes, nothing else does; an index outside the list leaves the
      record as it was. */
  function HandleElectricityChange(data: CalculationData, connIndex: int, e: ConnectionEdit): (r: CalculationData)
    ensures r.(electricity := data.electricity) == data
    ensures r.electricity.userCounts == data.electricity.userCounts
    ensures |r.electricity.connections| == |data.electricity.connections|
    ensures forall i :: 0 <= i < |data.electricity.connections| && i != connIndex ==>
      r.electricity.connections[i] == data.electricity.connections[i]
    ensures 0 <= connIndex < |data.electricity.connections| ==>
      var before, after := data.electricity.connections[connIndex], r.electricity.connections[connIndex];
      && after.id == before.id && after.name == before.name && after.subMeters == before.subMeters
      && after.meterNumber == (if e.SetConnectionMeterNumber? then e.meterNumber else before.meterNumber)
      && (e.SetConnectionMeterNumber? ==> after.monthlyReadings == before.monthlyReadings)
      && (e.SetMonthlyReading? ==> after.monthlyReadings == EditReadings(before.monthlyReadings, e.monthIndex, e.key, e.val))
    ensures !(0 <= connIndex < |data.electricity.connections|) ==> r == data
  {
    var conns := data.electricity.connections;
    var conns' := seq(|conns|, i requires 0 <= i < |conns| =>
      if i == connIndex then EditConnection(conns[i], e) else conns[i]);
    assert !(0 <= connIndex < |conns|) ==> conns' == conns;
    data.(electricity := data.electricity.(connections := conns'))
  }

  /** A monthly kWh or EUR edit moves that connection's yearly total by the
      change in the edited slot. */
  lemma MonthlyEditShiftsTotals(readings: seq<MonthlyReading>, monthIndex: nat, key: ReadingKey, val: real)
    requires monthIndex < |readings|
    ensures key == KWhKey ==>
      TotalKWh(EditReadings(readings, monthIndex, key, val)) == TotalKWh(readings) - readings[monthIndex].kWh + val
    ensures key == KWhKey ==>
      TotalEUR(EditReadings(readings, monthIndex, key, val)) == TotalEUR(readings)
    ensures key == EurKey ==>
      TotalEUR(EditReadings(readings, monthIndex, key, val)) == TotalEUR(readings) - readings[monthIndex].eur + val
    ensures key == EurKey ==>
      TotalKWh(EditReadings(readings, monthIndex, key, val)) == TotalKWh(readings)
  {
    var r := EditReadings(readings, monthIndex, key, val);
    var kwh := seq(|readings|, i requires 0 <= i < |readings| => readings[i].kWh);
    var eur := seq(|readings|, i requires 0 <= i < |readings| => readings[i].eur);
    if key == KWhKey {
      assert seq(|r|, i requires 0 <= i < |r| => r[i].kWh) == kwh[monthIndex := val];
      assert seq(|r|, i requires 0 <= i < |r| => r[i].eur) == eur;
      SumUpdate(kwh, monthIndex, val);
    } else {
      assert seq(|r|, i requires 0 <= i < |r| => r[i].eur) == eur[monthIndex := val];
      assert seq(|r|, i requires 0 <= i < |r| => r[i].kWh) == kwh;
      SumUpdate(eur, monthIndex, val);
    }
  }

  /** The boiler-room search looks only at sub-meter names, and the share
      only at that sub-meter and its connection's invoices: connections that
      agree on those give the same share. */
  lemma BoilerRoomFollowsSubMeters(conns: seq<ElectricalConnection>, conns': seq<ElectricalConnection>, matches: string -> bool)
    requires |conns| == |conns'|
    requires forall i :: 0 <= i < |conns| ==> conns[i].subMeters == conns'[i].subMeters
    ensures BoilerRoomElectricity(conns, matches).consumptionKWh == BoilerRoomElectricity(conns', matches).consumptionKWh
    ensures (forall i :: 0 <= i < |conns| ==> conns[i].monthlyReadings == conns'[i].monthlyReadings) ==>
      BoilerRoomElectricity(conns, matches) == BoilerRoomElectricity(conns', matches)
  {
    if AnyBoilerRoom(conns, matches) {
      FirstBoilerRoomExists(conns, matches);
      var c, s :| IsFirstBoilerRoom(conns, matches, c, s);
      assert IsFirstBoilerRoom(conns', matches, c, s);
    } else {
      assert !AnyBoilerRoom(conns', matches);
    }
  }

  /** An invoice edit never changes the boiler room's consumption, and a
      meter number edit changes no result at all. */
  lemma ConnectionEditKeepsBoilerRoomConsumption(data: CalculationData, connIndex: int, e: ConnectionEdit, matches: string -> bool)
    ensures CalculateTotalsWith(HandleElectricityChange(data, connIndex, e), matches).electricityConsumptionKWh
         == CalculateTotalsWith(data, matches).electricityConsumptionKWh
    ensures e.SetConnectionMeterNumber? ==>
      CalculateTotalsWith(HandleElectricityChange(data, connIndex, e), matches) == CalculateTotalsWith(data, matches)
  {
    var r := HandleElectricityChange(data, connIndex, e);
    var conns, conns' := data.electricity.connections, r.electricity.connections;
    BoilerRoomFollowsSubMeters(conns, conns', matches);
    assert CalculateTotalsWith(r, matches) == Assemble(r, BoilerRoomElectricity(conns', matches));
    assert CalculateTotalsWith(data, matches) == Assemble(data, BoilerRoomElectricity(conns, matches));
    if e.SetConnectionMeterNumber? {
      assert forall i :: 0 <= i < |conns| ==> conns[i].monthlyReadings == conns'[i].monthlyReadings;
      EngineReadsOnlyItsInputsButConnections(r, data, matches);
    }
  }

  // ---------------------------------------------------------------------------
  // Main water meter and water invoices

  datatype WaterReadingKey = M3Key | WaterEurKey

  datatype WaterEdit =
    | SetWaterMeterNumber(meterNumber: string)
    | SetSewerageCost(cost: real)
    | SetWaterReading(monthIndex: int, key: WaterReadingKey, val: real)

  function EditWaterReading(rd: WaterMonthlyReading, key: WaterReadingKey, val: real): (r: WaterMonthlyReading)
    ensures r.month == rd.month
  {
    match key
    case M3Key => rd.(m3 := val)
    case WaterEurKey => rd.(eur := val)
  }

  function EditWaterReadings(readings: seq<WaterMonthlyReading>, monthIndex: int, key: WaterReadingKey, val: real): (r: seq<WaterMonthlyReading>)
    ensures |r| == |readings|
    ensures forall i :: 0 <= i < |readings| && i != monthIndex ==> r[i] == readings[i]
    ensures 0 <= monthIndex < |readings| ==> r[monthIndex] == EditWaterReading(readings[monthIndex], key, val)
  {
    seq(|readings|, i requires 0 <= i < |readings| =>
      if i == monthIndex then EditWaterReading(readings[i], key, val) else readings[i])
  }

  /** Editing the water meter number, the sewerage cost or one monthly water
      slot; nothing else in the record changes. */
  function HandleWaterChange(data: CalculationData, e: WaterEdit): (r: CalculationData)
    ensures r.(water := data.water) == data
    ensures r.water.meterNumber == (if e.SetWaterMeterNumber? then e.meterNumber else data.water.meterNumber)
    ensures r.water.sewerageCost == (if e.SetSewerageCost? then e.cost else data.water.sewerageCost)
    ensures !e.SetWaterReading? ==> r.water.monthlyReadings == data.water.monthlyReadings
    ensures e.SetWaterReading? ==>
      r.water.monthlyReadings == EditWaterReadings(data.water.monthlyReadings, e.monthIndex, e.key, e.val)
    ensures r.water.(meterNumber := data.water.meterNumber, sewerageCost := data.water.sewerageCost,
                     monthlyReadings := data.water.monthlyReadings) == data.water
  {
    var w := data.water;
    var w' := match e
      case SetWaterMeterNumber(n) => w.(meterNumber := n)
      case SetSewerageCost(v) => w.(sewerageCost := v)
      case SetWaterReading(k, key, v) => w.(monthlyReadings := EditWaterReadings(w.monthlyReadings, k, key, v));
    data.(water := w')
  }

  /** A water edit moves the water cost by the change in sewerage or in the
      edited invoice slot, and the water volume by the change in the edited
      volume slot; a meter number edit changes no result. */
  lemma WaterEditShiftsWaterCost(data: CalculationData, e: WaterEdit, matches: string -> bool)
    ensures var before := CalculateTotalsWith(data, matches);
            var after := CalculateTotalsWith(HandleWaterChange(data, e), matches);
            && (e.SetWaterMeterNumber? ==> after == before)
            && (e.SetSewerageCost? ==>
                  after.waterCost == before.waterCost - data.water.sewerageCost + e.cost
                  && after.waterConsumptionM3 == before.waterConsumptionM3)
            && (e.SetWaterReading? && 0 <= e.monthIndex < |data.water.monthlyReadings| && e.key == WaterEurKey ==>
                  after.waterCost == before.waterCost - data.water.monthlyReadings[e.monthIndex].eur + e.val
                  && after.waterConsumptionM3 == before.waterConsumptionM3)
            && (e.SetWaterReading? && 0 <= e.monthIndex < |data.water.monthlyReadings| && e.key == M3Key ==>
                  after.waterConsumptionM3 == before.waterConsumptionM3 - data.water.monthlyReadings[e.monthIndex].m3 + e.val
                  && after.waterCost == before.waterCost)
  {
    var r := HandleWaterChange(data, e);
    var rs := data.water.monthlyReadings;
    var m3 := seq(|rs|, i requires 0 <= i < |rs| => rs[i].m3);
    var eur := seq(|rs|, i requires 0 <= i < |rs| => rs[i].eur);
    var rs' := r.water.monthlyReadings;
    if e.SetWaterReading? && 0 <= e.monthIndex < |rs| {
      if e.key == M3Key {
        assert seq(|rs'|, i requires 0 <= i < |rs'| => rs'[i].m3) == m3[e.monthIndex := e.val];
        assert seq(|rs'|, i requires 0 <= i < |rs'| => rs'[i].eur) == eur;
        SumUpdate(m3, e.monthIndex, e.val);
      } else {
        assert seq(|rs'|, i requires 0 <= i < |rs'| => rs'[i].eur) == eur[e.monthIndex := e.val];
        assert seq(|rs'|, i requires 0 <= i < |rs'| => rs'[i].m3) == m3;
        SumUpdate(eur, e.monthIndex, e.val);
      }
    } else if e.SetWaterMeterNumber? {
      EngineReadsOnlyItsInputs(r, data, matches);
    }
  }

  // ---------------------------------------------------------------------------
  // Electricity sub-meters

  datatype SubMeterField = StartKWh | EndKWh

  function EditSubMeter(sm: ElectricitySubMeter, f: SubMeterField, value: real): (r: ElectricitySubMeter)
    ensures r.id == sm.id && r.name == sm.name
  {
    match f
    case StartKWh => sm.(startKWh := value)
    case EndKWh => sm.(endKWh := value)
  }

  /** Setting the start or end reading of sub-meter `smIndex` of connection
      `connIndex`; indexes outside the lists change nothing, and no name,
      invoice or other reading changes. */
  function HandleElecSubMeterChange(data: CalculationData, connIndex: int, smIndex: int, f: SubMeterField, value: real): (r: CalculationData)
    ensures r.(electricity := data.electricity) == data
    ensures r.electricity.userCounts == data.electricity.userCounts
    ensures |r.electricity.connections| == |data.electricity.connections|
    ensures forall i :: 0 <= i < |data.electricity.connections| ==>
      var before, after := data.electricity.connections[i], r.electricity.connections[i];
      && after.(subMeters := before.subMeters) == before
      && |after.subMeters| == |before.subMeters|
      && forall j :: 0 <= j < |before.subMeters| ==>
           && after.subMeters[j].id == before.subMeters[j].id
           && after.subMeters[j].name == before.subMeters[j].name
           && ((i, j) != (connIndex, smIndex) ==> after.subMeters[j] == before.subMeters[j])
           && ((i, j) == (connIndex, smIndex) ==> after.subMeters[j] == EditSubMeter(before.subMeters[j], f, value))
  {
    var conns := data.electricity.connections;
    var conns' := seq(|conns|, i requires 0 <= i < |conns| =>
      if i != connIndex then conns[i]
      else
        var subs := conns[i].subMeters;
        conns[i].(subMeters := seq(|subs|, j requires 0 <= j < |subs| =>
          if j == smIndex then EditSubMeter(subs[j], f, value) else subs[j])));
    data.(electricity := data.electricity.(connections := conns'))
  }

  /** Editing a sub-meter other than the boiler room leaves every result as it
      was; editing the boiler room's own sub-meter sets the boiler-room
      consumption to its new clamped reading difference. */
  lemma SubMeterEditReachesOnlyTheBoilerRoom(data: CalculationData, connIndex: int, smIndex: int, f: SubMeterField, value: real, matches: string -> bool)
    ensures var conns := data.electricity.connections;
            var r := HandleElecSubMeterChange(data, connIndex, smIndex, f, value);
            !IsFirstBoilerRoom(conns, matches, connIndex, smIndex) ==>
              CalculateTotalsWith(r, matches) == CalculateTotalsWith(data, matches)
    ensures var conns := data.electricity.connections;
            var r := HandleElecSubMeterChange(data, connIndex, smIndex, f, value);
            IsFirstBoilerRoom(conns, matches, connIndex, smIndex) ==>
              var sm := r.electricity.connections[connIndex].subMeters[smIndex];
              CalculateTotalsWith(r, matches).electricityConsumptionKWh == Clamped(sm.startKWh, sm.endKWh)
  {
    var conns := data.electricity.connections;
    var r := HandleElecSubMeterChange(data, connIndex, smIndex, f, value);
    var conns' := r.electricity.connections;
    assert forall c, s :: IsFirstBoilerRoom(conns, matches, c, s) <==> IsFirstBoilerRoom(conns', matches, c, s);
    if !IsFirstBoilerRoom(conns, matches, connIndex, smIndex) {
      if AnyBoilerRoom(conns, matches) {
        FirstBoilerRoomExists(conns, matches);
        var c, s :| IsFirstBoilerRoom(conns, matches, c, s);
        assert conns'[c].subMeters[s] == conns[c].subMeters[s];
        assert conns'[c].monthlyReadings == conns[c].monthlyReadings;
      } else {
        assert !AnyBoilerRoom(conns', matches);
      }
      assert BoilerRoomElectricity(conns', matches) == BoilerRoomElectricity(conns, matches);
      EngineReadsOnlyItsInputsButConnections(r, data, matches);
    }
  }

  /** Records that agree on every engine input except possibly the connection
      list, and whose connections yield the same boiler-room share, get the
      same results. */
  lemma EngineReadsOnlyItsInputsButConnections(a: CalculationData, b: CalculationData, matches: string -> bool)
    requires a.gas == b.gas && a.gasKwhPerM3 == b.gasKwhPerM3
    requires a.ukTuvMeterReadings == b.ukTuvMeterReadings
    requires BoilerRoomElectricity(a.electricity.connections, matches) == BoilerRoomElectricity(b.electricity.connections, matches)
    requires a.water.monthlyReadings == b.water.monthlyReadings
    requires a.water.sewerageCost == b.water.sewerageCost
    requires a.mandateContractMonthlyCost == b.mandateContractMonthlyCost
    requires a.repairFundAnnualCost == b.repairFundAnnualCost
    requires a.otherCosts == b.otherCosts
    ensures CalculateTotalsWith(a, matches) == CalculateTotalsWith(b, matches)
  {
    var c := a.(electricity := a.electricity.(connections := b.electricity.connections));
    EngineReadsOnlyItsInputs(c, b, matches);
    EngineSeesOnlyTheBoilerRoomShare(a, c, matches);
  }

  /** Changing only the connection list changes the results only through the
      boiler-room share. */
  lemma EngineSeesOnlyTheBoilerRoomShare(a: CalculationData, c: CalculationData, matches: string -> bool)
    requires c == a.(electricity := a.electricity.(connections := c.electricity.connections))
    requires BoilerRoomElectricity(a.electricity.connections, matches) == BoilerRoomElectricity(c.electricity.connections, matches)
    ensures CalculateTotalsWith(a, matches) == CalculateTotalsWith(c, matches)
  {
    var share := BoilerRoomElectricity(a.electricity.connections, matches);
    assert CalculateTotalsWith(a, matches) == Assemble(a, share);
    assert CalculateTotalsWith(c, matches) == Assemble(c, share);
    assert TotalKWhOf(a) == TotalKWhOf(c);
    assert TotalGJ(a) == TotalGJ(c);
    assert ServicesCost(a) == ServicesCost(c);
  }

  // ---------------------------------------------------------------------------
  // Inputs only the summary reads

  datatype WaterSubMeterField = StartM3 | EndM3

  /** Setting the start or end reading of water sub-meter `smIndex`; an index
      outside the list changes nothing. */
  function HandleWaterSubMeterChange(data: CalculationData, smIndex: int, f: WaterSubMeterField, value: real): (r: CalculationData)
    ensures r.(water := data.water) == data
    ensures r.water.(subMeters := data.water.subMeters) == data.water
    ensures |r.water.subMeters| == |data.water.subMeters|
    ensures forall j :: 0 <= j < |data.water.subMeters| ==>
      var before, after := data.water.subMeters[j], r.water.subMeters[j];
      && after.id == before.id && after.name == before.name
      && (j != smIndex ==> after == before)
      && (j == smIndex && f == StartM3 ==> after.startM3 == value && after.endM3 == before.endM3)
      && (j == smIndex && f == EndM3 ==> after.endM3 == value && after.startM3 == before.startM3)
  {
    var subs := data.water.subMeters;
    var subs' := seq(|subs|, j requires 0 <= j < |subs| =>
      if j != smIndex then subs[j]
      else match f
        case StartM3 => subs[j].(startM3 := value)
        case EndM3 => subs[j].(endM3 := value));
    data.(water := data.water.(subMeters := subs'))
  }

  /** The water properties the form edits directly. */
  datatype WaterProperty = MainMeterStartM3 | MainMeterEndM3 | MeasuredSvM3 | MeasuredTuvM3

  function WaterPropertyValue(w: Water, p: WaterProperty): real
  {
    match p
    case MainMeterStartM3 => w.mainMeterStartM3
    case MainMeterEndM3 => w.mainMeterEndM3
    case MeasuredSvM3 => w.measuredConsumptionSvM3
    case MeasuredTuvM3 => w.measuredConsumptionTuvM3
  }

  /** Setting one water property; the other properties and the rest of the
      record stay. */
  function HandleWaterPropertyChange(data: CalculationData, p: WaterProperty, value: real): (r: CalculationData)
    ensures r.(water := data.water) == data
    ensures WaterPropertyValue(r.water, p) == value
    ensures forall q :: q != p ==> WaterPropertyValue(r.water, q) == WaterPropertyValue(data.water, q)
    ensures r.water.(mainMeterStartM3 := data.water.mainMeterStartM3, mainMeterEndM3 := data.water.mainMeterEndM3,
                     measuredConsumptionSvM3 := data.water.measuredConsumptionSvM3,
                     measuredConsumptionTuvM3 := data.water.measuredConsumptionTuvM3) == data.water
  {
    var w := data.water;
    var w' := match p
      case MainMeterStartM3 => w.(mainMeterStartM3 := value)
      case MainMeterEndM3 => w.(mainMeterEndM3 := value)
      case MeasuredSvM3 => w.(measuredConsumptionSvM3 := value)
      case MeasuredTuvM3 => w.(measuredConsumptionTuvM3 := value);
    data.(water := w')
  }

  datatype Entrance = Vchod25 | Vchod23

  /** Setting the occupant count of one entrance; the other count and the
      rest of the record stay. */
  function HandleUserCountChange(data: CalculationData, entrance: Entrance, value: int): (r: CalculationData)
    ensures r.(electricity := data.electricity) == data
    ensures r.electricity.connections == data.electricity.connections
    ensures entrance == Vchod25 ==> r.electricity.userCounts == UserCounts(value, data.electricity.userCounts.vchod23)
    ensures entrance == Vchod23 ==> r.electricity.userCounts == UserCounts(data.electricity.userCounts.vchod25, value)
  {
    var counts := data.electricity.userCounts;
    var counts' := match entrance
      case Vchod25 => counts.(vchod25 := value)
      case Vchod23 => counts.(vchod23 := value);
    data.(electricity := data.electricity.(userCounts := counts'))
  }

  const MAX_TUV_PERCENT: real := 100.0

  /** Setting the hot-water share of the water bill: the value is clamped to
      [0, 100], so a value already in range is kept, and nothing else changes. */
  function HandleWaterTuvRatioChange(data: CalculationData, value: real): (r: CalculationData)
    ensures r.(water := data.water) == data
    ensures r.water.(tuvDistributionPercent := data.water.tuvDistributionPercent) == data.water
    ensures 0.0 <= r.water.tuvDistributionPercent <= MAX_TUV_PERCENT
    ensures 0.0 <= value <= MAX_TUV_PERCENT ==> r.water.tuvDistributionPercent == value
    ensures value < 0.0 ==> r.water.tuvDistributionPercent == 0.0
    ensures value > MAX_TUV_PERCENT ==> r.water.tuvDistributionPercent == MAX_TUV_PERCENT
  {
    var atMost := if value < MAX_TUV_PERCENT then value else MAX_TUV_PERCENT;
    var clamped := if atMost > 0.0 then atMost else 0.0;
    data.(water := data.water.(tuvDistributionPercent := clamped))
  }

  /** Entering the clamped value again changes nothing. */
  lemma TuvRatioChangeIdempotent(data: CalculationData, value: real)
    ensures var once := HandleWaterTuvRatioChange(data, value);
            HandleWaterTuvRatioChange(once, value) == once
            && HandleWaterTuvRatioChange(once, once.water.tuvDistributionPercent) == once
  {
  }

  /** Water sub-meters, water properties, occupant counts and the hot-water
      share feed only the summary: editing them changes no engine result. */
  lemma SummaryOnlyEditsKeepResults(data: CalculationData, matches: string -> bool,
                                    smIndex: int, wf: WaterSubMeterField, p: WaterProperty,
                                    entrance: Entrance, count: int, value: real)
    ensures CalculateTotalsWith(HandleWaterSubMeterChange(data, smIndex, wf, value), matches) == CalculateTotalsWith(data, matches)
    ensures CalculateTotalsWith(HandleWaterPropertyChange(data, p, value), matches) == CalculateTotalsWith(data, matches)
    ensures CalculateTotalsWith(HandleUserCountChange(data, entrance, count), matches) == CalculateTotalsWith(data, matches)
    ensures CalculateTotalsWith(HandleWaterTuvRatioChange(data, value), matches) == CalculateTotalsWith(data, matches)
  {
    EngineReadsOnlyItsInputs(HandleWaterSubMeterChange(data, smIndex, wf, value), data, matches);
    EngineReadsOnlyItsInputs(HandleWaterPropertyChange(data, p, value), data, matches);
    EngineReadsOnlyItsInputs(HandleUserCountChange(data, entrance, count), data, matches);
    EngineReadsOnlyItsInputs(HandleWaterTuvRatioChange(data, value), data, matches);
  }
}
