/** The allocation engine (`calculateTotals`): one year's record in, the cost
    breakdown, the gas energy and its central-heating / hot-water split out. */
module Calculation {

  import opened Seqs
  import opened Model

  /** kWh per GJ, as the engine rounds it. */
  const KWH_PER_GJ: real := 277.778

  /** The boiler-room key exactly as the engine spells it: "kotol", U+00C5,
      U+02C6, "a" -- the UTF-8 bytes of "ň" read back as Windows-1252. */
  const BOILER_ROOM_KEY_AS_WRITTEN: string := "kotol\U{00C5}\U{02C6}a"

  /** The lower-cased name of the default boiler-room submeter "Kotolňa". */
  const BOILER_ROOM_KEY_INTENDED: string := "kotol\U{0148}a"

  // ---------------------------------------------------------------------------
  // Lower-casing (`String.prototype.toLowerCase`) for Basic Latin, Latin-1 and
  // Latin Extended-A; every other character is left as it is.

  function LowerChar(c: char): char
  {
    var n := c as int;
    if 'A' <= c <= 'Z' then (n + 32) as char
    else if 0xC0 <= n <= 0xDE && n != 0xD7 then (n + 32) as char
    else if (0x100 <= n <= 0x12F || 0x132 <= n <= 0x137 || 0x14A <= n <= 0x177) && n % 2 == 0 then (n + 1) as char
    else if (0x139 <= n <= 0x148 || 0x179 <= n <= 0x17E) && n % 2 == 1 then (n + 1) as char
    else if n == 0x178 then '\U{00FF}'
    else c
  }

  function ToLower(s: string): (r: string)
    ensures |r| == |s|
  {
    seq(|s|, i requires 0 <= i < |s| => LowerChar(s[i]))
  }

  /** Lower-casing never yields the capital letter U+00C5: it maps it to U+00E5
      and nothing else to it. */
  lemma ToLowerHasNoCapitalARing(s: string)
    ensures '\U{00C5}' !in ToLower(s)
  {
    forall i | 0 <= i < |s|
      ensures ToLower(s)[i] != '\U{00C5}'
    {
      assert ToLower(s)[i] == LowerChar(s[i]);
    }
  }

  /** The engine's name test for the boiler-room submeter. */
  predicate IsBoilerRoomName(name: string, key: string)
  {
    ToLower(name) == key
  }

  /** No submeter name whatsoever passes the engine's test as written, because
      its key holds a capital U+00C5 that lower-cased text cannot contain. */
  lemma AsWrittenKeyMatchesNothing(name: string)
    ensures !IsBoilerRoomName(name, BOILER_ROOM_KEY_AS_WRITTEN)
  {
    ToLowerHasNoCapitalARing(name);
    assert BOILER_ROOM_KEY_AS_WRITTEN[5] == '\U{00C5}';
  }

  /** The default submeter name, in any letter case, passes the intended test. */
  lemma IntendedKeyMatchesKotolna()
    ensures IsBoilerRoomName("Kotol\U{0148}a", BOILER_ROOM_KEY_INTENDED)
    ensures IsBoilerRoomName("KOTOL\U{0147}A", BOILER_ROOM_KEY_INTENDED)
    ensures IsBoilerRoomName("kotol\U{0148}a", BOILER_ROOM_KEY_INTENDED)
    ensures !IsBoilerRoomName("Kotolna", BOILER_ROOM_KEY_INTENDED)
  {
    assert ToLower("Kotolna")[5] == 'n';
  }

  // ---------------------------------------------------------------------------
  // Gas

  function GasDeltas(meters: seq<GasMeter>): (r: seq<real>)
    ensures |r| == |meters|
    ensures forall i :: 0 <= i < |meters| ==> r[i] == Clamped(meters[i].startM3, meters[i].endM3)
  {
    seq(|meters|, i requires 0 <= i < |meters| => Clamped(meters[i].startM3, meters[i].endM3))
  }

  /** Gas consumed: every meter's clamped delta, summed (meters replaced in
      mid-year all count). */
  function GasConsumption(meters: seq<GasMeter>): (r: real)
    ensures r >= 0.0
    ensures forall i :: 0 <= i < |meters| ==> Clamped(meters[i].startM3, meters[i].endM3) <= r
    ensures (forall i :: 0 <= i < |meters| ==> meters[i].endM3 <= meters[i].startM3) ==> r == 0.0
  {
    var ds := GasDeltas(meters);
    assert forall k :: 0 <= k < |meters| ==> ds[k] <= Sum(ds) by {
      forall k | 0 <= k < |meters| {
        SumBoundsTerms(ds, k);
      }
    }
    Sum(ds)
  }

  /** Adding a meter adds exactly its clamped delta: gas consumption is a sum,
      not a maximum or a last reading. */
  lemma GasConsumptionAppend(meters: seq<GasMeter>, m: GasMeter)
    ensures GasConsumption(meters + [m]) == GasConsumption(meters) + Clamped(m.startM3, m.endM3)
  {
    assert GasDeltas(meters + [m]) == GasDeltas(meters) + [Clamped(m.startM3, m.endM3)];
    SumAppend(GasDeltas(meters), [Clamped(m.startM3, m.endM3)]);
  }

  // ---------------------------------------------------------------------------
  // Boiler-room electricity

  /** A connection's average price per kWh over its monthly slots, 0 when its
      kWh total is not positive. */
  function AveragePrice(readings: seq<MonthlyReading>): (r: real)
    ensures TotalKWh(readings) > 0.0 ==> r * TotalKWh(readings) == TotalEUR(readings)
    ensures TotalKWh(readings) <= 0.0 ==> r == 0.0
  {
    Quotient(TotalEUR(readings), TotalKWh(readings))
  }

  /** The cost of `kwh` at the average price of `readings`. */
  function PriceOf(kwh: real, readings: seq<MonthlyReading>): (r: real)
    ensures TotalKWh(readings) > 0.0 ==> r * TotalKWh(readings) == kwh * TotalEUR(readings)
    ensures TotalKWh(readings) <= 0.0 ==> r == 0.0
  {
    ScaledQuotient(kwh, AveragePrice(readings), TotalKWh(readings), TotalEUR(readings));
    kwh * AveragePrice(readings)
  }

  /** Where a price turns a positive `den` into `num`, an amount at that
      price turns `den` into `amount * num`. */
  lemma ScaledQuotient(amount: real, price: real, den: real, num: real)
    requires den > 0.0 ==> price * den == num
    ensures den > 0.0 ==> amount * price * den == amount * num
  {
    assert amount * price * den == amount * (price * den);
  }

  /** Submeter `s` of connection `c` is the one the engine's scan stops at:
      it passes the name test, no earlier submeter of `c` does, and no submeter
      of an earlier connection does. */
  ghost predicate IsFirstBoilerRoom(conns: seq<ElectricalConnection>, matches: string -> bool, c: int, s: int)
  {
    && 0 <= c < |conns|
    && 0 <= s < |conns[c].subMeters|
    && matches(conns[c].subMeters[s].name)
    && (forall j :: 0 <= j < s ==> !matches(conns[c].subMeters[j].name))
    && (forall i, j :: 0 <= i < c && 0 <= j < |conns[i].subMeters| ==> !matches(conns[i].subMeters[j].name))
  }

  /** Some submeter of some connection passes the name test. */
  ghost predicate AnyBoilerRoom(conns: seq<ElectricalConnection>, matches: string -> bool)
  {
    exists i, j :: 0 <= i < |conns| && 0 <= j < |conns[i].subMeters| && matches(conns[i].subMeters[j].name)
  }

  function BoilerRoomIndex(conn: ElectricalConnection, matches: string -> bool): Option<nat>
  {
    FindFirst(conn.subMeters, (sm: ElectricitySubMeter) => matches(sm.name))
  }

  datatype BoilerRoomShare = BoilerRoomShare(consumptionKWh: real, cost: real)

  /** The boiler-room electricity: the first matching submeter's clamped delta,
      priced at its own connection's average price; nothing when none matches. */
  function BoilerRoomElectricity(conns: seq<ElectricalConnection>, matches: string -> bool): (r: BoilerRoomShare)
    ensures r.consumptionKWh >= 0.0
    ensures forall c, s {:trigger IsFirstBoilerRoom(conns, matches, c, s)} :: IsFirstBoilerRoom(conns, matches, c, s) ==>
      && r.consumptionKWh == Clamped(conns[c].subMeters[s].startKWh, conns[c].subMeters[s].endKWh)
      && r.cost == PriceOf(r.consumptionKWh, conns[c].monthlyReadings)
    ensures !AnyBoilerRoom(conns, matches) ==> r == BoilerRoomShare(0.0, 0.0)
  {
    match FindFirst(conns, (conn: ElectricalConnection) => BoilerRoomIndex(conn, matches).Some?)
    case None => BoilerRoomShare(0.0, 0.0)
    case Some(c) =>
      var s := BoilerRoomIndex(conns[c], matches).value;
      var sm := conns[c].subMeters[s];
      var consumption := Clamped(sm.startKWh, sm.endKWh);
      assert IsFirstBoilerRoom(conns, matches, c, s);
      FirstBoilerRoomUnique(conns, matches, c, s);
      BoilerRoomShare(consumption, PriceOf(consumption, conns[c].monthlyReadings))
  }

  /** At most one submeter is the first boiler room. */
  lemma FirstBoilerRoomUnique(conns: seq<ElectricalConnection>, matches: string -> bool, c: int, s: int)
    requires IsFirstBoilerRoom(conns, matches, c, s)
    ensures forall c', s' :: IsFirstBoilerRoom(conns, matches, c', s') ==> c' == c && s' == s
  {
  }

  /** Whenever some submeter matches, there is a first one. */
  lemma {:induction false} FirstBoilerRoomExists(conns: seq<ElectricalConnection>, matches: string -> bool)
    requires AnyBoilerRoom(conns, matches)
    ensures exists c, s :: IsFirstBoilerRoom(conns, matches, c, s)
  {
    var p := (conn: ElectricalConnection) => BoilerRoomIndex(conn, matches).Some?;
    var c := FindFirst(conns, p).value;
    var s := BoilerRoomIndex(conns[c], matches).value;
    assert IsFirstBoilerRoom(conns, matches, c, s);
  }

  /** The scan stops at the first connection with a boiler room: connections
      after it are never looked at. */
  lemma BoilerRoomIgnoresLaterConnections(conns: seq<ElectricalConnection>, more: seq<ElectricalConnection>, matches: string -> bool)
    requires AnyBoilerRoom(conns, matches)
    ensures BoilerRoomElectricity(conns + more, matches) == BoilerRoomElectricity(conns, matches)
  {
    FirstBoilerRoomExists(conns, matches);
    var c, s :| IsFirstBoilerRoom(conns, matches, c, s);
    var all := conns + more;
    assert forall i :: 0 <= i <= c ==> all[i] == conns[i];
    assert IsFirstBoilerRoom(all, matches, c, s);
    var longer := BoilerRoomElectricity(all, matches);
    var shorter := BoilerRoomElectricity(conns, matches);
    assert longer.consumptionKWh == shorter.consumptionKWh;
    assert longer.cost == shorter.cost;
  }

  // ---------------------------------------------------------------------------
  // Heat split between central heating (UK) and hot water (TÚV)

  datatype HeatRatios = HeatRatios(uk: real, tuv: real)

  /** Each heat meter's clamped delta over their sum; 50/50 when both are 0. */
  function HeatSplitRatios(m: UkTuvMeterReadings): (r: HeatRatios)
    ensures 0.0 <= r.uk <= 1.0 && 0.0 <= r.tuv <= 1.0
    ensures r.uk + r.tuv == 1.0
    ensures var u := Clamped(m.ukStartGJ, m.ukEndGJ);
            var t := Clamped(m.tuvStartGJ, m.tuvEndGJ);
            && (u + t == 0.0 ==> r.uk == 0.5 && r.tuv == 0.5)
            && (u + t > 0.0 ==> r.uk * (u + t) == u && r.tuv * (u + t) == t)
  {
    var u := Clamped(m.ukStartGJ, m.ukEndGJ);
    var t := Clamped(m.tuvStartGJ, m.tuvEndGJ);
    if u + t > 0.0 then HeatRatios(u / (u + t), t / (u + t)) else HeatRatios(0.5, 0.5)
  }

  /** A product of two non-negative reals is non-negative. */
  lemma ProductSign(a: real, b: real)
    ensures a >= 0.0 && b >= 0.0 ==> a * b >= 0.0
  {
  }

  /** An amount divided between central heating and hot water. */
  datatype Shares = Shares(uk: real, tuv: real)

  /** Splitting an amount by the heat ratios loses nothing, and each share
      keeps the amount's sign. */
  function Split(x: real, ratios: HeatRatios): (r: Shares)
    requires 0.0 <= ratios.uk && 0.0 <= ratios.tuv && ratios.uk + ratios.tuv == 1.0
    ensures r.uk + r.tuv == x
    ensures x >= 0.0 ==> 0.0 <= r.uk <= x && 0.0 <= r.tuv <= x
    ensures r.uk == x * ratios.uk && r.tuv == x * ratios.tuv
  {
    assert x * ratios.uk + x * ratios.tuv == x * (ratios.uk + ratios.tuv);
    ProductSign(x, ratios.uk);
    ProductSign(x, ratios.tuv);
    Shares(x * ratios.uk, x * ratios.tuv)
  }

  // ---------------------------------------------------------------------------
  // Services

  function CostColumn(costs: seq<ServiceCost>): (r: seq<real>)
    ensures |r| == |costs|
    ensures forall i :: 0 <= i < |costs| ==> r[i] == costs[i].cost
  {
    seq(|costs|, i requires 0 <= i < |costs| => costs[i].cost)
  }

  function OtherCostsTotal(costs: seq<ServiceCost>): real
  {
    Sum(CostColumn(costs))
  }

  /** The building-services cost: twelve monthly mandate fees, the annual
      repair fund and every other listed cost. */
  function ServicesCost(data: CalculationData): (r: real)
    ensures r - OtherCostsTotal(data.otherCosts) == 12.0 * data.mandateContractMonthlyCost + data.repairFundAnnualCost
    ensures data.mandateContractMonthlyCost >= 0.0 && data.repairFundAnnualCost >= 0.0
            && (forall i :: 0 <= i < |data.otherCosts| ==> data.otherCosts[i].cost >= 0.0) ==>
      && r >= 0.0
      && (forall i :: 0 <= i < |data.otherCosts| ==> data.otherCosts[i].cost <= r)
  {
    var column := CostColumn(data.otherCosts);
    forall i | 0 <= i < |data.otherCosts| && (forall j :: 0 <= j < |column| ==> column[j] >= 0.0)
      ensures data.otherCosts[i].cost <= OtherCostsTotal(data.otherCosts)
    {
      SumBoundsTerms(column, i);
    }

    data.mandateContractMonthlyCost * 12.0 + data.repairFundAnnualCost + OtherCostsTotal(data.otherCosts)
  }

  /** One more listed cost adds exactly its amount to the services cost. */
  lemma ServicesCostAppend(data: CalculationData, c: ServiceCost)
    ensures ServicesCost(data.(otherCosts := data.otherCosts + [c])) == ServicesCost(data) + c.cost
  {
    assert CostColumn(data.otherCosts + [c]) == CostColumn(data.otherCosts) + [c.cost];
    SumAppend(CostColumn(data.otherCosts), [c.cost]);
  }

  // ---------------------------------------------------------------------------
  // The engine

  /** The engine with the boiler-room name test as a parameter; every law
      below holds whatever the test is. */
  function CalculateTotalsWith(data: CalculationData, matches: string -> bool): (r: CalculationResults)
    ensures r.gasCost == data.gas.totalPriceEUR
    ensures r.gasConsumptionM3 == GasConsumption(data.gas.meters)
    ensures r.gasConsumptionM3 >= 0.0
    ensures forall i :: 0 <= i < |data.gas.meters| ==>
      Clamped(data.gas.meters[i].startM3, data.gas.meters[i].endM3) <= r.gasConsumptionM3
    ensures r.electricityConsumptionKWh >= 0.0
    ensures forall c, s {:trigger IsFirstBoilerRoom(data.electricity.connections, matches, c, s)} ::
      IsFirstBoilerRoom(data.electricity.connections, matches, c, s) ==>
        var conn := data.electricity.connections[c];
        && r.electricityConsumptionKWh == Clamped(conn.subMeters[s].startKWh, conn.subMeters[s].endKWh)
        && r.electricityCost == PriceOf(r.electricityConsumptionKWh, conn.monthlyReadings)
    ensures !AnyBoilerRoom(data.electricity.connections, matches) ==>
      r.electricityConsumptionKWh == 0.0 && r.electricityCost == 0.0
    ensures r.waterConsumptionM3 == WaterTotalM3(data.water.monthlyReadings)
    ensures r.waterCost - data.water.sewerageCost == WaterTotalEUR(data.water.monthlyReadings)
    ensures r.servicesCost == ServicesCost(data)
    ensures r.totalEUR == r.gasCost + r.electricityCost + r.waterCost + r.servicesCost
    ensures r.totalKWh == GasEnergy(r.gasConsumptionM3, data.gasKwhPerM3)
    ensures r.totalGJ * KWH_PER_GJ == r.totalKWh
    ensures data.gasKwhPerM3 >= 0.0 ==> r.totalKWh >= 0.0 && r.totalGJ >= 0.0
    ensures r.ukGJ + r.tuvGJ == r.totalGJ
    ensures r.ukKWh + r.tuvKWh == r.totalKWh
    ensures r.ukEUR + r.tuvEUR == r.gasCost
  {
    Assemble(data, BoilerRoomElectricity(data.electricity.connections, matches))
  }

  /** The results for a record whose boiler-room share is `boiler`; the
      electrical connections are read only through that share. */
  function Assemble(data: CalculationData, boiler: BoilerRoomShare): CalculationResults
  {
    var ratios := HeatSplitRatios(data.ukTuvMeterReadings);
    var gj := Split(TotalGJ(data), ratios);
    var kwh := Split(TotalKWhOf(data), ratios);
    var eur := Split(data.gas.totalPriceEUR, ratios);
    CalculationResults(
      totalEUR := data.gas.totalPriceEUR + boiler.cost + WaterCost(data.water) + ServicesCost(data),
      gasCost := data.gas.totalPriceEUR,
      electricityCost := boiler.cost,
      waterCost := WaterCost(data.water),
      servicesCost := ServicesCost(data),
      electricityConsumptionKWh := boiler.consumptionKWh,
      waterConsumptionM3 := WaterTotalM3(data.water.monthlyReadings),
      gasConsumptionM3 := GasConsumption(data.gas.meters),
      totalGJ := TotalGJ(data),
      totalKWh := TotalKWhOf(data),
      ukGJ := gj.uk,
      ukKWh := kwh.uk,
      ukEUR := eur.uk,
      tuvGJ := gj.tuv,
      tuvKWh := kwh.tuv,
      tuvEUR := eur.tuv)
  }

  /** No share is negative or exceeds what it is a share of, provided the
      amount being split is not negative. */
  lemma HeatSharesBounded(data: CalculationData, matches: string -> bool)
    ensures var r := CalculateTotalsWith(data, matches);
            && (data.gas.totalPriceEUR >= 0.0 ==> 0.0 <= r.ukEUR <= r.gasCost && 0.0 <= r.tuvEUR <= r.gasCost)
            && (data.gasKwhPerM3 >= 0.0 ==> 0.0 <= r.ukGJ <= r.totalGJ && 0.0 <= r.tuvGJ <= r.totalGJ)
            && (data.gasKwhPerM3 >= 0.0 ==> 0.0 <= r.ukKWh <= r.totalKWh && 0.0 <= r.tuvKWh <= r.totalKWh)
  {
    var h := HeatSplitRatios(data.ukTuvMeterReadings);
    var gj := Split(TotalGJ(data), h);
    var kwh := Split(TotalKWhOf(data), h);
    var eur := Split(data.gas.totalPriceEUR, h);
    var r := CalculateTotalsWith(data, matches);
    assert r.ukGJ == gj.uk && r.tuvGJ == gj.tuv && r.totalGJ == TotalGJ(data);
    assert r.ukKWh == kwh.uk && r.tuvKWh == kwh.tuv && r.totalKWh == TotalKWhOf(data);
    assert r.ukEUR == eur.uk && r.tuvEUR == eur.tuv;
  }

  /** With no metered heat at all, central heating and hot water get equal
      halves of the energy and of the gas cost. */
  lemma HeatSharesEvenWhenUnmetered(data: CalculationData, matches: string -> bool)
    requires Clamped(data.ukTuvMeterReadings.ukStartGJ, data.ukTuvMeterReadings.ukEndGJ) == 0.0
    requires Clamped(data.ukTuvMeterReadings.tuvStartGJ, data.ukTuvMeterReadings.tuvEndGJ) == 0.0
    ensures var r := CalculateTotalsWith(data, matches);
            r.ukGJ == r.tuvGJ && r.ukKWh == r.tuvKWh && r.ukEUR == r.tuvEUR
  {
    var h := HeatSplitRatios(data.ukTuvMeterReadings);
    assert h.uk == h.tuv;
    EngineSplitsByRatios(data, matches);
    SplitEven(TotalGJ(data), h);
    SplitEven(TotalKWhOf(data), h);
    SplitEven(data.gas.totalPriceEUR, h);
  }

  lemma SplitEven(x: real, h: HeatRatios)
    requires 0.0 <= h.uk && 0.0 <= h.tuv && h.uk + h.tuv == 1.0
    requires h.uk == h.tuv
    ensures Split(x, h).uk == Split(x, h).tuv
  {
  }


  /** With metered heat, splitting an amount by the heat ratios gives each
      side a share in proportion to its own meter's delta. */
  lemma SplitFollowsMeters(x: real, m: UkTuvMeterReadings)
    ensures var u := Clamped(m.ukStartGJ, m.ukEndGJ);
            var t := Clamped(m.tuvStartGJ, m.tuvEndGJ);
            var shares := Split(x, HeatSplitRatios(m));
            u + t > 0.0 ==> shares.uk * (u + t) == x * u && shares.tuv * (u + t) == x * t
  {
    var u := Clamped(m.ukStartGJ, m.ukEndGJ);
    var t := Clamped(m.tuvStartGJ, m.tuvEndGJ);
    var h := HeatSplitRatios(m);
    if u + t > 0.0 {
      Rescale(x, h.uk, u + t, u);
      Rescale(x, h.tuv, u + t, t);
    }
  }

  /** The engine's six heat shares are the three totals split by the heat
      ratios. */
  lemma EngineSplitsByRatios(data: CalculationData, matches: string -> bool)
    ensures var r := CalculateTotalsWith(data, matches);
            var h := HeatSplitRatios(data.ukTuvMeterReadings);
            && Shares(r.ukEUR, r.tuvEUR) == Split(data.gas.totalPriceEUR, h)
            && Shares(r.ukGJ, r.tuvGJ) == Split(TotalGJ(data), h)
            && Shares(r.ukKWh, r.tuvKWh) == Split(TotalKWhOf(data), h)
            && r.totalGJ == TotalGJ(data) && r.totalKWh == TotalKWhOf(data)
  {
  }

  lemma Rescale(x: real, ratio: real, whole: real, part: real)
    requires ratio * whole == part
    ensures (x * ratio) * whole == x * part
  {
    assert (x * ratio) * whole == x * (ratio * whole);
  }

  function WaterCost(w: Water): real
  {
    WaterTotalEUR(w.monthlyReadings) + w.sewerageCost
  }

  /** Energy in kWh of `m3` cubic metres of gas at `kwhPerM3` kWh each. */
  function GasEnergy(m3: real, kwhPerM3: real): (r: real)
    ensures m3 >= 0.0 && kwhPerM3 >= 0.0 ==> r >= 0.0
    ensures m3 == 0.0 ==> r == 0.0
  {
    ProductSign(m3, kwhPerM3);
    m3 * kwhPerM3
  }

  function TotalKWhOf(data: CalculationData): (r: real)
    ensures data.gasKwhPerM3 >= 0.0 ==> r >= 0.0
  {
    GasEnergy(GasConsumption(data.gas.meters), data.gasKwhPerM3)
  }

  function TotalGJ(data: CalculationData): (r: real)
    ensures r * KWH_PER_GJ == TotalKWhOf(data)
    ensures data.gasKwhPerM3 >= 0.0 ==> r >= 0.0
  {
    TotalKWhOf(data) / KWH_PER_GJ
  }

  /** The name test as the engine writes it. */
  predicate MatchesAsWritten(name: string)
  {
    IsBoilerRoomName(name, BOILER_ROOM_KEY_AS_WRITTEN)
  }

  /** The name test the default submeter name calls for. */
  predicate MatchesIntended(name: string)
  {
    IsBoilerRoomName(name, BOILER_ROOM_KEY_INTENDED)
  }

  /** `calculateTotals` as written. Because its boiler-room test accepts no
      name, the boiler room never contributes electricity and the total is gas,
      water and services alone. */
  function CalculateTotals(data: CalculationData): (r: CalculationResults)
    ensures r.electricityConsumptionKWh == 0.0 && r.electricityCost == 0.0
    ensures r.totalEUR == r.gasCost + r.waterCost + r.servicesCost
    ensures r == CalculateTotalsWith(data, MatchesAsWritten)
  {
    var conns := data.electricity.connections;
    assert !AnyBoilerRoom(conns, MatchesAsWritten) by {
      forall i, j | 0 <= i < |conns| && 0 <= j < |conns[i].subMeters|
        ensures !MatchesAsWritten(conns[i].subMeters[j].name)
      {
        AsWrittenKeyMatchesNothing(conns[i].subMeters[j].name);
      }
    }
    CalculateTotalsWith(data, MatchesAsWritten)
  }

  /** The engine with the test the default data evidently meant: the first
      submeter named "Kotolňa", in any letter case, is the boiler room. */
  function CalculateTotalsIntended(data: CalculationData): (r: CalculationResults)
    ensures forall c, s {:trigger IsFirstBoilerRoom(data.electricity.connections, MatchesIntended, c, s)} ::
      IsFirstBoilerRoom(data.electricity.connections, MatchesIntended, c, s) ==>
        var sm := data.electricity.connections[c].subMeters[s];
        && ToLower(sm.name) == "kotol\U{0148}a"
        && r.electricityConsumptionKWh == Clamped(sm.startKWh, sm.endKWh)
    ensures r.totalEUR == r.gasCost + r.electricityCost + r.waterCost + r.servicesCost
    ensures r == CalculateTotalsWith(data, MatchesIntended)
  {
    CalculateTotalsWith(data, MatchesIntended)
  }

  /** The all-zero results the engine returns when it is given no record. */
  function TotalsOfMaybe(data: Option<CalculationData>): (r: CalculationResults)
    ensures data.None? ==>
      r == CalculationResults(0.0, 0.0, 0.0, 0.0, 0.0, 0.0, 0.0, 0.0, 0.0, 0.0, 0.0, 0.0, 0.0, 0.0, 0.0, 0.0)
    ensures data.Some? ==> r == CalculateTotals(data.value)
  {
    match data
    case None => CalculationResults(0.0, 0.0, 0.0, 0.0, 0.0, 0.0, 0.0, 0.0, 0.0, 0.0, 0.0, 0.0, 0.0, 0.0, 0.0, 0.0)
    case Some(d) => CalculateTotals(d)
  }
}
