/** The summary view of the data-entry form: how the house's electricity
    invoice is broken down into per-entrance lighting, lift and bin-store
    shares, the boiler room and the garage, and how the water bill and the
    unmetered ("lost") water are split between hot and cold water. Names are
    matched exactly, and sub-meter differences are taken as entered (not
    clamped at zero), as the view does. */
module Summary {

  import opened Seqs
  import opened Model
  import Calculation
  import Edits

  /** The garage's consumption is shared by three parties. */
  const GARAGE_PARTIES: real := 3.0
  const FULL_PERCENT: real := 100.0

  // ---------------------------------------------------------------------------
  // Lookups

  function ConnectionNamed(name: string): ElectricalConnection -> bool
  {
    (c: ElectricalConnection) => c.name == name
  }

  function SubMeterNamed(name: string): ElectricitySubMeter -> bool
  {
    (sm: ElectricitySubMeter) => sm.name == name
  }

  /** The first connection called `name`, as `find` returns it. */
  function FindConnection(conns: seq<ElectricalConnection>, name: string): (r: Option<ElectricalConnection>)
    ensures r.Some? ==> r.value in conns && r.value.name == name
    ensures r.Some? ==> exists k :: 0 <= k < |conns| && conns[k] == r.value && forall j :: 0 <= j < k ==> conns[j].name != name
    ensures r.None? <==> forall i :: 0 <= i < |conns| ==> conns[i].name != name
  {
    Find(conns, ConnectionNamed(name))
  }

  /** The first sub-meter called `name`, as `find` returns it. */
  function FindSubMeter(subs: seq<ElectricitySubMeter>, name: string): (r: Option<ElectricitySubMeter>)
    ensures r.Some? ==> r.value in subs && r.value.name == name
    ensures r.Some? ==> exists k :: 0 <= k < |subs| && subs[k] == r.value && forall j :: 0 <= j < k ==> subs[j].name != name
    ensures r.None? <==> forall i :: 0 <= i < |subs| ==> subs[i].name != name
  {
    Find(subs, SubMeterNamed(name))
  }

  function Conn23(data: CalculationData): Option<ElectricalConnection>
  {
    FindConnection(data.electricity.connections, ENTRANCE_23)
  }

  function Conn25(data: CalculationData): Option<ElectricalConnection>
  {
    FindConnection(data.electricity.connections, ENTRANCE_25)
  }

  /** The raw difference of the first sub-meter of `conn` named `name`; zero
      when the connection or the sub-meter is missing. */
  function SubMeterKWh(conn: Option<ElectricalConnection>, name: string): (r: real)
    ensures conn.None? ==> r == 0.0
    ensures conn.Some? && (forall i :: 0 <= i < |conn.value.subMeters| ==> conn.value.subMeters[i].name != name) ==> r == 0.0
    ensures conn.Some? && FindSubMeter(conn.value.subMeters, name).Some? ==>
      var sm := FindSubMeter(conn.value.subMeters, name).value;
      sm.name == name && r + sm.startKWh == sm.endKWh
  {
    match conn
    case None => 0.0
    case Some(c) =>
      match FindSubMeter(c.subMeters, name)
      case None => 0.0
      case Some(sm) => sm.endKWh - sm.startKWh
  }

  function ConnTotalKWh(conn: Option<ElectricalConnection>): (r: real)
    ensures conn.None? ==> r == 0.0
    ensures conn.Some? ==> r == TotalKWh(conn.value.monthlyReadings)
  {
    if conn.Some? then TotalKWh(conn.value.monthlyReadings) else 0.0
  }

  function ConnTotalEUR(conn: Option<ElectricalConnection>): (r: real)
    ensures conn.None? ==> r == 0.0
    ensures conn.Some? ==> r == TotalEUR(conn.value.monthlyReadings)
  {
    if conn.Some? then TotalEUR(conn.value.monthlyReadings) else 0.0
  }

  // ---------------------------------------------------------------------------
  // House totals and the average price

  function TotalHouseKWh(data: CalculationData): real
  {
    ConnTotalKWh(Conn23(data)) + ConnTotalKWh(Conn25(data))
  }

  function TotalHouseEUR(data: CalculationData): real
  {
    ConnTotalEUR(Conn23(data)) + ConnTotalEUR(Conn25(data))
  }

  /** The average price per kWh over both entrance connections; zero when
      they recorded no consumption. */
  function AvgHousePrice(data: CalculationData): (r: real)
    ensures TotalHouseKWh(data) > 0.0 ==> r == TotalHouseEUR(data) / TotalHouseKWh(data)
    ensures TotalHouseKWh(data) <= 0.0 ==> r == 0.0
  {
    Quotient(TotalHouseEUR(data), TotalHouseKWh(data))
  }

  /** The house average, charged on the house's kWh, gives back its invoice. */
  lemma AvgHousePriceRecoversInvoice(data: CalculationData)
    ensures TotalHouseKWh(data) > 0.0 ==> AvgHousePrice(data) * TotalHouseKWh(data) == TotalHouseEUR(data)
  {
    DivisionRecovers(TotalHouseEUR(data), TotalHouseKWh(data), AvgHousePrice(data));
  }

  lemma DivisionRecovers(num: real, den: real, q: real)
    ensures den > 0.0 && q == num / den ==> q * den == num
  {
  }

  /** An amount of energy priced at the house average. */
  function Priced(kwh: real, avg: real): real
  {
    kwh * avg
  }

  lemma PricedAdds(a: real, b: real, avg: real)
    ensures Priced(a, avg) + Priced(b, avg) == Priced(a + b, avg)
  {
  }

  // ---------------------------------------------------------------------------
  // Stairwell lighting

  /** Lighting in entrance 25: the connection's total less the lift and the
      bin store; zero without the connection. */
  function Osvetlenie25(data: CalculationData): (r: real)
    ensures Conn25(data).None? ==> r == 0.0
    ensures Conn25(data).Some? ==>
      r + SubMeterKWh(Conn25(data), LIFT_25) + SubMeterKWh(Conn25(data), STOJISKO) == ConnTotalKWh(Conn25(data))
  {
    var conn := Conn25(data);
    if conn.None? then 0.0
    else ConnTotalKWh(conn) - SubMeterKWh(conn, LIFT_25) - SubMeterKWh(conn, STOJISKO)
  }

  /** Lighting in entrance 23: the connection's total less the lift, the
      boiler room and the garage; zero without the connection. */
  function Osvetlenie23(data: CalculationData): (r: real)
    ensures Conn23(data).None? ==> r == 0.0
    ensures Conn23(data).Some? ==>
      r + SubMeterKWh(Conn23(data), LIFT_23) + SubMeterKWh(Conn23(data), KOTOLNA) + SubMeterKWh(Conn23(data), GARAZ)
        == ConnTotalKWh(Conn23(data))
  {
    var conn := Conn23(data);
    if conn.None? then 0.0
    else ConnTotalKWh(conn) - SubMeterKWh(conn, LIFT_23) - SubMeterKWh(conn, KOTOLNA) - SubMeterKWh(conn, GARAZ)
  }

  /** A reading edit on a sub-meter not called `name` changes neither which
      connection is called `cname`, nor its invoiced totals, nor the reading
      difference of its sub-meter called `name`. */
  lemma {:induction false} SubMeterEditKeepsOtherNames(
    data: CalculationData, connIndex: int, smIndex: int, f: Edits.SubMeterField, value: real,
    cname: string, name: string)
    requires 0 <= connIndex < |data.electricity.connections|
             && 0 <= smIndex < |data.electricity.connections[connIndex].subMeters| ==>
               data.electricity.connections[connIndex].subMeters[smIndex].name != name
    ensures var after := Edits.HandleElecSubMeterChange(data, connIndex, smIndex, f, value).electricity.connections;
            var before := data.electricity.connections;
            && FindConnection(after, cname).None? == FindConnection(before, cname).None?
            && ConnTotalKWh(FindConnection(after, cname)) == ConnTotalKWh(FindConnection(before, cname))
            && ConnTotalEUR(FindConnection(after, cname)) == ConnTotalEUR(FindConnection(before, cname))
            && SubMeterKWh(FindConnection(after, cname), name) == SubMeterKWh(FindConnection(before, cname), name)
  {
    var before := data.electricity.connections;
    var after := Edits.HandleElecSubMeterChange(data, connIndex, smIndex, f, value).electricity.connections;
    var p := ConnectionNamed(cname);
    forall i | 0 <= i < |before|
      ensures p(before[i]) == p(after[i])
    {
      assert after[i].name == after[i].(subMeters := before[i].subMeters).name;
    }
    FindFirstAgrees(before, p, after, p);
    match FindFirst(before, p)
    case None =>
    case Some(k) =>
      assert after[k].monthlyReadings == after[k].(subMeters := before[k].subMeters).monthlyReadings;
      SubMeterLookupKept(before[k].subMeters, after[k].subMeters, if k == connIndex then smIndex else -1, name);
  }

  /** Sub-meter lists that differ at most in the readings at `changed`, a
      position not called `name`, show the same difference for `name`. */
  lemma SubMeterLookupKept(before: seq<ElectricitySubMeter>, after: seq<ElectricitySubMeter>, changed: int, name: string)
    requires |after| == |before|
    requires forall j :: 0 <= j < |before| ==> after[j].name == before[j].name
    requires forall j :: 0 <= j < |before| && j != changed ==> after[j] == before[j]
    requires 0 <= changed < |before| ==> before[changed].name != name
    ensures FindSubMeter(after, name) == FindSubMeter(before, name)
  {
    var q := SubMeterNamed(name);
    FindFirstAgrees(before, q, after, q);
  }

  /** Entrance 23's lighting moves only with the sub-meters it is reduced by:
      editing any sub-meter not called "Výťah 23", "Kotolňa" or "Garaz"
      leaves it as it was. */
  lemma SubMeterEditKeepsLighting23(data: CalculationData, connIndex: int, smIndex: int, f: Edits.SubMeterField, value: real)
    requires 0 <= connIndex < |data.electricity.connections|
             && 0 <= smIndex < |data.electricity.connections[connIndex].subMeters| ==>
               var name := data.electricity.connections[connIndex].subMeters[smIndex].name;
               name != LIFT_23 && name != KOTOLNA && name != GARAZ
    ensures Osvetlenie23(Edits.HandleElecSubMeterChange(data, connIndex, smIndex, f, value)) == Osvetlenie23(data)
  {
    SubMeterEditKeepsOtherNames(data, connIndex, smIndex, f, value, ENTRANCE_23, LIFT_23);
    SubMeterEditKeepsOtherNames(data, connIndex, smIndex, f, value, ENTRANCE_23, KOTOLNA);
    SubMeterEditKeepsOtherNames(data, connIndex, smIndex, f, value, ENTRANCE_23, GARAZ);
    LightingParts23(data);
    LightingParts23(Edits.HandleElecSubMeterChange(data, connIndex, smIndex, f, value));
  }

  /** Entrance 23's lighting in terms of the readings it is reduced by. */
  lemma LightingParts23(d: CalculationData)
    ensures Osvetlenie23(d) == if Conn23(d).None? then 0.0
      else ConnTotalKWh(Conn23(d)) - SubMeterKWh(Conn23(d), LIFT_23) - SubMeterKWh(Conn23(d), KOTOLNA) - SubMeterKWh(Conn23(d), GARAZ)
  {
  }

  /** Entrance 25's lighting moves only with the sub-meters it is reduced by:
      editing any sub-meter not called "Výťah 25" or "Stojisko" leaves it as
      it was. */
  lemma SubMeterEditKeepsLighting25(data: CalculationData, connIndex: int, smIndex: int, f: Edits.SubMeterField, value: real)
    requires 0 <= connIndex < |data.electricity.connections|
             && 0 <= smIndex < |data.electricity.connections[connIndex].subMeters| ==>
               var name := data.electricity.connections[connIndex].subMeters[smIndex].name;
               name != LIFT_25 && name != STOJISKO
    ensures Osvetlenie25(Edits.HandleElecSubMeterChange(data, connIndex, smIndex, f, value)) == Osvetlenie25(data)
  {
    SubMeterEditKeepsOtherNames(data, connIndex, smIndex, f, value, ENTRANCE_25, LIFT_25);
    SubMeterEditKeepsOtherNames(data, connIndex, smIndex, f, value, ENTRANCE_25, STOJISKO);
  }

  // ---------------------------------------------------------------------------
  // Occupants and the bin-store split

  function TotalUsers(data: CalculationData): int
  {
    data.electricity.userCounts.vchod25 + data.electricity.userCounts.vchod23
  }

  datatype UserRatios = UserRatios(vchod23: real, vchod25: real)

  /** Each entrance's share of the occupants; both zero when there are no
      occupants in total. */
  function UserRatiosOf(data: CalculationData): (r: UserRatios)
    ensures TotalUsers(data) > 0 ==> r.vchod23 + r.vchod25 == 1.0
    ensures TotalUsers(data) > 0 ==>
      r.vchod23 * (TotalUsers(data) as real) == data.electricity.userCounts.vchod23 as real
      && r.vchod25 * (TotalUsers(data) as real) == data.electricity.userCounts.vchod25 as real
    ensures TotalUsers(data) <= 0 ==> r == UserRatios(0.0, 0.0)
    ensures data.electricity.userCounts.vchod23 >= 0 && data.electricity.userCounts.vchod25 >= 0 ==>
      0.0 <= r.vchod23 <= 1.0 && 0.0 <= r.vchod25 <= 1.0
  {
    var total := TotalUsers(data);
    var c := data.electricity.userCounts;
    if total > 0 then UserRatios(c.vchod23 as real / total as real, c.vchod25 as real / total as real)
    else UserRatios(0.0, 0.0)
  }

  function StojiskoTotalKWh(data: CalculationData): real
  {
    SubMeterKWh(Conn25(data), STOJISKO)
  }

  function Share(x: real, ratio: real): real
  {
    x * ratio
  }

  /** The bin store's consumption divided between the entrances by
      occupants: nothing is lost when there are occupants, and neither
      entrance is charged when there are none. */
  lemma StojiskoSplitConserves(data: CalculationData)
    ensures var ratios, total := UserRatiosOf(data), StojiskoTotalKWh(data);
      && (TotalUsers(data) > 0 ==> Share(total, ratios.vchod23) + Share(total, ratios.vchod25) == total)
      && (TotalUsers(data) <= 0 ==> Share(total, ratios.vchod23) == 0.0 && Share(total, ratios.vchod25) == 0.0)
  {
    var ratios := UserRatiosOf(data);
    ShareConserves(StojiskoTotalKWh(data), ratios.vchod23, ratios.vchod25);
  }

  /** Shares by ratios summing to one add back up to the amount; zero ratios
      give zero shares. */
  lemma ShareConserves(x: real, a: real, b: real)
    ensures a + b == 1.0 ==> Share(x, a) + Share(x, b) == x
    ensures a == 0.0 && b == 0.0 ==> Share(x, a) == 0.0 && Share(x, b) == 0.0
  {
    assert Share(x, a) + Share(x, b) == x * (a + b);
  }

  // ---------------------------------------------------------------------------
  // Per-entrance rows

  /** One entrance's block of the summary: lighting, lift and its bin-store
      share, in kWh and priced at the house average, with the totals. */
  datatype EntranceRow = EntranceRow(
    osvetlenieKWh: real, vytahKWh: real, stojiskoKWh: real,
    osvetlenieEur: real, vytahEur: real, stojiskoEur: real,
    totalKWh: real, totalEur: real)

  function Row(osvetlenie: real, vytah: real, stojisko: real, avg: real): (r: EntranceRow)
    ensures r.totalKWh == r.osvetlenieKWh + r.vytahKWh + r.stojiskoKWh
    ensures r.totalEur == r.osvetlenieEur + r.vytahEur + r.stojiskoEur
    ensures r.totalEur == Priced(r.totalKWh, avg)
    ensures r.osvetlenieEur == Priced(r.osvetlenieKWh, avg) && r.vytahEur == Priced(r.vytahKWh, avg)
      && r.stojiskoEur == Priced(r.stojiskoKWh, avg)
  {
    PricedAdds(osvetlenie, vytah, avg);
    PricedAdds(osvetlenie + vytah, stojisko, avg);
    EntranceRow(osvetlenie, vytah, stojisko,
      Priced(osvetlenie, avg), Priced(vytah, avg), Priced(stojisko, avg),
      osvetlenie + vytah + stojisko,
      Priced(osvetlenie, avg) + Priced(vytah, avg) + Priced(stojisko, avg))
  }

  /** Entrance 23: its lighting, its lift and its occupants' share of the bin store. */
  function Entrance23(data: CalculationData): (r: EntranceRow)
    ensures r.osvetlenieKWh == Osvetlenie23(data)
    ensures r.vytahKWh == SubMeterKWh(Conn23(data), LIFT_23)
    ensures r.stojiskoKWh == Share(StojiskoTotalKWh(data), UserRatiosOf(data).vchod23)
    ensures r.totalEur == Priced(r.totalKWh, AvgHousePrice(data))
  {
    Row(Osvetlenie23(data), SubMeterKWh(Conn23(data), LIFT_23),
        Share(StojiskoTotalKWh(data), UserRatiosOf(data).vchod23), AvgHousePrice(data))
  }

  /** Entrance 25: its lighting, its lift and its occupants' share of the bin store. */
  function Entrance25(data: CalculationData): (r: EntranceRow)
    ensures r.osvetlenieKWh == Osvetlenie25(data)
    ensures r.vytahKWh == SubMeterKWh(Conn25(data), LIFT_25)
    ensures r.stojiskoKWh == Share(StojiskoTotalKWh(data), UserRatiosOf(data).vchod25)
    ensures r.totalEur == Priced(r.totalKWh, AvgHousePrice(data))
  {
    Row(Osvetlenie25(data), SubMeterKWh(Conn25(data), LIFT_25),
        Share(StojiskoTotalKWh(data), UserRatiosOf(data).vchod25), AvgHousePrice(data))
  }

  // ---------------------------------------------------------------------------
  // Shared rows: boiler room, bin store, garage

  datatype SharedRows = SharedRows(
    kotolnaKWh: real, kotolnaEur: real,
    stojiskoTotalKWh: real, stojiskoTotalEur: real,
    garazTotalKWh: real, garazTotalEur: real,
    garazSplitKWh: real, garazSplitEur: real)

  /** The boiler room and garage are read from entrance 23's connection, the
      bin store from entrance 25's; the garage is divided into three equal
      parts. */
  function SharedRowsOf(data: CalculationData): (r: SharedRows)
    ensures r.kotolnaKWh == SubMeterKWh(Conn23(data), KOTOLNA)
    ensures r.garazTotalKWh == SubMeterKWh(Conn23(data), GARAZ)
    ensures r.stojiskoTotalKWh == SubMeterKWh(Conn25(data), STOJISKO)
    ensures r.kotolnaEur == Priced(r.kotolnaKWh, AvgHousePrice(data))
    ensures r.stojiskoTotalEur == Priced(r.stojiskoTotalKWh, AvgHousePrice(data))
    ensures r.garazTotalEur == Priced(r.garazTotalKWh, AvgHousePrice(data))
    ensures GARAGE_PARTIES * r.garazSplitKWh == r.garazTotalKWh
    ensures GARAGE_PARTIES * r.garazSplitEur == r.garazTotalEur
  {
    var avg := AvgHousePrice(data);
    var kotolna := SubMeterKWh(Conn23(data), KOTOLNA);
    var stojisko := StojiskoTotalKWh(data);
    var garaz := SubMeterKWh(Conn23(data), GARAZ);
    SharedRows(kotolna, Priced(kotolna, avg), stojisko, Priced(stojisko, avg),
               garaz, Priced(garaz, avg), garaz / GARAGE_PARTIES, Priced(garaz, avg) / GARAGE_PARTIES)
  }

  /** The electricity summary accounts for the whole house: with occupants
      recorded, the two entrance totals plus the boiler room and the garage
      give back the kWh of both entrance connections. */
  lemma HouseKWhBalance(data: CalculationData)
    requires TotalUsers(data) > 0
    ensures Entrance23(data).totalKWh + Entrance25(data).totalKWh
          + SharedRowsOf(data).kotolnaKWh + SharedRowsOf(data).garazTotalKWh
         == TotalHouseKWh(data)
  {
    StojiskoSplitConserves(data);
  }

  /** Without occupants the summary loses the bin store: neither entrance is
      charged a share of it, yet entrance 25's lighting has already been
      reduced by it, so the rows fall short of the house's kWh by exactly the
      bin store's consumption. */
  lemma HouseKWhWithoutOccupants(data: CalculationData)
    requires TotalUsers(data) <= 0
    ensures Entrance23(data).totalKWh + Entrance25(data).totalKWh
          + SharedRowsOf(data).kotolnaKWh + SharedRowsOf(data).garazTotalKWh
         == TotalHouseKWh(data) - StojiskoTotalKWh(data)
  {
    Entrance25WithoutOccupants(data);
    Entrance23WithoutOccupants(data);
  }

  lemma Entrance25WithoutOccupants(data: CalculationData)
    requires TotalUsers(data) <= 0
    ensures Entrance25(data).totalKWh == ConnTotalKWh(Conn25(data)) - StojiskoTotalKWh(data)
  {
    StojiskoSplitConserves(data);
    if Conn25(data).None? {
      assert StojiskoTotalKWh(data) == 0.0;
    }
  }

  lemma Entrance23WithoutOccupants(data: CalculationData)
    requires TotalUsers(data) <= 0
    ensures Entrance23(data).totalKWh + SharedRowsOf(data).kotolnaKWh + SharedRowsOf(data).garazTotalKWh
         == ConnTotalKWh(Conn23(data))
  {
    StojiskoSplitConserves(data);
  }

  /** The same balance in money: the summary's rows add up to the house's
      consumption priced at the average, which is the invoiced total
      whenever any consumption was invoiced. */
  lemma HouseEurBalance(data: CalculationData)
    requires TotalUsers(data) > 0
    ensures var e23, e25, shared := Entrance23(data), Entrance25(data), SharedRowsOf(data);
      e23.totalEur + e25.totalEur + shared.kotolnaEur + shared.garazTotalEur
        == Priced(TotalHouseKWh(data), AvgHousePrice(data))
    ensures TotalHouseKWh(data) > 0.0 ==>
      var e23, e25, shared := Entrance23(data), Entrance25(data), SharedRowsOf(data);
      e23.totalEur + e25.totalEur + shared.kotolnaEur + shared.garazTotalEur == TotalHouseEUR(data)
  {
    var e23, e25, shared := Entrance23(data), Entrance25(data), SharedRowsOf(data);
    HouseKWhBalance(data);
    PricedBalance(e23.totalKWh, e25.totalKWh, shared.kotolnaKWh, shared.garazTotalKWh,
                  TotalHouseKWh(data), TotalHouseEUR(data));
  }

  /** Four parts of a consumption, each priced at the average price of the
      whole, add up to the whole's invoice. */
  lemma PricedBalance(a: real, b: real, c: real, d: real, kwh: real, eur: real)
    requires a + b + c + d == kwh
    ensures var avg := Quotient(eur, kwh);
      && Priced(a, avg) + Priced(b, avg) + Priced(c, avg) + Priced(d, avg) == Priced(kwh, avg)
      && (kwh > 0.0 ==> Priced(kwh, avg) == eur)
  {
    PricedSums(a, b, c, d, Quotient(eur, kwh));
  }

  lemma PricedSums(a: real, b: real, c: real, d: real, avg: real)
    ensures Priced(a, avg) + Priced(b, avg) + Priced(c, avg) + Priced(d, avg) == Priced(a + b + c + d, avg)
  {
    PricedAdds(a, b, avg);
    PricedAdds(a + b, c, avg);
    PricedAdds(a + b + c, d, avg);
  }

  // ---------------------------------------------------------------------------
  // Water

  datatype PercentSplit = PercentSplit(tuv: real, sv: real)

  /** `x` split by a hot-water percentage and its complement to 100. */
  function SplitByPercent(x: real, tuvPercent: real): (r: PercentSplit)
    ensures r.tuv + r.sv == x
    ensures r.tuv * FULL_PERCENT == x * tuvPercent
    ensures 0.0 <= tuvPercent <= FULL_PERCENT && x >= 0.0 ==> 0.0 <= r.tuv <= x && 0.0 <= r.sv <= x
  {
    var tuvShare := tuvPercent / FULL_PERCENT;
    var svShare := (FULL_PERCENT - tuvPercent) / FULL_PERCENT;
    assert tuvShare + svShare == 1.0;
    Calculation.ProductSign(x, tuvShare);
    Calculation.ProductSign(x, svShare);
    assert x * tuvShare + x * svShare == x * (tuvShare + svShare);
    PercentSplit(x * tuvShare, x * svShare)
  }

  datatype WaterSummary = WaterSummary(
    totalMeasuredM3: real,
    pomerTuvPercent: real, pomerSvPercent: real,
    mainConsumptionM3: real,
    totalWaterCostEUR: real,
    stratenaM3: real,
    tuvPercentInput: real, svPercentInput: real,
    faktura: PercentSplit,
    stratena: PercentSplit)

  /** The water block: the measured hot/cold ratio, the main meter's
      consumption, the water bill, the water the sub-meters did not account
      for, and the bill and the lost water split by the entered hot-water
      percentage. */
  function WaterSummaryOf(w: Water): (r: WaterSummary)
    ensures r.totalMeasuredM3 == w.measuredConsumptionTuvM3 + w.measuredConsumptionSvM3
    ensures r.totalMeasuredM3 > 0.0 ==> r.pomerTuvPercent * r.totalMeasuredM3 == w.measuredConsumptionTuvM3 * FULL_PERCENT
    ensures r.totalMeasuredM3 <= 0.0 ==> r.pomerTuvPercent == 0.0
    ensures r.pomerTuvPercent + r.pomerSvPercent == FULL_PERCENT
    ensures r.mainConsumptionM3 + w.mainMeterStartM3 == w.mainMeterEndM3
    ensures r.stratenaM3 + r.totalMeasuredM3 == r.mainConsumptionM3
    ensures r.totalWaterCostEUR - w.sewerageCost == WaterTotalEUR(w.monthlyReadings)
    ensures r.tuvPercentInput == w.tuvDistributionPercent
    ensures r.tuvPercentInput + r.svPercentInput == FULL_PERCENT
    ensures r.faktura.tuv + r.faktura.sv == r.totalWaterCostEUR
    ensures r.faktura.tuv * FULL_PERCENT == r.totalWaterCostEUR * r.tuvPercentInput
    ensures r.stratena.tuv + r.stratena.sv == r.stratenaM3
    ensures r.stratena.tuv * FULL_PERCENT == r.stratenaM3 * r.tuvPercentInput
  {
    var tuv, sv := w.measuredConsumptionTuvM3, w.measuredConsumptionSvM3;
    var measured := tuv + sv;
    var pomerTuv := if measured > 0.0 then tuv / measured * FULL_PERCENT else 0.0;
    var main := w.mainMeterEndM3 - w.mainMeterStartM3;
    var cost := WaterTotalEUR(w.monthlyReadings) + w.sewerageCost;
    var lost := main - measured;
    var percent := w.tuvDistributionPercent;
    WaterSummary(measured, pomerTuv, FULL_PERCENT - pomerTuv, main, cost, lost,
                 percent, FULL_PERCENT - percent,
                 SplitByPercent(cost, percent), SplitByPercent(lost, percent))
  }

  /** The measured hot-water ratio is a percentage when both volumes are
      non-negative. */
  lemma MeasuredRatioIsPercentage(w: Water)
    requires w.measuredConsumptionTuvM3 >= 0.0 && w.measuredConsumptionSvM3 >= 0.0
    ensures 0.0 <= WaterSummaryOf(w).pomerTuvPercent <= FULL_PERCENT
    ensures 0.0 <= WaterSummaryOf(w).pomerSvPercent <= FULL_PERCENT
  {
    var r := WaterSummaryOf(w);
    if r.totalMeasuredM3 > 0.0 {
      var q := w.measuredConsumptionTuvM3 / r.totalMeasuredM3;
      assert 0.0 <= q <= 1.0;
    }
  }

  /** The water bill the summary splits is the water cost the engine charges. */
  lemma WaterBillMatchesEngine(data: CalculationData, matches: string -> bool)
    ensures WaterSummaryOf(data.water).totalWaterCostEUR == Calculation.CalculateTotalsWith(data, matches).waterCost
  {
  }
}
