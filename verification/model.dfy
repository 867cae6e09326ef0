/** The data model of one year's record (`CalculationData`) and of the results
    the allocation engine derives from it (`CalculationResults`). Every amount of
    money, energy or volume is an exact `real`; ids and meter numbers are opaque
    strings. */
module Model {

  import Seqs

  /** Names the default record gives its connections and sub-meters; the
      summary view looks them up by exact equality. */
  const ENTRANCE_25: string := "Vchod 25"
  const ENTRANCE_23: string := "Vchod 23"
  const LIFT_25: string := "V\U{00FD}\U{0165}ah 25"
  const LIFT_23: string := "V\U{00FD}\U{0165}ah 23"
  const STOJISKO: string := "Stojisko"
  const KOTOLNA: string := "Kotol\U{0148}a"
  const GARAZ: string := "Garaz"
  const REFILL: string := "Dop\U{00FA}\U{0161}\U{0165}anie"

  datatype ServiceCost = ServiceCost(id: string, name: string, cost: real)

  datatype GasMeter = GasMeter(id: string, meterNumber: string, startM3: real, endM3: real)

  datatype ElectricitySubMeter = ElectricitySubMeter(id: string, name: string, startKWh: real, endKWh: real)

  /** One slot of a connection's monthly invoice list. */
  datatype MonthlyReading = MonthlyReading(month: int, kWh: real, eur: real)

  /** One slot of the water invoice list. */
  datatype WaterMonthlyReading = WaterMonthlyReading(month: int, m3: real, eur: real)

  datatype ElectricalConnection = ElectricalConnection(
    id: string,
    name: string,
    meterNumber: string,
    monthlyReadings: seq<MonthlyReading>,
    subMeters: seq<ElectricitySubMeter>)

  datatype WaterSubMeter = WaterSubMeter(id: string, name: string, startM3: real, endM3: real)

  datatype Gas = Gas(meters: seq<GasMeter>, totalPriceEUR: real)

  /** The central-heating (UK) and hot-water (TÚV) heat meters, in GJ. */
  datatype UkTuvMeterReadings = UkTuvMeterReadings(ukStartGJ: real, ukEndGJ: real, tuvStartGJ: real, tuvEndGJ: real)

  /** Occupants per entrance; whole numbers, used as allocation weights. */
  datatype UserCounts = UserCounts(vchod25: int, vchod23: int)

  datatype Electricity = Electricity(connections: seq<ElectricalConnection>, userCounts: UserCounts)

  datatype Water = Water(
    meterNumber: string,
    monthlyReadings: seq<WaterMonthlyReading>,
    sewerageCost: real,
    mainMeterStartM3: real,
    mainMeterEndM3: real,
    subMeters: seq<WaterSubMeter>,
    measuredConsumptionSvM3: real,
    measuredConsumptionTuvM3: real,
    tuvDistributionPercent: real)

  /** One calendar year's readings, invoices and configuration. */
  datatype CalculationData = CalculationData(
    year: int,
    isLocked: bool,
    gas: Gas,
    gasKwhPerM3: real,
    ukTuvMeterReadings: UkTuvMeterReadings,
    electricity: Electricity,
    water: Water,
    mandateContractMonthlyCost: real,
    repairFundAnnualCost: real,
    otherCosts: seq<ServiceCost>)

  /** Every year's record, keyed by year. */
  type CalculationArchive = map<int, CalculationData>

  datatype CalculationResults = CalculationResults(
    totalEUR: real,
    gasCost: real,
    electricityCost: real,
    waterCost: real,
    servicesCost: real,
    electricityConsumptionKWh: real,
    waterConsumptionM3: real,
    gasConsumptionM3: real,
    totalGJ: real,
    totalKWh: real,
    ukGJ: real,
    ukKWh: real,
    ukEUR: real,
    tuvGJ: real,
    tuvKWh: real,
    tuvEUR: real)

  /** The amount consumed between two readings, clamped at zero (`Math.max(0, end - start)`). */
  function Clamped(start: real, end: real): (r: real)
    ensures r >= 0.0 && r >= end - start
    ensures r == end - start || r == 0.0
  {
    if end - start > 0.0 then end - start else 0.0
  }

  /** `num / den` for a positive denominator, zero otherwise (the
      `den > 0 ? num / den : 0` guard). */
  function Quotient(num: real, den: real): (r: real)
    ensures den > 0.0 ==> r * den == num
    ensures den <= 0.0 ==> r == 0.0
  {
    if den > 0.0 then num / den else 0.0
  }

  /** Total kWh over a connection's monthly slots. */
  function TotalKWh(readings: seq<MonthlyReading>): real
  {
    Seqs.Sum(seq(|readings|, i requires 0 <= i < |readings| => readings[i].kWh))
  }

  /** Total invoiced EUR over a connection's monthly slots. */
  function TotalEUR(readings: seq<MonthlyReading>): real
  {
    Seqs.Sum(seq(|readings|, i requires 0 <= i < |readings| => readings[i].eur))
  }

  /** Total m³ over the water monthly slots. */
  function WaterTotalM3(readings: seq<WaterMonthlyReading>): real
  {
    Seqs.Sum(seq(|readings|, i requires 0 <= i < |readings| => readings[i].m3))
  }

  /** Total invoiced EUR over the water monthly slots. */
  function WaterTotalEUR(readings: seq<WaterMonthlyReading>): real
  {
    Seqs.Sum(seq(|readings|, i requires 0 <= i < |readings| => readings[i].eur))
  }
}
