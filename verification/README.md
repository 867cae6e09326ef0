# Boiler-room cost calculator — a Dafny model

The calculator keeps one record per calendar year for a residential
building's boiler room. A record holds gas meter readings and the gas
invoice, the central-heating (ÚK) and hot-water (TÚV) heat meters, and two
electrical connections ("Vchod 25" and "Vchod 23") with monthly invoices
and sub-meters (lifts, the bin store "Stojisko", the boiler room "Kotolňa",
the garage). It also holds the water invoices and water meters, and the
service costs (mandate contract, repair fund, other services).

From a record, the allocation engine derives:
- the year's costs;
- the gas energy in kWh and GJ;
- the split of gas energy and gas cost between heating and hot water, in
  proportion to the heat meters.

The application keeps the records in an archive keyed by year. It can add
the next year, seeded from the latest one, and it can lock a year. The
data-entry form edits one field at a time. Its summary view breaks the
electricity invoice and the water bill down between the entrances and
between hot and cold water.

The model has eight modules:
- `Seqs`: sum, first-match search and filter over sequences.
- `Model`: the records and results, the clamped reading difference, the
  guarded quotient and the default sub-meter names.
- `Calculation`: the allocation engine.
- `YearTransition`: the default record and the roll-over to a new year.
- `Archive`: the application's handlers for the archive.
- `Edits`: the form's edit handlers.
- `Summary`: the form's summary derivations.
- `BoilerRoomFinding`: the boiler-room name test on the default record.

All amounts of money, energy and volume are exact `real`s. Occupant counts
are integers.

Several parts of the source become parameters or inputs of the model:
- The creation timestamp used in ids is a `stamp: string` parameter.
- The fallback year is a parameter. The source uses the current calendar
  year minus one when the archive is empty.
- The engine's boiler-room name test is a parameter `matches`. Every engine
  law is proved for any test. The test as written and the corrected test
  are two named instances; see "Findings".
- Text the user types reaches the model already parsed. An edit carries a
  number wherever the form parses one.

## Model

| member | source | states |
|---|---|---|
| Seqs.Sum | services/calculationService.ts:19-22 | the `reduce` total of non-negative terms is non-negative, and of zero terms is zero |
| Seqs.SumAppend | services/calculationService.ts:51 | the total of a concatenation is the sum of the totals (proved by induction) |
| Seqs.SumBoundsTerms | services/calculationService.ts:19-22 | with no negative term, every term is at most the total |
| Seqs.SumUpdate | components/DataInputForm.tsx:236-239 | replacing one term moves the total by exactly the difference of the two terms |
| Seqs.FindFirst | services/calculationService.ts:30 | the index found holds the first element satisfying the test; none is found exactly when no element satisfies it |
| Seqs.Find | components/DataInputForm.tsx:233-234 | `find` returns an element that satisfies the test and has no satisfying element before it; it returns nothing exactly when none satisfies it |
| Seqs.Filter | components/DataInputForm.tsx:84-87 | `filter` returns only accepted elements, and each accepted element occurs in the result exactly as often as in the input; rejected elements do not occur at all |
| Seqs.FilterAppend | components/DataInputForm.tsx:103-108 | filtering distributes over concatenation, so the kept elements stay in their original order; with the counting law of `Filter` this fixes the result completely |
| Seqs.FilterKeepsAll | components/DataInputForm.tsx:84-87 | a filter that accepts every element returns the list unchanged |
| Model.Clamped | services/calculationService.ts:20 | `Math.max(0, end - start)` is non-negative, at least `end - start`, and is either that difference or zero |
| Model.Quotient | components/DataInputForm.tsx:243 | the guarded average times a positive denominator gives back the numerator; for a non-positive denominator it is zero |
| Calculation.ToLower | services/calculationService.ts:30 | lower-casing keeps the length |
| Calculation.ToLowerHasNoCapitalARing | services/calculationService.ts:30 | no lower-cased text contains the capital letter Å |
| Calculation.AsWrittenKeyMatchesNothing | services/calculationService.ts:30 | the engine's name test as written accepts no sub-meter name at all |
| Calculation.IntendedKeyMatchesKotolna | App.tsx:29 | the intended test accepts the default name "Kotolňa" in lower and upper case and rejects "Kotolna" |
| Calculation.GasConsumption | services/calculationService.ts:19-22 | the gas volume is non-negative, at least every meter's clamped difference, and zero when no meter advanced |
| Calculation.GasConsumptionAppend | services/calculationService.ts:19-22 | one more meter adds exactly its clamped difference |
| Calculation.AveragePrice | services/calculationService.ts:35-37 | the average price times the connection's kWh is its invoiced EUR; it is zero when no kWh was invoiced |
| Calculation.PriceOf | services/calculationService.ts:35-39 | the boiler-room cost times the connection's invoiced kWh is the boiler-room kWh times the invoiced EUR, i.e. kWh × ΣEUR / ΣkWh; it is zero when no kWh was invoiced |
| Calculation.BoilerRoomElectricity | services/calculationService.ts:28-43 | only the first matching sub-meter counts: the first one in the first connection that has one. Its clamped difference is charged at that connection's average price; with no match both amounts are zero |
| Calculation.FirstBoilerRoomUnique | services/calculationService.ts:40 | at most one (connection, sub-meter) pair is the first match |
| Calculation.FirstBoilerRoomExists | services/calculationService.ts:29-31 | any matching sub-meter implies a first one |
| Calculation.BoilerRoomIgnoresLaterConnections | services/calculationService.ts:40 | once a boiler room is found, connections appended later change nothing |
| Calculation.HeatSplitRatios | services/calculationService.ts:59-69 | the two ratios lie in [0, 1] and sum to 1. They are proportional to the clamped heat-meter differences, or 0.5 each when both differences are zero |
| Calculation.Split | services/calculationService.ts:72-79 | the heating and hot-water shares add up to the amount split, and neither exceeds it when the amount is non-negative |
| Calculation.ServicesCost | services/calculationService.ts:49-52 | the services cost less the other services' total is twelve monthly mandate fees plus the repair fund; with no negative fee or cost it is non-negative and at least every listed cost |
| Calculation.ServicesCostAppend | services/calculationService.ts:51 | one more listed service cost adds exactly its amount to the services cost |
| Calculation.GasEnergy | services/calculationService.ts:56 | the gas energy is non-negative for non-negative inputs and zero for no gas |
| Calculation.TotalGJ | services/calculationService.ts:57 | the GJ total times 277.778 is the kWh total |
| Calculation.CalculateTotalsWith | services/calculationService.ts:6-99 | gas cost is the invoice and the gas volume is the sum of the meters' clamped differences; electricity is the first boiler-room sub-meter's clamped difference priced at its connection's average, or zero without one; water cost is the invoices plus sewerage; the total is the four costs; GJ times 277.778 is the kWh; the heating and hot-water shares add up to GJ, kWh and gas cost |
| Calculation.HeatSharesBounded | services/calculationService.ts:72-79 | no heating or hot-water share is negative or exceeds the amount it is a share of |
| Calculation.HeatSharesEvenWhenUnmetered | services/calculationService.ts:63-64 | with both heat meters idle, heating and hot water get equal shares |
| Calculation.SplitFollowsMeters | services/calculationService.ts:66-75 | with metered heat, each share times the metered total equals the amount times that meter's difference |
| Calculation.EngineSplitsByRatios | services/calculationService.ts:72-79 | the engine's GJ, kWh and EUR shares are the amounts split by the heat-meter ratios |
| Calculation.Rescale | services/calculationService.ts:72-75 | scaling a ratio scales the proportion it satisfies |
| Calculation.CalculateTotals | services/calculationService.ts:6-99 | the engine as written never charges any electricity, so the total is gas plus water plus services |
| Calculation.CalculateTotalsIntended | services/calculationService.ts:28-43 | with the corrected test, the electricity consumption is the clamped difference of the first sub-meter named "kotolňa" in any case, and the total still sums the four costs |
| Calculation.TotalsOfMaybe | services/calculationService.ts:7-15 | a missing record yields results whose sixteen fields are all zero; a present one gets the engine's results |
| YearTransition.ZeroMonthlyReadings | App.tsx:23 | thirteen slots, numbered 1 to 13, that total zero kWh and zero EUR |
| YearTransition.ZeroWaterMonthlyReadings | App.tsx:40 | thirteen slots, numbered 1 to 13, that total zero m³ and zero EUR |
| YearTransition.CreateDefaultData | App.tsx:12-55 | the default record: unlocked, one zeroed gas meter, 10.92 kWh/m³, a 50 % hot-water share, and the two connections with their named sub-meters and zeroed months |
| YearTransition.CarryGasMeters | App.tsx:63-68 | each meter keeps its number and starts and ends at last year's end reading |
| YearTransition.CarrySubMeters | App.tsx:84-89 | each sub-meter keeps its name and starts and ends at last year's end reading |
| YearTransition.CarryConnections | App.tsx:79-90 | each connection keeps its name and meter number, gets zeroed months and carried sub-meters |
| YearTransition.CarryWaterSubMeters | App.tsx:99-104 | each water sub-meter keeps its name and starts and ends at last year's end reading |
| YearTransition.CarryOtherCosts | App.tsx:111-115 | each service cost keeps its name and amount |
| YearTransition.CreateDataFromPreviousYear | App.tsx:57-117 | the next year is unlocked and one year later. Meters carry on from last year's end readings, invoices and measured water are reset, and configuration and fixed costs are kept |
| YearTransition.FlatSubMetersDrawNothing | services/calculationService.ts:32 | when no sub-meter advanced, the boiler room draws nothing |
| YearTransition.RolloverStartsEmpty | App.tsx:57-117 | a freshly rolled-over year costs only last year's services. It has no gas, electricity, water or energy, and an even heat split |
| YearTransition.RolloverSettles | App.tsx:57-117 | rolling over twice is two years later, and carries the same readings as rolling over once: gas meters, heat meters, every electricity sub-meter's start and end, every water sub-meter's start and end, and the main water meter's start and end |
| YearTransition.IdleRecordCostsNothing | services/calculationService.ts:17-79 | a record with idle meters and zero invoices and fees costs nothing |
| YearTransition.DefaultDataStartsEmpty | App.tsx:12-55 | the default record costs nothing |
| Archive.LatestYear | App.tsx:123-124 | `Math.max` over the stored years is a stored year and at least every stored year |
| Archive.LatestYearExists | App.tsx:124 | every non-empty set of years has a maximum (proved by induction) |
| Archive.InitialYear | App.tsx:122-125 | start-up shows the latest stored year, or the fallback year when nothing is stored |
| Archive.CurrentData | App.tsx:127-133 | the record on screen is the stored one, or a default record for that year |
| Archive.HandleDataChange | App.tsx:135-138 | an edited record is filed under its own year and no other year changes |
| Archive.HandleYearChange | App.tsx:140-144 | only years strictly between 1900 and 2100 are accepted; any other leaves the year unchanged |
| Archive.HandleAddNewYear | App.tsx:146-165 | the new year follows every stored year, or follows the fallback year. It is never already stored, so nothing is overwritten. It is seeded from the latest record, or from defaults when the archive is empty |
| Archive.HandleToggleLock | App.tsx:167-170 | only `isLocked` flips, and the record is stored under its year |
| Archive.EditIsShown | App.tsx:127-138 | after storing an edit, that year shows the edited record |
| Archive.ToggleLockTwiceRestores | App.tsx:167-170 | toggling twice restores the record |
| Archive.DataChangeKeepsWellKeyed | App.tsx:137 | storing keeps every record under its own year |
| Archive.AddNewYearKeepsWellKeyed | App.tsx:146-165 | adding a year keeps every record under its own year |
| Archive.AddNewYearTwice | App.tsx:146-165 | adding twice adds two consecutive years, the second seeded from the first |
| Edits.EngineReadsOnlyItsInputs | services/calculationService.ts:6-99 | records that agree on gas, heat meters, connections, water invoices, sewerage and service costs get identical results |
| Edits.HandleGasMeterChange | components/DataInputForm.tsx:72-77 | only the edited field of the edited meter changes |
| Edits.GasMeterEditShiftsConsumption | components/DataInputForm.tsx:72-77 | a meter edit moves the gas volume by that meter's change in clamped difference |
| Edits.AddGasMeter | components/DataInputForm.tsx:79-82 | an empty meter is appended and nothing else changes |
| Edits.AddGasMeterKeepsResults | components/DataInputForm.tsx:79-82 | adding a meter changes no result |
| Edits.RemoveGasMeter | components/DataInputForm.tsx:84-87 | every meter with the id is dropped; every other meter is kept as often as it occurred and in its original order, the result being the `filter` of the list |
| Edits.RemoveUndoesAddGasMeter | components/DataInputForm.tsx:79-87 | removing a just-added meter with a fresh id restores the record |
| Edits.HandleOtherCostChange | components/DataInputForm.tsx:89-94 | only the edited field of the edited service cost changes |
| Edits.OtherCostEditShiftsServices | components/DataInputForm.tsx:89-94 | a cost edit moves the services cost by the change in that cost |
| Edits.AddOtherCost | components/DataInputForm.tsx:96-101 | an empty service cost is appended and nothing else changes |
| Edits.AddOtherCostKeepsServices | components/DataInputForm.tsx:96-101 | adding a cost keeps the services cost |
| Edits.RemoveOtherCost | components/DataInputForm.tsx:103-108 | every cost with the id is dropped; every other cost is kept as often as it occurred and in its original order, the result being the `filter` of the list |
| Edits.RemoveUndoesAddOtherCost | components/DataInputForm.tsx:96-108 | removing a just-added cost with a fresh id restores the record |
| Edits.HandleUkTuvChange | components/DataInputForm.tsx:110-118 | only the chosen heat-meter reading changes |
| Edits.HeatEditOnlyMovesShares | components/DataInputForm.tsx:110-118 | a heat-meter edit changes only the heating and hot-water shares |
| Edits.EditReadings | components/DataInputForm.tsx:131-134 | only the slot at the month index changes; an index outside the list changes nothing |
| Edits.HandleElectricityChange | components/DataInputForm.tsx:120-142 | only the edited connection's meter number or one month changes; an index outside the list changes nothing |
| Edits.MonthlyEditShiftsTotals | components/DataInputForm.tsx:131-134 | a month edit moves that connection's kWh or EUR total by the change in the slot, and leaves the other total alone |
| Edits.BoilerRoomFollowsSubMeters | services/calculationService.ts:29-39 | the boiler-room share depends only on the sub-meters and on that connection's invoices |
| Edits.ConnectionEditKeepsBoilerRoomConsumption | components/DataInputForm.tsx:120-142 | an invoice edit never changes the boiler-room consumption, and a meter-number edit changes no result |
| Edits.HandleWaterChange | components/DataInputForm.tsx:144-163 | only the meter number, the sewerage cost or the one edited month changes |
| Edits.WaterEditShiftsWaterCost | components/DataInputForm.tsx:144-163 | a water edit moves the water cost or volume by exactly the edited amount's change |
| Edits.HandleElecSubMeterChange | components/DataInputForm.tsx:166-176 | only the chosen reading of the chosen sub-meter changes, and no name changes |
| Edits.SubMeterEditReachesOnlyTheBoilerRoom | components/DataInputForm.tsx:166-176 | editing any sub-meter other than the boiler room changes no result. Editing the boiler room sets its consumption to the new clamped difference |
| Edits.EngineReadsOnlyItsInputsButConnections | services/calculationService.ts:6-99 | connections that yield the same boiler-room share yield the same results |
| Edits.EngineSeesOnlyTheBoilerRoomShare | services/calculationService.ts:28-43 | the connection list reaches the results only through the boiler-room share |
| Edits.HandleWaterSubMeterChange | components/DataInputForm.tsx:178-184 | only the chosen reading of the chosen water sub-meter changes |
| Edits.HandleWaterPropertyChange | components/DataInputForm.tsx:186-188 | only the chosen water property changes |
| Edits.HandleUserCountChange | components/DataInputForm.tsx:190-201 | only the chosen entrance's occupant count changes |
| Edits.HandleWaterTuvRatioChange | components/DataInputForm.tsx:203-212 | the hot-water share is clamped into [0, 100]. Values in range are kept, values below become 0 and values above become 100 |
| Edits.TuvRatioChangeIdempotent | components/DataInputForm.tsx:203-212 | entering the same value again changes nothing |
| Edits.SummaryOnlyEditsKeepResults | components/DataInputForm.tsx:178-212 | water sub-meter, water property, occupant and hot-water share edits change no engine result |
| Summary.FindConnection | components/DataInputForm.tsx:233-234 | the connection found carries the name and no connection before it does; none is found exactly when no connection carries the name |
| Summary.FindSubMeter | components/DataInputForm.tsx:247-248 | the sub-meter found carries the name and no sub-meter before it does; none is found exactly when no sub-meter carries the name |
| Summary.SubMeterKWh | components/DataInputForm.tsx:271-297 | the raw, unclamped difference of the named sub-meter, or zero when it or its connection is missing |
| Summary.AvgHousePrice | components/DataInputForm.tsx:236-243 | the house average is the two entrances' invoiced EUR over their invoiced kWh, a missing connection counting as zero; it is zero when no kWh was invoiced |
| Summary.AvgHousePriceRecoversInvoice | components/DataInputForm.tsx:241-243 | the house average charged on the house's invoiced kWh gives back the invoiced EUR |
| Summary.SubMeterEditKeepsOtherNames | components/DataInputForm.tsx:166-176 | a reading edit on a sub-meter with another name changes neither which connection carries a name, nor its invoiced totals, nor the difference the summary reads for the name |
| Summary.SubMeterEditKeepsLighting25 | components/DataInputForm.tsx:245-252 | entrance 25's lighting, its invoiced kWh less the lift and bin store, is unchanged by editing any sub-meter other than those two |
| Summary.SubMeterEditKeepsLighting23 | components/DataInputForm.tsx:254-263 | entrance 23's lighting, its invoiced kWh less the lift, boiler room and garage, is unchanged by editing any sub-meter other than those three |
| Summary.UserRatiosOf | components/DataInputForm.tsx:265-285 | each ratio is that entrance's share of the occupants. The two ratios sum to 1 when there are occupants and are both zero otherwise |
| Summary.StojiskoSplitConserves | components/DataInputForm.tsx:274-286 | the bin store's two shares add up to its consumption when there are occupants, and are zero otherwise |
| Summary.Row | components/DataInputForm.tsx:276-291 | an entrance's EUR row is its kWh row priced at the house average, and both totals add up their rows |
| Summary.Entrance23 | components/DataInputForm.tsx:270-281 | entrance 23's rows are its lighting, its lift and its occupant share of the bin store |
| Summary.Entrance25 | components/DataInputForm.tsx:282-291 | entrance 25's rows are its lighting, its lift and its occupant share of the bin store |
| Summary.SharedRowsOf | components/DataInputForm.tsx:292-300 | boiler room, bin store and garage priced at the average; three garage parts make the garage total |
| Summary.HouseKWhBalance | components/DataInputForm.tsx:241-300 | with occupants recorded, both entrance totals plus boiler room and garage give back the house's kWh |
| Summary.HouseEurBalance | components/DataInputForm.tsx:241-300 | with occupants recorded, the summary's EUR rows add up to the house's electricity invoice whenever any kWh was invoiced |
| Summary.HouseKWhWithoutOccupants | components/DataInputForm.tsx:251-300 | with no occupants recorded, neither entrance is charged any bin-store share, yet entrance 25's lighting already excludes the bin store, so the rows fall short of the house's kWh by exactly the bin store's consumption |
| Summary.SplitByPercent | components/DataInputForm.tsx:314-321 | the hot- and cold-water parts add up to the whole, and the hot part is the entered percentage of it |
| Summary.WaterSummaryOf | components/DataInputForm.tsx:302-321 | the measured percentages sum to 100; lost water plus measured water is the main meter's consumption; the bill and the lost water split without remainder |
| Summary.MeasuredRatioIsPercentage | components/DataInputForm.tsx:303-307 | non-negative volumes give percentages within [0, 100] |
| Summary.WaterBillMatchesEngine | components/DataInputForm.tsx:310-311 | the water bill the summary splits is the engine's water cost |
| BoilerRoomFinding.DefaultsWithBoilerReading | App.tsx:27-31 | the default record with a boiler-room reading keeps the default names |
| BoilerRoomFinding.AsWrittenEngineIgnoresBoilerRoom | services/calculationService.ts:30 | after a positive boiler-room reading, the engine as written reports no electricity while the summary reports the reading |
| BoilerRoomFinding.IntendedEngineSeesBoilerRoom | services/calculationService.ts:28-33 | with the corrected test, the engine and the summary both report the reading |
| BoilerRoomFinding.SummarySeesBoilerReading | components/DataInputForm.tsx:292-293 | the summary finds "Vchod 23" and its "Kotolňa" sub-meter by name |

## Left out

- Rendering, formatting, tabs, the archive list view and the results
  display are left out. They derive nothing the model does not.
- Browser persistence (`useLocalStorage`) is left out. The archive is a
  plain map of year to record.
- The `new Date()` clock is replaced by a `stamp` string for ids and a
  fallback year parameter. Ids made from it are not claimed to be unique.
  A removal lemma assumes the fresh id is not already in use.
- One clock reading serves a whole roll-over: every id in it comes from the
  same `stamp`. The source reads the clock once per carried element, so
  its ids within one roll-over can differ in their milliseconds.
- The `|| 0` fall-backs, `parseFloat` and `parseInt` are left out. They
  matter only for missing fields, NaN or text input, and in the model every
  field is present and every number parsed.
- IEEE-754 rounding is left out: arithmetic is exact on `real`.
- The rounded occupant percentages (`Math.round`, DataInputForm.tsx:266-267)
  are left out. They are display only; the unrounded ratios are modelled.
- Calculation.ToLower: covers Basic Latin, Latin-1 and Latin Extended-A.
  It leaves U+0130 (İ) and every character outside these blocks unchanged;
  JavaScript maps İ to two characters.
- Edits.HandleGasMeterChange: requires an index inside the list. For any
  other index, JavaScript would write a partial meter past the end; the
  form never does this.
- Edits.HandleOtherCostChange: requires an index inside the list, for the
  same reason.
- Edits.HandleWaterPropertyChange: covers the four numeric fields the form
  edits through it. The handler's key type admits any water field.
- Field/value combinations the form never sends cannot be written in the
  edit datatypes, for example a number for a meter number. The source
  ignores them.
- The lock does not appear in the handlers. The form disables its inputs
  when the year is locked; that is user-interface behaviour.
- Edits outside the named handlers are left out: the gas price, the
  calorific factor and the fixed fees, which the form writes inline.

## Findings

| source | as written | input that shows it | evidently intended | confidence | as-written member | corrected member |
|---|---|---|---|---|---|---|
| services/calculationService.ts:30 | compares the lower-cased sub-meter name with `'kotolÅˆa'`. That is "kotolňa" with its UTF-8 bytes for "ň" read as Windows-1252, so it contains a capital Å, which no lower-cased name contains | the default record with the "Kotolňa" sub-meter of "Vchod 23" reading from 0 to 100 kWh: the engine reports 0 kWh and 0 EUR of electricity, while the summary shows 100 kWh for the boiler room | compare with `'kotolňa'`, so that the default boiler-room sub-meter is found and charged | high; not executed | Calculation.CalculateTotals, BoilerRoomFinding.AsWrittenEngineIgnoresBoilerRoom | Calculation.CalculateTotalsIntended, BoilerRoomFinding.IntendedEngineSeesBoilerRoom |

Every engine law (`Calculation.CalculateTotalsWith` and the lemmas about
it) is stated for any name test. It therefore holds for the corrected
engine.
