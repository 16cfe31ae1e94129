# Infusion rate calculator — Dafny model

This project models the conversion core of a web-page calculator (`script.js`)
that a nurse uses to titrate an intravenous infusion. The calculator holds a bag
(total dose in mg dissolved in a dilution volume in ml), the patient's weight in
kg, and three linked rate boxes:

- **A**: dosing rate in µg/kg/min;
- **B**: dosing rate in mg/h;
- **C**: pump rate in ml/h.

When the user commits one rate box, the page derives the other two from it.
Typing into dose or volume, pressing Enter in weight, or selecting a drug makes
no box active; a stepper button keeps the active box as it was. Each
update runs a validity gate on dose, volume and weight first, then shows either
nothing, an error message, or three rates. When a drug with a threshold is
selected, rate A is flagged if it is above that threshold.

The model is pure and functional, over Dafny `real`:

- `wrappers.dfy` holds `Option` and `Result`. `Result` replaces the
  exception the page throws and catches.
- `entries.dfy` holds one input box as `Entry` (empty, unreadable text, or a
  parsed number), reading a box (`safeGetNumber`), rounding to hundredths for
  display, and the +/- stepper arithmetic.
- `medications.dfy` holds the preset bag table, the three high-dose thresholds
  and the warning test.
- `reconcile.dfy` holds the state of the page and `UpdateAll`, the decision
  logic of `updateAll`. It also holds the write-back of the shown values into
  the rate boxes (`Render`), drug selection, committing a rate box, and the
  stepper.
- `properties.dfy` holds the lemmas that relate several updates: any one rate
  determines the others, zero propagation, exact round trips and the error
  bound of a rounded one, pass-through when no box is active, stability after
  the write-back, drug selection, stepper effects, and sample cases.

The outcome of an update is `Blank`, `Error(msg)` or `Rates(a, b, c, warn)`.
The rates are kept unrounded, as the code uses them for the warning. `Render`
applies the two-decimal rounding that the page writes into the boxes.

Points where the behaviour of `script.js` is easy to misread:

- The explicit zeroing at script.js:84, 97 and 110 fires when the committed box
  is NOT empty and reads as 0, such as "0" or unreadable text. The comment at
  script.js:84 describes it as handling an emptied box. An emptied box
  goes through the conversion formulas instead. `ZeroBranchesAgree` and
  `ZeroPropagates` show that both paths give zeros.
- A stepper button (script.js:168-180) does not reset the active box. It
  re-runs the update with whatever box was active before.
- The pump rate is computed with the exact concentration, not a rounded one:
  Levophed (16 mg in 266 ml) for 70 kg gives 34.9125 ml/h at A = 0.5 and
  41.895 ml/h at A = 0.6 (`LevophedAtThreshold`, `LevophedAboveThreshold`).
- Over the reals, committing a derived rate exactly reproduces the other two
  (`RoundTripThroughC`). A round trip through the shown, rounded pump rate can
  move A by up to concentration / (12 × weight) (`RoundedFeedBackError`), and
  this can exceed 0.01: an Atracurium bag (200 mg in 100 ml) for 10 kg at
  A = 0.05 shows C = 0.02 instead of 0.015, and committing it gives A = 1/15
  (`RoundedRoundTripCanExceedHundredth`).

## Model

| member | source | states |
|---|---|---|
| Entries.SafeGetNumber | script.js:41-44 | a box yields a nonzero number only when its text parsed to exactly that number; an empty or unreadable box reads as 0 |
| Entries.RoundToTwoDecimals | script.js:47-49 | the shown rate is a whole number of hundredths within half a hundredth of the rate (halves go up) |
| Entries.RoundFixesHundredths | script.js:47-49 | a number already in hundredths is shown unchanged |
| Entries.RoundIsIdempotent | script.js:47-49 | rounding a shown value again changes nothing |
| Entries.RoundIsMonotone | script.js:47-49 | rounding preserves the order of two rates |
| Entries.Stepped | script.js:173-177 | "+" adds one; "−" is the larger of 0 and one less, so it never goes below zero |
| Entries.StepEntry | script.js:171-178 | a stepped box holds a number: the old reading (0 if unreadable) stepped |
| Entries.DecrementUndoesIncrement | script.js:173-177 | "−" after "+" restores any non-negative value |
| Entries.IncrementUndoesDecrement | script.js:173-177 | "+" after "−" restores any value of at least one |
| Medications.PresetsArePositive | script.js:2-8 | every preset bag has a positive dose and a positive volume |
| Medications.HighDoseWarning | script.js:139-153 | only a drug in the preset table can warn, and no warning is raised at or below 0.5 µg/kg/min |
| Medications.WarningMatchesThresholds | script.js:11-15 | the warning is raised exactly when the selected drug has a threshold (Levophed 0.5, Dopamine 20, Atracurium 20) and A strictly exceeds it |
| Medications.UnthresholdedNeverWarn | script.js:11-15 | Epinephrine, Midazolam and no selection never warn |
| Medications.WarningIsMonotone | script.js:139-153 | raising A never withdraws a warning |
| Reconcile.FromA | script.js:88-92 | from a committed A: A kept, B and C consistent with it; the zero-concentration error exactly when the concentration is 0 |
| Reconcile.ScaleRoundTrip | script.js:88-101 | the mg/h to µg/kg/min conversion and its inverse cancel |
| Reconcile.FromB | script.js:101-105 | from a committed B: B kept, A and C consistent with it; the error exactly when the concentration is 0 |
| Reconcile.FromC | script.js:114-118 | from a committed C: C kept, A and B consistent with it; the error exactly when the concentration is 0 |
| Reconcile.Derive | script.js:80-120 | the error arises exactly for a zero concentration and an active box that is not force-zeroed; otherwise an active box keeps its number and the triple is consistent; with no active box the boxes are read as they stand |
| Reconcile.UpdateAll | script.js:52-165 | gate: blank exactly when dose, volume and weight all read 0, otherwise the input error when any is ≤ 0; the zero-concentration error never appears; an active box keeps its number and the shown triple is consistent; a valid input is never an error; with no active box, blank exactly when all rates read 0, otherwise the three box values are shown unchanged; the flag is the drug's threshold test on A |
| Reconcile.Render | script.js:133-136 | blank and error clear the three rate boxes; shown rates are written in hundredths within half a hundredth; dose, volume and weight are untouched |
| Reconcile.SetActiveInputType | script.js:183-186 | committing a box stores its content and makes it active; the other boxes and the drug stay as they were |
| Reconcile.SelectMedication | script.js:189-197 | an unknown name changes nothing; a known one loads its dose and volume, selects the drug and makes no box active, keeping weight and rates |
| Reconcile.StepInput | script.js:168-180 | a stepper changes only its target box, to the stepped reading; the active box and the drug are unchanged |
| Properties.ConsistentIsDetermined | script.js:88-118 | for a positive weight and concentration, any one rate fixes the other two |
| Properties.CommittedBoxIsAuthoritative | script.js:76-120 | with an active box, the outcome depends only on the bag, the weight, that box's number and the drug |
| Properties.ZeroPropagates | script.js:84-118 | an active box reading 0 (typed 0, unreadable or emptied) shows 0 in all three rates with no warning |
| Properties.ZeroBranchesAgree | script.js:84-118 | the explicit zeroing and the conversion formulas agree on a zero input |
| Properties.ConcentrationIsPositive | script.js:60-74 | past the gate the concentration is positive and the conversions never raise the zero-concentration error |
| Properties.FeedBackReproduces | script.js:80-120 | writing any shown rate back exactly into its box and committing it reproduces the same outcome |
| Properties.RoundTripThroughC | script.js:88-118 | A gives B and C; committing that C gives back the same A and B |
| Properties.PumpRateErrorBound | script.js:117-118 | a pump rate off by at most 0.005 moves B by at most 0.005 × concentration and A by at most concentration / (12 × weight) |
| Properties.RoundedFeedBackError | script.js:109-136 | committing the shown, rounded C keeps C, B and A within those bounds of the exact outcome |
| Properties.RoundedRoundTripCanExceedHundredth | script.js:109-136 | Atracurium bag, 10 kg, A = 0.05: C = 0.015 is shown as 0.02, and committing it moves A to 1/15, more than 0.01 away |
| Properties.PassThroughIgnoresBag | script.js:121-136 | with no active box, changing the bag or weight (while valid) leaves the outcome unchanged |
| Properties.WarningLeavesRatesAlone | script.js:139-153 | changing the selected drug changes at most the warning flag, never what is shown |
| Properties.RefreshIsStable | script.js:133-136 | after the rounded rates are written back, a second update gives the same outcome when the active number was already in hundredths |
| Properties.SelectKeepsWellFormed | script.js:189-191 | the selected drug is always one from the preset table |
| Properties.SelectIsIdempotent | script.js:189-197 | selecting the same drug twice equals selecting it once |
| Properties.SelectThenUpdate | script.js:189-197 | after a drug is chosen for a weighed patient, the gate passes; all-zero rates blank the display, others pass through, flagged against the new drug |
| Properties.StepOtherRateIsIgnored | script.js:168-180 | stepping a rate box that is not active leaves the outcome unchanged |
| Properties.StepActiveRate | script.js:168-180 | stepping the active rate box moves that rate by one (floored at 0) and re-derives the others consistently |
| Properties.LevophedAtThreshold | script.js:141-144 | Levophed bag, 70 kg, A = 0.5: B = 2.1, C = 34.9125 and no warning (0.5 is not above the threshold) |
| Properties.LevophedAboveThreshold | script.js:141-144 | Levophed bag, 70 kg, A = 0.6: B = 2.52, C = 41.895 and a warning |
| Properties.DopamineFromPumpRate | script.js:114-118 | Dopamine, 80 kg, C = 10: B = 800/27 and A = 500/81, with no warning |
| Properties.GateSamples | script.js:60-71 | dose 10 with no volume and weight 70 is the input error; nothing entered is blank |

## Left out

- DOM look-ups, event-listener wiring, and writing error text and CSS classes
  (script.js:19-32, 199-238) are presentation only. Committing a rate box is
  modelled by `SetActiveInputType`. The input events on dose and volume and
  the Enter key on weight (script.js:214-229) only store the new box content
  and set the active box to none before the update; that transition is not a
  separate member.
- The string semantics of `parseFloat` and `toFixed` are not modelled. A box is
  already parsed (`Entry`). A written rate is assumed to read back as the
  rounded number.
- IEEE-754 behaviour (NaN, infinities, binary rounding such as 1.005 rounding
  down) is not modelled. All arithmetic is exact over `real`.
- Exceptions (script.js:80, 156-164) are replaced by the `Result` and
  `Outcome` datatypes.
- The warning CSS class is not cleared on the early returns at script.js:71
  and script.js:130, so a stale flag can stay on the page. The model has a flag
  only on the path that shows rates.
- Reconcile.SelectMedication: `MEDICATIONS[medName]` also succeeds for names
  inherited from JavaScript's object prototype (such as "toString"). The model
  accepts only the five preset names, which are the only names the buttons
  pass.
