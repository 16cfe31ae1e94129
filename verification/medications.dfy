/** The static drug data of the calculator: the preset bag for each drug and the
    per-drug high-dose threshold on the weight-based rate (µg/kg/min). */
module Medications {
  import opened Wrappers

  /** A preset infusion bag: total drug in mg dissolved in a volume in ml. */
  datatype Preset = Preset(doseMg: real, volumeMl: real)

  /** The preset table, keyed by drug name. */
  const Presets: map<string, Preset> := map[
    "Levophed" := Preset(16.0, 266.0),
    "Dopamine" := Preset(800.0, 270.0),
    "Epinephrine" := Preset(10.0, 260.0),
    "Midazolam" := Preset(90.0, 90.0),
    "Atracurium" := Preset(200.0, 100.0)
  ]

  const LevophedThresholdA: real := 0.5
  const DopamineThresholdA: real := 20.0
  const AtracuriumThresholdA: real := 20.0

  /** The same thresholds as a table: the drugs that have one, and its value. */
  const Thresholds: map<string, real> := map[
    "Levophed" := LevophedThresholdA,
    "Dopamine" := DopamineThresholdA,
    "Atracurium" := AtracuriumThresholdA
  ]

  /** Whether rate A is flagged as a high dose for the selected drug (if any):
      the drug-by-drug comparison the page performs after showing the rates. */
  function HighDoseWarning(medication: Option<string>, a: real): (warn: bool)
    ensures warn ==> medication.Some? && medication.value in Presets
    ensures warn ==> a > LevophedThresholdA
  {
    if medication == Some("Levophed") then a > LevophedThresholdA
    else if medication == Some("Dopamine") then a > DopamineThresholdA
    else if medication == Some("Atracurium") then a > AtracuriumThresholdA
    else false
  }

  /** Every preset bag holds a positive dose in a positive volume. */
  lemma PresetsArePositive(name: string)
    requires name in Presets
    ensures Presets[name].doseMg > 0.0 && Presets[name].volumeMl > 0.0
  {
  }

  /** The warning agrees with the threshold table: it is raised exactly when the
      selected drug has a threshold and rate A strictly exceeds it. */
  lemma WarningMatchesThresholds(medication: Option<string>, a: real)
    ensures HighDoseWarning(medication, a)
        <==> medication.Some? && medication.value in Thresholds && a > Thresholds[medication.value]
  {
    if medication.Some? && medication.value in Thresholds {
      var m := medication.value;
      assert m == "Levophed" || m == "Dopamine" || m == "Atracurium";
    } else if medication.Some? {
      var m := medication.value;
      assert m != "Levophed" && m != "Dopamine" && m != "Atracurium";
    }
  }

  /** Drugs without a threshold, and no selection at all, never warn. */
  lemma UnthresholdedNeverWarn(medication: Option<string>, a: real)
    requires medication == None || medication == Some("Epinephrine") || medication == Some("Midazolam")
    ensures !HighDoseWarning(medication, a)
  {
  }

  /** Raising rate A never withdraws a warning. */
  lemma WarningIsMonotone(medication: Option<string>, a: real, a': real)
    requires a <= a'
    requires HighDoseWarning(medication, a)
    ensures HighDoseWarning(medication, a')
  {
  }
}
