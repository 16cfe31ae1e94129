/** Properties of the reconciliation engine that relate several updates or
    several states: the rates are determined by any one of them, round trips
    through another box reproduce the same infusion, and the behaviour of
    drug selection and the stepper buttons. */
module Properties {
  import opened Wrappers
  import opened Entries
  import opened Medications
  import opened Reconcile

  /** For a real patient and bag, any one rate fixes the other two: two
      consistent triples that agree on one box agree on all three. */
  lemma ConsistentIsDetermined(t1: Triple, t2: Triple, weight: real, conc: real, f: Field)
    requires weight > 0.0 && conc > 0.0
    requires Consistent(t1, weight, conc) && Consistent(t2, weight, conc)
    requires Component(t1, f) == Component(t2, f)
    ensures t1 == t2
  {
    match f
    case A =>
      assert t1.b == t2.b;
      assert (t1.c - t2.c) * conc == 0.0;
    case B =>
      assert (t1.a - t2.a) * (weight * 60.0 / 1000.0) == 0.0;
      assert (t1.c - t2.c) * conc == 0.0;
    case C =>
      assert t1.b == t2.b;
      assert (t1.a - t2.a) * (weight * 60.0 / 1000.0) == 0.0;
  }

  /** The outcome of an update with a committed box depends only on the bag,
      the weight, the number in that box and the selected drug: the other two
      rate boxes are ignored. */
  lemma CommittedBoxIsAuthoritative(s: State, s': State)
    requires GatePasses(s) && s.active.Some?
    requires Dose(s') == Dose(s) && Volume(s') == Volume(s) && Weight(s') == Weight(s)
    requires s'.active == s.active && s'.medication == s.medication
    requires SafeGetNumber(RateEntry(s'.form, s.active.value)) == SafeGetNumber(RateEntry(s.form, s.active.value))
    ensures UpdateAll(s') == UpdateAll(s)
  {
    var r, r' := UpdateAll(s), UpdateAll(s');
    ConsistentIsDetermined(RatesOf(r), RatesOf(r'), Weight(s), Concentration(s), s.active.value);
  }

  /** Zero propagation: a committed box reading zero (typed "0", unreadable
      text, or emptied) shows zero in all three boxes and never warns. */
  lemma ZeroPropagates(s: State)
    requires GatePasses(s) && s.active.Some?
    requires SafeGetNumber(RateEntry(s.form, s.active.value)) == 0.0
    ensures UpdateAll(s) == Rates(0.0, 0.0, 0.0, false)
  {
    var r := UpdateAll(s);
    ConsistentIsDetermined(RatesOf(r), Triple(0.0, 0.0, 0.0), Weight(s), Concentration(s), s.active.value);
  }

  /** The explicit zeroing taken for a non-empty box reading zero and the
      conversion formula taken for an emptied box give the same rates. */
  lemma ZeroBranchesAgree(weight: real, conc: real)
    requires weight > 0.0 && conc > 0.0
    ensures FromA(0.0, weight, conc) == Ok(Triple(0.0, 0.0, 0.0))
    ensures FromB(0.0, weight, conc) == Ok(Triple(0.0, 0.0, 0.0))
    ensures FromC(0.0, weight, conc) == Ok(Triple(0.0, 0.0, 0.0))
  {
  }

  /** Past the validity gate the concentration is positive, so the conversions
      never reach their zero-concentration error. */
  lemma ConcentrationIsPositive(s: State)
    requires GatePasses(s)
    ensures Concentration(s) > 0.0
    ensures Derive(s.active, Weight(s), Concentration(s), s.form).Ok?
  {
  }

  /** Round trip: writing any one shown rate back into its own box and committing
      that box reproduces exactly the same outcome. */
  lemma FeedBackReproduces(s: State, g: Field)
    requires GatePasses(s) && s.active.Some?
    ensures UpdateAll(s).Rates?
    ensures
      var r := UpdateAll(s);
      UpdateAll(SetActiveInputType(s, g, Holding(Component(RatesOf(r), g)))) == r
  {
    var r := UpdateAll(s);
    var s' := SetActiveInputType(s, g, Holding(Component(RatesOf(r), g)));
    var r' := UpdateAll(s');
    assert GatePasses(s');
    ConsistentIsDetermined(RatesOf(r), RatesOf(r'), Weight(s), Concentration(s), g);
  }

  /** The round trip A -> (B, C) -> C: committing the derived pump rate as C
      gives back the same A and B. */
  lemma RoundTripThroughC(s: State, x: real)
    requires GatePasses(s)
    ensures
      var r := UpdateAll(SetActiveInputType(s, A, Holding(x)));
      && r.Rates? && r.a == x
      && UpdateAll(SetActiveInputType(s, C, Holding(r.c))) == r
  {
    var s1 := SetActiveInputType(s, A, Holding(x));
    var r := UpdateAll(s1);
    FeedBackReproduces(s1, C);
    var s2 := SetActiveInputType(s1, C, Holding(r.c));
    var s3 := SetActiveInputType(s, C, Holding(r.c));
    CommittedBoxIsAuthoritative(s2, s3);
  }

  /** Scaling by a positive factor keeps a number inside its (scaled) bounds. */
  lemma ScaleBounds(x: real, lo: real, hi: real, m: real)
    requires lo < x <= hi && m > 0.0
    ensures lo * m < x * m <= hi * m
  {
    assert (x - lo) * m > 0.0;
    assert (hi - x) * m >= 0.0;
  }

  /** Two consistent triples whose pump rates differ by at most half a
      hundredth differ in B by at most that much times the concentration, and in
      A by at most concentration / (12 * weight). */
  lemma PumpRateErrorBound(t: Triple, t': Triple, weight: real, conc: real)
    requires weight > 0.0 && conc > 0.0
    requires Consistent(t, weight, conc) && Consistent(t', weight, conc)
    requires -0.005 < t'.c - t.c <= 0.005
    ensures -0.005 * conc < t'.b - t.b <= 0.005 * conc
    ensures -conc / (12.0 * weight) < t'.a - t.a <= conc / (12.0 * weight)
  {
    var dc := t'.c - t.c;
    var db := t'.b - t.b;
    assert db == dc * conc;
    ScaleBounds(dc, -0.005, 0.005, conc);
    var da := t'.a - t.a;
    var m := 1000.0 / (weight * 60.0);
    assert da == db * m;
    ScaleBounds(db, -0.005 * conc, 0.005 * conc, m);
    assert 0.005 * conc * m == conc / (12.0 * weight);
  }

  /** Committing the shown, rounded pump rate instead of the exact one moves C
      by at most half a hundredth, B by at most that much times the
      concentration, and A by at most concentration / (12 * weight). */
  lemma RoundedFeedBackError(s: State)
    requires GatePasses(s) && s.active.Some?
    ensures
      var r := UpdateAll(s);
      var r' := UpdateAll(SetActiveInputType(s, C, Holding(RoundToTwoDecimals(r.c))));
      var conc := Concentration(s);
      && r'.Rates?
      && -0.005 < r'.c - r.c <= 0.005
      && -0.005 * conc < r'.b - r.b <= 0.005 * conc
      && -conc / (12.0 * Weight(s)) < r'.a - r.a <= conc / (12.0 * Weight(s))
  {
    var r := UpdateAll(s);
    var s' := SetActiveInputType(s, C, Holding(RoundToTwoDecimals(r.c)));
    assert GatePasses(s');
    var r' := UpdateAll(s');
    PumpRateErrorBound(RatesOf(r), RatesOf(r'), Weight(s), Concentration(s));
  }

  /** The bound above is reached in practice: for an Atracurium bag (200 mg in
      100 ml) and a 10 kg patient at A = 0.05, the pump rate 0.015 ml/h is shown
      as 0.02, and committing the shown value moves A to 1/15, off by 1/60,
      which is more than a hundredth. */
  lemma RoundedRoundTripCanExceedHundredth(s: State)
    requires s.form.dose == Holding(200.0) && s.form.volume == Holding(100.0) && s.form.weight == Holding(10.0)
    requires s.active == Some(A) && s.form.a == Holding(0.05)
    ensures UpdateAll(s).Rates? && UpdateAll(s).c == 0.015
    ensures RoundToTwoDecimals(0.015) == 0.02
    ensures
      var r := UpdateAll(s);
      var r' := UpdateAll(SetActiveInputType(s, C, Holding(RoundToTwoDecimals(r.c))));
      r'.Rates? && r'.a == 1.0 / 15.0 && r'.a - r.a > 0.01
  {
    assert Dose(s) == 200.0 && Volume(s) == 100.0 && Weight(s) == 10.0;
    assert Concentration(s) == 2.0;
    var r := UpdateAll(s);
    var t := Triple(0.05, 0.03, 0.015);
    assert Consistent(t, 10.0, 2.0);
    ConsistentIsDetermined(RatesOf(r), t, 10.0, 2.0, A);
    assert (0.015 * 100.0 + 0.5).Floor == 2;
    var s' := SetActiveInputType(s, C, Holding(0.02));
    assert Dose(s') == 200.0 && Volume(s') == 100.0 && Weight(s') == 10.0;
    var t' := Triple(1.0 / 15.0, 0.04, 0.02);
    assert Consistent(t', 10.0, 2.0);
    ConsistentIsDetermined(RatesOf(UpdateAll(s')), t', 10.0, 2.0, C);
  }

  /** With no committed box the rates are not recomputed: changing the bag or
      the weight (while they stay valid) leaves the outcome as it was. */
  lemma PassThroughIgnoresBag(s: State, s': State)
    requires GatePasses(s) && GatePasses(s')
    requires s.active == None && s'.active == None && s'.medication == s.medication
    requires s'.form.a == s.form.a && s'.form.b == s.form.b && s'.form.c == s.form.c
    ensures UpdateAll(s') == UpdateAll(s)
  {
    var r, r' := UpdateAll(s), UpdateAll(s');
    if r.Rates? {
      assert RatesOf(r') == RatesOf(r);
    }
  }

  /** The high-dose flag never alters what is shown: changing the selected drug
      alone changes at most the flag. */
  lemma WarningLeavesRatesAlone(s: State, m: Option<string>)
    ensures
      var r, r' := UpdateAll(s), UpdateAll(s.(medication := m));
      && r'.Rates? == r.Rates?
      && (r.Rates? ==> RatesOf(r') == RatesOf(r))
      && (!r.Rates? ==> r' == r)
  {
    var s' := s.(medication := m);
    assert Dose(s') == Dose(s) && Volume(s') == Volume(s) && Weight(s') == Weight(s);
    if GatePasses(s) && s.active.Some? {
      ConsistentIsDetermined(RatesOf(UpdateAll(s)), RatesOf(UpdateAll(s')), Weight(s), Concentration(s), s.active.value);
    }
  }

  /** Showing the outcome and updating again changes nothing when the committed
      number is already in hundredths, as every number the page writes is. */
  lemma RefreshIsStable(s: State)
    requires GatePasses(s) && s.active.Some?
    requires IsHundredths(SafeGetNumber(RateEntry(s.form, s.active.value)))
    ensures UpdateAll(Refresh(s)) == UpdateAll(s)
  {
    var f := s.active.value;
    var x := SafeGetNumber(RateEntry(s.form, f));
    var r := UpdateAll(s);
    RoundFixesHundredths(x);
    var s' := Refresh(s);
    assert RateEntry(s'.form, f) == Holding(RoundToTwoDecimals(Component(RatesOf(r), f)));
    CommittedBoxIsAuthoritative(s, s');
  }

  /** A state whose selected drug, if any, is one of the presets. */
  predicate WellFormed(s: State)
  {
    s.medication.Some? ==> s.medication.value in Presets
  }

  /** Selecting a drug keeps the selection inside the preset table. */
  lemma SelectKeepsWellFormed(s: State, name: string)
    requires WellFormed(s)
    ensures WellFormed(SelectMedication(s, name))
  {
  }

  /** Selecting the same drug twice is selecting it once. */
  lemma SelectIsIdempotent(s: State, name: string)
    ensures SelectMedication(SelectMedication(s, name), name) == SelectMedication(s, name)
  {
  }

  /** After a drug is chosen for a weighed patient the gate passes and no rate
      is recomputed: all-zero rate boxes blank the display and anything else is
      shown as it stands, flagged against the new drug's threshold. */
  lemma SelectThenUpdate(s: State, name: string)
    requires name in Presets && Weight(s) > 0.0
    ensures GatePasses(SelectMedication(s, name))
    ensures
      var r := UpdateAll(SelectMedication(s, name));
      var ta := Triple(SafeGetNumber(s.form.a), SafeGetNumber(s.form.b), SafeGetNumber(s.form.c));
      && (r == Blank <==> ta == Triple(0.0, 0.0, 0.0))
      && (r != Blank ==> r == Rates(ta.a, ta.b, ta.c, HighDoseWarning(Some(name), ta.a)))
  {
    PresetsArePositive(name);
    var s' := SelectMedication(s, name);
    assert GatePasses(s');
  }

  /** Stepping a rate box that is not the committed one has no effect on the
      outcome: the stepped number is overwritten when the rates are shown. */
  lemma StepOtherRateIsIgnored(s: State, g: Field, d: Direction)
    requires GatePasses(s) && s.active.Some? && s.active.value != g
    ensures UpdateAll(StepInput(s, RateInput(g), d)) == UpdateAll(s)
  {
    var s' := StepInput(s, RateInput(g), d);
    assert InputEntry(s'.form, DoseInput) == s.form.dose;
    assert InputEntry(s'.form, VolumeInput) == s.form.volume;
    assert InputEntry(s'.form, WeightInput) == s.form.weight;
    assert InputEntry(s'.form, RateInput(s.active.value)) == RateEntry(s.form, s.active.value);
    CommittedBoxIsAuthoritative(s, s');
  }

  /** Stepping the committed rate box moves that rate by one (down to no less
      than zero) and re-derives the other two from it. */
  lemma StepActiveRate(s: State, d: Direction)
    requires GatePasses(s) && s.active.Some?
    ensures
      var f := s.active.value;
      var r := UpdateAll(StepInput(s, RateInput(f), d));
      && r.Rates?
      && Component(RatesOf(r), f) == Stepped(SafeGetNumber(RateEntry(s.form, f)), d)
      && Consistent(RatesOf(r), Weight(s), Concentration(s))
  {
    var s' := StepInput(s, RateInput(s.active.value), d);
    assert InputEntry(s'.form, DoseInput) == s.form.dose;
    assert InputEntry(s'.form, VolumeInput) == s.form.volume;
    assert InputEntry(s'.form, WeightInput) == s.form.weight;
  }

  /** The Levophed bag (16 mg in 266 ml) for a 70 kg patient, with A committed. */
  predicate LevophedOnA(s: State, x: real)
  {
    && s.form.dose == Holding(16.0) && s.form.volume == Holding(266.0) && s.form.weight == Holding(70.0)
    && s.medication == Some("Levophed") && s.active == Some(A) && s.form.a == Holding(x)
  }

  /** Levophed for 70 kg at A = 0.5: B = 2.1 mg/h, C = 34.9125 ml/h, and no
      flag, because 0.5 does not exceed the threshold. */
  lemma LevophedAtThreshold(s: State)
    requires LevophedOnA(s, 0.5)
    ensures UpdateAll(s) == Rates(0.5, 2.1, 34.9125, false)
  {
    assert Dose(s) == 16.0 && Volume(s) == 266.0 && Weight(s) == 70.0;
    var conc := Concentration(s);
    assert conc == 16.0 / 266.0;
    var t := Triple(0.5, 2.1, 34.9125);
    assert Consistent(t, 70.0, conc);
    var r := UpdateAll(s);
    ConsistentIsDetermined(RatesOf(r), t, 70.0, conc, A);
    assert r.warn == HighDoseWarning(Some("Levophed"), 0.5);
  }

  /** Levophed for 70 kg at A = 0.6: B = 2.52 mg/h, C = 41.895 ml/h, flagged. */
  lemma LevophedAboveThreshold(s: State)
    requires LevophedOnA(s, 0.6)
    ensures UpdateAll(s) == Rates(0.6, 2.52, 41.895, true)
  {
    assert Dose(s) == 16.0 && Volume(s) == 266.0 && Weight(s) == 70.0;
    var conc := Concentration(s);
    assert conc == 16.0 / 266.0;
    var t := Triple(0.6, 2.52, 41.895);
    assert Consistent(t, 70.0, conc);
    var r := UpdateAll(s);
    ConsistentIsDetermined(RatesOf(r), t, 70.0, conc, A);
    assert r.warn == HighDoseWarning(Some("Levophed"), 0.6);
  }

  /** Dopamine (800 mg in 270 ml) for 80 kg with the pump at C = 10 ml/h:
      B = 800/27 mg/h and A = 500/81 µg/kg/min, below the 20 threshold. */
  lemma DopamineFromPumpRate(weight: Entry)
    requires SafeGetNumber(weight) == 80.0
    ensures
      var s := SelectMedication(State(Form(Empty, Empty, weight, Empty, Empty, Empty), None, None), "Dopamine");
      UpdateAll(SetActiveInputType(s, C, Holding(10.0))) == Rates(500.0 / 81.0, 800.0 / 27.0, 10.0, false)
  {
    var s := SelectMedication(State(Form(Empty, Empty, weight, Empty, Empty, Empty), None, None), "Dopamine");
    var s' := SetActiveInputType(s, C, Holding(10.0));
    assert Dose(s') == 800.0 && Volume(s') == 270.0 && Weight(s') == 80.0;
    var t := Triple(500.0 / 81.0, 800.0 / 27.0, 10.0);
    assert Consistent(t, 80.0, 800.0 / 270.0);
    ConsistentIsDetermined(RatesOf(UpdateAll(s')), t, 80.0, 800.0 / 270.0, C);
  }

  /** The gate's two sample cases: nothing entered is blank, a missing volume
      is the input error. */
  lemma GateSamples(s: State)
    requires s.form.dose == Holding(10.0) && s.form.volume == Empty && s.form.weight == Holding(70.0)
    ensures UpdateAll(s) == Error(InvalidInputMessage)
    ensures UpdateAll(s.(form := s.form.(dose := Empty, weight := Typed(None)))) == Blank
  {
  }
}
