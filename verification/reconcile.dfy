/** The reconciliation engine of the infusion calculator: from the bag (dose and
    dilution volume), the patient's weight and the three linked rate boxes
      A  µg/kg/min   (weight-based dosing rate)
      B  mg/h        (absolute dosing rate)
      C  ml/h        (pump rate)
    it decides what the page shows, deriving the other two rates from the box the
    user last committed. */
module Reconcile {
  import opened Wrappers
  import opened Entries
  import opened Medications

  /** One of the three rate boxes. */
  datatype Field = A | B | C

  /** Every input box of the page. */
  datatype Form = Form(dose: Entry, volume: Entry, weight: Entry, a: Entry, b: Entry, c: Entry)

  /** The page state: its boxes, the rate box last committed (None after a change
      to the bag, the weight or the drug), and the selected drug. */
  datatype State = State(form: Form, active: Option<Field>, medication: Option<string>)

  /** Values for the three rates, in the order A, B, C. */
  datatype Triple = Triple(a: real, b: real, c: real)

  /** What one update shows: nothing, an error message with the rate boxes
      cleared, or the three rates (unrounded) with the high-dose flag on A. */
  datatype Outcome = Blank | Error(msg: string) | Rates(a: real, b: real, c: real, warn: bool)

  /** "Error: dose, dilution volume and weight must be greater than zero." */
  const InvalidInputMessage: string := "錯誤: 劑量、稀釋體積和體重必須大於零。"

  /** "Error: concentration is zero (dose or volume is zero)." */
  const ZeroConcentrationMessage: string := "錯誤: 濃度為零 (劑量或體積為零)。"

  function RateEntry(form: Form, f: Field): Entry
  {
    match f
    case A => form.a
    case B => form.b
    case C => form.c
  }

  function WithRate(form: Form, f: Field, e: Entry): Form
  {
    match f
    case A => form.(a := e)
    case B => form.(b := e)
    case C => form.(c := e)
  }

  function Component(t: Triple, f: Field): real
  {
    match f
    case A => t.a
    case B => t.b
    case C => t.c
  }

  function RatesOf(r: Outcome): Triple
    requires r.Rates?
  {
    Triple(r.a, r.b, r.c)
  }

  function Dose(s: State): real { SafeGetNumber(s.form.dose) }
  function Volume(s: State): real { SafeGetNumber(s.form.volume) }
  function Weight(s: State): real { SafeGetNumber(s.form.weight) }

  /** The validity gate: dose, volume and weight all strictly positive. */
  predicate GatePasses(s: State)
  {
    Dose(s) > 0.0 && Volume(s) > 0.0 && Weight(s) > 0.0
  }

  /** Nothing entered yet: dose, volume and weight all read as zero. */
  predicate NothingEntered(s: State)
  {
    Dose(s) == 0.0 && Volume(s) == 0.0 && Weight(s) == 0.0
  }

  /** Drug concentration of the bag in mg/ml. */
  function Concentration(s: State): real
    requires Volume(s) != 0.0
  {
    Dose(s) / Volume(s)
  }

  /** The three rates describe one and the same infusion for a patient of
      `weight` kg and a bag of concentration `conc` mg/ml: B is A scaled from
      µg/kg/min to mg/h, and C delivers B at that concentration. */
  predicate Consistent(t: Triple, weight: real, conc: real)
  {
    t.b == t.a * weight * 60.0 / 1000.0 && t.c * conc == t.b
  }

  /** B and C from a committed A. */
  function FromA(a: real, weight: real, conc: real): (r: Result<Triple>)
    requires weight > 0.0
    ensures r.Err? <==> conc == 0.0
    ensures r.Ok? ==> r.value.a == a && Consistent(r.value, weight, conc)
  {
    var b := (a * weight * 60.0) / 1000.0;
    if conc == 0.0 then Err(ZeroConcentrationMessage)
    else Ok(Triple(a, b, b / conc))
  }

  /** Converting mg/h to µg/kg/min and back is the identity. */
  lemma ScaleRoundTrip(b: real, weight: real)
    requires weight > 0.0
    ensures ((b * 1000.0) / (weight * 60.0)) * weight * 60.0 / 1000.0 == b
  {
    var a := (b * 1000.0) / (weight * 60.0);
    assert a * (weight * 60.0) == b * 1000.0;
  }

  /** A and C from a committed B. */
  function FromB(b: real, weight: real, conc: real): (r: Result<Triple>)
    requires weight > 0.0
    ensures r.Err? <==> conc == 0.0
    ensures r.Ok? ==> r.value.b == b && Consistent(r.value, weight, conc)
  {
    var a := (b * 1000.0) / (weight * 60.0);
    ScaleRoundTrip(b, weight);
    if conc == 0.0 then Err(ZeroConcentrationMessage)
    else Ok(Triple(a, b, b / conc))
  }

  /** B and A from a committed C. */
  function FromC(c: real, weight: real, conc: real): (r: Result<Triple>)
    requires weight > 0.0
    ensures r.Err? <==> conc == 0.0
    ensures r.Ok? ==> r.value.c == c && Consistent(r.value, weight, conc)
  {
    if conc == 0.0 then Err(ZeroConcentrationMessage)
    else
      var b := c * conc;
      var a := (b * 1000.0) / (weight * 60.0);
      ScaleRoundTrip(b, weight);
      Ok(Triple(a, b, c))
  }

  /** The committed box reads as zero although it is not empty (it holds "0" or
      text that is not a number): the page then zeroes the other two rates
      without computing. */
  predicate ForcedZero(e: Entry)
  {
    SafeGetNumber(e) == 0.0 && e != Empty
  }

  /** The rate triple of one update past the validity gate, before the blank
      check: derived from the committed box, or the boxes as they stand when no
      rate box is committed. */
  function Derive(active: Option<Field>, weight: real, conc: real, form: Form): (r: Result<Triple>)
    requires weight > 0.0
    ensures r.Err? <==> conc == 0.0 && active.Some? && !ForcedZero(RateEntry(form, active.value))
    ensures r.Err? ==> r.msg == ZeroConcentrationMessage
    ensures r.Ok? && active.Some? ==>
              Consistent(r.value, weight, conc)
              && Component(r.value, active.value) == SafeGetNumber(RateEntry(form, active.value))
    ensures active == None ==>
              r == Ok(Triple(SafeGetNumber(form.a), SafeGetNumber(form.b), SafeGetNumber(form.c)))
  {
    match active
    case None => Ok(Triple(SafeGetNumber(form.a), SafeGetNumber(form.b), SafeGetNumber(form.c)))
    case Some(f) =>
      var e := RateEntry(form, f);
      var x := SafeGetNumber(e);
      if x == 0.0 && e != Empty then Ok(Triple(0.0, 0.0, 0.0))
      else
        match f
        case A => FromA(x, weight, conc)
        case B => FromB(x, weight, conc)
        case C => FromC(x, weight, conc)
  }

  /** One run of the page's update: read the boxes, apply the validity gate,
      derive the rates, and decide whether to show them and whether to flag A. */
  function UpdateAll(s: State): (r: Outcome)
    // The validity gate: nothing entered shows nothing; anything else that is
    // not all-positive is the input error.
    ensures !GatePasses(s) ==> (r == Blank <==> NothingEntered(s))
    ensures !GatePasses(s) && !NothingEntered(s) ==> r == Error(InvalidInputMessage)
    ensures r.Rates? ==> GatePasses(s)
    // The zero-concentration error is never produced, and valid input is
    // never an error.
    ensures r.Error? ==> r.msg == InvalidInputMessage && !GatePasses(s)
    // A committed box keeps its number and determines the other two.
    ensures GatePasses(s) && s.active.Some? ==>
              r.Rates?
              && Consistent(RatesOf(r), Weight(s), Concentration(s))
              && Component(RatesOf(r), s.active.value) == SafeGetNumber(RateEntry(s.form, s.active.value))
    // With no committed box nothing is recomputed: blank when all three rates
    // read as zero, otherwise the boxes pass through unchanged.
    ensures GatePasses(s) && s.active == None ==>
              (r == Blank <==> SafeGetNumber(s.form.a) == 0.0 && SafeGetNumber(s.form.b) == 0.0 && SafeGetNumber(s.form.c) == 0.0)
    ensures GatePasses(s) && s.active == None && r != Blank ==>
              r == Rates(SafeGetNumber(s.form.a), SafeGetNumber(s.form.b), SafeGetNumber(s.form.c),
                         HighDoseWarning(s.medication, SafeGetNumber(s.form.a)))
    // The flag follows the selected drug's threshold on the shown A.
    ensures r.Rates? ==> r.warn == HighDoseWarning(s.medication, r.a)
  {
    var dose := Dose(s);
    var volume := Volume(s);
    var weight := Weight(s);
    if dose <= 0.0 || volume <= 0.0 || weight <= 0.0 then
      if dose == 0.0 && volume == 0.0 && weight == 0.0 then Blank
      else Error(InvalidInputMessage)
    else
      var conc := dose / volume;
      match Derive(s.active, weight, conc, s.form)
      case Err(msg) => Error(msg)
      case Ok(t) =>
        if s.active == None && t.a == 0.0 && t.b == 0.0 && t.c == 0.0 then Blank
        else Rates(t.a, t.b, t.c, HighDoseWarning(s.medication, t.a))
  }

  /** The boxes after an update writes its outcome: the rate boxes are cleared
      on a blank or an error, and otherwise hold each rate rounded to hundredths.
      Dose, volume and weight are never written. */
  function Render(form: Form, r: Outcome): (f: Form)
    ensures f.dose == form.dose && f.volume == form.volume && f.weight == form.weight
    ensures !r.Rates? ==> f.a == Empty && f.b == Empty && f.c == Empty
    ensures r.Rates? ==>
              forall g: Field :: IsHundredths(SafeGetNumber(RateEntry(f, g)))
                && Component(RatesOf(r), g) - 0.005 < SafeGetNumber(RateEntry(f, g)) <= Component(RatesOf(r), g) + 0.005
  {
    match r
    case Rates(a, b, c, _) =>
      form.(a := Holding(RoundToTwoDecimals(a)),
            b := Holding(RoundToTwoDecimals(b)),
            c := Holding(RoundToTwoDecimals(c)))
    case _ => form.(a := Empty, b := Empty, c := Empty)
  }

  /** The state after one update has run and written its outcome back. */
  function Refresh(s: State): State
  {
    s.(form := Render(s.form, UpdateAll(s)))
  }

  /** Committing a rate box: its new content, and it becomes the active box. */
  function SetActiveInputType(s: State, f: Field, e: Entry): (s': State)
    ensures s'.active == Some(f) && s'.medication == s.medication
    ensures RateEntry(s'.form, f) == e
    ensures forall g: Field :: g != f ==> RateEntry(s'.form, g) == RateEntry(s.form, g)
    ensures Dose(s') == Dose(s) && Volume(s') == Volume(s) && Weight(s') == Weight(s)
  {
    s.(form := WithRate(s.form, f, e), active := Some(f))
  }

  /** Choosing a drug: a known name loads its bag into dose and volume, selects
      it and makes no rate box active; an unknown name changes nothing. */
  function SelectMedication(s: State, name: string): (s': State)
    ensures name !in Presets ==> s' == s
    ensures name in Presets ==>
              s'.medication == Some(name) && s'.active == None
              && Dose(s') == Presets[name].doseMg && Volume(s') == Presets[name].volumeMl
              && s'.form.weight == s.form.weight
              && s'.form.a == s.form.a && s'.form.b == s.form.b && s'.form.c == s.form.c
  {
    if name in Presets then
      var p := Presets[name];
      State(s.form.(dose := Holding(p.doseMg), volume := Holding(p.volumeMl)), None, Some(name))
    else s
  }

  /** The boxes a stepper button can target. */
  datatype Input = DoseInput | VolumeInput | WeightInput | RateInput(field: Field)

  function InputEntry(form: Form, i: Input): Entry
  {
    match i
    case DoseInput => form.dose
    case VolumeInput => form.volume
    case WeightInput => form.weight
    case RateInput(f) => RateEntry(form, f)
  }

  /** A stepper button: the targeted box is stepped and written back; the active
      box and the selected drug are left as they are. */
  function StepInput(s: State, i: Input, d: Direction): (s': State)
    ensures s'.active == s.active && s'.medication == s.medication
    ensures SafeGetNumber(InputEntry(s'.form, i)) == Stepped(SafeGetNumber(InputEntry(s.form, i)), d)
    ensures forall j: Input :: j != i ==> InputEntry(s'.form, j) == InputEntry(s.form, j)
  {
    var e := StepEntry(InputEntry(s.form, i), d);
    match i
    case DoseInput => s.(form := s.form.(dose := e))
    case VolumeInput => s.(form := s.form.(volume := e))
    case WeightInput => s.(form := s.form.(weight := e))
    case RateInput(f) => s.(form := WithRate(s.form, f, e))
  }
}
