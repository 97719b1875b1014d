/** The single-customer form: the feature record behind the inputs, the geography
    radio group that rewrites the two one-hot flags, and the submit cycle. */
module PredictionForm {
  import opened Js
  import opened Client

  /** The record the form starts with. */
  const Initial: CustomerFeatures := CustomerFeatures(
    Finite(650.0), Finite(35.0), Finite(5.0), Finite(100000.0), Finite(2.0),
    Finite(1.0), Finite(1.0), Finite(75000.0), Finite(0.0), Finite(0.0))

  datatype Country = Germany | Spain | France

  /** The radio button's `onChange`: Germany is (1, 0), Spain (0, 1), France (0, 0). */
  function SelectCountry(f: CustomerFeatures, c: Country): (r: CustomerFeatures)
    ensures r.geographyGermany == Finite(if c == Germany then 1.0 else 0.0)
    ensures r.geographySpain == Finite(if c == Spain then 1.0 else 0.0)
    ensures forall field: Field :: !field.IsGeography() ==> Get(r, field) == Get(f, field)
  {
    match c
    case Germany => f.(geographyGermany := Finite(1.0), geographySpain := Finite(0.0))
    case Spain => f.(geographyGermany := Finite(0.0), geographySpain := Finite(1.0))
    case France => f.(geographyGermany := Finite(0.0), geographySpain := Finite(0.0))
  }

  /** The radio button's `checked` expression. */
  predicate Checked(f: CustomerFeatures, c: Country) {
    match c
    case Germany => f.geographyGermany == Finite(1.0)
    case Spain => f.geographySpain == Finite(1.0)
    case France => f.geographyGermany == Finite(0.0) && f.geographySpain == Finite(0.0)
  }

  predicate IsFlag(n: Number) {
    n == Finite(0.0) || n == Finite(1.0)
  }

  /** Both geography flags are 0 or 1 and at most one of them is 1. */
  predicate GeographyOneHot(f: CustomerFeatures) {
    IsFlag(f.geographyGermany) && IsFlag(f.geographySpain) &&
    !(f.geographyGermany == Finite(1.0) && f.geographySpain == Finite(1.0))
  }

  /** Choosing a country checks that country's button and no other. */
  lemma SelectionIsChecked(f: CustomerFeatures, c: Country, d: Country)
    ensures Checked(SelectCountry(f, c), d) <==> d == c
  {
  }

  /** With one-hot flags exactly one button is checked, and the button checked is
      the country whose selection produces those flags. */
  lemma {:induction false} OneHotChecksOneCountry(f: CustomerFeatures)
    requires GeographyOneHot(f)
    ensures exists c: Country :: Checked(f, c) && SelectCountry(f, c) == f
    ensures forall c: Country, d: Country :: Checked(f, c) && Checked(f, d) ==> c == d
  {
    var c :=
      if f.geographyGermany == Finite(1.0) then Germany
      else if f.geographySpain == Finite(1.0) then Spain
      else France;
    assert Checked(f, c) && SelectCountry(f, c) == f;
  }

  /** A value handed to `handleInputChange`: the text of a number input, or a number. */
  datatype InputValue = Text(s: string) | Numeric(n: Number)

  /** `typeof value === "string" ? parseFloat(value) : value`. */
  function Converted(value: InputValue, parseFloat: string -> Number): Number {
    match value
    case Text(s) => parseFloat(s)
    case Numeric(n) => n
  }

  /** `handleInputChange(field, value)` as a function of the previous record. */
  function InputChange(f: CustomerFeatures, field: Field, value: InputValue, parseFloat: string -> Number): (r: CustomerFeatures)
    ensures Get(r, field) == Converted(value, parseFloat)
    ensures forall g: Field :: g != field ==> Get(r, g) == Get(f, g)
  {
    With(f, field, Converted(value, parseFloat))
  }

  /** The events the form's inputs raise: an edit of one of the eight inputs
      (never a geography flag: those only change through the radio group), or a
      country choice. */
  datatype FormEvent = Edit(field: Field, value: InputValue) | Choose(country: Country)

  predicate RaisedByForm(e: FormEvent) {
    e.Edit? ==> !e.field.IsGeography()
  }

  function Apply(f: CustomerFeatures, e: FormEvent, parseFloat: string -> Number): CustomerFeatures {
    match e
    case Edit(field, value) => InputChange(f, field, value, parseFloat)
    case Choose(c) => SelectCountry(f, c)
  }

  /** The record after the given events, starting from the initial record. */
  function Replay(events: seq<FormEvent>, parseFloat: string -> Number): CustomerFeatures {
    if events == [] then Initial
    else Apply(Replay(events[..|events| - 1], parseFloat), events[|events| - 1], parseFloat)
  }

  /** Every event the form raises keeps the geography flags one-hot. */
  lemma StepKeepsOneHot(f: CustomerFeatures, e: FormEvent, parseFloat: string -> Number)
    requires GeographyOneHot(f) && RaisedByForm(e)
    ensures GeographyOneHot(Apply(f, e, parseFloat))
  {
  }

  /** From the initial record, any sequence of form events leaves at most one
      geography flag at 1, so exactly one country is shown checked. */
  lemma {:induction false} ReachableIsOneHot(events: seq<FormEvent>, parseFloat: string -> Number)
    requires forall i :: 0 <= i < |events| ==> RaisedByForm(events[i])
    ensures GeographyOneHot(Replay(events, parseFloat))
    ensures exists c: Country :: Checked(Replay(events, parseFloat), c)
    ensures forall c: Country, d: Country ::
              Checked(Replay(events, parseFloat), c) && Checked(Replay(events, parseFloat), d) ==> c == d
  {
    if events != [] {
      var prefix := events[..|events| - 1];
      ReachableIsOneHot(prefix, parseFloat);
      StepKeepsOneHot(Replay(prefix, parseFloat), events[|events| - 1], parseFloat);
    }
    OneHotChecksOneCountry(Replay(events, parseFloat));
  }

  /** The form's component state. `Valid()` is the one-hot invariant: the constructor
      and the country handler establish it and every other handler keeps it (an edit
      only when it is not of a geography flag, which the form never raises; see
      `ReachableIsOneHot`). */
  class PredictionTab {
    var features: CustomerFeatures
    var prediction: Option<PredictionResponse>
    var loading: bool
    var error: Option<string>

    ghost predicate Valid()
      reads this
    {
      GeographyOneHot(features)
    }

    constructor ()
      ensures Valid()
      ensures features == Initial && prediction == None && !loading && error == None
    {
      features := Initial;
      prediction := None;
      loading := false;
      error := None;
    }

    /** `handleInputChange`: only the named field changes. */
    method HandleInputChange(field: Field, value: InputValue, parseFloat: string -> Number)
      modifies this
      ensures features == InputChange(old(features), field, value, parseFloat)
      ensures old(Valid()) && !field.IsGeography() ==> Valid()
      ensures prediction == old(prediction) && loading == old(loading) && error == old(error)
    {
      if GeographyOneHot(features) && !field.IsGeography() {
        StepKeepsOneHot(features, Edit(field, value), parseFloat);
      }
      features := InputChange(features, field, value, parseFloat);
    }

    /** The geography radio group's `onChange`. */
    method HandleCountryChange(c: Country)
      modifies this
      ensures features == SelectCountry(old(features), c)
      ensures Valid()
      ensures prediction == old(prediction) && loading == old(loading) && error == old(error)
    {
      features := SelectCountry(features, c);
    }

    /** `handleSubmit` up to its `await`: returns the record sent to `/predict`. */
    method BeginSubmit() returns (sent: CustomerFeatures)
      modifies this
      ensures sent == features == old(features)
      ensures loading && error == None && prediction == None
      ensures old(Valid()) ==> Valid()
    {
      loading := true;
      error := None;
      prediction := None;
      sent := features;
    }

    /** `handleSubmit` after the request settles: the answer or the error text,
        and loading off after either. */
    method FinishSubmit(outcome: Outcome<PredictionResponse>)
      modifies this
      ensures !loading && features == old(features)
      ensures old(Valid()) ==> Valid()
      ensures outcome.Ok? ==> prediction == Some(outcome.value) && error == old(error)
      ensures outcome.Fail? ==> prediction == old(prediction) && error == Some(ErrorText(outcome.error, "An error occurred"))
    {
      match outcome {
        case Ok(result) =>
          prediction := Some(result);
        case Fail(e) =>
          error := Some(ErrorText(e, "An error occurred"));
      }
      loading := false;
    }
  }
}
