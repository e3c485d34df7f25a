/** The registration form component: five pieces of state, the change handler
    that stores a field and its check, the submit handler with its success and
    failure continuations, and the effect that re-derives `disabled` whenever
    `values` is assigned. Each handler is one atomic step; the server's reply
    is a parameter of the step that consumes it. */
module Form {
  import opened Wrappers
  import opened Schema

  /** The part of a change event the handler reads. */
  datatype Target = Target(name: Field, value: string, inputType: string, checked: bool)

  /** What the handler stores: `checked` for a checkbox, `value` otherwise. */
  function ValueToSet(t: Target): Value {
    if t.inputType == "checkbox" then Flag(t.checked) else Str(t.value)
  }

  /** The markup's inputs: the agreement checkbox is the only checkbox. */
  predicate WellFormed(t: Target) {
    Fits(t.name, ValueToSet(t))
  }

  /** How the POST of the form ends: the server's message, or the error's. */
  datatype PostOutcome = Success(message: string) | Failure(message: string)

  datatype FormState = FormState(
    values: FormValues,
    errors: FieldErrors,
    disabled: bool,
    submitSuccess: Option<string>,
    submitError: Option<string>)

  const InitialState := FormState(InitialValues, InitialErrors, true, None, None)

  /** The effect on `values`: submission is disabled when the form is invalid. */
  function AfterValuesEffect(s: FormState): FormState {
    s.(disabled := !ValidateAll(s.values))
  }

  /** onChange: check the new value, store its message and the value, then
      the effect runs because `values` was assigned. */
  function Changed(s: FormState, t: Target): FormState
    requires WellFormed(t)
  {
    var v := ValueToSet(t);
    AfterValuesEffect(s.(
      errors := s.errors.With(t.name, ErrorText(ValidateField(t.name, v))),
      values := s.values.With(t.name, v)))
  }

  /** onSubmit before the POST: disable and clear both banners. */
  function Submitting(s: FormState): FormState {
    s.(disabled := true, submitSuccess := None, submitError := None)
  }

  /** The POST's continuation. On success the form is reset, which assigns
      `values` and so runs the effect; on failure only the error is stored. */
  function Resolved(s: FormState, outcome: PostOutcome): FormState {
    match outcome
    case Success(m) =>
      AfterValuesEffect(s.(submitSuccess := Some(m), values := InitialValues, errors := InitialErrors))
    case Failure(m) =>
      s.(submitError := Some(m))
  }

  /** Each shown error is blank (the field is untouched since the last reset)
      or the message the check gives for the field's current value. */
  predicate ErrorsTrack(values: FormValues, errors: FieldErrors) {
    forall f :: errors.Get(f) == "" || errors.Get(f) == ErrorText(ValidateField(f, values.Get(f)))
  }

  /** What holds in every reachable state: an enabled submit control means a
      valid form, and the errors agree with the values. */
  predicate Coherent(s: FormState) {
    && (!s.disabled ==> ValidateAll(s.values))
    && ErrorsTrack(s.values, s.errors)
  }

  /** A banner is rendered when its message is present and non-empty (a
      JavaScript string's truthiness). */
  predicate ShowsSuccessBanner(s: FormState) {
    s.submitSuccess.Some? && s.submitSuccess.value != ""
  }

  predicate ShowsErrorBanner(s: FormState) {
    s.submitError.Some? && s.submitError.value != ""
  }

  /** The events the form reacts to. */
  datatype Event = Change(target: Target) | Submit | Reply(outcome: PostOutcome)

  predicate WellFormedEvents(evs: seq<Event>) {
    forall i :: 0 <= i < |evs| ==> (evs[i].Change? ==> WellFormed(evs[i].target))
  }

  function Step(s: FormState, e: Event): FormState
    requires e.Change? ==> WellFormed(e.target)
  {
    match e
    case Change(t) => Changed(s, t)
    case Submit => Submitting(s)
    case Reply(o) => Resolved(s, o)
  }

  function Run(s: FormState, evs: seq<Event>): FormState
    requires WellFormedEvents(evs)
    decreases |evs|
  {
    if evs == [] then s else Step(Run(s, evs[..|evs| - 1]), evs[|evs| - 1])
  }

  /** A state one event after a run's result is the result of the longer run. */
  lemma RunExtended(evs: seq<Event>, e: Event, before: FormState, after: FormState)
    requires WellFormedEvents(evs) && (e.Change? ==> WellFormed(e.target))
    requires before == Run(InitialState, evs) && after == Step(before, e)
    ensures WellFormedEvents(evs + [e]) && after == Run(InitialState, evs + [e])
  {
    RunSnoc(InitialState, evs, e);
  }

  /** Running one more event is one more step after the run. */
  lemma RunSnoc(s: FormState, evs: seq<Event>, e: Event)
    requires WellFormedEvents(evs) && (e.Change? ==> WellFormed(e.target))
    ensures WellFormedEvents(evs + [e])
    ensures Run(s, evs + [e]) == Step(Run(s, evs), e)
  {
    assert (evs + [e])[..|evs|] == evs;
    assert forall i :: 0 <= i < |evs| ==> (evs + [e])[i] == evs[i];
  }

  /** The component as the page holds it: five fields updated in place. */
  class App {
    var values: FormValues
    var errors: FieldErrors
    var disabled: bool
    var submitSuccess: Option<string>
    var submitError: Option<string>
    /** The events handled so far, in order. */
    ghost var history: seq<Event>

    function State(): FormState
      reads this
    {
      FormState(values, errors, disabled, submitSuccess, submitError)
    }

    /** The object's state is what its events produce from the initial state. */
    ghost predicate Valid()
      reads this
    {
      WellFormedEvents(history) && State() == Run(InitialState, history)
    }

    constructor ()
      ensures State() == InitialState
      ensures history == [] && Valid()
    {
      values := InitialValues;
      errors := InitialErrors;
      disabled := true;
      submitSuccess := None;
      submitError := None;
      history := [];
    }

    /** Every state the object reaches is coherent. */
    lemma ReachedStateCoherent()
      requires Valid()
      ensures Coherent(State())
    {
      InitialCoherent();
      RunCoherent(InitialState, history);
    }

    /** The effect on `values`. */
    method ValuesEffect()
      modifies this`disabled
      ensures disabled == !ValidateAll(values)
    {
      disabled := !ValidateAll(values);
    }

    /** validate: store the first failing rule's message for `name`, or blank. */
    method Validate(name: Field, value: Value)
      requires Fits(name, value)
      modifies this`errors
      ensures errors == old(errors).With(name, ErrorText(ValidateField(name, value)))
    {
      var r := ValidateField(name, value);
      if r.None? {
        errors := errors.With(name, "");
      } else {
        errors := errors.With(name, r.value);
      }
    }

    method OnChange(t: Target)
      requires WellFormed(t) && Valid()
      modifies this
      ensures State() == Changed(old(State()), t)
      ensures history == old(history) + [Change(t)] && Valid()
    {
      ghost var before, events := State(), history;
      var valueToSet := if t.inputType == "checkbox" then Flag(t.checked) else Str(t.value);
      Validate(t.name, valueToSet);
      values := values.With(t.name, valueToSet);
      ValuesEffect();
      assert State() == Changed(before, t);
      history := events + [Change(t)];
      RunExtended(events, Change(t), before, State());
    }

    /** onSubmit up to the POST; the POST's body is returned. */
    method BeginSubmit() returns (payload: FormValues)
      requires Valid()
      modifies this
      ensures payload == old(values)
      ensures State() == Submitting(old(State()))
      ensures history == old(history) + [Submit] && Valid()
    {
      ghost var before, events := State(), history;
      disabled := true;
      submitSuccess := None;
      submitError := None;
      payload := values;
      history := events + [Submit];
      RunExtended(events, Submit, before, State());
    }

    /** The POST's then/catch continuation. */
    method ResolveSubmit(outcome: PostOutcome)
      requires Valid()
      modifies this
      ensures State() == Resolved(old(State()), outcome)
      ensures history == old(history) + [Reply(outcome)] && Valid()
    {
      ghost var before, events := State(), history;
      match outcome {
      case Success(m) =>
        submitSuccess := Some(m);
        values := InitialValues;
        errors := InitialErrors;
        ValuesEffect();
      case Failure(m) =>
        submitError := Some(m);
      }
      history := events + [Reply(outcome)];
      RunExtended(events, Reply(outcome), before, State());
    }
  }

  lemma InitialCoherent()
    ensures Coherent(InitialState)
    ensures InitialState.disabled && !ValidateAll(InitialState.values)
  {
    InitialValuesInvalid();
  }

  /** The effect on mount changes nothing: the initial form is invalid. */
  lemma MountEffectKeepsInitial()
    ensures AfterValuesEffect(InitialState) == InitialState
  {
    InitialValuesInvalid();
  }

  /** A change stores `checked` or `value` in its field and that value's check
      in its error, leaves every other field, error and both submission
      messages alone, and leaves `disabled` equal to the form's invalidity. */
  lemma ChangeUpdatesOneField(s: FormState, t: Target)
    requires WellFormed(t)
    ensures var r, v := Changed(s, t), if t.inputType == "checkbox" then Flag(t.checked) else Str(t.value);
      && r.values.Get(t.name) == v
      && r.errors.Get(t.name) == ErrorText(ValidateField(t.name, v))
      && (forall g :: g != t.name ==> r.values.Get(g) == s.values.Get(g) && r.errors.Get(g) == s.errors.Get(g))
      && r.submitSuccess == s.submitSuccess && r.submitError == s.submitError
      && r.disabled == !ValidateAll(r.values)
  {
  }

  /** Repeating a change event yields the same state. */
  lemma ChangeIdempotent(s: FormState, t: Target)
    requires WellFormed(t)
    ensures Changed(Changed(s, t), t) == Changed(s, t)
  {
  }

  lemma ChangedCoherent(s: FormState, t: Target)
    requires WellFormed(t) && Coherent(s)
    ensures Coherent(Changed(s, t))
  {
    var r := Changed(s, t);
    forall f ensures r.errors.Get(f) == "" || r.errors.Get(f) == ErrorText(ValidateField(f, r.values.Get(f))) {
      if f != t.name {
        assert r.errors.Get(f) == s.errors.Get(f) && r.values.Get(f) == s.values.Get(f);
      }
    }
  }

  lemma SubmittingCoherent(s: FormState)
    requires Coherent(s)
    ensures Coherent(Submitting(s))
  {
  }

  lemma ResolvedCoherent(s: FormState, outcome: PostOutcome)
    requires Coherent(s)
    ensures Coherent(Resolved(s, outcome))
  {
  }

  /** Every state the events can reach from a coherent one is coherent. */
  lemma {:induction false} RunCoherent(s: FormState, evs: seq<Event>)
    requires Coherent(s) && WellFormedEvents(evs)
    ensures Coherent(Run(s, evs))
    decreases |evs|
  {
    if evs != [] {
      var prefix := evs[..|evs| - 1];
      assert WellFormedEvents(prefix) by {
        forall i | 0 <= i < |prefix| ensures prefix[i].Change? ==> WellFormed(prefix[i].target) {
          assert prefix[i] == evs[i];
        }
      }
      RunCoherent(s, prefix);
      StepCoherent(Run(s, prefix), evs[|evs| - 1]);
    }
  }

  lemma StepCoherent(s: FormState, e: Event)
    requires Coherent(s) && (e.Change? ==> WellFormed(e.target))
    ensures Coherent(Step(s, e))
  {
    match e {
      case Change(t) => ChangedCoherent(s, t);
      case Submit => SubmittingCoherent(s);
      case Reply(o) => ResolvedCoherent(s, o);
    }
  }

  /** From the initial form, submission is enabled only when the form is
      valid, whatever happened before. */
  lemma ReachableSubmitOnlyWhenValid(evs: seq<Event>)
    requires WellFormedEvents(evs)
    ensures var r := Run(InitialState, evs);
      !r.disabled ==> ValidateAll(r.values)
  {
    InitialCoherent();
    RunCoherent(InitialState, evs);
  }

  /** The two derivations agree: when submission is enabled in a coherent
      state, no field shows an error. */
  lemma EnabledShowsNoErrors(s: FormState)
    requires Coherent(s) && !s.disabled
    ensures s.errors == InitialErrors
  {
        assert s.errors.Get(Username) == "";
    assert s.errors.Get(FavLanguage) == "";
    assert s.errors.Get(FavFood) == "";
    assert s.errors.Get(Agreement) == "";
  }

  /** A successful submission shows the server's message, resets values and
      errors, and leaves submission disabled because the reset form is invalid. */
  lemma SubmitSuccess(s: FormState, m: string)
    ensures Resolved(Submitting(s), Success(m)) == FormState(InitialValues, InitialErrors, true, Some(m), None)
  {
    InitialValuesInvalid();
  }

  /** A failed submission shows the error's message and keeps values and
      errors; submission stays disabled even for a valid form, since no
      assignment to `values` re-runs the effect. */
  lemma SubmitFailure(s: FormState, m: string)
    ensures Resolved(Submitting(s), Failure(m)) == FormState(s.values, s.errors, true, None, Some(m))
  {
  }

  /** After a failed submission, the next change re-derives `disabled`. */
  lemma ChangeAfterFailureRederives(s: FormState, m: string, t: Target)
    requires WellFormed(t)
    ensures var r := Changed(Resolved(Submitting(s), Failure(m)), t);
      r.disabled == !ValidateAll(r.values) && r.submitError == Some(m)
  {
  }

  /** After a submission resolves, exactly the banner of the outcome can show,
      and it does when the outcome's message is non-empty. */
  lemma ResolvedBanners(s: FormState, outcome: PostOutcome)
    ensures var r := Resolved(Submitting(s), outcome);
      && (ShowsSuccessBanner(r) <==> outcome.Success? && outcome.message != "")
      && (ShowsErrorBanner(r) <==> outcome.Failure? && outcome.message != "")
  {
  }
}
