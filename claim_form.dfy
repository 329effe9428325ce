/**
 * The claim-creation page (`NewClaimPage`, frontend/app/claims/new/page.tsx).
 *
 * Its state is the eight-field `formData` record and the two flags
 * `isSubmitting` and `isSubmitted`. The handlers overwrite them: an edit sets
 * one field, a submit raises `isSubmitting` and schedules a first timer; the
 * first timer lowers `isSubmitting`, raises `isSubmitted` and schedules a
 * second timer; the second timer lowers `isSubmitted` and clears the form.
 * Real time is not modelled: a timer is a pending callback, counted in
 * `pendingFirst` and `pendingSecond`, that may run at any later step.
 *
 * `FormState` and the `After...` functions are the specification; the class
 * `NewClaimPage` is the component, and each of its methods is proved to make
 * the step the specification describes.
 */
module ClaimForm {

  datatype Field =
    | ClaimantName | ClaimantEmail | ClaimantPhone | InsuranceType
    | PolicyNumber | IncidentDate | ClaimAmount | Description

  datatype FormData = FormData(
    claimantName: string,
    claimantEmail: string,
    claimantPhone: string,
    insuranceType: string,
    policyNumber: string,
    incidentDate: string,
    claimAmount: string,
    description: string)
  {
    function Get(f: Field): string {
      match f
      case ClaimantName => claimantName
      case ClaimantEmail => claimantEmail
      case ClaimantPhone => claimantPhone
      case InsuranceType => insuranceType
      case PolicyNumber => policyNumber
      case IncidentDate => incidentDate
      case ClaimAmount => claimAmount
      case Description => description
    }

    /** `{ ...prev, [name]: value }`: the named field takes the value, the others keep theirs. */
    function With(f: Field, v: string): (d: FormData)
      ensures d.Get(f) == v
      ensures forall g :: g != f ==> d.Get(g) == Get(g)
    {
      match f
      case ClaimantName => this.(claimantName := v)
      case ClaimantEmail => this.(claimantEmail := v)
      case ClaimantPhone => this.(claimantPhone := v)
      case InsuranceType => this.(insuranceType := v)
      case PolicyNumber => this.(policyNumber := v)
      case IncidentDate => this.(incidentDate := v)
      case ClaimAmount => this.(claimAmount := v)
      case Description => this.(description := v)
    }
  }

  /** The record `useState` starts from and the second timer restores. */
  const EmptyForm := FormData("", "", "", "", "", "", "", "")

  /** Every input but the insurance-type Select carries `required`. */
  predicate IsRequired(f: Field) {
    f != InsuranceType
  }

  /** The browser's check of the `required` inputs. */
  predicate RequiredFilled(d: FormData) {
    d.claimantName != "" && d.claimantEmail != "" && d.claimantPhone != "" && d.policyNumber != ""
      && d.incidentDate != "" && d.claimAmount != "" && d.description != ""
  }

  /** The check covers exactly the required fields. */
  lemma RequiredFilledMeansEveryRequiredField(d: FormData)
    ensures RequiredFilled(d) <==> forall f :: IsRequired(f) ==> d.Get(f) != ""
  {
    if forall f :: IsRequired(f) ==> d.Get(f) != "" {
      assert d.Get(ClaimantName) != "" && d.Get(ClaimantEmail) != "" && d.Get(ClaimantPhone) != "";
      assert d.Get(PolicyNumber) != "" && d.Get(IncidentDate) != "" && d.Get(ClaimAmount) != "";
      assert d.Get(Description) != "";
    }
  }

  datatype FormState = FormState(
    data: FormData,
    isSubmitting: bool,
    isSubmitted: bool,
    pendingFirst: nat,
    pendingSecond: nat)

  const Initial := FormState(EmptyForm, false, false, 0, 0)

  // ---------------------------------------------------------------------------
  // What is rendered

  /** The form is rendered unless `isSubmitted`; the confirmation panel otherwise. */
  function ShowsForm(s: FormState): (b: bool)
    ensures b <==> !ShowsConfirmation(s)
  {
    !s.isSubmitted
  }

  predicate ShowsConfirmation(s: FormState) {
    s.isSubmitted
  }

  /** `disabled={isSubmitting}` on the submit button. */
  predicate SubmitDisabled(s: FormState) {
    s.isSubmitting
  }

  /** The button reads "Processing..." exactly while it is disabled. */
  function SubmitLabel(s: FormState): (l: string)
    ensures l == "Processing..." <==> SubmitDisabled(s)
    ensures l == "Submit Claim" <==> !SubmitDisabled(s)
  {
    if s.isSubmitting then "Processing..." else "Submit Claim"
  }

  /**
   * The browser runs `onSubmit` only for a rendered form whose submit button
   * is enabled and whose required fields are all filled.
   */
  function SubmitDispatched(s: FormState): (b: bool)
    ensures b <==> !s.isSubmitted && !s.isSubmitting && forall f :: IsRequired(f) ==> s.data.Get(f) != ""
  {
    RequiredFilledMeansEveryRequiredField(s.data);
    ShowsForm(s) && !SubmitDisabled(s) && RequiredFilled(s.data)
  }

  // ---------------------------------------------------------------------------
  // The handlers, as steps of the state

  /** `handleChange` and `handleSelectChange`. */
  function AfterChange(s: FormState, f: Field, v: string): (t: FormState)
    ensures t.data.Get(f) == v
    ensures forall g :: g != f ==> t.data.Get(g) == s.data.Get(g)
    ensures t.isSubmitting == s.isSubmitting && t.isSubmitted == s.isSubmitted
    ensures t.pendingFirst == s.pendingFirst && t.pendingSecond == s.pendingSecond
    ensures Inv(s) ==> Inv(t) && PhaseOf(t) == PhaseOf(s)
  {
    s.(data := s.data.With(f, v))
  }

  /** `handleSubmit`: raise `isSubmitting`, schedule the first timer. */
  function AfterHandleSubmit(s: FormState): (t: FormState)
    ensures t.isSubmitting && t.isSubmitted == s.isSubmitted && t.data == s.data
    ensures t.pendingFirst == s.pendingFirst + 1 && t.pendingSecond == s.pendingSecond
    ensures Inv(s) && PhaseOf(s) == Editing ==> Inv(t) && PhaseOf(t) == Submitting
  {
    s.(isSubmitting := true, pendingFirst := s.pendingFirst + 1)
  }

  /** The first timer's callback: submitted, and the second timer scheduled. */
  function AfterFirstTimer(s: FormState): (t: FormState)
    requires s.pendingFirst > 0
    ensures !t.isSubmitting && t.isSubmitted && t.data == s.data
    ensures t.pendingFirst == s.pendingFirst - 1 && t.pendingSecond == s.pendingSecond + 1
    ensures Inv(s) ==> PhaseOf(s) == Submitting && Inv(t) && PhaseOf(t) == Submitted
  {
    s.(isSubmitting := false, isSubmitted := true,
       pendingFirst := s.pendingFirst - 1, pendingSecond := s.pendingSecond + 1)
  }

  /** The second timer's callback: back to an empty form. */
  function AfterSecondTimer(s: FormState): (t: FormState)
    requires s.pendingSecond > 0
    ensures !t.isSubmitted && t.isSubmitting == s.isSubmitting
    ensures forall f :: t.data.Get(f) == ""
    ensures t.pendingFirst == s.pendingFirst && t.pendingSecond == s.pendingSecond - 1
    ensures Inv(s) ==> PhaseOf(s) == Submitted && Inv(t) && PhaseOf(t) == Editing
  {
    s.(isSubmitted := false, data := EmptyForm, pendingSecond := s.pendingSecond - 1)
  }

  datatype Event =
    | Change(field: Field, value: string)
    | SubmitPressed
    | FirstTimerFires
    | SecondTimerFires

  /**
   * A timer can only fire once it has been scheduled, and an input can only
   * be edited while the form is rendered.
   */
  predicate Enabled(s: FormState, e: Event) {
    match e
    case Change(_, _) => ShowsForm(s)
    case FirstTimerFires => s.pendingFirst > 0
    case SecondTimerFires => s.pendingSecond > 0
    case _ => true
  }

  /** One event: an edit, a press of the submit button (which the browser may block), or a timer. */
  function Apply(s: FormState, e: Event): (t: FormState)
    requires Enabled(s, e)
    ensures e.Change? ==> t.data.Get(e.field) == e.value && t.isSubmitting == s.isSubmitting && t.isSubmitted == s.isSubmitted
    ensures e == SubmitPressed ==> (t == s <==> !SubmitDispatched(s))
    ensures e == SubmitPressed && SubmitDispatched(s) ==> t.isSubmitting && t.data == s.data
    ensures e == FirstTimerFires ==> t.isSubmitted && !t.isSubmitting && t.data == s.data
    ensures e == SecondTimerFires ==> !t.isSubmitted && t.data == EmptyForm
  {
    match e
    case Change(f, v) => AfterChange(s, f, v)
    case SubmitPressed => if SubmitDispatched(s) then AfterHandleSubmit(s) else s
    case FirstTimerFires => AfterFirstTimer(s)
    case SecondTimerFires => AfterSecondTimer(s)
  }

  predicate Runnable(s: FormState, es: seq<Event>)
    decreases |es|
  {
    es == [] || (Enabled(s, es[0]) && Runnable(Apply(s, es[0]), es[1..]))
  }

  function Run(s: FormState, es: seq<Event>): FormState
    requires Runnable(s, es)
    decreases |es|
  {
    if es == [] then s else Run(Apply(s, es[0]), es[1..])
  }

  // ---------------------------------------------------------------------------
  // The lifecycle editing -> submitting -> submitted -> editing

  datatype Phase = Editing | Submitting | Submitted

  /** The states the page can be in: exactly one phase, with its timers. */
  predicate Inv(s: FormState) {
    || (!s.isSubmitting && !s.isSubmitted && s.pendingFirst == 0 && s.pendingSecond == 0)
    || (s.isSubmitting && !s.isSubmitted && s.pendingFirst == 1 && s.pendingSecond == 0)
    || (!s.isSubmitting && s.isSubmitted && s.pendingFirst == 0 && s.pendingSecond == 1)
  }

  function PhaseOf(s: FormState): Phase
    requires Inv(s)
  {
    if s.isSubmitting then Submitting else if s.isSubmitted then Submitted else Editing
  }

  /** page.tsx:14-26: all fields empty, nothing submitting or submitted. */
  lemma InitialIsEmpty()
    ensures forall f :: Initial.data.Get(f) == ""
    ensures !Initial.isSubmitting && !Initial.isSubmitted
    ensures Inv(Initial) && PhaseOf(Initial) == Editing
  {
  }

  /** page.tsx:28-35: an edit sets exactly the named field. */
  lemma ChangeSetsOnlyThatField(s: FormState, f: Field, v: string)
    ensures AfterChange(s, f, v).data.Get(f) == v
    ensures forall g :: g != f ==> AfterChange(s, f, v).data.Get(g) == s.data.Get(g)
    ensures AfterChange(s, f, v).isSubmitting == s.isSubmitting
    ensures AfterChange(s, f, v).isSubmitted == s.isSubmitted
  {
  }

  /** page.tsx:37-39: submit raises `isSubmitting` and touches neither the data nor `isSubmitted`. */
  lemma SubmitRaisesSubmitting(s: FormState)
    requires SubmitDispatched(s)
    ensures Apply(s, SubmitPressed).isSubmitting
    ensures Apply(s, SubmitPressed).data == s.data
    ensures Apply(s, SubmitPressed).isSubmitted == s.isSubmitted
  {
  }

  /** A submit the browser blocks (a required field empty, or the button disabled) changes nothing. */
  lemma BlockedSubmitChangesNothing(s: FormState)
    requires !SubmitDispatched(s)
    ensures Apply(s, SubmitPressed) == s
  {
  }

  /** page.tsx:42-45: the first timer ends submitting, shows the confirmation, keeps the data. */
  lemma FirstTimerSubmits(s: FormState)
    requires s.pendingFirst > 0
    ensures !AfterFirstTimer(s).isSubmitting && AfterFirstTimer(s).isSubmitted
    ensures AfterFirstTimer(s).data == s.data
    ensures ShowsConfirmation(AfterFirstTimer(s))
  {
  }

  /** page.tsx:48-61: the second timer clears every field and shows the form again. */
  lemma SecondTimerResets(s: FormState)
    requires s.pendingSecond > 0
    ensures !AfterSecondTimer(s).isSubmitted
    ensures forall f :: AfterSecondTimer(s).data.Get(f) == ""
    ensures AfterSecondTimer(s).isSubmitting == s.isSubmitting
  {
  }

  /** page.tsx:115-133,274-303: what is rendered follows the flags. */
  lemma RenderingFollowsFlags(s: FormState)
    ensures ShowsForm(s) <==> !ShowsConfirmation(s)
    ensures SubmitDisabled(s) <==> SubmitLabel(s) == "Processing..."
    ensures !SubmitDisabled(s) <==> SubmitLabel(s) == "Submit Claim"
  {
  }

  /** Every step keeps the page in one phase and moves it only along the cycle. */
  lemma StepKeepsInv(s: FormState, e: Event)
    requires Inv(s) && Enabled(s, e)
    ensures Inv(Apply(s, e))
    ensures PhaseOf(Apply(s, e)) == PhaseOf(s)
      || (PhaseOf(s) == Editing && PhaseOf(Apply(s, e)) == Submitting && e == SubmitPressed)
      || (PhaseOf(s) == Submitting && PhaseOf(Apply(s, e)) == Submitted && e == FirstTimerFires)
      || (PhaseOf(s) == Submitted && PhaseOf(Apply(s, e)) == Editing && e == SecondTimerFires)
  {
  }

  lemma {:induction false} RunKeepsInv(s: FormState, es: seq<Event>)
    requires Inv(s) && Runnable(s, es)
    ensures Inv(Run(s, es))
    decreases |es|
  {
    if es != [] {
      StepKeepsInv(s, es[0]);
      RunKeepsInv(Apply(s, es[0]), es[1..]);
    }
  }

  /** page.tsx:39,44-45,115,274: whatever happens, the page is never submitting and submitted at once. */
  lemma NeverSubmittingAndSubmitted(es: seq<Event>)
    requires Runnable(Initial, es)
    ensures !(Run(Initial, es).isSubmitting && Run(Initial, es).isSubmitted)
  {
    RunKeepsInv(Initial, es);
  }

  /**
   * The second timer is scheduled only by the first: from a state with no
   * second timer pending, any firing of the second timer is preceded by a
   * firing of the first.
   */
  lemma {:induction false} SecondTimerFollowsFirst(s: FormState, es: seq<Event>, j: nat)
    requires Runnable(s, es) && s.pendingSecond == 0
    requires j < |es| && es[j] == SecondTimerFires
    ensures exists i :: 0 <= i < j && es[i] == FirstTimerFires
    decreases j
  {
    if j == 0 {
      assert false;
    } else if es[0] != FirstTimerFires {
      var t := Apply(s, es[0]);
      assert t.pendingSecond == 0;
      assert es[1..][j - 1] == SecondTimerFires;
      SecondTimerFollowsFirst(t, es[1..], j - 1);
      var i :| 0 <= i < j - 1 && es[1..][i] == FirstTimerFires;
      assert es[i + 1] == FirstTimerFires;
    }
  }

  /**
   * A filled-in form goes through the whole cycle: submitting with the busy
   * button, then the confirmation, then an empty form again.
   */
  lemma {:induction false} SubmissionCycle(d: FormData)
    requires RequiredFilled(d)
    ensures Runnable(FormState(d, false, false, 0, 0), [SubmitPressed, FirstTimerFires, SecondTimerFires])
    ensures Run(FormState(d, false, false, 0, 0), [SubmitPressed]).isSubmitting
    ensures SubmitLabel(Run(FormState(d, false, false, 0, 0), [SubmitPressed])) == "Processing..."
    ensures ShowsConfirmation(Run(FormState(d, false, false, 0, 0), [SubmitPressed, FirstTimerFires]))
    ensures Run(FormState(d, false, false, 0, 0), [SubmitPressed, FirstTimerFires, SecondTimerFires]) == Initial
  {
    var s0 := FormState(d, false, false, 0, 0);
    var s1 := AfterHandleSubmit(s0);
    var s2 := AfterFirstTimer(s1);
    var s3 := AfterSecondTimer(s2);
    assert Apply(s0, SubmitPressed) == s1;
    assert [SubmitPressed, FirstTimerFires, SecondTimerFires][1..] == [FirstTimerFires, SecondTimerFires];
    assert [FirstTimerFires, SecondTimerFires][1..] == [SecondTimerFires];
    assert [SubmitPressed, FirstTimerFires][1..] == [FirstTimerFires];
    assert Runnable(s3, []);
    assert Runnable(s2, [SecondTimerFires]);
    assert Runnable(s1, [FirstTimerFires, SecondTimerFires]);
    assert Run(s2, [SecondTimerFires]) == s3;
    assert Run(s1, [FirstTimerFires]) == s2;
  }

  const JaneDoe := FormData("Jane Doe", "jane@x.com", "555-0100", "auto", "P-1", "2024-01-01", "100.00", "fender bender")

  /** The example submission: Jane Doe's claim is confirmed and then cleared. */
  lemma ExampleSubmission()
    ensures Runnable(FormState(JaneDoe, false, false, 0, 0), [SubmitPressed, FirstTimerFires, SecondTimerFires])
    ensures Run(FormState(JaneDoe, false, false, 0, 0), [SubmitPressed, FirstTimerFires, SecondTimerFires]) == Initial
  {
    assert RequiredFilled(JaneDoe);
    SubmissionCycle(JaneDoe);
  }

  // ---------------------------------------------------------------------------
  // The component

  class NewClaimPage {
    var formData: FormData
    var isSubmitting: bool
    var isSubmitted: bool
    /** Timer callbacks scheduled and not yet run. */
    var pendingFirst: nat
    var pendingSecond: nat

    function State(): FormState
      reads this
    {
      FormState(formData, isSubmitting, isSubmitted, pendingFirst, pendingSecond)
    }

    ghost predicate Valid()
      reads this
    {
      Inv(State())
    }

    constructor ()
      ensures Valid() && State() == Initial
    {
      formData := EmptyForm;
      isSubmitting, isSubmitted := false, false;
      pendingFirst, pendingSecond := 0, 0;
    }

    /** An input's `onChange`; the inputs exist only while the form is rendered. */
    method HandleChange(name: Field, value: string)
      requires Valid() && ShowsForm(State())
      modifies this
      ensures Valid() && State() == AfterChange(old(State()), name, value)
    {
      formData := formData.With(name, value);
    }

    method HandleSelectChange(name: Field, value: string)
      requires Valid() && ShowsForm(State())
      modifies this
      ensures Valid() && State() == AfterChange(old(State()), name, value)
    {
      HandleChange(name, value);
    }

    /** The handler itself; the browser calls it only when `SubmitDispatched`. */
    method HandleSubmit()
      requires Valid() && SubmitDispatched(State())
      modifies this
      ensures Valid() && State() == AfterHandleSubmit(old(State()))
    {
      isSubmitting := true;
      pendingFirst := pendingFirst + 1;
    }

    /** The user submits the form: the browser either blocks it or runs `handleSubmit`. */
    method PressSubmit() returns (dispatched: bool)
      requires Valid()
      modifies this
      ensures dispatched == SubmitDispatched(old(State()))
      ensures Valid() && State() == Apply(old(State()), SubmitPressed)
    {
      dispatched := !isSubmitted && !isSubmitting && RequiredFilled(formData);
      if dispatched {
        HandleSubmit();
      }
    }

    method OnFirstTimer()
      requires Valid() && pendingFirst > 0
      modifies this
      ensures Valid() && State() == AfterFirstTimer(old(State()))
    {
      isSubmitting := false;
      isSubmitted := true;
      pendingFirst := pendingFirst - 1;
      pendingSecond := pendingSecond + 1;
    }

    method OnSecondTimer()
      requires Valid() && pendingSecond > 0
      modifies this
      ensures Valid() && State() == AfterSecondTimer(old(State()))
    {
      isSubmitted := false;
      formData := EmptyForm;
      pendingSecond := pendingSecond - 1;
    }
  }
}
