/**
  The paternal-guardian screen: the shared guardian model bound to the
  store's `pai` section, advancing to the observations screen.
 */
module PaternoForm {
  import opened Wrappers
  import opened Text
  import opened Store
  import opened Wizard
  import opened GuardianForm

  /**
    `toggleResponsavelPaterno`. Switching off resets the draft and the
    errors and writes the all-empty record to `pai` at once; switching on
    only activates the section.
   */
  function Toggle(s: Screen, store: FormStore): (r: (Screen, FormStore))
    ensures r.0.active == !s.active
    ensures s.active ==> r.0.form == EmptyRecord && r.0.errors == map[]
    ensures s.active ==> r.1 == SetPai(store, EmptyRecord)
    ensures !s.active ==> r.0.form == s.form && r.0.errors == s.errors && r.1 == store
  {
    if s.active then (ToggleScreen(s), SetPai(store, EmptyRecord)) else (ToggleScreen(s), store)
  }

  /**
    `handleSubmit`. Inactive: push the observations screen without touching
    the store. Active: write `pai` and advance exactly when the required
    check passes and no error is recorded; otherwise stay with the gate's alert.
   */
  function Submit(s: Screen, store: FormStore): (r: StepOutcome)
    ensures r.next.Some? <==> !s.active || (RequiredFilled(true, s.form) && s.errors == map[])
    ensures r.next.Some? ==> r.next.value == FormsObs && r.alert.None?
    ensures s.active && r.next.Some? ==> r.store == SetPai(store, s.form)
    ensures !(s.active && r.next.Some?) ==> r.store == store
    ensures r.next.None? ==> r.alert == Gate(s.active, s.form, s.errors).alert
  {
    match Gate(s.active, s.form, s.errors)
    case Skip => StepOutcome(store, Some(FormsObs), None)
    case Pass => StepOutcome(SetPai(store, s.form), Some(FormsObs), None)
    case Block(alert) => StepOutcome(store, None, alert)
  }

  /** While the section is inactive, edits leave the error map as it is. */
  lemma InactiveEditsKeepErrors(s: Screen, f: Field, v: string)
    requires !s.active
    ensures Edit(s, f, v).errors == s.errors
  {
  }

  /**
    The street address never receives a field error, yet a blank address
    alone makes the active submit fail.
   */
  lemma AddressOnlyCheckedAtSubmit(s: Screen, store: FormStore, v: string)
    requires s.active && Endereco !in s.errors
    ensures Endereco !in Edit(s, Endereco, v).errors
    ensures IsBlank(s.form.endereco) ==> Submit(s, store).next.None? && Submit(s, store).store == store
  {
    if IsBlank(s.form.endereco) {
      assert Endereco in RequiredFields && Get(s.form, Endereco) == s.form.endereco;
      assert !RequiredFilled(true, s.form);
    }
  }

  /** An empty e-mail is not checked, so clearing the field keeps a previous e-mail error. */
  lemma ClearingEmailKeepsError(s: Screen)
    requires s.active && Email in s.errors
    ensures Email in Edit(s, Email, "").errors
  {
  }

  /**
    Toggling off and pressing next never blocks, whatever was typed, and
    leaves the all-empty record in `pai`.
   */
  lemma ToggleOffThenNext(s: Screen, store: FormStore)
    requires s.active
    ensures Submit(Toggle(s, store).0, Toggle(s, store).1).next == Some(FormsObs)
    ensures Submit(Toggle(s, store).0, Toggle(s, store).1).store.pai == Filled(EmptyRecord)
  {
  }
}
