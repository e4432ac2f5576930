/**
  The maternal-guardian screen: the shared guardian model bound to the
  store's `mae` section, advancing to the paternal screen.
 */
module MaternoForm {
  import opened Wrappers
  import opened Text
  import opened Store
  import opened Wizard
  import opened GuardianForm

  /**
    `toggleResponsavelMaterno`. Switching off resets the draft and the
    errors and writes the all-empty record to `mae` at once; switching on
    only activates the section.
   */
  function Toggle(s: Screen, store: FormStore): (r: (Screen, FormStore))
    ensures r.0.active == !s.active
    ensures s.active ==> r.0.form == EmptyRecord && r.0.errors == map[]
    ensures s.active ==> r.1 == SetMae(store, EmptyRecord)
    ensures !s.active ==> r.0.form == s.form && r.0.errors == s.errors && r.1 == store
  {
    if s.active then (ToggleScreen(s), SetMae(store, EmptyRecord)) else (ToggleScreen(s), store)
  }

  /**
    `handleSubmit`. Inactive: push the paternal screen without touching the
    store. Active: write `mae` and advance exactly when the required check
    passes and no error is recorded; otherwise stay with the gate's alert.
   */
  function Submit(s: Screen, store: FormStore): (r: StepOutcome)
    ensures r.next.Some? <==> !s.active || (RequiredFilled(true, s.form) && s.errors == map[])
    ensures r.next.Some? ==> r.next.value == FormsPaterno && r.alert.None?
    ensures s.active && r.next.Some? ==> r.store == SetMae(store, s.form)
    ensures !(s.active && r.next.Some?) ==> r.store == store
    ensures r.next.None? ==> r.alert == Gate(s.active, s.form, s.errors).alert
  {
    match Gate(s.active, s.form, s.errors)
    case Skip => StepOutcome(store, Some(FormsPaterno), None)
    case Pass => StepOutcome(SetMae(store, s.form), Some(FormsPaterno), None)
    case Block(alert) => StepOutcome(store, None, alert)
  }

  /**
    Toggling off and pressing next never blocks, whatever was typed, and
    leaves the all-empty record in `mae`.
   */
  /**
    Submitting the screen as it opens, without touching the toggle, skips
    the section: no write to `mae`, straight on to the paternal screen.
   */
  lemma UntouchedScreenSkipsSection(store: FormStore)
    ensures Submit(InitialScreen, store) == StepOutcome(store, Some(FormsPaterno), None)
  {
  }

  lemma ToggleOffThenNext(s: Screen, store: FormStore)
    requires s.active
    ensures Submit(Toggle(s, store).0, Toggle(s, store).1).next == Some(FormsPaterno)
    ensures Submit(Toggle(s, store).0, Toggle(s, store).1).store.mae == Filled(EmptyRecord)
  {
  }

  /** Switching off and on again does not bring the discarded draft back. */
  lemma ToggleTwiceDiscardsDraft(s: Screen, store: FormStore)
    requires s.active
    ensures Toggle(Toggle(s, store).0, Toggle(s, store).1).0 == Screen(true, EmptyRecord, map[])
    ensures Toggle(Toggle(s, store).0, Toggle(s, store).1).1.mae == Filled(EmptyRecord)
  {
  }

  /** An empty e-mail is not checked, so clearing the field keeps a previous e-mail error. */
  lemma ClearingEmailKeepsError(errors: Errors)
    requires Email in errors
    ensures Email in ValidateField(true, errors, Email, "")
    ensures ValidateField(true, errors, Email, "")[Email] == errors[Email]
  {
  }

  /**
    Work phone and profession reach the default rule and are flagged when
    emptied; workplace and address are not.
   */
  lemma DefaultFieldsWhenEmptied(errors: Errors)
    ensures ValidateField(true, errors, TelefoneTrabalho, "")[TelefoneTrabalho] == "Campo obrigatório"
    ensures ValidateField(true, errors, Profissao, "")[Profissao] == "Campo obrigatório"
    ensures Trabalho !in errors ==> Trabalho !in ValidateField(true, errors, Trabalho, "")
    ensures Endereco !in errors ==> Endereco !in ValidateField(true, errors, Endereco, "")
  {
    BlankIffAllWhitespace("");
  }
}
