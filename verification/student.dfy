/**
  The student screen (first wizard step): its fields, the per-field
  validator, the submit gate and the picker option sets.
 */
module StudentForm {
  import opened Wrappers
  import opened Text
  import opened ErrorMaps
  import opened Store
  import opened Wizard
  import opened Debounce

  datatype Field =
    | Nome | DataNascimento | Naturalidade | Nacionalidade | Cpf | Rg
    | Termo | Folha | Livro | Matricula | Sexo | Turno | TipoSanguineo | Raca | AnoLetivo

  type Errors = map<Field, string>

  /** The draft the screen starts from: every field empty. */
  const InitialForm: StudentRecord :=
    StudentRecord("", "", "", "", "", "", "", "", "", "", "", "", "", "", "")

  function Get(form: StudentRecord, f: Field): string {
    match f
    case Nome => form.nome
    case DataNascimento => form.dataNascimento
    case Naturalidade => form.naturalidade
    case Nacionalidade => form.nacionalidade
    case Cpf => form.cpf
    case Rg => form.rg
    case Termo => form.termo
    case Folha => form.folha
    case Livro => form.livro
    case Matricula => form.matricula
    case Sexo => form.sexo
    case Turno => form.turno
    case TipoSanguineo => form.tipoSanguineo
    case Raca => form.raca
    case AnoLetivo => form.anoLetivo
  }

  /** `{ ...prev, [field]: value }`. */
  function With(form: StudentRecord, f: Field, v: string): (r: StudentRecord)
    ensures Get(r, f) == v
    ensures forall g :: g != f ==> Get(r, g) == Get(form, g)
  {
    match f
    case Nome => form.(nome := v)
    case DataNascimento => form.(dataNascimento := v)
    case Naturalidade => form.(naturalidade := v)
    case Nacionalidade => form.(nacionalidade := v)
    case Cpf => form.(cpf := v)
    case Rg => form.(rg := v)
    case Termo => form.(termo := v)
    case Folha => form.(folha := v)
    case Livro => form.(livro := v)
    case Matricula => form.(matricula := v)
    case Sexo => form.(sexo := v)
    case Turno => form.(turno := v)
    case TipoSanguineo => form.(tipoSanguineo := v)
    case Raca => form.(raca := v)
    case AnoLetivo => form.(anoLetivo := v)
  }

  /** The fields filled from a picker. */
  predicate IsSelection(f: Field) {
    f == Sexo || f == Turno || f == TipoSanguineo || f == Raca
  }

  /** The two free-text fields the validator never flags. */
  predicate IsOptional(f: Field) {
    f == Naturalidade || f == Nacionalidade
  }

  /** The free-text fields flagged when blank. */
  predicate IsRequiredText(f: Field) {
    f != Cpf && f != DataNascimento && f != Rg && !IsSelection(f) && !IsOptional(f)
  }

  /** The message of the rule `value` fails for field `f`, if it fails one. */
  function Rule(f: Field, v: string): Option<string> {
    match f
    case Cpf => if DigitCount(v) != 11 then Some("CPF inválido") else None
    case DataNascimento => if !IsDateShaped(v) then Some("Data inválida") else None
    case Rg => if DigitCount(v) != 9 then Some("RG inválido") else None
    case Sexo => if IsBlank(v) then Some("Selecione uma opção") else None
    case Turno => if IsBlank(v) then Some("Selecione uma opção") else None
    case TipoSanguineo => if IsBlank(v) then Some("Selecione uma opção") else None
    case Raca => if IsBlank(v) then Some("Selecione uma opção") else None
    case _ => if IsBlank(v) && !IsOptional(f) then Some("Campo obrigatório") else None
  }

  /**
    The field validator: the new error map after `f` was set to `v`. The
    CPF, RG and date rules decide the field's entry on their own, whatever
    the punctuation; pickers and required text are flagged exactly when
    blank; the optional fields can lose an error but never gain one.
   */
  function ValidateField(errors: Errors, f: Field, v: string): (r: Errors)
    ensures OnlyChangedAt(errors, r, f)
    ensures f == Cpf ==> (f in r <==> DigitCount(v) != 11) && (f in r ==> r[f] == "CPF inválido")
    ensures f == Rg ==> (f in r <==> DigitCount(v) != 9) && (f in r ==> r[f] == "RG inválido")
    ensures f == DataNascimento ==>
      (f in r <==> !IsDateShaped(v)) && (f in r ==> r[f] == "Data inválida")
    ensures IsSelection(f) ==> (f in r <==> IsBlank(v)) && (f in r ==> r[f] == "Selecione uma opção")
    ensures IsRequiredText(f) ==> (f in r <==> IsBlank(v)) && (f in r ==> r[f] == "Campo obrigatório")
    ensures IsOptional(f) ==> (f in r <==> f in errors && IsBlank(v)) && (f in r ==> r[f] == errors[f])
  {
    BlankHasNoDigits(v);
    DateShapedNotBlank(v);
    Revalidate(errors, f, !IsBlank(v), Rule(f, v))
  }

  /** The value passes the field's rule (optional fields always pass). */
  predicate Acceptable(f: Field, v: string) {
    match f
    case Cpf => DigitCount(v) == 11
    case Rg => DigitCount(v) == 9
    case DataNascimento => IsDateShaped(v)
    case _ => IsOptional(f) || !IsBlank(v)
  }

  /** One keystroke batch: `handleChange(field, value)`. */
  datatype Edit = Edit(field: Field, value: string)

  /** Validating each edit in turn, as when every debounce window expires. */
  function ValidateAll(errors: Errors, edits: seq<Edit>): Errors
    decreases |edits|
  {
    if edits == [] then errors
    else ValidateAll(ValidateField(errors, edits[0].field, edits[0].value), edits[1..])
  }

  /** The value of `f` set by the last edit of `f`, if any. */
  function LastValue(edits: seq<Edit>, f: Field): Option<string>
    decreases |edits|
  {
    if edits == [] then None
    else if edits[|edits| - 1].field == f then Some(edits[|edits| - 1].value)
    else LastValue(edits[..|edits| - 1], f)
  }

  lemma ValidateAllSnoc(errors: Errors, edits: seq<Edit>, e: Edit)
    ensures ValidateAll(errors, edits + [e]) == ValidateField(ValidateAll(errors, edits), e.field, e.value)
    decreases |edits|
  {
    if edits != [] {
      assert (edits + [e])[1..] == edits[1..] + [e];
      ValidateAllSnoc(ValidateField(errors, edits[0].field, edits[0].value), edits[1..], e);
    }
  }

  /**
    Starting from the screen's empty error map, a field has an error exactly
    when its most recent edit failed its rule: errors never outlive the edit
    that fixes them and untouched fields carry none.
   */
  lemma {:induction false} ErrorsTrackLastEdits(edits: seq<Edit>, f: Field)
    ensures f in ValidateAll(map[], edits) <==> LastValue(edits, f).Some? && !Acceptable(f, LastValue(edits, f).value)
    decreases |edits|
  {
    if edits != [] {
      var init, e := edits[..|edits| - 1], edits[|edits| - 1];
      assert edits == init + [e];
      ValidateAllSnoc(map[], init, e);
      ErrorsTrackLastEdits(init, f);
      var before := ValidateAll(map[], init);
      var after := ValidateField(before, e.field, e.value);
      if e.field != f {
        assert SameEntry(before, after, f);
      } else if IsOptional(f) {
        assert f !in before;
      }
    }
  }

  /** The flush run on submit: the one waiting validation, if any, runs now. */
  function Flush(errors: Errors, p: Pending<Edit>): (r: Errors)
    ensures p.Idle? ==> r == errors
    ensures p.Waiting? ==> OnlyChangedAt(errors, r, p.call.field)
    ensures p.Waiting? && !IsOptional(p.call.field) ==>
      (p.call.field in r <==> !Acceptable(p.call.field, p.call.value))
  {
    match p
    case Idle => errors
    case Waiting(e) => ValidateField(errors, e.field, e.value)
  }

  /**
    Because one debounced validator serves all fields, a burst of edits to
    different fields validates only the last one: an invalid CPF typed just
    before the name is never flagged.
   */
  lemma BurstValidatesOnlyLastEdit(errors: Errors, edits: seq<Edit>)
    requires edits != []
    ensures Flush(errors, CallAll(Idle, edits))
         == ValidateField(errors, edits[|edits| - 1].field, edits[|edits| - 1].value)
  {
    OnlyLastCallSurvives(Idle, edits);
  }

  lemma BurstDropsCpfError()
    ensures Cpf !in Flush(map[], CallAll(Idle, [Edit(Cpf, "123"), Edit(Nome, "Ana")]))
  {
    BurstValidatesOnlyLastEdit(map[], [Edit(Cpf, "123"), Edit(Nome, "Ana")]);
  }

  /**
    `handleSubmit`: with no recorded error the draft is written to the
    store's `aluno` section and the maternal screen is pushed; otherwise the
    store is untouched and the incomplete-form alert is shown.
   */
  function Submit(store: FormStore, form: StudentRecord, errors: Errors): (r: StepOutcome)
    ensures r.next.Some? <==> errors == map[]
    ensures r.next.Some? ==> r.next.value == FormsMaterno && r.store == SetAluno(store, form) && r.alert.None?
    ensures r.next.None? ==> r.store == store && r.alert == Some(Incomplete)
  {
    if |errors| == 0 then StepOutcome(SetAluno(store, form), Some(FormsMaterno), None)
    else StepOutcome(store, None, Some(Incomplete))
  }

  /**
    Submitting the same draft twice stores it once: the second submit leaves
    the store exactly as the first did.
   */
  lemma SubmitIdempotent(store: FormStore, form: StudentRecord, errors: Errors)
    ensures Submit(Submit(store, form, errors).store, form, errors).store == Submit(store, form, errors).store
  {
  }

  /**
    The submit gate reads only the error map, and no field of the untouched
    draft has been validated: submitting at once stores the all-empty record.
   */
  lemma UntouchedDraftAdvances(store: FormStore)
    ensures Submit(store, InitialForm, map[]).next == Some(FormsMaterno)
    ensures Submit(store, InitialForm, map[]).store.aluno == Filled(InitialForm)
    ensures forall f :: Get(InitialForm, f) == ""
  {
  }

  /**
    A draft whose every field was last edited to an acceptable value (or not
    edited, for the optional and unvalidated ones) advances and is stored.
   */
  lemma ValidEditsAdvance(store: FormStore, form: StudentRecord, edits: seq<Edit>)
    requires forall f :: LastValue(edits, f).Some? ==> Acceptable(f, LastValue(edits, f).value)
    ensures Submit(store, form, ValidateAll(map[], edits)).store.aluno == Filled(form)
  {
    var errs := ValidateAll(map[], edits);
    forall f | f in errs ensures false {
      ErrorsTrackLastEdits(edits, f);
    }
    assert errs == map[];
  }

  const SexoOptions: seq<string> := ["M", "F", "Não-binário", "Outro", "Prefiro não informar"]
  const TurnoOptions: seq<string> := ["Manhã", "Tarde", "Integral"]
  const TipoSanguineoOptions: seq<string> := ["A+", "A-", "B+", "O+", "O-", "AB+", "AB-"]
  const RacaOptions: seq<string> := ["Amarela", "Branca", "Indígena", "Parda", "Preta"]

  /** The values a picker offers; the placeholder item has value "". */
  function Options(f: Field): seq<string>
    requires IsSelection(f)
  {
    match f
    case Sexo => SexoOptions
    case Turno => TurnoOptions
    case TipoSanguineo => TipoSanguineoOptions
    case Raca => RacaOptions
  }

  /**
    Picking any offered option clears the picker's error, and going back to
    the placeholder sets it.
   */
  lemma PickerOptionsSatisfyRule(errors: Errors, f: Field, i: int)
    requires IsSelection(f) && 0 <= i < |Options(f)|
    ensures f !in ValidateField(errors, f, Options(f)[i])
    ensures f in ValidateField(errors, f, "")
  {
    var o := Options(f)[i];
    assert |o| > 0 && !IsWhitespace(o[0]);
    NotBlankAt(o, 0);
  }
}
