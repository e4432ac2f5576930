/**
  The guardian screens. The maternal and paternal screens are the same
  component over `...Mae` and `...Pai` field names; this module holds what
  they share: the fields, the validator gated by the "has guardian" toggle,
  the required-fields check, the missing-field list and the submit gate.
 */
module GuardianForm {
  import opened Wrappers
  import opened Seqs
  import opened Text
  import opened ErrorMaps
  import opened Store
  import opened Wizard

  datatype Field =
    | Nome | Cep | Telefone | Trabalho | Nascimento | Cpf | Email
    | TelefoneTrabalho | Endereco | Rg | Profissao | NumeroCasa

  type Errors = map<Field, string>

  /** The draft the screen starts from, and the "absent" record written on toggle-off. */
  const EmptyRecord: GuardianRecord := GuardianRecord("", "", "", "", "", "", "", "", "", "", "", "")

  function Get(form: GuardianRecord, f: Field): string {
    match f
    case Nome => form.nome
    case Cep => form.cep
    case Telefone => form.telefone
    case Trabalho => form.trabalho
    case Nascimento => form.nascimento
    case Cpf => form.cpf
    case Email => form.email
    case TelefoneTrabalho => form.telefoneTrabalho
    case Endereco => form.endereco
    case Rg => form.rg
    case Profissao => form.profissao
    case NumeroCasa => form.numeroCasa
  }

  /** `{ ...prev, [field]: value }`. */
  function With(form: GuardianRecord, f: Field, v: string): (r: GuardianRecord)
    ensures Get(r, f) == v
    ensures forall g :: g != f ==> Get(r, g) == Get(form, g)
  {
    match f
    case Nome => form.(nome := v)
    case Cep => form.(cep := v)
    case Telefone => form.(telefone := v)
    case Trabalho => form.(trabalho := v)
    case Nascimento => form.(nascimento := v)
    case Cpf => form.(cpf := v)
    case Email => form.(email := v)
    case TelefoneTrabalho => form.(telefoneTrabalho := v)
    case Endereco => form.(endereco := v)
    case Rg => form.(rg := v)
    case Profissao => form.(profissao := v)
    case NumeroCasa => form.(numeroCasa := v)
  }

  /** The two fields the validator never flags: workplace and street address. */
  predicate IsExempt(f: Field) {
    f == Trabalho || f == Endereco
  }

  /** The fields that fall to the validator's default branch and are flagged when blank. */
  predicate IsRequiredText(f: Field) {
    f == Nome || f == Telefone || f == TelefoneTrabalho || f == Profissao || f == NumeroCasa
  }

  /** The message of the rule `value` fails for field `f`, if it fails one. */
  function Rule(f: Field, v: string): Option<string> {
    match f
    case Cpf => if DigitCount(v) != 11 then Some("CPF inválido") else None
    case Cep => if DigitCount(v) != 8 then Some("CEP inválido") else None
    case Nascimento => if !IsDateShaped(v) then Some("Data inválida") else None
    case Rg => if DigitCount(v) != 9 then Some("RG inválido") else None
    case Email => if v != "" && !IsEmailShaped(v) then Some("E-mail inválido") else None
    case _ => if IsBlank(v) && !IsExempt(f) then Some("Campo obrigatório") else None
  }

  /**
    The field validator. With the section inactive it changes nothing.
    With it active: the digit-count and date rules decide the entry alone;
    the e-mail is checked only when non-empty, so emptying the field keeps a
    previous e-mail error; default fields are flagged exactly when blank,
    except workplace and address, which can lose an error but never gain one.
   */
  function ValidateField(active: bool, errors: Errors, f: Field, v: string): (r: Errors)
    ensures !active ==> r == errors
    ensures active ==> OnlyChangedAt(errors, r, f)
    ensures active && f == Cpf ==> (f in r <==> DigitCount(v) != 11) && (f in r ==> r[f] == "CPF inválido")
    ensures active && f == Cep ==> (f in r <==> DigitCount(v) != 8) && (f in r ==> r[f] == "CEP inválido")
    ensures active && f == Rg ==> (f in r <==> DigitCount(v) != 9) && (f in r ==> r[f] == "RG inválido")
    ensures active && f == Nascimento ==>
      (f in r <==> !IsDateShaped(v)) && (f in r ==> r[f] == "Data inválida")
    ensures active && f == Email ==>
      && (f in r <==> (v == "" && f in errors) || (v != "" && !IsEmailShaped(v)))
      && (v != "" && f in r ==> r[f] == "E-mail inválido")
      && (v == "" ==> SameEntry(errors, r, f))
    ensures active && IsRequiredText(f) ==>
      (f in r <==> IsBlank(v)) && (f in r ==> r[f] == "Campo obrigatório")
    ensures active && IsExempt(f) ==> (f in r <==> f in errors && IsBlank(v)) && (f in r ==> r[f] == errors[f])
  {
    if !active then errors
    else
      BlankHasNoDigits(v);
      DateShapedNotBlank(v);
      EmailShapedNotBlank(v);
      BlankIffAllWhitespace("");
      Revalidate(errors, f, !IsBlank(v), Rule(f, v))
  }

  /** The nine fields the submit gate requires, in the order the alert lists them. */
  const RequiredFields: seq<Field> := [Nome, Cep, Telefone, Nascimento, Cpf, Email, Endereco, Rg, NumeroCasa]

  /** Every field of `fields` is non-blank in `form`. */
  function AllFilled(form: GuardianRecord, fields: seq<Field>): (r: bool)
    ensures r <==> forall i :: 0 <= i < |fields| ==> !IsBlank(Get(form, fields[i]))
  {
    if fields == [] then true
    else
      assert forall i :: 1 <= i < |fields| ==> fields[i] == fields[1..][i - 1];
      !IsBlank(Get(form, fields[0])) && AllFilled(form, fields[1..])
  }

  /**
    `validateMaeFields` / `validatePaiFields`: true when the section is
    inactive; otherwise true exactly when each required field is non-blank.
   */
  function RequiredFilled(active: bool, form: GuardianRecord): (r: bool)
    ensures !active ==> r
    ensures active ==> (r <==> forall f :: f in RequiredFields ==> !IsBlank(Get(form, f)))
  {
    !active || AllFilled(form, RequiredFields)
  }

  /** The alert's text for each required field. */
  function Label(f: Field): string {
    match f
    case Nome => "Nome Completo"
    case Cep => "CEP"
    case Telefone => "Telefone"
    case Nascimento => "Data de Nascimento"
    case Cpf => "CPF"
    case Email => "E-mail"
    case Endereco => "Endereço"
    case Rg => "RG"
    case NumeroCasa => "Número da Casa"
    case Trabalho => "Local de Trabalho"
    case TelefoneTrabalho => "Telefone do Trabalho"
    case Profissao => "Profissão"
  }

  lemma RequiredFieldsDistinct()
    ensures Distinct(RequiredFields)
  {
  }

  /**
    The missing-field list: the required fields whose value is falsy (the
    empty string; a whitespace-only value is not missing), in fixed order.
   */
  function Missing(form: GuardianRecord): (r: seq<Field>)
    ensures IsSubsequence(r, RequiredFields)
    ensures forall i :: 0 <= i < |RequiredFields| ==>
      (RequiredFields[i] in r <==> Get(form, RequiredFields[i]) == "")
    ensures forall f :: f in r ==> f in RequiredFields
  {
    var keep := seq(|RequiredFields|, i requires 0 <= i < |RequiredFields| => Get(form, RequiredFields[i]) == "");
    RequiredFieldsDistinct();
    forall i | 0 <= i < |RequiredFields|
      ensures RequiredFields[i] in Select(keep, RequiredFields) <==> keep[i]
    {
      SelectMembership(keep, RequiredFields, i);
    }
    Select(keep, RequiredFields)
  }

  function Labels(fields: seq<Field>): (r: seq<string>)
    ensures |r| == |fields| && forall i :: 0 <= i < |fields| ==> r[i] == Label(fields[i])
  {
    seq(|fields|, i requires 0 <= i < |fields| => Label(fields[i]))
  }

  /** What the submit gate decides. */
  datatype Verdict =
    | Skip                       // section inactive: advance, store not written
    | Pass                       // advance and write the draft
    | Block(alert: Option<Alert>) // stay; the alert shown, if any

  /**
    The submit gate. Inactive sections skip; active ones pass exactly when
    every required field is non-blank and no error is recorded. A blocked
    submit lists the missing fields, or else reports recorded errors.
   */
  function Gate(active: bool, form: GuardianRecord, errors: Errors): (r: Verdict)
    ensures r.Skip? <==> !active
    ensures r.Pass? <==> active && RequiredFilled(active, form) && errors == map[]
    ensures r.Block? && Missing(form) != [] ==> r.alert == Some(MissingFields(Labels(Missing(form))))
    ensures r.Block? && Missing(form) == [] ==> r.alert == (if errors != map[] then Some(InvalidFields) else None)
  {
    if !active then Skip
    else if RequiredFilled(active, form) && |errors| == 0 then Pass
    else
      var missing := Missing(form);
      if |missing| > 0 then Block(Some(MissingFields(Labels(missing))))
      else if |errors| > 0 then Block(Some(InvalidFields))
      else Block(None)
  }

  /**
    A blocked submit raises no alert at all exactly when nothing is empty,
    no error is recorded, and yet some required field is whitespace only:
    such a value is blank for the gate but not falsy for the list.
   */
  lemma SilentBlock(form: GuardianRecord, errors: Errors)
    ensures Gate(true, form, errors) == Block(None) <==>
      && errors == map[]
      && (forall f :: f in RequiredFields ==> Get(form, f) != "")
      && (exists f :: f in RequiredFields && IsBlank(Get(form, f)))
  {
    var m := Missing(form);
    if !forall f :: f in RequiredFields ==> Get(form, f) != "" {
      var f :| f in RequiredFields && Get(form, f) == "";
      var i :| 0 <= i < |RequiredFields| && RequiredFields[i] == f;
      assert f in m;
    }
  }

  /**
    The silent block occurs: a whitespace-only street address, with every
    other required field filled and no recorded error, blocks without a word.
   */
  lemma SilentBlockOnBlankAddress(form: GuardianRecord)
    requires forall f :: f in RequiredFields ==> Get(form, f) != ""
    requires form.endereco == " "
    ensures Gate(true, form, map[]) == Block(None)
  {
    assert IsBlank(Get(form, Endereco)) by { BlankIffAllWhitespace(form.endereco); }
    SilentBlock(form, map[]);
  }

  /** The screen's own state: the toggle, the draft and the error map. */
  datatype Screen = Screen(active: bool, form: GuardianRecord, errors: Errors)

  /** The screen opens with the section switched off and nothing entered. */
  const InitialScreen: Screen := Screen(false, EmptyRecord, map[])

  /** The screen side of the toggle: switching off resets draft and errors. */
  function ToggleScreen(s: Screen): (r: Screen)
    ensures r.active == !s.active
    ensures s.active ==> r.form == EmptyRecord && r.errors == map[]
    ensures !s.active ==> r.form == s.form && r.errors == s.errors
  {
    if s.active then Screen(false, EmptyRecord, map[]) else s.(active := true)
  }

  /** `handleChange` with its validation run. */
  function Edit(s: Screen, f: Field, v: string): (r: Screen)
    ensures r.active == s.active && Get(r.form, f) == v
    ensures forall g :: g != f ==> Get(r.form, g) == Get(s.form, g)
    ensures !s.active ==> r.errors == s.errors
    ensures s.active ==> OnlyChangedAt(s.errors, r.errors, f)
    ensures r.errors == ValidateField(s.active, s.errors, f, v)
  {
    Screen(s.active, With(s.form, f, v), ValidateField(s.active, s.errors, f, v))
  }
}
