/**
  The observations screen: two sub-steps, each with its own ordered error
  list, and the final submission that posts the stored sections and the
  observations to the API in a fixed order, keyed by the new student's id.
  Each POST is an abstract reply: success with an id, or failure.
 */
module Observations {
  import opened Wrappers
  import opened Seqs
  import opened Text
  import opened Store
  import opened Wizard
  import GuardianForm

  /** The first sub-step's state: enrolment type and the four yes/no questions. */
  datatype Step1 = Step1(
    matriculaTipo: string, escola: string,
    temIrmaos: string, irmaosNome: string,
    temEspecialista: string, especialista: string,
    temAlergias: string, alergia: string,
    temMedicamento: string, medicamento: string)

  /** The second sub-step's state: residence, financial guardian and pickup list. */
  datatype Step2 = Step2(reside: string, respNome: string, respCpf: string,
                         respTelefone: string, pessoasAutorizadas: string)

  /** The values of the enrolment-type picker and of the four yes/no pickers. */
  const MatriculaOptions: seq<string> := ["inicial", "transferencia_municipal_estadual", "transferencia_particular"]
  const YesNoOptions: seq<string> := ["sim", "não"]

  /** The two enrolment types that come from another school. */
  predicate IsTransfer(tipo: string) {
    tipo == "transferencia_municipal_estadual" || tipo == "transferencia_particular"
  }

  datatype Step1Error =
    | TipoMissing | EscolaMissing | IrmaosMissing | EspecialistaMissing | AlergiaMissing | MedicamentoMissing

  /** The order in which `validateStep1` pushes its messages. */
  const Step1Order: seq<Step1Error> :=
    [TipoMissing, EscolaMissing, IrmaosMissing, EspecialistaMissing, AlergiaMissing, MedicamentoMissing]

  function Step1Message(e: Step1Error): string {
    match e
    case TipoMissing => "Selecione o tipo de matrícula"
    case EscolaMissing => "Informe o nome da escola anterior"
    case IrmaosMissing => "Informe os nomes dos irmãos"
    case EspecialistaMissing => "Informe o tipo de acompanhamento"
    case AlergiaMissing => "Descreva as alergias"
    case MedicamentoMissing => "Informe os medicamentos"
  }

  /** A "sim" answer whose description is blank. */
  predicate YesWithoutDetail(flag: string, detail: string) {
    flag == "sim" && IsBlank(detail)
  }

  /**
    `validateStep1`: the errors of the first sub-step, in fixed order, each
    present exactly when its condition holds. The previous school is needed
    only for the two transfer types; an unanswered yes/no question never
    fails, only "sim" with a blank description does.
   */
  function ValidateStep1(d: Step1): (r: seq<Step1Error>)
    ensures IsSubsequence(r, Step1Order)
    ensures TipoMissing in r <==> d.matriculaTipo == ""
    ensures EscolaMissing in r <==> IsTransfer(d.matriculaTipo) && IsBlank(d.escola)
    ensures IrmaosMissing in r <==> YesWithoutDetail(d.temIrmaos, d.irmaosNome)
    ensures EspecialistaMissing in r <==> YesWithoutDetail(d.temEspecialista, d.especialista)
    ensures AlergiaMissing in r <==> YesWithoutDetail(d.temAlergias, d.alergia)
    ensures MedicamentoMissing in r <==> YesWithoutDetail(d.temMedicamento, d.medicamento)
  {
    var keep := [
      d.matriculaTipo == "",
      IsTransfer(d.matriculaTipo) && IsBlank(d.escola),
      YesWithoutDetail(d.temIrmaos, d.irmaosNome),
      YesWithoutDetail(d.temEspecialista, d.especialista),
      YesWithoutDetail(d.temAlergias, d.alergia),
      YesWithoutDetail(d.temMedicamento, d.medicamento)];
    assert Distinct(Step1Order);
    SelectMembership(keep, Step1Order, 0);
    SelectMembership(keep, Step1Order, 1);
    SelectMembership(keep, Step1Order, 2);
    SelectMembership(keep, Step1Order, 3);
    SelectMembership(keep, Step1Order, 4);
    SelectMembership(keep, Step1Order, 5);
    Select(keep, Step1Order)
  }

  /** Step 1 passes exactly when none of its six conditions holds. */
  lemma Step1PassesIff(d: Step1)
    ensures ValidateStep1(d) == [] <==>
      && d.matriculaTipo != ""
      && !(IsTransfer(d.matriculaTipo) && IsBlank(d.escola))
      && !YesWithoutDetail(d.temIrmaos, d.irmaosNome)
      && !YesWithoutDetail(d.temEspecialista, d.especialista)
      && !YesWithoutDetail(d.temAlergias, d.alergia)
      && !YesWithoutDetail(d.temMedicamento, d.medicamento)
  {
    var r := ValidateStep1(d);
    if r != [] {
      assert r[0] in r;
      assert r[0] in Step1Order by { SubsequenceMembers(r, Step1Order, 0); }
    }
  }

  /**
    Every enrolment type the picker offers satisfies the type check, and only
    the two transfer types can ask for the previous school; answering "não"
    never asks for a description.
   */
  lemma Step1PickerOptions(d: Step1)
    requires d.matriculaTipo in MatriculaOptions
    ensures TipoMissing !in ValidateStep1(d)
    ensures EscolaMissing in ValidateStep1(d) ==>
      d.matriculaTipo == MatriculaOptions[1] || d.matriculaTipo == MatriculaOptions[2]
    ensures d.temIrmaos == YesNoOptions[1] ==> IrmaosMissing !in ValidateStep1(d)
    ensures d.temEspecialista == YesNoOptions[1] ==> EspecialistaMissing !in ValidateStep1(d)
    ensures d.temAlergias == YesNoOptions[1] ==> AlergiaMissing !in ValidateStep1(d)
    ensures d.temMedicamento == YesNoOptions[1] ==> MedicamentoMissing !in ValidateStep1(d)
  {
  }

  /** The initial enrolment never asks for the previous school, even when it is blank. */
  lemma InitialEnrolmentNeedsNoSchool(d: Step1)
    requires d.matriculaTipo == "inicial"
    ensures EscolaMissing !in ValidateStep1(d) && TipoMissing !in ValidateStep1(d)
  {
  }

  /** Scenario: a private transfer with an empty school name is blocked for that reason. */
  lemma TransferWithoutSchoolBlocks(d: Step1)
    requires d.matriculaTipo == "transferencia_particular" && d.escola == ""
    ensures EscolaMissing in ValidateStep1(d)
    ensures "Informe o nome da escola anterior" in Step1Messages(ValidateStep1(d))
  {
    BlankIffAllWhitespace("");
    var r := ValidateStep1(d);
    var i :| 0 <= i < |r| && r[i] == EscolaMissing;
    assert Step1Messages(r)[i] == "Informe o nome da escola anterior";
  }

  function Step1Messages(errors: seq<Step1Error>): (r: seq<string>)
    ensures |r| == |errors| && forall i :: 0 <= i < |errors| ==> r[i] == Step1Message(errors[i])
  {
    seq(|errors|, i requires 0 <= i < |errors| => Step1Message(errors[i]))
  }

  datatype Step2Error = ResideMissing | RespNomeMissing | RespCpfInvalid | RespTelefoneInvalid

  /** The order in which `validateStep2` pushes its messages. */
  const Step2Order: seq<Step2Error> := [ResideMissing, RespNomeMissing, RespCpfInvalid, RespTelefoneInvalid]

  function Step2Message(e: Step2Error): string {
    match e
    case ResideMissing => "Campo \"Reside com\" é obrigatório"
    case RespNomeMissing => "Nome do responsável é obrigatório"
    case RespCpfInvalid => "CPF do responsável inválido"
    case RespTelefoneInvalid => "Telefone inválido"
  }

  function Step2Messages(errors: seq<Step2Error>): (r: seq<string>)
    ensures |r| == |errors| && forall i :: 0 <= i < |errors| ==> r[i] == Step2Message(errors[i])
  {
    seq(|errors|, i requires 0 <= i < |errors| => Step2Message(errors[i]))
  }

  /**
    `validateStep2`: the errors of the second sub-step, in fixed order: a
    blank residence, a blank guardian name, a guardian CPF or a telephone
    whose digit count is not 11.
   */
  function ValidateStep2(d: Step2): (r: seq<Step2Error>)
    ensures IsSubsequence(r, Step2Order)
    ensures ResideMissing in r <==> IsBlank(d.reside)
    ensures RespNomeMissing in r <==> IsBlank(d.respNome)
    ensures RespCpfInvalid in r <==> DigitCount(d.respCpf) != 11
    ensures RespTelefoneInvalid in r <==> DigitCount(d.respTelefone) != 11
    ensures r == [] <==> !IsBlank(d.reside) && !IsBlank(d.respNome)
                         && DigitCount(d.respCpf) == 11 && DigitCount(d.respTelefone) == 11
  {
    var keep := [IsBlank(d.reside), IsBlank(d.respNome),
                 DigitCount(d.respCpf) != 11, DigitCount(d.respTelefone) != 11];
    assert Distinct(Step2Order);
    SelectMembership(keep, Step2Order, 0);
    SelectMembership(keep, Step2Order, 1);
    SelectMembership(keep, Step2Order, 2);
    SelectMembership(keep, Step2Order, 3);
    Select(keep, Step2Order)
  }

  /**
    `handleNextStep`: the screen moves from sub-step 1 to 2 exactly when
    step 1 passes; otherwise it stays and lists step 1's errors.
   */
  function NextStep(d: Step1): (r: (int, Option<Alert>))
    ensures r.0 == 2 <==> ValidateStep1(d) == []
    ensures r.0 == 2 ==> r.1.None?
    ensures r.0 != 2 ==> r.0 == 1 && r.1 == Some(StepErrors(Step1Messages(ValidateStep1(d))))
  {
    var errors := ValidateStep1(d);
    if |errors| > 0 then (1, Some(StepErrors(Step1Messages(errors)))) else (2, None)
  }

  datatype Endpoint = Alunos | Maes | Pais | Observacoes

  /** The order of the POSTs. */
  const CallOrder: seq<Endpoint> := [Alunos, Maes, Pais, Observacoes]

  /** The observations body: the four descriptions are `null` unless answered "sim". */
  datatype ObservationPayload = ObservationPayload(
    matriculaTipo: string, escola: string,
    temIrmaos: string, irmaosNome: Option<string>,
    temEspecialista: string, especialista: Option<string>,
    temAlergias: string, alergia: Option<string>,
    temMedicamento: string, medicamento: Option<string>,
    reside: string, respNome: string, respCpf: string, respTelefone: string,
    pessoasAutorizadas: string)

  /**
    A request body. The student body is the `aluno` section as stored (an
    empty section sends every field undefined). A guardian body holds the
    fields it sends, keyed by field; an empty section sends none.
   */
  datatype Body =
    | StudentBody(aluno: Slot<StudentRecord>)
    | GuardianBody(fields: map<GuardianForm.Field, string>, alunoId: int)
    | ObservationBody(payload: ObservationPayload, alunoId: int)

  datatype Request = Request(endpoint: Endpoint, body: Body)

  /** A rejected request: whether it came from the HTTP client, the response's `message`, the error's own message. */
  datatype Failure = Failure(fromHttpClient: bool, responseMessage: Option<string>, errorMessage: string)

  datatype Reply = Ok(id: int) | Failed(failure: Failure)

  /** What the API answers to each of the four POSTs, were it sent. */
  datatype Replies = Replies(alunos: Reply, maes: Reply, pais: Reply, observacoes: Reply)

  function ReplyTo(rs: Replies, e: Endpoint): Reply {
    match e
    case Alunos => rs.alunos
    case Maes => rs.maes
    case Pais => rs.pais
    case Observacoes => rs.observacoes
  }

  /** The guardian fields the POST body carries, in the body's order: all but the house number. */
  const SentFields: seq<GuardianForm.Field> := [
    GuardianForm.Nome, GuardianForm.Cep, GuardianForm.Telefone, GuardianForm.Trabalho,
    GuardianForm.Nascimento, GuardianForm.Cpf, GuardianForm.Email, GuardianForm.TelefoneTrabalho,
    GuardianForm.Endereco, GuardianForm.Rg, GuardianForm.Profissao]

  function GuardianFields(section: Slot<GuardianRecord>): (r: map<GuardianForm.Field, string>)
    ensures section.Empty? ==> r == map[]
    ensures section.Filled? ==> forall f :: f in r <==> f in SentFields
    ensures forall f :: f in r ==> r[f] == GuardianForm.Get(section.data, f)
  {
    match section
    case Empty => map[]
    case Filled(g) => map f | f in SentFields :: GuardianForm.Get(g, f)
  }

  /** The house number typed on a guardian screen is never sent. */
  lemma HouseNumberNeverSent(section: Slot<GuardianRecord>)
    ensures GuardianForm.NumeroCasa !in GuardianFields(section)
  {
  }

  /** `temX === 'sim' ? x : null`. */
  function WhenYes(flag: string, detail: string): (r: Option<string>)
    ensures r.Some? <==> flag == "sim"
    ensures r.Some? ==> r.value == detail
  {
    if flag == "sim" then Some(detail) else None
  }

  /**
    The /observacoes body: the enrolment answers and the second sub-step are
    sent as entered; each description only when its question is "sim".
   */
  function Payload(s1: Step1, s2: Step2): (r: ObservationPayload)
    ensures r.matriculaTipo == s1.matriculaTipo && r.escola == s1.escola
    ensures r.temIrmaos == s1.temIrmaos && r.temEspecialista == s1.temEspecialista
    ensures r.temAlergias == s1.temAlergias && r.temMedicamento == s1.temMedicamento
    ensures r.reside == s2.reside && r.respNome == s2.respNome && r.respCpf == s2.respCpf
    ensures r.respTelefone == s2.respTelefone && r.pessoasAutorizadas == s2.pessoasAutorizadas
    ensures r.irmaosNome.Some? ==> r.irmaosNome.value == s1.irmaosNome
    ensures r.especialista.Some? ==> r.especialista.value == s1.especialista
    ensures r.alergia.Some? ==> r.alergia.value == s1.alergia
    ensures r.medicamento.Some? ==> r.medicamento.value == s1.medicamento
  {
    ObservationPayload(
      s1.matriculaTipo, s1.escola,
      s1.temIrmaos, WhenYes(s1.temIrmaos, s1.irmaosNome),
      s1.temEspecialista, WhenYes(s1.temEspecialista, s1.especialista),
      s1.temAlergias, WhenYes(s1.temAlergias, s1.alergia),
      s1.temMedicamento, WhenYes(s1.temMedicamento, s1.medicamento),
      s2.reside, s2.respNome, s2.respCpf, s2.respTelefone, s2.pessoasAutorizadas)
  }

  /** A description reaches the API exactly when its question was answered "sim". */
  lemma PayloadGating(s1: Step1, s2: Step2)
    ensures Payload(s1, s2).irmaosNome.Some? <==> s1.temIrmaos == "sim"
    ensures Payload(s1, s2).especialista.Some? <==> s1.temEspecialista == "sim"
    ensures Payload(s1, s2).alergia.Some? <==> s1.temAlergias == "sim"
    ensures Payload(s1, s2).medicamento.Some? <==> s1.temMedicamento == "sim"
  {
  }

  /** The four requests of a run that nothing interrupts, keyed by `id`. */
  function Plan(store: FormStore, s1: Step1, s2: Step2, id: int): (r: seq<Request>)
    ensures |r| == 4 && forall k :: 0 <= k < 4 ==> r[k].endpoint == CallOrder[k]
  {
    [Request(Alunos, StudentBody(store.aluno)),
     Request(Maes, GuardianBody(GuardianFields(store.mae), id)),
     Request(Pais, GuardianBody(GuardianFields(store.pai), id)),
     Request(Observacoes, ObservationBody(Payload(s1, s2), id))]
  }

  /** The replies in call order. */
  function InOrder(rs: Replies): seq<Reply> {
    [rs.alunos, rs.maes, rs.pais, rs.observacoes]
  }

  /** How many calls a run makes: up to and including the first failure. */
  function CallsMade(replies: seq<Reply>): nat
    decreases |replies|
  {
    if replies == [] then 0
    else if replies[0].Failed? then 1
    else 1 + CallsMade(replies[1..])
  }

  lemma CallsMadeInOrder(rs: Replies)
    ensures CallsMade(InOrder(rs)) ==
      if rs.alunos.Failed? then 1 else if rs.maes.Failed? then 2 else if rs.pais.Failed? then 3 else 4
  {
    var q3 := [rs.observacoes];
    var q2 := [rs.pais] + q3;
    var q1 := [rs.maes] + q2;
    assert q3[1..] == [] && q2[1..] == q3 && q1[1..] == q2 && InOrder(rs)[1..] == q1;
    assert CallsMade(q3) == 1;
    assert CallsMade(q2) == if rs.pais.Failed? then 1 else 2;
    assert CallsMade(q1) == if rs.maes.Failed? then 1 else if rs.pais.Failed? then 2 else 3;
  }

  /** The id the first reply carries (0 stands for the unused id of a failed first call). */
  function StudentId(rs: Replies): int {
    if rs.alunos.Ok? then rs.alunos.id else 0
  }

  /** The text of the failure alert. */
  const ErrorPrefix: string := "Erro no cadastro:"

  /**
    The failure alert's text: the prefix alone for errors that did not come
    from the HTTP client; otherwise a line with the response's `message`
    when it is present and non-empty, else with the error's own message.
   */
  function ErrorMessage(f: Failure): (r: string)
    ensures ErrorPrefix <= r
    ensures !f.fromHttpClient ==> r == ErrorPrefix
    ensures f.fromHttpClient && f.responseMessage.Some? && f.responseMessage.value != "" ==>
      r == ErrorPrefix + "\n" + f.responseMessage.value
    ensures f.fromHttpClient && (f.responseMessage.None? || f.responseMessage.value == "") ==>
      r == ErrorPrefix + "\n" + f.errorMessage
  {
    if !f.fromHttpClient then ErrorPrefix
    else
      var detail := if f.responseMessage.Some? && f.responseMessage.value != "" then f.responseMessage.value
                    else f.errorMessage;
      ErrorPrefix + "\n" + detail
  }

  datatype Submission = Submission(requests: seq<Request>, store: FormStore, alert: Option<Alert>, next: Option<Route>)

  /** Whether `handleSubmit` reaches the network: the second sub-step passes, or the screen is not on it. */
  predicate MayPost(step: int, s2: Step2) {
    step != 2 || ValidateStep2(s2) == []
  }

  /**
    `handleSubmit`. A failing second sub-step posts nothing. Otherwise the
    POSTs go out in the order /alunos, /maes, /pais, /observacoes, the later
    three keyed by the id of the first reply; the guardian POSTs are made
    whatever the store holds. The first failure ends the run with its
    message and leaves the store as it was; the store is cleared and the
    home route pushed only when all four succeed.
   */
  function Submit(step: int, s1: Step1, s2: Step2, store: FormStore, rs: Replies): (r: Submission)
    ensures !MayPost(step, s2) ==>
      r == Submission([], store, Some(StepErrors(Step2Messages(ValidateStep2(s2)))), None)
    ensures MayPost(step, s2) ==> r.requests <= Plan(store, s1, s2, StudentId(rs))
    ensures MayPost(step, s2) ==> |r.requests| == CallsMade(InOrder(rs))
    ensures r.next.Some? <==> MayPost(step, s2) && forall k :: 0 <= k < 4 ==> InOrder(rs)[k].Ok?
    ensures r.next.Some? ==> r.next.value == Home && IsCleared(r.store) && r.alert == Some(Completed)
    ensures r.next.None? ==> r.store == store
    ensures MayPost(step, s2) && r.next.None? ==>
      && InOrder(rs)[|r.requests| - 1].Failed?
      && r.alert == Some(SubmissionFailed(ErrorMessage(InOrder(rs)[|r.requests| - 1].failure)))
  {
    CallsMadeInOrder(rs);
    if !MayPost(step, s2) then
      Submission([], store, Some(StepErrors(Step2Messages(ValidateStep2(s2)))), None)
    else
      var plan := Plan(store, s1, s2, StudentId(rs));
      match rs.alunos
      case Failed(e) =>
        assert InOrder(rs)[0].Failed?;
        Submission(plan[..1], store, Some(SubmissionFailed(ErrorMessage(e))), None)
      case Ok(id) =>
        match rs.maes
        case Failed(e) =>
          assert InOrder(rs)[1].Failed?;
          Submission(plan[..2], store, Some(SubmissionFailed(ErrorMessage(e))), None)
        case Ok(_) =>
          match rs.pais
          case Failed(e) =>
            assert InOrder(rs)[2].Failed?;
            Submission(plan[..3], store, Some(SubmissionFailed(ErrorMessage(e))), None)
          case Ok(_) =>
            match rs.observacoes
            case Failed(e) =>
              assert InOrder(rs)[3].Failed?;
              Submission(plan, store, Some(SubmissionFailed(ErrorMessage(e))), None)
            case Ok(_) => Submission(plan, ClearStore(store), Some(Completed), Some(Home))
  }

  /** Every request after the first carries the id of the student the first one created. */
  lemma RequestsKeyedByStudentId(step: int, s1: Step1, s2: Step2, store: FormStore, rs: Replies)
    ensures var r := Submit(step, s1, s2, store, rs);
      forall k :: 1 <= k < |r.requests| ==> rs.alunos.Ok? && r.requests[k].body.alunoId == rs.alunos.id
  {
    var r := Submit(step, s1, s2, store, rs);
    if MayPost(step, s2) && rs.alunos.Failed? {
      assert |r.requests| == 1;
    }
  }

  /**
    The guardian POSTs do not depend on what the store holds: once the
    student is created, /maes is called even for a section never written.
   */
  lemma GuardiansAlwaysPosted(s1: Step1, s2: Step2, store: FormStore, rs: Replies)
    requires MayPost(2, s2) && rs.alunos.Ok?
    ensures |Submit(2, s1, s2, store, rs).requests| >= 2
    ensures Submit(2, s1, s2, store, rs).requests[1] ==
      Request(Maes, GuardianBody(GuardianFields(store.mae), rs.alunos.id))
  {
  }

  /**
    Scenario: both guardian sections switched off (so holding the empty
    record), every reply successful: exactly four requests, the guardian
    bodies carry the empty fields, and the store ends cleared.
   */
  lemma BothGuardiansOffScenario(s1: Step1, s2: Step2, aluno: StudentRecord, id: int)
    requires ValidateStep2(s2) == []
    ensures var store := FormStore(Filled(aluno), Filled(GuardianForm.EmptyRecord), Filled(GuardianForm.EmptyRecord), Empty);
      var r := Submit(2, s1, s2, store, Replies(Ok(id), Ok(0), Ok(0), Ok(0)));
      && |r.requests| == 4
      && r.requests[1].body.fields == (map f | f in SentFields :: "")
      && r.requests[2].body.fields == (map f | f in SentFields :: "")
      && r.store == Initial && r.next == Some(Home)
  {
  }
}
