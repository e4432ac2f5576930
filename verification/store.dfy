/**
  The wizard's shared store: four sections, each a replace-only slot, with
  one setter per section and a reset. Every section starts as the empty
  object `{}`, modelled as `Empty`.
 */
module Store {

  /** A section of the store: `{}` or a whole record written by a setter. */
  datatype Slot<T> = Empty | Filled(data: T)

  /** The student step's draft and stored record. */
  datatype StudentRecord = StudentRecord(
    nome: string, dataNascimento: string, naturalidade: string, nacionalidade: string,
    cpf: string, rg: string, termo: string, folha: string, livro: string, matricula: string,
    sexo: string, turno: string, tipoSanguineo: string, raca: string, anoLetivo: string)

  /**
    One guardian's draft and stored record. The maternal and paternal screens
    hold the same twelve fields under `...Mae` and `...Pai` names; the house
    number is part of the draft although the store's declared type omits it.
   */
  datatype GuardianRecord = GuardianRecord(
    nome: string, cep: string, telefone: string, trabalho: string, nascimento: string,
    cpf: string, email: string, telefoneTrabalho: string, endereco: string, rg: string,
    profissao: string, numeroCasa: string)

  /** The observations section as the store declares it. */
  datatype ObservationsRecord = ObservationsRecord(
    reside: string, respNome: string, respTelefone: string, pessoasAutorizadas: string,
    matriculaTipo: string, escola: string, temIrmaos: string, irmaosNome: string,
    temEspecialista: string, especialista: string, temAlergias: string, alergia: string,
    temMedicamento: string, medicamento: string)

  datatype FormStore = FormStore(
    aluno: Slot<StudentRecord>, mae: Slot<GuardianRecord>,
    pai: Slot<GuardianRecord>, observacoes: Slot<ObservationsRecord>)

  /** Every section holds `{}`. */
  predicate IsCleared(s: FormStore) {
    s.aluno.Empty? && s.mae.Empty? && s.pai.Empty? && s.observacoes.Empty?
  }

  /** The store as it is created. */
  const Initial: FormStore := FormStore(Empty, Empty, Empty, Empty)

  function SetAluno(s: FormStore, data: StudentRecord): (r: FormStore)
    ensures r.aluno == Filled(data)
    ensures r.mae == s.mae && r.pai == s.pai && r.observacoes == s.observacoes
  {
    s.(aluno := Filled(data))
  }

  function SetMae(s: FormStore, data: GuardianRecord): (r: FormStore)
    ensures r.mae == Filled(data)
    ensures r.aluno == s.aluno && r.pai == s.pai && r.observacoes == s.observacoes
  {
    s.(mae := Filled(data))
  }

  function SetPai(s: FormStore, data: GuardianRecord): (r: FormStore)
    ensures r.pai == Filled(data)
    ensures r.aluno == s.aluno && r.mae == s.mae && r.observacoes == s.observacoes
  {
    s.(pai := Filled(data))
  }

  function SetObservacoes(s: FormStore, data: ObservationsRecord): (r: FormStore)
    ensures r.observacoes == Filled(data)
    ensures r.aluno == s.aluno && r.mae == s.mae && r.pai == s.pai
  {
    s.(observacoes := Filled(data))
  }

  /** The reset run after a complete submission. */
  function ClearStore(s: FormStore): (r: FormStore)
    ensures IsCleared(r)
  {
    FormStore(Empty, Empty, Empty, Empty)
  }

  /** The store starts with all four sections empty. */
  lemma InitialIsCleared()
    ensures IsCleared(Initial)
  {
  }

  /** Clearing forgets everything: the result does not depend on the state. */
  lemma ClearForgets(s: FormStore, t: FormStore)
    ensures ClearStore(s) == ClearStore(t) == Initial
  {
  }

  lemma ClearIdempotent(s: FormStore)
    ensures ClearStore(ClearStore(s)) == ClearStore(s)
  {
  }

  /** Setters are last-write-wins, and writing the same record twice is writing it once. */
  lemma SettersLastWriteWins(s: FormStore, a1: StudentRecord, a2: StudentRecord,
                             g1: GuardianRecord, g2: GuardianRecord,
                             o1: ObservationsRecord, o2: ObservationsRecord)
    ensures SetAluno(SetAluno(s, a1), a2) == SetAluno(s, a2)
    ensures SetMae(SetMae(s, g1), g2) == SetMae(s, g2)
    ensures SetPai(SetPai(s, g1), g2) == SetPai(s, g2)
    ensures SetObservacoes(SetObservacoes(s, o1), o2) == SetObservacoes(s, o2)
    ensures SetAluno(SetAluno(s, a1), a1) == SetAluno(s, a1)
    ensures SetMae(SetMae(s, g1), g1) == SetMae(s, g1)
    ensures SetPai(SetPai(s, g1), g1) == SetPai(s, g1)
    ensures SetObservacoes(SetObservacoes(s, o1), o1) == SetObservacoes(s, o1)
  {
  }

  /** Setters on different sections commute. */
  lemma SettersCommute(s: FormStore, a: StudentRecord, m: GuardianRecord,
                       p: GuardianRecord, o: ObservationsRecord)
    ensures SetAluno(SetMae(s, m), a) == SetMae(SetAluno(s, a), m)
    ensures SetAluno(SetPai(s, p), a) == SetPai(SetAluno(s, a), p)
    ensures SetAluno(SetObservacoes(s, o), a) == SetObservacoes(SetAluno(s, a), o)
    ensures SetMae(SetPai(s, p), m) == SetPai(SetMae(s, m), p)
    ensures SetMae(SetObservacoes(s, o), m) == SetObservacoes(SetMae(s, m), o)
    ensures SetPai(SetObservacoes(s, o), p) == SetObservacoes(SetPai(s, p), o)
  {
  }
}
