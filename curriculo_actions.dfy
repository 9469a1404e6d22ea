/** `src/actions/curriculoParcialActions.ts`: saving and deleting the parts of a freelancer's
    résumé. Every action is built by `createProtectedAction`, which reads the token cookie
    itself (not through `authorizeUser`), consults no role, validates the input and hands the
    raw input and the token's id to the action's logic. */
module CurriculoActions {
  import opened Base
  import opened Generated
  import opened Auth
  import opened Zod
  import opened CurriculoSchema
  import opened Store

  const NotAuthenticated: string := "Não autenticado."
  const InvalidToken: string := "Token inválido ou expirado. Faça login novamente."
  const InvalidInput: string := "Dados de entrada inválidos."
  const DefaultTitle: string := "Meu Currículo"

  /** Stands for the message of the exception Prisma raises (a failed foreign key, a row that
      is not there, an invalid date, a unique lookup without a key), which the wrapper returns
      as the error. Its text is not modelled. */
  const DatabaseError: string := "Erro do banco de dados."

  // ---------------------------------------------------------------------------------------
  // The wrapper
  // ---------------------------------------------------------------------------------------

  /** What the wrapper decides before the logic runs: go on with the token's id (absent when
      the verified payload has none), or stop with a message. */
  datatype Gate = Proceed(userId: Option<Id>) | Refuse(error: string)

  /** `errors.map(e => e.message).join(', ') || 'Dados de entrada inválidos.'`. */
  function IssuesMessage(issues: seq<string>): (m: string)
    ensures m != ""
    ensures issues != [] && issues[0] != "" ==> |issues[0]| <= |m| && m[..|issues[0]|] == issues[0]
  {
    var joined := Join(issues, ", ");
    assert issues != [] ==> joined[..|issues[0]|] == issues[0];
    if joined == "" then InvalidInput else joined
  }

  /** `createProtectedAction`, up to running the logic. A missing or empty cookie stops
      first; then `jwt.verify` with `JWT_SECRET` (a missing secret makes it throw the same
      `JsonWebTokenError` as a bad token); then the schema, whose issues are `issues`. */
  function ProtectedGate(token: Option<string>, secret: Option<string>,
                         verify: (string, string) -> Verification, issues: seq<string>): (g: Gate)
    ensures !Truthy(token) ==> g == Refuse(NotAuthenticated)
    ensures Truthy(token) && GetDecodedToken(token, secret, verify).None? ==> g == Refuse(InvalidToken)
    ensures Truthy(token) && GetDecodedToken(token, secret, verify).Some? && issues != [] ==>
              g == Refuse(IssuesMessage(issues))
    ensures g.Proceed? <==> Truthy(token) && GetDecodedToken(token, secret, verify).Some? && issues == []
    ensures g.Proceed? ==> g.userId == GetDecodedToken(token, secret, verify).value.id
  {
    if !Truthy(token) then Refuse(NotAuthenticated)
    else
      match GetDecodedToken(token, secret, verify)
      case None => Refuse(InvalidToken)
      case Some(p) => if issues != [] then Refuse(IssuesMessage(issues)) else Proceed(p.id)
  }

  /** The verifier with every payload's role replaced. */
  function WithRole(verify: (string, string) -> Verification, role: Option<Role>): (string, string) -> Verification
  {
    (t, s) => match verify(t, s)
              case Verified(p) => Verified(p.(role := role))
              case Rejected => Rejected
  }

  /** The wrapper consults no role: any verified token, whatever its role (or none), reaches
      the logic with its id. */
  lemma GateIgnoresRole(token: Option<string>, secret: Option<string>,
                        verify: (string, string) -> Verification, issues: seq<string>, role: Option<Role>)
    ensures ProtectedGate(token, secret, WithRole(verify, role), issues) == ProtectedGate(token, secret, verify, issues)
  {
  }

  // ---------------------------------------------------------------------------------------
  // The résumé itself
  // ---------------------------------------------------------------------------------------

  /** The résumé `getCurriculoId` creates. */
  function CurriculoPadrao(userId: Id): (c: Curriculo)
    ensures c.usuarioId == userId && c.tituloProfissional == DefaultTitle
    ensures c.resumo.None? && c.linkedinUrl.None? && c.githubUrl.None? && c.portfolioUrl.None?
  {
    Curriculo(userId, DefaultTitle, None, None, None, None)
  }

  /** `getCurriculoId` finds the caller's résumé or can create it: there is an id, and the
      user already has a résumé or exists (the foreign key of the create). */
  predicate CanGetCurriculo(before: map<Id, Curriculo>, usuarios: set<Id>, userId: Option<Id>)
  {
    userId.Some? &&
    ((exists c :: c in before && before[c].usuarioId == userId.value) || userId.value in usuarios)
  }

  /** Exactly what `getCurriculoId` does to the résumés: the caller's default résumé is added
      under a new id when the caller has none and exists; otherwise nothing changes. */
  ghost predicate CurriculoObtained(before: map<Id, Curriculo>, after: map<Id, Curriculo>, usuarios: set<Id>,
                                    userId: Option<Id>)
  {
    if CanGetCurriculo(before, usuarios, userId) && !(exists c :: c in before && before[c].usuarioId == userId.value)
    then exists cv :: cv !in before && after == before[cv := CurriculoPadrao(userId.value)]
    else after == before
  }

  /** What `getCurriculoId` may do to the résumés: nothing, or add the caller's default one
      under a new id. */
  ghost predicate CurriculosAfterGet(before: map<Id, Curriculo>, after: map<Id, Curriculo>, userId: Option<Id>)
  {
    after == before ||
    (userId.Some? && exists cv :: cv !in before && after == before[cv := CurriculoPadrao(userId.value)])
  }

  /** `getCurriculoId`: the caller's résumé, created when there is none. A token without an id
      makes the unique lookup throw; an id that names no user fails the foreign key. */
  method GetCurriculoId(db: Database, userId: Option<Id>) returns (r: ActionResult<Id>)
    requires db.Valid()
    modifies db`curriculos
    ensures db.Valid()
    ensures r.Failure? ==> r.error == DatabaseError && db.curriculos == old(db.curriculos)
    ensures r.Failure? <==> userId.None? || (!old(db.HasCurriculo(userId.value)) && userId.value !in db.usuarios)
    ensures r.Success? ==> r.data in db.curriculos && db.curriculos[r.data].usuarioId == userId.value
    ensures r.Success? && old(db.HasCurriculo(userId.value)) ==> db.curriculos == old(db.curriculos)
    ensures r.Success? && !old(db.HasCurriculo(userId.value)) ==>
              r.data !in old(db.curriculos) && db.curriculos == old(db.curriculos)[r.data := CurriculoPadrao(userId.value)]
  {
    if userId.None? {
      return Failure(DatabaseError);
    }
    var found := db.FindCurriculoByUsuario(userId.value);
    if found.Some? {
      return Success(found.value);
    }
    if userId.value !in db.usuarios {
      return Failure(DatabaseError);
    }
    var id := db.CreateCurriculo(CurriculoPadrao(userId.value));
    return Success(id);
  }

  /** Asking twice gives the same résumé and creates at most one. */
  method GetCurriculoIdTwice(db: Database, userId: Option<Id>) returns (first: ActionResult<Id>, second: ActionResult<Id>)
    requires db.Valid()
    modifies db`curriculos
    ensures second == first
    ensures db.curriculos.Keys <= old(db.curriculos).Keys + (if first.Success? then {first.data} else {})
  {
    first := GetCurriculoId(db, userId);
    second := GetCurriculoId(db, userId);
  }

  /** The columns `saveInformacoesPessoaisLogic` writes; empty optional fields become null. */
  function ApplyInformacoes(c: Curriculo, i: InformacoesPessoais): (r: Curriculo)
    ensures r.usuarioId == c.usuarioId && r.tituloProfissional == i.tituloProfissional
    ensures r.resumo == OrNull(i.resumo) && r.linkedinUrl == OrNull(i.linkedinUrl)
    ensures r.githubUrl == OrNull(i.githubUrl) && r.portfolioUrl == OrNull(i.portfolioUrl)
  {
    c.(tituloProfissional := i.tituloProfissional, resumo := OrNull(i.resumo), linkedinUrl := OrNull(i.linkedinUrl),
       githubUrl := OrNull(i.githubUrl), portfolioUrl := OrNull(i.portfolioUrl))
  }

  /** `saveInformacoesPessoaisLogic`: an upsert keyed on the caller's id. */
  method SaveInformacoesPessoais(db: Database, userId: Option<Id>, i: InformacoesPessoais) returns (r: ActionResult<Id>)
    requires db.Valid()
    modifies db`curriculos
    ensures db.Valid()
    ensures r.Failure? ==> r.error == DatabaseError && db.curriculos == old(db.curriculos)
    ensures r.Failure? <==> userId.None? || (!old(db.HasCurriculo(userId.value)) && userId.value !in db.usuarios)
    ensures r.Success? && old(db.HasCurriculo(userId.value)) ==>
              r.data in old(db.curriculos) && old(db.curriculos)[r.data].usuarioId == userId.value &&
              db.curriculos == old(db.curriculos)[r.data := ApplyInformacoes(old(db.curriculos)[r.data], i)]
    ensures r.Success? && !old(db.HasCurriculo(userId.value)) ==>
              r.data !in old(db.curriculos) &&
              db.curriculos == old(db.curriculos)[r.data := ApplyInformacoes(CurriculoPadrao(userId.value), i)]
  {
    if userId.None? {
      return Failure(DatabaseError);
    }
    var found := db.FindCurriculoByUsuario(userId.value);
    if found.Some? {
      db.SetCurriculo(found.value, ApplyInformacoes(db.curriculos[found.value], i));
      return Success(found.value);
    }
    if userId.value !in db.usuarios {
      return Failure(DatabaseError);
    }
    var id := db.CreateCurriculo(ApplyInformacoes(CurriculoPadrao(userId.value), i));
    return Success(id);
  }

  /** The whole outcome of `saveInformacoesPessoaisLogic` for the caller `userId`, given the
      résumés before and after and the ids of the existing users. */
  predicate InformacoesSaved(before: map<Id, Curriculo>, after: map<Id, Curriculo>, usuarios: set<Id>,
                             userId: Option<Id>, i: InformacoesPessoais, r: ActionResult<Id>)
  {
    if userId.None? then r == Failure(DatabaseError) && after == before
    else if exists c :: c in before && before[c].usuarioId == userId.value then
      r.Success? && r.data in before && before[r.data].usuarioId == userId.value &&
      after == before[r.data := ApplyInformacoes(before[r.data], i)]
    else if userId.value !in usuarios then r == Failure(DatabaseError) && after == before
    else r.Success? && r.data !in before && after == before[r.data := ApplyInformacoes(CurriculoPadrao(userId.value), i)]
  }

  /** Saving one user's personal information leaves every other user's résumé as it was. */
  lemma InformacoesSavedFrame(before: map<Id, Curriculo>, after: map<Id, Curriculo>, usuarios: set<Id>,
                              uid: Id, i: InformacoesPessoais, r: ActionResult<Id>)
    requires InformacoesSaved(before, after, usuarios, Some(uid), i, r)
    ensures forall c :: c in before && before[c].usuarioId != uid ==> c in after && after[c] == before[c]
  {
  }

  /** `saveInformacoesPessoaisAction`. */
  method SaveInformacoesPessoaisAction(db: Database, token: Option<string>, secret: Option<string>,
                                       verify: (string, string) -> Verification, i: InformacoesPessoais, formats: Formats)
    returns (r: ActionResult<Id>)
    requires db.Valid()
    modifies db`curriculos
    ensures db.Valid()
    ensures var g := ProtectedGate(token, secret, verify, InformacoesPessoaisIssues(i, formats));
            g.Refuse? ==> r == Failure(g.error) && db.curriculos == old(db.curriculos)
    ensures r.Success? ==>
              var g := ProtectedGate(token, secret, verify, InformacoesPessoaisIssues(i, formats));
              g.Proceed? && g.userId.Some? && r.data in db.curriculos &&
              db.curriculos[r.data] == ApplyInformacoes(db.curriculos[r.data], i) &&
              db.curriculos[r.data].usuarioId == g.userId.value
    ensures var g := ProtectedGate(token, secret, verify, InformacoesPessoaisIssues(i, formats));
            g.Proceed? ==> InformacoesSaved(old(db.curriculos), db.curriculos, db.usuarios.Keys, g.userId, i, r)
    ensures var g := ProtectedGate(token, secret, verify, InformacoesPessoaisIssues(i, formats));
            g.Proceed? && g.userId.Some? ==>
              forall c :: c in old(db.curriculos) && old(db.curriculos)[c].usuarioId != g.userId.value ==>
                c in db.curriculos && db.curriculos[c] == old(db.curriculos)[c]
  {
    var g := ProtectedGate(token, secret, verify, InformacoesPessoaisIssues(i, formats));
    if g.Refuse? {
      return Failure(g.error);
    }
    r := SaveInformacoesPessoais(db, g.userId, i);
    if g.userId.Some? {
      InformacoesSavedFrame(old(db.curriculos), db.curriculos, db.usuarios.Keys, g.userId.value, i, r);
    }
  }

  // ---------------------------------------------------------------------------------------
  // Sub-records
  // ---------------------------------------------------------------------------------------

  /** The input of one of the six save actions. */
  datatype SecaoInput =
    | ExperienciaInput(e: Experiencia)
    | FormacaoInput(f: Formacao)
    | HabilidadeInput(h: Habilidade)
    | IdiomaInput(i: Idioma)
    | PortfolioInput(p: PortfolioProjeto)
    | CertificacaoInput(c: Certificacao)

  function SecaoOf(x: SecaoInput): Secao
  {
    match x
    case ExperienciaInput(_) => EXPERIENCIA
    case FormacaoInput(_) => FORMACAO
    case HabilidadeInput(_) => HABILIDADE
    case IdiomaInput(_) => IDIOMA
    case PortfolioInput(_) => PORTFOLIO
    case CertificacaoInput(_) => CERTIFICACAO
  }

  /** The schema each save action is built with. */
  function InputIssues(x: SecaoInput, formats: Formats): seq<string>
  {
    match x
    case ExperienciaInput(e) => ExperienciaIssues(e)
    case FormacaoInput(f) => FormacaoIssues(f)
    case HabilidadeInput(h) => HabilidadeIssues(h)
    case IdiomaInput(i) => IdiomaIssues(i)
    case PortfolioInput(p) => PortfolioProjetoIssues(p, formats)
    case CertificacaoInput(c) => CertificacaoIssues(c, formats)
  }

  function InputId(x: SecaoInput): Option<string>
  {
    match x
    case ExperienciaInput(e) => e.id
    case FormacaoInput(f) => f.id
    case HabilidadeInput(h) => h.id
    case IdiomaInput(i) => i.id
    case PortfolioInput(p) => p.id
    case CertificacaoInput(c) => c.id
  }

  /** The `curriculoId` an update writes: five of the logics spread the rest of the input
      into the update, so a `curriculoId` in the input is written too; the portfolio logic
      lists its columns and leaves it out. */
  function MovedTo(x: SecaoInput): (m: Option<Id>)
    ensures x.PortfolioInput? ==> m.None?
  {
    match x
    case ExperienciaInput(e) => e.curriculoId
    case FormacaoInput(f) => f.curriculoId
    case HabilidadeInput(h) => h.curriculoId
    case IdiomaInput(i) => i.curriculoId
    case PortfolioInput(_) => None
    case CertificacaoInput(c) => c.curriculoId
  }

  /** `new Date(s)` for `s` of the form `YYYY-MM` (and `YYYY-MM-01`, the same instant): the
      first day of that month, or an invalid date when the month is not 01 to 12. */
  function MonthDate(s: string): (r: Option<YearMonth>)
    ensures r.Some? <==> YearMonthShape(s) && 1 <= DigitsValue(s[5..]) <= 12
    ensures r.Some? ==> r.value.year == DigitsValue(s[..4]) && r.value.month == DigitsValue(s[5..])
  {
    if YearMonthShape(s) && 1 <= DigitsValue(s[5..]) <= 12
    then Some(YearMonth(DigitsValue(s[..4]), DigitsValue(s[5..])))
    else None
  }

  /** `s ? new Date(s) : null`: `Some(None)` for null, `None` for an invalid date. */
  function NullableDate(s: Option<string>): (r: Option<Option<YearMonth>>)
    ensures !Truthy(s) ==> r == Some(None)
    ensures Truthy(s) ==> (r.Some? <==> MonthDate(s.value).Some?)
    ensures Truthy(s) && r.Some? ==> r.value == MonthDate(s.value)
  {
    if !Truthy(s) then Some(None)
    else if MonthDate(s.value).None? then None
    else Some(MonthDate(s.value))
  }

  /** The columns the logic builds from the input, as a create writes them; `None` when one of
      its dates is invalid, which makes the upsert throw. */
  function CamposOf(x: SecaoInput): (c: Option<Campos>)
    ensures c.Some? ==> Kind(c.value) == SecaoOf(x)
  {
    match x
    case ExperienciaInput(e) =>
      var ini, fim := MonthDate(e.dataInicio), NullableDate(e.dataFim);
      if ini.None? || fim.None? then None
      else Some(ExperienciaCampos(e.cargo, e.nomeEmpresa, ini.value, fim.value, e.local, e.descricao, e.trabalhoAtual))
    case FormacaoInput(f) =>
      var ini, fim := MonthDate(f.dataInicio), NullableDate(f.dataFim);
      if ini.None? || fim.None? then None
      else Some(FormacaoCampos(f.instituicao, f.curso, ini.value, fim.value, f.areaEstudo, f.descricao, f.emCurso))
    case HabilidadeInput(h) => Some(HabilidadeCampos(h.nome))
    case IdiomaInput(i) => Some(IdiomaCampos(i.nome, i.nivel))
    case PortfolioInput(p) =>
      var ini, fim := NullableDate(p.dataInicio), NullableDate(p.dataFim);
      if ini.None? || fim.None? then None
      else Some(PortfolioCampos(p.nome, OrNull(p.descricao), OrNull(p.projectUrl), OrNull(p.repositorioUrl),
                                ini.value, fim.value, if p.tecnologiasUsadas.None? then [] else p.tecnologiasUsadas.value))
    case CertificacaoInput(c) =>
      var d := MonthDate(c.dataEmissao);
      if d.None? then None
      else Some(CertificacaoCampos(c.nome, c.organizacaoEmissora, d.value, OrNull(c.credencialId), OrNull(c.credencialUrl)))
  }

  /** What an update writes over an existing row: the new columns, except the optional text
      fields the input leaves undefined, which Prisma leaves as they were. */
  function Overlay(prev: Campos, x: SecaoInput, c: Campos): (r: Campos)
    requires CamposOf(x) == Some(c) && Kind(prev) == SecaoOf(x)
    ensures Kind(r) == Kind(c)
  {
    match x
    case ExperienciaInput(e) =>
      c.(local := if e.local.None? then prev.local else c.local,
         descricao := if e.descricao.None? then prev.descricao else c.descricao)
    case FormacaoInput(f) =>
      c.(areaEstudo := if f.areaEstudo.None? then prev.areaEstudo else c.areaEstudo,
         descricao := if f.descricao.None? then prev.descricao else c.descricao)
    case _ => c
  }

  /** Where the save lands: the input's id, or `''` (which no row has) when it is absent. */
  function RowKey(x: SecaoInput): SecaoKey
  {
    SecaoKey(SecaoOf(x), if Truthy(InputId(x)) then InputId(x).value else "")
  }

  /** A validated experience whose month is out of range passes the schema and is refused by
      the database step. */
  lemma ThirteenthMonthReachesDatabase(e: Experiencia)
    requires e.dataInicio == "2024-13"
    ensures YearMonthShape(e.dataInicio)
    ensures CamposOf(ExperienciaInput(e)).None?
  {
    assert e.dataInicio[..4] == "2024" && e.dataInicio[5..] == "13";
    assert DigitsValue("13") == 13 by {
      assert "13"[..1] == "1";
    }
  }

  /** A month string `new Date` accepts. */
  predicate MonthOk(s: string)
  {
    YearMonthShape(s) && 1 <= DigitsValue(s[5..]) <= 12
  }

  predicate OptionalMonthOk(s: Option<string>)
  {
    !Truthy(s) || MonthOk(s.value)
  }

  /** Every date field of the input is empty or a real month. */
  predicate DatesOk(x: SecaoInput)
  {
    match x
    case ExperienciaInput(e) => MonthOk(e.dataInicio) && OptionalMonthOk(e.dataFim)
    case FormacaoInput(f) => MonthOk(f.dataInicio) && OptionalMonthOk(f.dataFim)
    case PortfolioInput(p) => OptionalMonthOk(p.dataInicio) && OptionalMonthOk(p.dataFim)
    case CertificacaoInput(c) => MonthOk(c.dataEmissao)
    case _ => true
  }

  /** The logic can build its columns exactly when every date is a real month: the schema
      checks the shape of the dates and the database step is the first to check the month. */
  lemma ColumnsIffDatesOk(x: SecaoInput)
    ensures CamposOf(x).Some? <==> DatesOk(x)
  {
  }

  /** The résumé an update leaves the row in: the input's `curriculoId` when it carries one,
      otherwise the row's own. */
  function Target(x: SecaoInput, prev: SubRegistro): Id
  {
    if MovedTo(x).Some? then MovedTo(x).value else prev.curriculoId
  }

  /** The upsert `where: { id: id || '' }` as written, once the caller's résumé `cv` is known:
      an existing row with that id is updated whoever owns it (and moved when the input names
      another résumé); otherwise a new row with a fresh id is created in `cv`. */
  predicate UpsertedAsWritten(before: map<SecaoKey, SubRegistro>, after: map<SecaoKey, SubRegistro>,
                              cv: Id, x: SecaoInput, key: SecaoKey)
    requires CamposOf(x).Some?
  {
    var c := CamposOf(x).value;
    if RowKey(x) in before then
      var prev := before[RowKey(x)];
      key == RowKey(x) && Kind(prev.campos) == SecaoOf(x) &&
      after == before[key := SubRegistro(Target(x, prev), Overlay(prev.campos, x, c))]
    else
      key.secao == SecaoOf(x) && key !in before && after == before[key := SubRegistro(cv, c)]
  }

  /** The `upsert` of the six save logics, as written. */
  method UpsertSecao(db: Database, cv: Id, x: SecaoInput) returns (r: ActionResult<SecaoKey>)
    requires db.Valid() && cv in db.curriculos
    modifies db`secoes
    ensures db.Valid()
    ensures r.Failure? ==> r.error == DatabaseError && db.secoes == old(db.secoes)
    ensures r.Failure? <==>
              CamposOf(x).None? ||
              (RowKey(x) in old(db.secoes) && Target(x, old(db.secoes)[RowKey(x)]) !in db.curriculos)
    ensures r.Success? ==> UpsertedAsWritten(old(db.secoes), db.secoes, cv, x, r.data)
  {
    var c := CamposOf(x);
    if c.None? {
      return Failure(DatabaseError);
    }
    var key := RowKey(x);
    if key in db.secoes {
      var prev := db.secoes[key];
      var target := Target(x, prev);
      if target !in db.curriculos {
        return Failure(DatabaseError);
      }
      db.SetSecao(key, SubRegistro(target, Overlay(prev.campos, x, c.value)));
      return Success(key);
    }
    var newKey := db.FreshSecaoKey(SecaoOf(x));
    db.SetSecao(newKey, SubRegistro(cv, c.value));
    return Success(newKey);
  }

  /** `save*Logic`: the caller's résumé (created if needed, and kept even when the upsert then
      fails), then the upsert. */
  method SaveSecao(db: Database, userId: Option<Id>, x: SecaoInput) returns (r: ActionResult<SecaoKey>)
    requires db.Valid()
    modifies db`curriculos, db`secoes
    ensures db.Valid()
    ensures r.Failure? ==> r.error == DatabaseError && db.secoes == old(db.secoes)
    ensures userId.None? ==> r.Failure? && db.curriculos == old(db.curriculos)
    ensures CurriculosAfterGet(old(db.curriculos), db.curriculos, userId)
    ensures CurriculoObtained(old(db.curriculos), db.curriculos, db.usuarios.Keys, userId)
    ensures r.Success? <==>
              CanGetCurriculo(old(db.curriculos), db.usuarios.Keys, userId) && CamposOf(x).Some? &&
              (RowKey(x) in old(db.secoes) ==> Target(x, old(db.secoes)[RowKey(x)]) in db.curriculos)
    ensures r.Success? ==>
              userId.Some? && CamposOf(x).Some? &&
              exists cv :: cv in db.curriculos && db.curriculos[cv].usuarioId == userId.value &&
                UpsertedAsWritten(old(db.secoes), db.secoes, cv, x, r.data)
  {
    var cv := GetCurriculoId(db, userId);
    if cv.Failure? {
      return Failure(cv.error);
    }
    r := UpsertSecao(db, cv.data, x);
  }

  /** The skill row `h1` of the example: it sits in résumé `cv-b`. */
  function ExampleSkillRows(): map<SecaoKey, SubRegistro>
  {
    map[SecaoKey(HABILIDADE, "h1") := SubRegistro("cv-b", HabilidadeCampos("Go"))]
  }

  /** The caller, whose résumé is `cv-a`, saves a skill naming the id `h1`. */
  function ExampleSkillInput(): SecaoInput
  {
    HabilidadeInput(Habilidade(Some("h1"), None, "Cobol"))
  }

  /** With the upsert as written, a caller who sends another résumé's row id rewrites that
      row, which stays in the other résumé. */
  lemma ForeignRowOverwritten(after: map<SecaoKey, SubRegistro>, key: SecaoKey)
    requires UpsertedAsWritten(ExampleSkillRows(), after, "cv-a", ExampleSkillInput(), key)
    ensures key == SecaoKey(HABILIDADE, "h1")
    ensures after[key] == SubRegistro("cv-b", HabilidadeCampos("Cobol"))
  {
    assert RowKey(ExampleSkillInput()) == SecaoKey(HABILIDADE, "h1");
  }

  /** The evidently intended upsert, `where: { id: id || '', curriculo: { usuarioId } }` as the
      deletes already do, with the update leaving `curriculoId` alone: only a row of the
      caller's own résumé is updated, in place; any other id creates a new row there. */
  predicate UpsertedOwned(before: map<SecaoKey, SubRegistro>, after: map<SecaoKey, SubRegistro>,
                          cv: Id, x: SecaoInput, key: SecaoKey)
    requires CamposOf(x).Some?
  {
    var c := CamposOf(x).value;
    if RowKey(x) in before && before[RowKey(x)].curriculoId == cv then
      var prev := before[RowKey(x)];
      key == RowKey(x) && Kind(prev.campos) == SecaoOf(x) &&
      after == before[key := SubRegistro(cv, Overlay(prev.campos, x, c))]
    else
      key.secao == SecaoOf(x) && key !in before && after == before[key := SubRegistro(cv, c)]
  }

  /** With the owner-scoped upsert, the same save leaves the other résumé's row alone and
      creates the caller's own. */
  lemma ForeignRowKept(after: map<SecaoKey, SubRegistro>, key: SecaoKey)
    requires UpsertedOwned(ExampleSkillRows(), after, "cv-a", ExampleSkillInput(), key)
    ensures after[SecaoKey(HABILIDADE, "h1")] == SubRegistro("cv-b", HabilidadeCampos("Go"))
    ensures key != SecaoKey(HABILIDADE, "h1") && after[key] == SubRegistro("cv-a", HabilidadeCampos("Cobol"))
  {
    assert RowKey(ExampleSkillInput()) == SecaoKey(HABILIDADE, "h1");
  }

  /** The owner-scoped upsert. */
  method UpsertSecaoOwned(db: Database, cv: Id, x: SecaoInput) returns (r: ActionResult<SecaoKey>)
    requires db.Valid() && cv in db.curriculos
    modifies db`secoes
    ensures db.Valid()
    ensures r.Failure? <==> CamposOf(x).None?
    ensures r.Failure? ==> r.error == DatabaseError && db.secoes == old(db.secoes)
    ensures r.Success? ==> UpsertedOwned(old(db.secoes), db.secoes, cv, x, r.data)
    ensures forall k :: k in old(db.secoes) && old(db.secoes)[k].curriculoId != cv ==>
              k in db.secoes && db.secoes[k] == old(db.secoes)[k]
    ensures forall k :: k in db.secoes && k !in old(db.secoes) ==> db.secoes[k].curriculoId == cv
  {
    var c := CamposOf(x);
    if c.None? {
      return Failure(DatabaseError);
    }
    var before := db.secoes;
    var key := RowKey(x);
    var row: SubRegistro;
    if key in before && before[key].curriculoId == cv {
      row := SubRegistro(cv, Overlay(before[key].campos, x, c.value));
    } else {
      key := db.FreshSecaoKey(SecaoOf(x));
      row := SubRegistro(cv, c.value);
    }
    assert UpsertedOwned(before, before[key := row], cv, x, key);
    OwnedUpsertFrame(before, before[key := row], cv, x, key);
    db.SetSecao(key, row);
    return Success(key);
  }

  /** The owner-scoped upsert touches only the caller's résumé: rows of other résumés are
      kept and every new row is the caller's. */
  lemma OwnedUpsertFrame(before: map<SecaoKey, SubRegistro>, after: map<SecaoKey, SubRegistro>,
                         cv: Id, x: SecaoInput, key: SecaoKey)
    requires CamposOf(x).Some? && UpsertedOwned(before, after, cv, x, key)
    ensures forall k :: k in before && before[k].curriculoId != cv ==> k in after && after[k] == before[k]
    ensures forall k :: k in after && k !in before ==> after[k].curriculoId == cv
  {
  }

  /** `save*Logic` with the owner-scoped upsert: no row of another user's résumé changes. */
  method SaveSecaoOwned(db: Database, userId: Option<Id>, x: SecaoInput) returns (r: ActionResult<SecaoKey>)
    requires db.Valid()
    modifies db`curriculos, db`secoes
    ensures db.Valid()
    ensures r.Failure? ==> r.error == DatabaseError && db.secoes == old(db.secoes)
    ensures userId.None? ==> r.Failure? && db.curriculos == old(db.curriculos)
    ensures CurriculosAfterGet(old(db.curriculos), db.curriculos, userId)
    ensures CurriculoObtained(old(db.curriculos), db.curriculos, db.usuarios.Keys, userId)
    ensures r.Success? <==> CanGetCurriculo(old(db.curriculos), db.usuarios.Keys, userId) && CamposOf(x).Some?
    ensures userId.Some? ==>
              forall k :: k in old(db.secoes) && old(db.secoes)[k].curriculoId in old(db.curriculos) &&
                          old(db.curriculos)[old(db.secoes)[k].curriculoId].usuarioId != userId.value ==>
                k in db.secoes && db.secoes[k] == old(db.secoes)[k]
    ensures r.Success? ==>
              userId.Some? && CamposOf(x).Some? &&
              exists cv :: cv in db.curriculos && db.curriculos[cv].usuarioId == userId.value &&
                UpsertedOwned(old(db.secoes), db.secoes, cv, x, r.data)
  {
    var cv := GetCurriculoId(db, userId);
    if cv.Failure? {
      return Failure(cv.error);
    }
    r := UpsertSecaoOwned(db, cv.data, x);
  }

  /** The rows the caller may delete: `where: { id, curriculo: { usuarioId } }`. A token
      without an id leaves the owner filter undefined, which Prisma drops. */
  predicate Owns(db: Database, userId: Option<Id>, key: SecaoKey)
    reads db
    requires key in db.secoes
  {
    db.secoes[key].curriculoId in db.curriculos &&
    (userId.None? || db.curriculos[db.secoes[key].curriculoId].usuarioId == userId.value)
  }

  /** `delete*Logic`: deletes the row when it is the caller's; otherwise Prisma's "record not
      found" error. */
  method DeleteSecao(db: Database, userId: Option<Id>, secao: Secao, id: Id) returns (r: ActionResult<SecaoKey>)
    requires db.Valid()
    modifies db`secoes
    ensures db.Valid()
    ensures var key := SecaoKey(secao, id);
            if key in old(db.secoes) && old(Owns(db, userId, key))
            then r == Success(key) && db.secoes == old(db.secoes) - {key}
            else r == Failure(DatabaseError) && db.secoes == old(db.secoes)
    ensures userId.Some? ==>
              forall k :: k in old(db.secoes) && db.curriculos[old(db.secoes)[k].curriculoId].usuarioId != userId.value ==>
                k in db.secoes
  {
    var key := SecaoKey(secao, id);
    if key in db.secoes && Owns(db, userId, key) {
      db.DeleteSecao(key);
      return Success(key);
    }
    return Failure(DatabaseError);
  }

  /** `deleteExperienciaAction` and its five siblings; the input is the row id,
      `z.string().min(1)`. */
  method DeleteSecaoAction(db: Database, token: Option<string>, secret: Option<string>,
                           verify: (string, string) -> Verification, secao: Secao, id: Id)
    returns (r: ActionResult<SecaoKey>)
    requires db.Valid()
    modifies db`secoes
    ensures db.Valid()
    ensures var g := ProtectedGate(token, secret, verify, MinLength(id, 1, TooShort(1)));
            g.Refuse? ==> r == Failure(g.error) && db.secoes == old(db.secoes)
    ensures var g := ProtectedGate(token, secret, verify, MinLength(id, 1, TooShort(1)));
            g.Proceed? ==>
              var key := SecaoKey(secao, id);
              if key in old(db.secoes) && old(Owns(db, g.userId, key))
              then r == Success(key) && db.secoes == old(db.secoes) - {key}
              else r == Failure(DatabaseError) && db.secoes == old(db.secoes)
  {
    var g := ProtectedGate(token, secret, verify, MinLength(id, 1, TooShort(1)));
    if g.Refuse? {
      return Failure(g.error);
    }
    r := DeleteSecao(db, g.userId, secao, id);
  }

  /** The exported save action as written: the gate, then `save*Logic` with the upsert that
      does not look at who owns the row. */
  method SaveSecaoActionAsWritten(db: Database, token: Option<string>, secret: Option<string>,
                                  verify: (string, string) -> Verification, x: SecaoInput, formats: Formats)
    returns (r: ActionResult<SecaoKey>)
    requires db.Valid()
    modifies db`curriculos, db`secoes
    ensures db.Valid()
    ensures var g := ProtectedGate(token, secret, verify, InputIssues(x, formats));
            g.Refuse? ==> r == Failure(g.error) && db.curriculos == old(db.curriculos) && db.secoes == old(db.secoes)
    ensures r.Success? ==>
              var g := ProtectedGate(token, secret, verify, InputIssues(x, formats));
              g.Proceed? && g.userId.Some? && CamposOf(x).Some? &&
              exists cv :: cv in db.curriculos && db.curriculos[cv].usuarioId == g.userId.value &&
                UpsertedAsWritten(old(db.secoes), db.secoes, cv, x, r.data)
    ensures var g := ProtectedGate(token, secret, verify, InputIssues(x, formats));
            g.Proceed? ==>
              CurriculosAfterGet(old(db.curriculos), db.curriculos, g.userId) &&
              (g.userId.None? ==> r.Failure?) &&
              CurriculoObtained(old(db.curriculos), db.curriculos, db.usuarios.Keys, g.userId) &&
              (r.Failure? ==> r.error == DatabaseError && db.secoes == old(db.secoes)) &&
              (r.Success? <==>
                 CanGetCurriculo(old(db.curriculos), db.usuarios.Keys, g.userId) && CamposOf(x).Some? &&
                 (RowKey(x) in old(db.secoes) ==> Target(x, old(db.secoes)[RowKey(x)]) in db.curriculos))
  {
    var g := ProtectedGate(token, secret, verify, InputIssues(x, formats));
    if g.Refuse? {
      return Failure(g.error);
    }
    r := SaveSecao(db, g.userId, x);
  }

  /** `saveExperienciaAction` and its five siblings, built on the owner-scoped save: a
      refused gate changes nothing, and no row of another user's résumé ever changes. */
  method SaveSecaoAction(db: Database, token: Option<string>, secret: Option<string>,
                         verify: (string, string) -> Verification, x: SecaoInput, formats: Formats)
    returns (r: ActionResult<SecaoKey>)
    requires db.Valid()
    modifies db`curriculos, db`secoes
    ensures db.Valid()
    ensures var g := ProtectedGate(token, secret, verify, InputIssues(x, formats));
            g.Refuse? ==> r == Failure(g.error) && db.curriculos == old(db.curriculos) && db.secoes == old(db.secoes)
    ensures var g := ProtectedGate(token, secret, verify, InputIssues(x, formats));
            g.Proceed? && g.userId.Some? ==>
              forall k :: k in old(db.secoes) && old(db.secoes)[k].curriculoId in old(db.curriculos) &&
                          old(db.curriculos)[old(db.secoes)[k].curriculoId].usuarioId != g.userId.value ==>
                k in db.secoes && db.secoes[k] == old(db.secoes)[k]
    ensures r.Success? ==>
              var g := ProtectedGate(token, secret, verify, InputIssues(x, formats));
              g.Proceed? && g.userId.Some? && CamposOf(x).Some? &&
              exists cv :: cv in db.curriculos && db.curriculos[cv].usuarioId == g.userId.value &&
                UpsertedOwned(old(db.secoes), db.secoes, cv, x, r.data)
    ensures var g := ProtectedGate(token, secret, verify, InputIssues(x, formats));
            g.Proceed? ==>
              CurriculosAfterGet(old(db.curriculos), db.curriculos, g.userId) &&
              (g.userId.None? ==> r.Failure?) &&
              CurriculoObtained(old(db.curriculos), db.curriculos, db.usuarios.Keys, g.userId) &&
              (r.Failure? ==> r.error == DatabaseError && db.secoes == old(db.secoes)) &&
              (r.Success? <==> CanGetCurriculo(old(db.curriculos), db.usuarios.Keys, g.userId) && CamposOf(x).Some?)
  {
    var g := ProtectedGate(token, secret, verify, InputIssues(x, formats));
    if g.Refuse? {
      return Failure(g.error);
    }
    r := SaveSecaoOwned(db, g.userId, x);
  }
}
