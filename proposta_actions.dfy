/** `src/actions/propostaActions.ts`: a freelancer sends, lists and cancels proposals; the
    owner of a project lists the proposals it received and changes their status. */
module PropostaActions {
  import opened Base
  import opened Generated
  import opened Auth
  import opened PropostaSchema
  import opened Store

  const AlreadySent: string := "Você já enviou uma proposta para este projeto."
  const NeedsResume: string := "Complete seu perfil de freelancer para enviar propostas."
  const NotSent: string := "Não foi possível enviar a proposta."
  const CannotChange: string := "Você não pode alterar esta proposta."
  const NotFound: string := "Proposta não encontrada."
  const CannotCancel: string := "Não é possível cancelar esta proposta."

  // ---------------------------------------------------------------------------------------
  // The proposed value
  // ---------------------------------------------------------------------------------------

  /** `valor.replace(',', '.')`: a string pattern replaces its first occurrence only. */
  function NormalizeValor(v: string): (r: string)
    ensures |r| == |v|
    ensures ',' !in v ==> r == v
    ensures forall k :: 0 <= k < |v| && v[k] == ',' && ',' !in v[..k] ==>
              r == v[..k] + "." + v[k + 1..]
  {
    if v == [] then []
    else if v[0] == ',' then "." + v[1..]
    else
      PrefixOfTail(v);
      [v[0]] + NormalizeValor(v[1..])
  }

  lemma PrefixOfTail(v: string)
    requires v != []
    ensures forall k :: 0 < k < |v| ==> v[1..][..k - 1] == v[1..k] && v[..k] == [v[0]] + v[1..k]
  {
    forall k | 0 < k < |v|
      ensures v[1..][..k - 1] == v[1..k] && v[..k] == [v[0]] + v[1..k]
    {
      assert v[..k] == [v[0]] + v[1..k];
    }
  }

  lemma DigitsAreDecimal(a: string)
    requires |a| >= 1 && AllDigits(a)
    ensures IsDecimalString(a) && ',' !in a
  {
    LeadingCountIs(a, IsDigit, |a|);
    assert a[|a|..] == [];
    assert DecimalBody(a);
    assert a[0] != '-' && a != "Infinity" && a != "NaN" && a != "-Infinity" by {
      assert IsDigit(a[0]);
    }
  }

  lemma DigitsPointDigitsAreDecimal(a: string, b: string)
    requires |a| >= 1 && AllDigits(a) && |b| >= 1 && AllDigits(b)
    ensures IsDecimalString(a + "." + b) && ',' !in a + "." + b
  {
    var r := a + "." + b;
    assert forall i :: 0 <= i < |a| ==> r[i] == a[i];
    LeadingCountIs(r, IsDigit, |a|);
    var rest := r[|a|..];
    assert rest == "." + b;
    assert rest[1..] == b;
    LeadingCountIs(b, IsDigit, |b|);
    assert rest[1 + |b|..] == [];
    assert FractionThenExponent(rest, IsDigit, IsDecimalExponentMarker);
    assert DecimalBody(r);
    assert r[0] != '-' && r != "Infinity" && r != "NaN" && r != "-Infinity" by {
      assert IsDigit(r[0]);
    }
    assert forall i :: 0 <= i < |r| ==> r[i] == '.' || IsDigit(r[i]);
  }

  /** Every value the proposal form accepts, once its comma is a point, is a decimal string
      `Prisma.Decimal` accepts, and it keeps no comma. */
  lemma NormalizedValorIsDecimal(v: string)
    requires ValorShape(v)
    ensures IsDecimalString(NormalizeValor(v))
    ensures ',' !in NormalizeValor(v)
  {
    var k := LeadingDigits(v);
    assert AllDigits(v[..k]);
    if k == |v| {
      assert v[..k] == v;
      DigitsAreDecimal(v);
    } else {
      var tail := v[k + 1..];
      assert v == v[..k] + [v[k]] + tail;
      if v[k] == ',' {
        assert ',' !in v[..k];
        assert NormalizeValor(v) == v[..k] + "." + tail;
      } else {
        DigitsAreDecimal(v[..k]);
        DigitsAreDecimal(tail);
        assert ',' !in v;
        assert v == v[..k] + "." + tail;
      }
      DigitsPointDigitsAreDecimal(v[..k], tail);
    }
  }

  /** `status ?? StatusProposta.ENVIADA` on the parsed form. */
  function InitialStatus(s: Option<string>): (st: StatusProposta)
    ensures s.None? ==> st == ENVIADA
    ensures s.Some? && ParseStatusProposta(s.value).Some? ==> StatusPropostaName(st) == s.value
  {
    if s.Some? && ParseStatusProposta(s.value).Some? then ParseStatusProposta(s.value).value
    else ENVIADA
  }

  /** The proposal a valid form creates for freelancer `userId`: the form's text and term,
      the caller as freelancer, `ENVIADA` when no status is sent, and a value the database's
      decimal column accepts whenever the form's value has the accepted shape. */
  function NewProposta(form: PropostaForm, userId: Id, now: int): (p: Proposta)
    ensures p.freelancerId == userId && p.projetoId == form.projetoId && p.createdAt == now
    ensures p.mensagem == form.mensagem && p.prazoEstimadoDias == form.prazoEstimadoDias
    ensures p.status == InitialStatus(form.status) && p.valorProposto == NormalizeValor(form.valor)
    ensures form.status.None? ==> p.status == ENVIADA
    ensures ValorShape(form.valor) ==> IsDecimalString(p.valorProposto) && ',' !in p.valorProposto
  {
    assert ValorShape(form.valor) ==>
             IsDecimalString(NormalizeValor(form.valor)) && ',' !in NormalizeValor(form.valor) by {
      if ValorShape(form.valor) {
        NormalizedValorIsDecimal(form.valor);
      }
    }
    Proposta(form.mensagem, NormalizeValor(form.valor), form.prazoEstimadoDias,
             InitialStatus(form.status), userId, form.projetoId, now)
  }

  /** The caller already has a proposal on the project. */
  predicate AlreadyProposed(db: Database, freelancerId: Id, projetoId: Id)
    reads db
  {
    exists p :: p in db.propostas && db.propostas[p].freelancerId == freelancerId &&
                db.propostas[p].projetoId == projetoId
  }

  // ---------------------------------------------------------------------------------------
  // Actions that change the proposal table
  // ---------------------------------------------------------------------------------------

  /** What refuses a proposal in `enviarPropostaAction`, in the order the action checks:
      only the role USER may send; the form's issues come back joined with ", "; a caller
      without a résumé is refused; a repeated (freelancer, project) pair is Prisma's P2002,
      and a project that does not exist fails the foreign key. */
  function EnvioRefusal(db: Database, a: Authorization, form: PropostaForm): (e: Option<string>)
    reads db
    ensures !Allowed(a) ==> e == Some(AccessDenied)
    ensures Allowed(a) && PropostaIssues(form) != [] ==> e == Some(Join(PropostaIssues(form), ", "))
    ensures Allowed(a) && PropostaIssues(form) == [] ==>
              (!db.HasCurriculo(a.userId.value) ==> e == Some(NeedsResume)) &&
              (db.HasCurriculo(a.userId.value) && AlreadyProposed(db, a.userId.value, form.projetoId) ==>
                 e == Some(AlreadySent)) &&
              ((db.HasCurriculo(a.userId.value) && !AlreadyProposed(db, a.userId.value, form.projetoId) &&
                form.projetoId !in db.projetos) ==> e == Some(NotSent))
    ensures e.None? <==>
              Allowed(a) && PropostaIssues(form) == [] && db.HasCurriculo(a.userId.value) &&
              !AlreadyProposed(db, a.userId.value, form.projetoId) && form.projetoId in db.projetos
  {
    if !Allowed(a) then Some(AccessDenied)
    else if PropostaIssues(form) != [] then Some(Join(PropostaIssues(form), ", "))
    else if !db.HasCurriculo(a.userId.value) then Some(NeedsResume)
    else if AlreadyProposed(db, a.userId.value, form.projetoId) then Some(AlreadySent)
    else if form.projetoId !in db.projetos then Some(NotSent)
    else None
  }

  /** `enviarPropostaAction`: the proposal is stored, under a fresh id, exactly when nothing
      refuses it. */
  method EnviarProposta(db: Database, decoded: Option<TokenPayload>, form: PropostaForm, now: int)
    returns (r: ActionResult<Id>)
    requires db.Valid()
    modifies db`propostas
    ensures db.Valid()
    ensures var e := old(EnvioRefusal(db, AuthorizeUser(decoded, [USER]), form));
            e.Some? ==> r == Failure(e.value) && db.propostas == old(db.propostas)
    ensures var e := old(EnvioRefusal(db, AuthorizeUser(decoded, [USER]), form));
            e.None? ==>
              r.Success? && r.data !in old(db.propostas) &&
              db.propostas == old(db.propostas)[r.data :=
                NewProposta(form, AuthorizeUser(decoded, [USER]).userId.value, now)]
  {
    var a := AuthorizeUser(decoded, [USER]);
    var refusal := EnvioRefusal(db, a, form);
    if refusal.Some? {
      return Failure(refusal.value);
    }
    var userId := a.userId.value;
    var perfil := db.FindCurriculoByUsuario(userId);
    assert userId in db.usuarios by {
      assert db.curriculos[perfil.value].usuarioId == userId;
    }
    var id := db.CreateProposta(NewProposta(form, userId, now));
    return Success(id);
  }

  /** Sending the same form twice: once the first call has stored the proposal, the second
      is the unique-pair refusal and stores nothing. */
  method SendTwice(db: Database, decoded: Option<TokenPayload>, form: PropostaForm, now: int, later: int)
    returns (first: ActionResult<Id>, second: ActionResult<Id>)
    requires db.Valid()
    modifies db`propostas
    ensures db.Valid()
    ensures first.Success? ==> second == Failure(AlreadySent)
  {
    var a := AuthorizeUser(decoded, [USER]);
    ghost var cv := a.userId.Some? && db.HasCurriculo(a.userId.value);
    first := EnviarProposta(db, decoded, form, now);
    if first.Success? {
      var userId := a.userId.value;
      assert db.propostas[first.data].freelancerId == userId;
      assert AlreadyProposed(db, userId, form.projetoId);
      assert Allowed(a) && PropostaIssues(form) == [] && cv;
      assert db.HasCurriculo(userId);
      assert EnvioRefusal(db, a, form) == Some(AlreadySent);
    }
    second := EnviarProposta(db, decoded, form, later);
  }

  /** `atualizarStatusPropostaAction`: only the owner of the proposal's project may change
      it (an admin is no exception), to any status; nothing but the status changes. */
  method AtualizarStatusProposta(db: Database, decoded: Option<TokenPayload>, propostaId: Id,
                                 status: StatusProposta)
    returns (r: ActionResult<Proposta>)
    requires db.Valid()
    modifies db`propostas
    ensures db.Valid()
    ensures var a := AuthorizeUser(decoded, [USER, ADMIN]);
            !Allowed(a) ==> r == Failure(AccessDenied)
    ensures var a := AuthorizeUser(decoded, [USER, ADMIN]);
            Allowed(a) && (propostaId !in old(db.propostas) ||
                           db.projetos[old(db.propostas)[propostaId].projetoId].criadoPorId != a.userId.value) ==>
              r == Failure(CannotChange)
    ensures r.Success? <==>
              var a := AuthorizeUser(decoded, [USER, ADMIN]);
              Allowed(a) && propostaId in old(db.propostas) &&
              db.projetos[old(db.propostas)[propostaId].projetoId].criadoPorId == a.userId.value
    ensures r.Success? ==>
              r.data == old(db.propostas)[propostaId].(status := status) &&
              db.propostas == old(db.propostas)[propostaId := r.data]
    ensures r.Failure? ==> db.propostas == old(db.propostas)
  {
    var a := AuthorizeUser(decoded, [USER, ADMIN]);
    if !Allowed(a) {
      return Failure(AccessDenied);
    }
    if propostaId !in db.propostas || db.projetos[db.propostas[propostaId].projetoId].criadoPorId != a.userId.value {
      return Failure(CannotChange);
    }
    var atualizada := db.propostas[propostaId].(status := status);
    db.SetProposta(propostaId, atualizada);
    return Success(atualizada);
  }

  /** The statuses from which a freelancer may still withdraw a proposal. */
  predicate Cancelable(st: StatusProposta)
  {
    st == ENVIADA || st == EM_NEGOCIACAO
  }

  /** `cancelarPropostaAction`: a USER finds only its own proposal and deletes it while it is
      ENVIADA or EM_NEGOCIACAO. */
  method CancelarProposta(db: Database, decoded: Option<TokenPayload>, propostaId: Id)
    returns (r: ActionResult<()>)
    requires db.Valid()
    modifies db`propostas
    ensures db.Valid()
    ensures var a := AuthorizeUser(decoded, [USER]);
            !Allowed(a) ==> r == Failure(AccessDenied)
    ensures var a := AuthorizeUser(decoded, [USER]);
            Allowed(a) && (propostaId !in old(db.propostas) ||
                           old(db.propostas)[propostaId].freelancerId != a.userId.value) ==>
              r == Failure(NotFound)
    ensures var a := AuthorizeUser(decoded, [USER]);
            Allowed(a) && propostaId in old(db.propostas) &&
            old(db.propostas)[propostaId].freelancerId == a.userId.value &&
            !Cancelable(old(db.propostas)[propostaId].status) ==>
              r == Failure(CannotCancel)
    ensures r.Success? <==>
              var a := AuthorizeUser(decoded, [USER]);
              Allowed(a) && propostaId in old(db.propostas) &&
              old(db.propostas)[propostaId].freelancerId == a.userId.value &&
              Cancelable(old(db.propostas)[propostaId].status)
    ensures r.Success? ==> db.propostas == old(db.propostas) - {propostaId}
    ensures r.Failure? ==> db.propostas == old(db.propostas)
  {
    var a := AuthorizeUser(decoded, [USER]);
    if !Allowed(a) {
      return Failure(AccessDenied);
    }
    if propostaId !in db.propostas || db.propostas[propostaId].freelancerId != a.userId.value {
      return Failure(NotFound);
    }
    if !Cancelable(db.propostas[propostaId].status) {
      return Failure(CannotCancel);
    }
    db.DeleteProposta(propostaId);
    return Success(());
  }

  // ---------------------------------------------------------------------------------------
  // Queries
  // ---------------------------------------------------------------------------------------

  /** The `status` argument of the listings: a status, or the literal 'TODOS'. */
  datatype StatusFilter = Todos | Only(status: StatusProposta)

  /** `status && status !== 'TODOS'`: the status the where clause gets, if any. */
  function StatusCondition(f: Option<StatusFilter>): (c: Option<StatusProposta>)
    ensures c.Some? <==> f.Some? && f.value.Only?
    ensures c.Some? ==> c.value == f.value.status
  {
    if f.Some? && f.value.Only? then Some(f.value.status) else None
  }

  /** The `Prisma.PropostaWhereInput` the listings build; each present field is a condition. */
  datatype PropostaWhere = PropostaWhere(
    freelancerId: Option<Id>,
    status: Option<StatusProposta>,
    projetoId: Option<Id>,
    projetoCriadoPorId: Option<Id>)

  predicate Matches(db: Database, w: PropostaWhere, id: Id)
    reads db
    requires id in db.propostas
  {
    var p := db.propostas[id];
    (w.freelancerId.None? || p.freelancerId == w.freelancerId.value) &&
    (w.status.None? || p.status == w.status.value) &&
    (w.projetoId.None? || p.projetoId == w.projetoId.value) &&
    (w.projetoCriadoPorId.None? ||
       (p.projetoId in db.projetos && db.projetos[p.projetoId].criadoPorId == w.projetoCriadoPorId.value))
  }

  /** `orderBy: { createdAt: 'desc' }`. */
  function CreatedAtKey(db: Database): (key: map<Id, SortKey>)
    reads db
    ensures key.Keys == db.propostas.Keys
  {
    map p | p in db.propostas :: (0, db.propostas[p].createdAt)
  }

  /** `findMany({ where: w, orderBy: { createdAt: 'desc' } })`. */
  method FindPropostas(db: Database, w: PropostaWhere) returns (ids: seq<Id>)
    ensures Distinct(ids)
    ensures forall p :: p in ids <==> p in db.propostas && Matches(db, w, p)
    ensures SortedDesc(ids, CreatedAtKey(db))
  {
    var rows := set p | p in db.propostas && Matches(db, w, p);
    ids := OrderByDesc(rows, CreatedAtKey(db));
    FromSetIsDistinct(ids, rows);
  }

  /** `fetchUserPropostas`: the caller's own proposals, newest first, filtered by status
      unless the filter is absent or 'TODOS'. */
  method FetchUserPropostas(db: Database, decoded: Option<TokenPayload>, status: Option<StatusFilter>)
    returns (r: ActionResult<seq<Id>>)
    ensures r.Success? <==> Allowed(AuthorizeUser(decoded, [USER, ADMIN]))
    ensures r.Failure? ==> r.error == AccessDenied
    ensures r.Success? ==>
              var userId := AuthorizeUser(decoded, [USER, ADMIN]).userId.value;
              Distinct(r.data) && SortedDesc(r.data, CreatedAtKey(db)) &&
              forall p :: p in r.data <==>
                p in db.propostas && db.propostas[p].freelancerId == userId &&
                (status.None? || status.value.Todos? || db.propostas[p].status == status.value.status)
  {
    var a := AuthorizeUser(decoded, [USER, ADMIN]);
    if !Allowed(a) {
      return Failure(AccessDenied);
    }
    var w := PropostaWhere(Some(a.userId.value), None, None, None);
    if status.Some? && status.value.Only? {
      w := w.(status := Some(status.value.status));
    }
    var ids := FindPropostas(db, w);
    return Success(ids);
  }

  /** `fetchPropostasDoCliente`: the proposals on projects the caller created, newest first,
      optionally narrowed to one status and to one project. */
  method FetchPropostasDoCliente(db: Database, decoded: Option<TokenPayload>,
                                 status: Option<StatusFilter>, projetoId: Option<Id>)
    returns (r: ActionResult<seq<Id>>)
    ensures r.Success? <==> Allowed(AuthorizeUser(decoded, [USER, ADMIN]))
    ensures r.Failure? ==> r.error == AccessDenied
    ensures r.Success? ==>
              var userId := AuthorizeUser(decoded, [USER, ADMIN]).userId.value;
              Distinct(r.data) && SortedDesc(r.data, CreatedAtKey(db)) &&
              forall p :: p in r.data <==>
                p in db.propostas &&
                db.propostas[p].projetoId in db.projetos &&
                db.projetos[db.propostas[p].projetoId].criadoPorId == userId &&
                (StatusCondition(status).None? || db.propostas[p].status == StatusCondition(status).value) &&
                (!Truthy(projetoId) || db.propostas[p].projetoId == projetoId.value)
  {
    var a := AuthorizeUser(decoded, [USER, ADMIN]);
    if !Allowed(a) {
      return Failure(AccessDenied);
    }
    var w := PropostaWhere(None, None, None, None);
    if status.Some? && status.value.Only? {
      w := w.(status := Some(status.value.status));
    }
    if Truthy(projetoId) {
      w := w.(projetoId := projetoId);
    }
    w := w.(projetoCriadoPorId := Some(a.userId.value));
    var ids := FindPropostas(db, w);
    return Success(ids);
  }

  /** The owner of the project and the author of the proposal may see it. */
  predicate CanSee(db: Database, userId: Id, propostaId: Id)
    reads db
    requires propostaId in db.propostas
  {
    var p := db.propostas[propostaId];
    p.freelancerId == userId || (p.projetoId in db.projetos && db.projetos[p.projetoId].criadoPorId == userId)
  }

  /** `fetchPropostaDetalhes`: the proposal when the caller may see it, "not found"
      otherwise, whether or not it exists. */
  method FetchPropostaDetalhes(db: Database, decoded: Option<TokenPayload>, propostaId: Id)
    returns (r: ActionResult<Proposta>)
    ensures var a := AuthorizeUser(decoded, [USER, ADMIN]);
            !Allowed(a) ==> r == Failure(AccessDenied)
    ensures var a := AuthorizeUser(decoded, [USER, ADMIN]);
            Allowed(a) ==>
              if propostaId in db.propostas && CanSee(db, a.userId.value, propostaId)
              then r == Success(db.propostas[propostaId])
              else r == Failure(NotFound)
  {
    var a := AuthorizeUser(decoded, [USER, ADMIN]);
    if !Allowed(a) {
      return Failure(AccessDenied);
    }
    if propostaId in db.propostas && CanSee(db, a.userId.value, propostaId) {
      return Success(db.propostas[propostaId]);
    }
    return Failure(NotFound);
  }
}
