/** `src/actions/clienteActions.ts`: the client's dashboard counters and the client's own
    profile. All three actions admit USER and ADMIN tokens that carry an id. */
module ClienteActions {
  import opened Base
  import opened Generated
  import opened Auth
  import opened Zod
  import opened ClienteSchema
  import opened Store

  const UserNotFound: string := "Usuário não encontrado."
  const CompleteProfile: string := "Complete seu perfil de cliente para acessar o dashboard."
  const ProfileNotLoaded: string := "Não foi possível carregar o perfil."
  const InvalidData: string := "Dados inválidos."
  const ProfileNotSaved: string := "Não foi possível salvar o perfil."
  const AdminPanelName: string := "Painel Administrativo"
  const AdminPanelDescription: string := "Resumo geral da plataforma."
  const DefaultClientName: string := "Cliente"
  const DefaultBusinessName: string := "Meu negócio"

  function ClientGate(decoded: Option<TokenPayload>): Authorization
  {
    AuthorizeUser(decoded, [USER, ADMIN])
  }

  // ---------------------------------------------------------------------------------------
  // Dashboard
  // ---------------------------------------------------------------------------------------

  /** Whose rows a counter sees: everybody's (the admin) or one client's. */
  datatype Scope = Everyone | OwnedBy(userId: Id)

  predicate ProjetoInScope(p: Projeto, s: Scope)
  {
    s.Everyone? || p.criadoPorId == s.userId
  }

  /** `where: { projeto: { criadoPorId } }`: the proposal's project belongs to the client. */
  predicate PropostaInScope(db: Database, id: Id, s: Scope)
    reads db
    requires id in db.propostas
  {
    s.Everyone? ||
    (db.propostas[id].projetoId in db.projetos && db.projetos[db.propostas[id].projetoId].criadoPorId == s.userId)
  }

  function ProjetosAbertos(db: Database, s: Scope): (rows: set<Id>)
    reads db
    ensures forall p :: p in rows <==> p in db.projetos && db.projetos[p].status == ABERTO && ProjetoInScope(db.projetos[p], s)
  {
    set p | p in db.projetos && db.projetos[p].status == ABERTO && ProjetoInScope(db.projetos[p], s)
  }

  function PropostasRecebidas(db: Database, s: Scope): (rows: set<Id>)
    reads db
    ensures forall p :: p in rows <==> p in db.propostas && PropostaInScope(db, p, s)
  {
    set p | p in db.propostas && PropostaInScope(db, p, s)
  }

  function PropostasComStatus(db: Database, s: Scope, st: StatusProposta): (rows: set<Id>)
    reads db
    ensures forall p :: p in rows <==> p in db.propostas && PropostaInScope(db, p, s) && db.propostas[p].status == st
  {
    set p | p in db.propostas && PropostaInScope(db, p, s) && db.propostas[p].status == st
  }

  datatype DashboardData = DashboardData(
    clienteNome: string,
    clienteDescricao: Option<string>,
    usuarioNome: string,
    usuarioEmail: string,
    totalProjetosAbertos: nat,
    totalPropostasRecebidas: nat,
    totalPropostasEmNegociacao: nat,
    totalPropostasAceitas: nat)

  /** The counters of a scope. */
  function Counters(db: Database, s: Scope): (c: (nat, nat, nat, nat))
    reads db
  {
    (|ProjetosAbertos(db, s)|, |PropostasRecebidas(db, s)|,
     |PropostasComStatus(db, s, EM_NEGOCIACAO)|, |PropostasComStatus(db, s, ACEITA)|)
  }

  /** `fetchDashboardData`. The role comes from the token: an admin sees platform-wide
      counters under a fixed title; a user must have a client profile and sees the counters of
      its own projects, under the profile's name (or "Cliente" when it is empty). */
  method FetchDashboardData(db: Database, decoded: Option<TokenPayload>) returns (r: ActionResult<DashboardData>)
    requires db.Valid()
    ensures var a := ClientGate(decoded);
            r.Success? <==>
              Allowed(a) && a.userId.value in db.usuarios && (a.role == Some(ADMIN) || db.HasCliente(a.userId.value))
    ensures !Allowed(ClientGate(decoded)) ==> r == Failure(AccessDenied)
    ensures var a := ClientGate(decoded);
            Allowed(a) && a.userId.value !in db.usuarios ==> r == Failure(UserNotFound)
    ensures var a := ClientGate(decoded);
            Allowed(a) && a.userId.value in db.usuarios && a.role == Some(USER) && !db.HasCliente(a.userId.value) ==>
              r == Failure(CompleteProfile)
    ensures r.Success? ==>
              var a := ClientGate(decoded);
              var u := db.usuarios[a.userId.value];
              var s := if a.role == Some(ADMIN) then Everyone else OwnedBy(a.userId.value);
              var c := Counters(db, s);
              r.data.usuarioNome == u.nome && r.data.usuarioEmail == u.email &&
              (r.data.totalProjetosAbertos, r.data.totalPropostasRecebidas,
               r.data.totalPropostasEmNegociacao, r.data.totalPropostasAceitas) == c
    ensures r.Success? && ClientGate(decoded).role == Some(ADMIN) ==>
              r.data.clienteNome == AdminPanelName && r.data.clienteDescricao == Some(AdminPanelDescription)
    ensures r.Success? && ClientGate(decoded).role != Some(ADMIN) ==>
              exists c :: c in db.clientes && db.clientes[c].usuarioId == ClientGate(decoded).userId.value &&
                r.data.clienteNome == (if db.clientes[c].nomeFantasia == "" then DefaultClientName
                                       else db.clientes[c].nomeFantasia) &&
                r.data.clienteDescricao == OrNull(db.clientes[c].descricao)
  {
    var a := ClientGate(decoded);
    if !Allowed(a) {
      return Failure(AccessDenied);
    }
    var userId := a.userId.value;
    if userId !in db.usuarios {
      return Failure(UserNotFound);
    }
    var usuario := db.usuarios[userId];
    var perfil := db.FindClienteByUsuario(userId);
    if a.role == Some(USER) && perfil.None? {
      return Failure(CompleteProfile);
    }
    var s := if a.role == Some(ADMIN) then Everyone else OwnedBy(userId);
    var c := Counters(db, s);
    var nome, descricao;
    if a.role == Some(ADMIN) {
      nome, descricao := AdminPanelName, Some(AdminPanelDescription);
    } else {
      var cliente := db.clientes[perfil.value];
      nome := if cliente.nomeFantasia == "" then DefaultClientName else cliente.nomeFantasia;
      descricao := OrNull(cliente.descricao);
    }
    return Success(DashboardData(nome, descricao, usuario.nome, usuario.email, c.0, c.1, c.2, c.3));
  }

  /** The dashboard's counters are consistent: the proposals in negotiation and the accepted
      ones are disjoint parts of those received, and a client's counters never exceed the
      platform's. */
  lemma CountersConsistent(db: Database, s: Scope)
    ensures var c := Counters(db, s);
            c.2 + c.3 <= c.1
    ensures var c, all := Counters(db, s), Counters(db, Everyone);
            c.0 <= all.0 && c.1 <= all.1 && c.2 <= all.2 && c.3 <= all.3
  {
    var neg, ac, rec := PropostasComStatus(db, s, EM_NEGOCIACAO), PropostasComStatus(db, s, ACEITA), PropostasRecebidas(db, s);
    assert neg * ac == {};
    assert neg + ac <= rec;
    SubsetCard(neg + ac, rec);
    SubsetCard(ProjetosAbertos(db, s), ProjetosAbertos(db, Everyone));
    SubsetCard(rec, PropostasRecebidas(db, Everyone));
    SubsetCard(neg, PropostasComStatus(db, Everyone, EM_NEGOCIACAO));
    SubsetCard(ac, PropostasComStatus(db, Everyone, ACEITA));
  }

  lemma SubsetCard(a: set<Id>, b: set<Id>)
    requires a <= b
    ensures |a| <= |b|
  {
    assert b == a + (b - a);
  }

  /** In a consistent database every proposal counts for the owner of its project, so the
      clients' received counters add up to the platform's. */
  lemma ProposalCountedForItsOwner(db: Database, id: Id)
    requires db.Valid() && id in db.propostas
    ensures id in PropostasRecebidas(db, OwnedBy(db.projetos[db.propostas[id].projetoId].criadoPorId))
  {
  }

  // ---------------------------------------------------------------------------------------
  // Profile
  // ---------------------------------------------------------------------------------------

  /** The profile created on first visit. */
  function PerfilPadrao(userId: Id, now: int): (c: Cliente)
    ensures c.usuarioId == userId && c.nomeFantasia == DefaultBusinessName
    ensures c.descricao.None? && c.cpfOuCnpj.None? && c.websiteUrl.None? && c.localizacao.None?
  {
    Cliente(userId, DefaultBusinessName, None, None, None, None, now)
  }

  /** `fetchClientePerfil`: get or create. The caller's profile is returned; when there is
      none a default one is created, unless the token's id names no user (the foreign key
      fails and the load error is returned). */
  method FetchClientePerfil(db: Database, decoded: Option<TokenPayload>, now: int) returns (r: ActionResult<Id>)
    requires db.Valid()
    modifies db`clientes
    ensures db.Valid()
    ensures !Allowed(ClientGate(decoded)) ==> r == Failure(AccessDenied) && db.clientes == old(db.clientes)
    ensures Allowed(ClientGate(decoded)) ==>
              var userId := ClientGate(decoded).userId.value;
              if old(db.HasCliente(userId)) then
                r.Success? && r.data in db.clientes && db.clientes[r.data].usuarioId == userId &&
                db.clientes == old(db.clientes)
              else if userId !in db.usuarios then
                r == Failure(ProfileNotLoaded) && db.clientes == old(db.clientes)
              else
                r.Success? && r.data !in old(db.clientes) &&
                db.clientes == old(db.clientes)[r.data := PerfilPadrao(userId, now)]
  {
    var a := ClientGate(decoded);
    if !Allowed(a) {
      return Failure(AccessDenied);
    }
    var userId := a.userId.value;
    var cliente := db.FindClienteByUsuario(userId);
    if cliente.Some? {
      return Success(cliente.value);
    }
    if userId !in db.usuarios {
      return Failure(ProfileNotLoaded);
    }
    var id := db.CreateCliente(PerfilPadrao(userId, now));
    return Success(id);
  }

  /** Loading the profile again returns the same profile and creates nothing more. */
  method FetchClientePerfilTwice(db: Database, decoded: Option<TokenPayload>, now: int, later: int)
    returns (first: ActionResult<Id>, second: ActionResult<Id>)
    requires db.Valid()
    modifies db`clientes
    ensures first.Success? ==> second == first
    ensures first.Success? ==> db.clientes.Keys <= old(db.clientes).Keys + {first.data}
  {
    first := FetchClientePerfil(db, decoded, now);
    if first.Success? {
      assert db.clientes[first.data].usuarioId == ClientGate(decoded).userId.value;
    }
    second := FetchClientePerfil(db, decoded, later);
  }

  /** The columns `updateClienteAction` writes, both when creating and when updating: every
      optional field left empty becomes null. */
  function Apply(c: Cliente, f: ClienteForm): (r: Cliente)
    ensures r.usuarioId == c.usuarioId && r.createdAt == c.createdAt && r.nomeFantasia == f.nomeFantasia
    ensures r.descricao == OrNull(f.descricao) && r.cpfOuCnpj == OrNull(f.cpfOuCnpj)
    ensures r.websiteUrl == OrNull(f.websiteUrl) && r.localizacao == OrNull(f.localizacao)
  {
    c.(nomeFantasia := f.nomeFantasia, descricao := OrNull(f.descricao), cpfOuCnpj := OrNull(f.cpfOuCnpj),
       websiteUrl := OrNull(f.websiteUrl), localizacao := OrNull(f.localizacao))
  }

  /** Applying the same form twice changes nothing more. */
  lemma ApplyIdempotent(c: Cliente, f: ClienteForm)
    ensures Apply(Apply(c, f), f) == Apply(c, f)
  {
  }

  /** The effect of `updateClienteAction` on the profile table once the caller is authorised
      and the form is valid: the caller's profile is updated, or one is created for a user
      that exists; for an id that names no user the save error is returned. */
  predicate SavedProfile(before: map<Id, Cliente>, after: map<Id, Cliente>, userId: Id,
                         f: ClienteForm, now: int, userExists: bool, r: ActionResult<Id>)
  {
    if exists c :: c in before && before[c].usuarioId == userId then
      r.Success? && r.data in before && before[r.data].usuarioId == userId &&
      after == before[r.data := Apply(before[r.data], f)]
    else if !userExists then
      r == Failure(ProfileNotSaved) && after == before
    else
      r.Success? && r.data !in before && after == before[r.data := Apply(PerfilPadrao(userId, now), f)]
  }

  /** `updateClienteAction`: an upsert on the caller's id. The form's `id` is ignored; a
      missing user fails the foreign key and yields the save error. */
  method UpdateCliente(db: Database, decoded: Option<TokenPayload>, f: ClienteForm, formats: Formats, now: int)
    returns (r: ActionResult<Id>)
    requires db.Valid()
    modifies db`clientes
    ensures db.Valid()
    ensures !Allowed(ClientGate(decoded)) ==> r == Failure(AccessDenied)
    ensures Allowed(ClientGate(decoded)) && ClienteIssues(f, formats) != [] ==> r == Failure(InvalidData)
    ensures r.Failure? ==> db.clientes == old(db.clientes)
    ensures Allowed(ClientGate(decoded)) && ClienteIssues(f, formats) == [] ==>
              SavedProfile(old(db.clientes), db.clientes, ClientGate(decoded).userId.value, f, now,
                           ClientGate(decoded).userId.value in db.usuarios, r)
  {
    var a := ClientGate(decoded);
    if !Allowed(a) {
      return Failure(AccessDenied);
    }
    if ClienteIssues(f, formats) != [] {
      return Failure(InvalidData);
    }
    var userId := a.userId.value;
    var cliente := db.FindClienteByUsuario(userId);
    if cliente.Some? {
      db.SetCliente(cliente.value, Apply(db.clientes[cliente.value], f));
      return Success(cliente.value);
    }
    if userId !in db.usuarios {
      return Failure(ProfileNotSaved);
    }
    var id := db.CreateCliente(Apply(PerfilPadrao(userId, now), f));
    return Success(id);
  }

  /** Saving the same form a second time, with one profile per user, returns the same
      profile and leaves the table as the first save left it. */
  lemma SavedProfileTwice(before: map<Id, Cliente>, mid: map<Id, Cliente>, after: map<Id, Cliente>,
                          userId: Id, f: ClienteForm, now: int, later: int, userExists: bool,
                          first: ActionResult<Id>, second: ActionResult<Id>)
    requires SavedProfile(before, mid, userId, f, now, userExists, first)
    requires SavedProfile(mid, after, userId, f, later, userExists, second)
    requires forall c, d :: c in mid && d in mid && c != d ==> mid[c].usuarioId != mid[d].usuarioId
    requires first.Success?
    ensures second == first && after == mid
    ensures first.data in mid && mid[first.data] == Apply(mid[first.data], f)
    ensures mid.Keys == before.Keys + {first.data}
    ensures forall c :: c in before && c != first.data ==> mid[c] == before[c]
  {
    var id := first.data;
    assert id in mid && mid[id].usuarioId == userId;
    if id in before && before[id].usuarioId == userId {
      ApplyIdempotent(before[id], f);
    } else {
      ApplyIdempotent(PerfilPadrao(userId, now), f);
    }
    assert second.data == id;
  }

  /** Saving the same form again returns the same profile and leaves it as the first save
      left it. */
  method UpdateClienteTwice(db: Database, decoded: Option<TokenPayload>, f: ClienteForm, formats: Formats,
                            now: int, later: int)
    returns (first: ActionResult<Id>, second: ActionResult<Id>)
    requires db.Valid()
    modifies db`clientes
    ensures first.Success? ==> second == first && first.data in db.clientes
    ensures first.Success? ==> db.clientes[first.data] == Apply(db.clientes[first.data], f)
    ensures first.Success? ==> db.clientes.Keys == old(db.clientes).Keys + {first.data}
    ensures first.Success? ==> forall c :: c in old(db.clientes) && c != first.data ==> db.clientes[c] == old(db.clientes)[c]
  {
    ghost var before := db.clientes;
    first := UpdateCliente(db, decoded, f, formats, now);
    ghost var mid := db.clientes;
    second := UpdateCliente(db, decoded, f, formats, later);
    if first.Success? {
      var userId := ClientGate(decoded).userId.value;
      SavedProfileTwice(before, mid, db.clientes, userId, f, now, later, userId in db.usuarios, first, second);
    }
  }
}
