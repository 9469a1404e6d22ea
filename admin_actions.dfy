/** `src/actions/adminActions.ts`: the back office. Every action first requires an ADMIN
    token. Password hashing (bcrypt) is an input function. */
module AdminActions {
  import opened Base
  import opened Generated
  import opened Auth
  import opened Zod
  import opened AdminSchema
  import opened Store

  const ServerError: string := "Ocorreu um erro no servidor."
  const InvalidCompanyForm: string := "Dados do formulário inválidos."
  const EmailInUse: string := "Este e-mail já está em uso."
  const InvalidPassword: string := "Dados inválidos para alteração de senha."
  const InvalidUserForm: string := "Dados inválidos."
  const SelfToggle: string := "Você não pode inativar sua própria conta."
  const UserNotFound: string := "Usuário não encontrado."
  const InvalidEditCompany: string := "Dados de formulário inválidos."

  /** The admin gate: `isAuthorized && role === ADMIN` for required roles `[ADMIN]`. */
  predicate IsAdmin(decoded: Option<TokenPayload>)
  {
    AdminAllowed(AuthorizeUser(decoded, [ADMIN]))
  }

  predicate EmailTaken(db: Database, email: string)
    reads db
  {
    exists u :: u in db.usuarios && db.usuarios[u].email == email
  }

  // ---------------------------------------------------------------------------------------
  // Company creation
  // ---------------------------------------------------------------------------------------

  /** The checks `criarEmpresaComRecrutadorAction` makes before its transaction, in order:
      the admin gate, the form, and an email no account uses yet. */
  function CriarEmpresaRefusal(db: Database, decoded: Option<TokenPayload>, data: NovaEmpresa,
                               formats: Formats): (e: Option<string>)
    reads db
    ensures !IsAdmin(decoded) ==> e == Some(AccessDenied)
    ensures IsAdmin(decoded) && NovaEmpresaIssues(data, formats) != [] ==> e == Some(InvalidCompanyForm)
    ensures IsAdmin(decoded) && NovaEmpresaIssues(data, formats) == [] && EmailTaken(db, data.emailRecrutador) ==>
              e == Some(EmailInUse)
    ensures e.None? <==>
              IsAdmin(decoded) && NovaEmpresaIssues(data, formats) == [] && !EmailTaken(db, data.emailRecrutador)
  {
    if !IsAdmin(decoded) then Some(AccessDenied)
    else if NovaEmpresaIssues(data, formats) != [] then Some(InvalidCompanyForm)
    else if EmailTaken(db, data.emailRecrutador) then Some(EmailInUse)
    else None
  }

  /** `criarEmpresaComRecrutadorAction` as written: the transaction calls `tx.susuario`,
      which does not exist on the transaction client, so it throws before any row is
      written and the caller always gets the server error once the checks pass. */
  method CriarEmpresaComRecrutador(db: Database, decoded: Option<TokenPayload>, data: NovaEmpresa, formats: Formats)
    returns (r: ActionResult<()>)
    ensures r.Failure?
    ensures var e := CriarEmpresaRefusal(db, decoded, data, formats);
            r.error == if e.Some? then e.value else ServerError
  {
    if !IsAdmin(decoded) {
      return Failure(AccessDenied);
    }
    if NovaEmpresaIssues(data, formats) != [] {
      return Failure(InvalidCompanyForm);
    }
    var existing := db.FindUsuarioByEmail(data.emailRecrutador);
    if existing.Some? {
      return Failure(EmailInUse);
    }
    // `tx.susuario` is undefined: `tx.susuario.create` throws a TypeError and the
    // transaction is rolled back.
    return Failure(ServerError);
  }

  /** The recruiter account the evidently intended transaction creates. */
  function NovoUsuario(data: NovaEmpresa, hash: string -> string, now: int): (u: Usuario)
    ensures u.nome == data.nomeRecrutador && u.email == data.emailRecrutador && u.senha == hash(data.senhaRecrutador)
    ensures u.role == USER && u.ativo && u.criadoEm == now
  {
    Usuario(data.nomeRecrutador, data.emailRecrutador, hash(data.senhaRecrutador), USER, true, now)
  }

  /** The company profile linked to it; an empty CNPJ is stored as null. */
  function NovoCliente(data: NovaEmpresa, usuarioId: Id, now: int): (c: Cliente)
    ensures c.usuarioId == usuarioId && c.nomeFantasia == data.nomeEmpresa && c.createdAt == now
    ensures c.cpfOuCnpj == OrNull(data.cnpj)
    ensures c.cpfOuCnpj.Some? <==> Truthy(data.cnpj)
    ensures c.descricao.None? && c.websiteUrl.None? && c.localizacao.None?
  {
    Cliente(usuarioId, data.nomeEmpresa, None, OrNull(data.cnpj), None, None, now)
  }

  /** `criarEmpresaComRecrutadorAction` with `tx.usuario`: the same checks, then one active
      USER account and one client profile linked to it, both or neither. */
  method CriarEmpresaComRecrutadorCorrigido(db: Database, decoded: Option<TokenPayload>, data: NovaEmpresa,
                                            formats: Formats, hash: string -> string, now: int)
    returns (r: ActionResult<()>)
    requires db.Valid()
    modifies db`usuarios, db`clientes
    ensures db.Valid()
    ensures var e := old(CriarEmpresaRefusal(db, decoded, data, formats));
            e.Some? ==> r == Failure(e.value) && db.usuarios == old(db.usuarios) && db.clientes == old(db.clientes)
    ensures var e := old(CriarEmpresaRefusal(db, decoded, data, formats));
            e.None? ==>
              r.Success? &&
              exists u, c :: u !in old(db.usuarios) && c !in old(db.clientes) &&
                db.usuarios == old(db.usuarios)[u := NovoUsuario(data, hash, now)] &&
                db.clientes == old(db.clientes)[c := NovoCliente(data, u, now)]
  {
    if !IsAdmin(decoded) {
      return Failure(AccessDenied);
    }
    if NovaEmpresaIssues(data, formats) != [] {
      return Failure(InvalidCompanyForm);
    }
    var existing := db.FindUsuarioByEmail(data.emailRecrutador);
    if existing.Some? {
      return Failure(EmailInUse);
    }
    InsertEmpresa(db, data, hash, now);
    return Success(());
  }

  /** The transaction's two inserts: the recruiter account under a fresh id, then the
      company profile linked to it. */
  method InsertEmpresa(db: Database, data: NovaEmpresa, hash: string -> string, now: int)
    requires db.Valid() && !EmailTaken(db, data.emailRecrutador)
    modifies db`usuarios, db`clientes
    ensures db.Valid()
    ensures exists u, c :: u !in old(db.usuarios) && c !in old(db.clientes) &&
              db.usuarios == old(db.usuarios)[u := NovoUsuario(data, hash, now)] &&
              db.clientes == old(db.clientes)[c := NovoCliente(data, u, now)]
  {
    var u := db.CreateUsuario(NovoUsuario(data, hash, now));
    assert !db.HasCliente(u);
    var c := db.CreateCliente(NovoCliente(data, u, now));
  }

  // ---------------------------------------------------------------------------------------
  // Searching and listing
  // ---------------------------------------------------------------------------------------

  /** Case folding of the ASCII letters, standing in for the database's case-insensitive
      comparison. */
  function Lower(c: char): char
  {
    if 'A' <= c <= 'Z' then (c as int + 32) as char else c
  }

  function LowerAll(s: string): (t: string)
    ensures |t| == |s| && forall i :: 0 <= i < |s| ==> t[i] == Lower(s[i])
  {
    if s == [] then [] else [Lower(s[0])] + LowerAll(s[1..])
  }

  /** The needle, case folded, occurs in the haystack at position `i`. */
  predicate MatchesAt(hay: string, needle: string, i: int)
  {
    0 <= i <= |hay| - |needle| && LowerAll(hay[i..i + |needle|]) == LowerAll(needle)
  }

  /** `{ contains: needle, mode: 'insensitive' }`. */
  predicate ContainsInsensitive(hay: string, needle: string)
  {
    exists i :: 0 <= i <= |hay| && MatchesAt(hay, needle, i)
  }

  lemma {:induction false} LowerIdempotent(s: string)
    ensures LowerAll(LowerAll(s)) == LowerAll(s)
  {
    if s != [] {
      LowerIdempotent(s[1..]);
      assert LowerAll(s)[1..] == LowerAll(s[1..]);
    }
  }

  lemma LowerAllSlice(s: string, i: int, j: int)
    requires 0 <= i <= j <= |s|
    ensures |LowerAll(s)| == |s| && LowerAll(s)[i..j] == LowerAll(s[i..j])
  {
    var l, w := LowerAll(s), LowerAll(s[i..j]);
    assert forall k :: 0 <= k < j - i ==> l[i..j][k] == l[i + k] == Lower(s[i + k]) == w[k];
  }

  /** Folding the case of both sides first finds the same occurrences. */
  lemma MatchesAtIgnoresCase(hay: string, needle: string, i: int)
    ensures MatchesAt(hay, needle, i) <==> MatchesAt(LowerAll(hay), LowerAll(needle), i)
  {
    var h, n := LowerAll(hay), LowerAll(needle);
    if 0 <= i <= |hay| - |needle| {
      var w := hay[i..i + |needle|];
      var lw := LowerAll(w);
      LowerAllSlice(hay, i, i + |needle|);
      assert h[i..i + |n|] == lw;
      LowerIdempotent(w);
      LowerIdempotent(needle);
      assert LowerAll(lw) == lw && LowerAll(n) == n;
      assert MatchesAt(h, n, i) == (lw == n);
      assert MatchesAt(hay, needle, i) == (lw == n);
    }
  }

  /** Searching a name or an e-mail for a term ignores the case of both. */
  lemma ContainsIgnoresCase(hay: string, needle: string)
    ensures ContainsInsensitive(hay, needle) <==> ContainsInsensitive(LowerAll(hay), LowerAll(needle))
  {
    if ContainsInsensitive(hay, needle) {
      var i :| 0 <= i <= |hay| && MatchesAt(hay, needle, i);
      MatchesAtIgnoresCase(hay, needle, i);
    }
    if ContainsInsensitive(LowerAll(hay), LowerAll(needle)) {
      var i :| 0 <= i <= |hay| && MatchesAt(LowerAll(hay), LowerAll(needle), i);
      MatchesAtIgnoresCase(hay, needle, i);
    }
  }

  /** The users whose name or e-mail contains the term. */
  function UsersMatching(db: Database, term: string): (rows: set<Id>)
    reads db
    ensures forall u :: u in rows <==>
              u in db.usuarios &&
              (ContainsInsensitive(db.usuarios[u].nome, term) || ContainsInsensitive(db.usuarios[u].email, term))
  {
    set u | u in db.usuarios &&
            (ContainsInsensitive(db.usuarios[u].nome, term) || ContainsInsensitive(db.usuarios[u].email, term))
  }

  /** `findMany({ where, take })` without `orderBy`: any `take` of the matching rows. */
  method TakeAny(rows: set<Id>, take: nat) returns (items: seq<Id>)
    ensures Distinct(items)
    ensures forall x :: x in items ==> x in rows
    ensures |items| == if |rows| < take then |rows| else take
  {
    items := [];
    var rest := rows;
    while rest != {} && |items| < take
      invariant rest <= rows
      invariant Distinct(items)
      invariant forall x :: x in items ==> x in rows && x !in rest
      invariant |items| + |rest| == |rows|
      invariant |items| <= take
      decreases rest
    {
      var x :| x in rest;
      items := items + [x];
      rest := rest - {x};
    }
  }

  /** `procurarUsuariosAction`: a term shorter than two characters finds nothing without
      asking the database; otherwise at most ten users whose name or e-mail contains it. */
  method ProcurarUsuarios(db: Database, decoded: Option<TokenPayload>, termo: string)
    returns (r: ActionResult<seq<Id>>)
    ensures !IsAdmin(decoded) ==> r == Failure(AccessDenied)
    ensures IsAdmin(decoded) && |termo| < 2 ==> r == Success([])
    ensures IsAdmin(decoded) && |termo| >= 2 ==>
              r.Success? && Distinct(r.data) &&
              (forall u :: u in r.data ==> u in UsersMatching(db, termo)) &&
              |r.data| == if |UsersMatching(db, termo)| < 10 then |UsersMatching(db, termo)| else 10
  {
    if !IsAdmin(decoded) {
      return Failure(AccessDenied);
    }
    if termo == "" || |termo| < 2 {
      return Success([]);
    }
    var found := TakeAny(UsersMatching(db, termo), 10);
    return Success(found);
  }

  /** `getAdminDashboardStatsAction`: how many users and how many client profiles. */
  method GetAdminDashboardStats(db: Database, decoded: Option<TokenPayload>)
    returns (r: ActionResult<(nat, nat)>)
    ensures !IsAdmin(decoded) ==> r == Failure(AccessDenied)
    ensures IsAdmin(decoded) ==> r == Success((|db.usuarios.Keys|, |db.clientes.Keys|))
  {
    if !IsAdmin(decoded) {
      return Failure(AccessDenied);
    }
    return Success((|db.usuarios.Keys|, |db.clientes.Keys|));
  }

  /** The listings' page size. */
  const PageSize: nat := 10

  /** A row of the company listing, under the names the admin screen uses. */
  datatype EmpresaItem = EmpresaItem(id: Id, nome: string, cnpj: Option<string>, criadoEm: int)

  function ToEmpresaItem(db: Database, id: Id): (e: EmpresaItem)
    reads db
    requires id in db.clientes
    ensures e.id == id && e.nome == db.clientes[id].nomeFantasia && e.cnpj == db.clientes[id].cpfOuCnpj
    ensures e.criadoEm == db.clientes[id].createdAt
  {
    var c := db.clientes[id];
    EmpresaItem(id, c.nomeFantasia, c.cpfOuCnpj, c.createdAt)
  }

  /** The `itemsAdaptados` mapping: one item per row, in the rows' order. */
  function ToEmpresaItems(db: Database, ids: seq<Id>): (items: seq<EmpresaItem>)
    reads db
    requires forall i :: 0 <= i < |ids| ==> ids[i] in db.clientes
    ensures |items| == |ids|
    ensures forall i :: 0 <= i < |ids| ==> items[i] == ToEmpresaItem(db, ids[i])
  {
    if ids == [] then [] else [ToEmpresaItem(db, ids[0])] + ToEmpresaItems(db, ids[1..])
  }

  /** The `ClienteWhereInput` of the company listing: no condition, or the term in the name
      or in the tax id. */
  predicate EmpresaMatches(c: Cliente, query: Option<string>)
  {
    !Truthy(query) || ContainsInsensitive(c.nomeFantasia, query.value) ||
    (c.cpfOuCnpj.Some? && ContainsInsensitive(c.cpfOuCnpj.value, query.value))
  }

  function ClienteCreatedAtKey(db: Database): (key: map<Id, SortKey>)
    reads db
    ensures key.Keys == db.clientes.Keys
  {
    map c | c in db.clientes :: (0, db.clientes[c].createdAt)
  }

  /** `listarTodasEmpresasAction`: ten per page, newest first, optionally filtered. */
  method ListarTodasEmpresas(db: Database, decoded: Option<TokenPayload>, page: int, query: Option<string>)
    returns (r: ActionResult<(seq<EmpresaItem>, nat)>)
    ensures !IsAdmin(decoded) ==> r == Failure(AccessDenied)
    ensures IsAdmin(decoded) && (page - 1) * PageSize < 0 ==> r == Failure(ServerError)
    ensures IsAdmin(decoded) && (page - 1) * PageSize >= 0 ==>
              var rows := set c | c in db.clientes && EmpresaMatches(db.clientes[c], query);
              r.Success? && r.data.1 == |rows| &&
              exists ids :: IsPageOf(ids, rows, ClienteCreatedAtKey(db), (page - 1) * PageSize, PageSize) &&
                            (forall i :: 0 <= i < |ids| ==> ids[i] in db.clientes) &&
                            r.data.0 == ToEmpresaItems(db, ids)
  {
    if !IsAdmin(decoded) {
      return Failure(AccessDenied);
    }
    var skip := (page - 1) * PageSize;
    if skip < 0 {
      return Failure(ServerError);
    }
    var rows := set c | c in db.clientes && EmpresaMatches(db.clientes[c], query);
    var ids := FindPage(rows, ClienteCreatedAtKey(db), skip, PageSize);
    return Success((ToEmpresaItems(db, ids), |rows|));
  }

  /** The `UsuarioWhereInput` of the user listing, built field by field. */
  datatype UsuarioWhere = UsuarioWhere(query: Option<string>, role: Option<Role>, ativo: Option<bool>)

  predicate UsuarioMatches(u: Usuario, w: UsuarioWhere)
  {
    (w.query.None? || ContainsInsensitive(u.nome, w.query.value) || ContainsInsensitive(u.email, w.query.value)) &&
    (w.role.None? || u.role == w.role.value) &&
    (w.ativo.None? || u.ativo == w.ativo.value)
  }

  /** `orderBy: [{ ativo: 'desc' }, { criadoEm: 'desc' }]`: active users first. */
  function AtivoCriadoEmKey(db: Database): (key: map<Id, SortKey>)
    reads db
    ensures key.Keys == db.usuarios.Keys
    ensures forall u, v :: u in db.usuarios && v in db.usuarios && db.usuarios[u].ativo && !db.usuarios[v].ativo ==>
              AtLeast(key[u], key[v]) && !AtLeast(key[v], key[u])
  {
    map u | u in db.usuarios :: (if db.usuarios[u].ativo then 1 else 0, db.usuarios[u].criadoEm)
  }

  /** `listarTodosUsuariosAction`. Any non-empty status other than 'ATIVO' selects the
      inactive users. */
  method ListarTodosUsuarios(db: Database, decoded: Option<TokenPayload>, page: int, query: Option<string>,
                             role: Option<Role>, status: Option<string>)
    returns (r: ActionResult<(seq<Id>, nat)>)
    ensures !IsAdmin(decoded) ==> r == Failure(AccessDenied)
    ensures IsAdmin(decoded) && (page - 1) * PageSize < 0 ==> r == Failure(ServerError)
    ensures IsAdmin(decoded) && (page - 1) * PageSize >= 0 ==>
              var rows := set u | u in db.usuarios &&
                (!Truthy(query) || ContainsInsensitive(db.usuarios[u].nome, query.value) ||
                                   ContainsInsensitive(db.usuarios[u].email, query.value)) &&
                (role.None? || db.usuarios[u].role == role.value) &&
                (!Truthy(status) || db.usuarios[u].ativo == (status.value == "ATIVO"));
              r.Success? && r.data.1 == |rows| &&
              IsPageOf(r.data.0, rows, AtivoCriadoEmKey(db), (page - 1) * PageSize, PageSize)
  {
    if !IsAdmin(decoded) {
      return Failure(AccessDenied);
    }
    var skip := (page - 1) * PageSize;
    if skip < 0 {
      return Failure(ServerError);
    }
    var w := UsuarioWhere(None, None, None);
    if Truthy(query) {
      w := w.(query := query);
    }
    if role.Some? {
      w := w.(role := role);
    }
    if Truthy(status) {
      w := w.(ativo := Some(status.value == "ATIVO"));
    }
    var rows := set u | u in db.usuarios && UsuarioMatches(db.usuarios[u], w);
    assert rows == set u | u in db.usuarios &&
      (!Truthy(query) || ContainsInsensitive(db.usuarios[u].nome, query.value) ||
                         ContainsInsensitive(db.usuarios[u].email, query.value)) &&
      (role.None? || db.usuarios[u].role == role.value) &&
      (!Truthy(status) || db.usuarios[u].ativo == (status.value == "ATIVO"));
    var ids := FindPage(rows, AtivoCriadoEmKey(db), skip, PageSize);
    return Success((ids, |rows|));
  }

  // ---------------------------------------------------------------------------------------
  // Updates
  // ---------------------------------------------------------------------------------------

  /** `adminMudarSenhaUsuarioAction`: an empty id or a password shorter than six is refused;
      updating an id no user has is Prisma's P2025, the server error. */
  method AdminMudarSenhaUsuario(db: Database, decoded: Option<TokenPayload>, usuarioId: Id, novaSenha: string,
                                hash: string -> string)
    returns (r: ActionResult<()>)
    requires db.Valid()
    modifies db`usuarios
    ensures db.Valid()
    ensures !IsAdmin(decoded) ==> r == Failure(AccessDenied)
    ensures IsAdmin(decoded) && (usuarioId == "" || |novaSenha| < 6) ==> r == Failure(InvalidPassword)
    ensures IsAdmin(decoded) && usuarioId != "" && |novaSenha| >= 6 ==>
              if usuarioId in old(db.usuarios)
              then r == Success(()) &&
                   db.usuarios == old(db.usuarios)[usuarioId := old(db.usuarios)[usuarioId].(senha := hash(novaSenha))]
              else r == Failure(ServerError)
    ensures r.Failure? ==> db.usuarios == old(db.usuarios)
  {
    if !IsAdmin(decoded) {
      return Failure(AccessDenied);
    }
    if usuarioId == "" || novaSenha == "" || |novaSenha| < 6 {
      return Failure(InvalidPassword);
    }
    if usuarioId !in db.usuarios {
      return Failure(ServerError);
    }
    db.SetUsuario(usuarioId, db.usuarios[usuarioId].(senha := hash(novaSenha)));
    return Success(());
  }

  /** Another user already has the e-mail. */
  predicate EmailTakenByOther(db: Database, email: string, id: Id)
    reads db
  {
    exists u :: u in db.usuarios && u != id && db.usuarios[u].email == email
  }

  /** `adminEditarUsuarioAction`: name, e-mail and role of an existing user. A missing user
      (P2025) or an e-mail another user has (P2002) is the server error. */
  method AdminEditarUsuario(db: Database, decoded: Option<TokenPayload>, data: EditarUsuario, formats: Formats)
    returns (r: ActionResult<Usuario>)
    requires db.Valid()
    modifies db`usuarios
    ensures db.Valid()
    ensures !IsAdmin(decoded) ==> r == Failure(AccessDenied)
    ensures IsAdmin(decoded) && EditarUsuarioIssues(data, formats) != [] ==> r == Failure(InvalidUserForm)
    ensures IsAdmin(decoded) && EditarUsuarioIssues(data, formats) == [] ==>
              if data.id in old(db.usuarios) && !old(EmailTakenByOther(db, data.email, data.id))
              then r.Success? &&
                   r.data == old(db.usuarios)[data.id].(nome := data.nome, email := data.email,
                                                        role := ParseRole(data.role).value) &&
                   db.usuarios == old(db.usuarios)[data.id := r.data]
              else r == Failure(ServerError)
    ensures r.Failure? ==> db.usuarios == old(db.usuarios)
  {
    if !IsAdmin(decoded) {
      return Failure(AccessDenied);
    }
    if EditarUsuarioIssues(data, formats) != [] {
      return Failure(InvalidUserForm);
    }
    if data.id !in db.usuarios || EmailTakenByOther(db, data.email, data.id) {
      return Failure(ServerError);
    }
    var atualizado := db.usuarios[data.id].(nome := data.nome, email := data.email, role := ParseRole(data.role).value);
    db.SetUsuario(data.id, atualizado);
    return Success(atualizado);
  }

  /** `adminToggleUsuarioAtivoAction`: an admin cannot switch its own account; otherwise the
      user's `ativo` flips and the new value is returned. */
  method AdminToggleUsuarioAtivo(db: Database, decoded: Option<TokenPayload>, usuarioId: Id)
    returns (r: ActionResult<bool>)
    requires db.Valid()
    modifies db`usuarios
    ensures db.Valid()
    ensures !IsAdmin(decoded) ==> r == Failure(AccessDenied)
    ensures IsAdmin(decoded) && AuthorizeUser(decoded, [ADMIN]).userId == Some(usuarioId) ==> r == Failure(SelfToggle)
    ensures IsAdmin(decoded) && AuthorizeUser(decoded, [ADMIN]).userId != Some(usuarioId) ==>
              if usuarioId !in old(db.usuarios) then r == Failure(UserNotFound)
              else r == Success(!old(db.usuarios)[usuarioId].ativo) &&
                   db.usuarios == old(db.usuarios)[usuarioId := old(db.usuarios)[usuarioId].(ativo := r.data)]
    ensures r.Failure? ==> db.usuarios == old(db.usuarios)
  {
    var a := AuthorizeUser(decoded, [ADMIN]);
    if !AdminAllowed(a) {
      return Failure(AccessDenied);
    }
    if a.userId == Some(usuarioId) {
      return Failure(SelfToggle);
    }
    if usuarioId !in db.usuarios {
      return Failure(UserNotFound);
    }
    var novoStatus := !db.usuarios[usuarioId].ativo;
    db.SetUsuario(usuarioId, db.usuarios[usuarioId].(ativo := novoStatus));
    return Success(novoStatus);
  }

  /** Switching a user twice restores the table. */
  method ToggleTwice(db: Database, decoded: Option<TokenPayload>, usuarioId: Id)
    returns (first: ActionResult<bool>, second: ActionResult<bool>)
    requires db.Valid()
    modifies db`usuarios
    ensures db.Valid()
    ensures first.Success? ==> second.Success? && second.data == !first.data
    ensures first.Success? ==> db.usuarios == old(db.usuarios)
  {
    first := AdminToggleUsuarioAtivo(db, decoded, usuarioId);
    second := AdminToggleUsuarioAtivo(db, decoded, usuarioId);
    if first.Success? {
      assert old(db.usuarios)[usuarioId].(ativo := !!old(db.usuarios)[usuarioId].ativo) == old(db.usuarios)[usuarioId];
    }
  }

  /** `adminEditarEmpresaAction`: the name and tax id of a client profile (an empty CNPJ
      becomes null); a missing profile is the server error. */
  method AdminEditarEmpresa(db: Database, decoded: Option<TokenPayload>, data: EmpresaForm, formats: Formats)
    returns (r: ActionResult<Cliente>)
    requires db.Valid()
    modifies db`clientes
    ensures db.Valid()
    ensures !IsAdmin(decoded) ==> r == Failure(AccessDenied)
    ensures IsAdmin(decoded) && EmpresaIssues(data, formats) != [] ==> r == Failure(InvalidEditCompany)
    ensures IsAdmin(decoded) && EmpresaIssues(data, formats) == [] ==>
              if data.id in old(db.clientes)
              then r.Success? &&
                   r.data == old(db.clientes)[data.id].(nomeFantasia := data.nome, cpfOuCnpj := OrNull(data.cnpj)) &&
                   db.clientes == old(db.clientes)[data.id := r.data]
              else r == Failure(ServerError)
    ensures r.Failure? ==> db.clientes == old(db.clientes)
  {
    if !IsAdmin(decoded) {
      return Failure(AccessDenied);
    }
    if EmpresaIssues(data, formats) != [] {
      return Failure(InvalidEditCompany);
    }
    if data.id !in db.clientes {
      return Failure(ServerError);
    }
    var atualizada := db.clientes[data.id].(nomeFantasia := data.nome, cpfOuCnpj := OrNull(data.cnpj));
    db.SetCliente(data.id, atualizada);
    return Success(atualizada);
  }
}
