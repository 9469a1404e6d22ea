/** The database the server actions read and write (Prisma over PostgreSQL), held in memory:
    one map from row id to record per table the core touches, the constraints of the schema
    the actions rely on (unique keys and foreign keys), and the ordering and paging that
    `findMany` applies to a query's rows. */
module Store {
  import opened Base
  import opened Generated

  datatype Usuario = Usuario(
    nome: string,
    email: string,
    senha: string,
    role: Role,
    ativo: bool,
    criadoEm: int)

  /** `perfil_cliente`: the client (company) profile of a user. */
  datatype Cliente = Cliente(
    usuarioId: Id,
    nomeFantasia: string,
    descricao: Option<string>,
    cpfOuCnpj: Option<string>,
    websiteUrl: Option<string>,
    localizacao: Option<string>,
    createdAt: int)

  /** The freelancer profile (résumé) of a user. */
  datatype Curriculo = Curriculo(
    usuarioId: Id,
    tituloProfissional: string,
    resumo: Option<string>,
    linkedinUrl: Option<string>,
    githubUrl: Option<string>,
    portfolioUrl: Option<string>)

  datatype Projeto = Projeto(
    titulo: string,
    descricao: string,
    habilidadesDesejadas: seq<string>,
    tipo: TipoProjeto,
    status: StatusProjeto,
    orcamentoEstimado: Option<string>,
    prazoEstimado: Option<string>,
    remoto: bool,
    criadoPorId: Id,
    dataPublicacao: int)

  /** A proposal; `valorProposto` is the decimal text handed to `Prisma.Decimal`. */
  datatype Proposta = Proposta(
    mensagem: string,
    valorProposto: string,
    prazoEstimadoDias: int,
    status: StatusProposta,
    freelancerId: Id,
    projetoId: Id,
    createdAt: int)

  /** A calendar month, what `new Date("YYYY-MM")` keeps once the day is the first. */
  datatype YearMonth = YearMonth(year: int, month: int)

  /** The six kinds of résumé sub-record, one table each. */
  datatype Secao = EXPERIENCIA | FORMACAO | HABILIDADE | IDIOMA | PORTFOLIO | CERTIFICACAO

  /** The stored columns of a sub-record, by kind. */
  datatype Campos =
    | ExperienciaCampos(cargo: string, nomeEmpresa: string, dataInicio: YearMonth,
                        dataFim: Option<YearMonth>, local: Option<string>,
                        descricao: Option<string>, trabalhoAtual: bool)
    | FormacaoCampos(instituicao: string, curso: string, dataInicio: YearMonth,
                     dataFim: Option<YearMonth>, areaEstudo: Option<string>,
                     descricao: Option<string>, emCurso: bool)
    | HabilidadeCampos(nome: string)
    | IdiomaCampos(nome: string, nivel: string)
    | PortfolioCampos(nome: string, descricao: Option<string>, projectUrl: Option<string>,
                      repositorioUrl: Option<string>, inicio: Option<YearMonth>,
                      fim: Option<YearMonth>, tecnologiasUsadas: seq<string>)
    | CertificacaoCampos(nome: string, organizacaoEmissora: string, dataEmissao: YearMonth,
                         credencialId: Option<string>, credencialUrl: Option<string>)

  /** The table a row of the given columns belongs to. */
  function Kind(c: Campos): Secao
  {
    match c
    case ExperienciaCampos(_, _, _, _, _, _, _) => EXPERIENCIA
    case FormacaoCampos(_, _, _, _, _, _, _) => FORMACAO
    case HabilidadeCampos(_) => HABILIDADE
    case IdiomaCampos(_, _) => IDIOMA
    case PortfolioCampos(_, _, _, _, _, _, _) => PORTFOLIO
    case CertificacaoCampos(_, _, _, _, _) => CERTIFICACAO
  }

  datatype SubRegistro = SubRegistro(curriculoId: Id, campos: Campos)

  /** Keys of the sub-record tables: ids are unique within one table. */
  datatype SecaoKey = SecaoKey(secao: Secao, id: Id)

  /** `usuario.email` is unique. */
  predicate UniqueEmails(us: map<Id, Usuario>)
  {
    forall a, b :: a in us && b in us && a != b ==> us[a].email != us[b].email
  }

  /** `perfil_cliente.usuarioId` is a unique foreign key. */
  predicate ClientesOk(cs: map<Id, Cliente>, us: map<Id, Usuario>)
  {
    (forall c :: c in cs ==> cs[c].usuarioId in us) &&
    (forall c, d :: c in cs && d in cs && c != d ==> cs[c].usuarioId != cs[d].usuarioId)
  }

  /** `curriculo.usuarioId` is a unique foreign key. */
  predicate CurriculosOk(cs: map<Id, Curriculo>, us: map<Id, Usuario>)
  {
    (forall c :: c in cs ==> cs[c].usuarioId in us) &&
    (forall c, d :: c in cs && d in cs && c != d ==> cs[c].usuarioId != cs[d].usuarioId)
  }

  predicate ProjetosOk(ps: map<Id, Projeto>, us: map<Id, Usuario>)
  {
    forall p :: p in ps ==> ps[p].criadoPorId in us
  }

  /** Both foreign keys of `proposta`, and the unique pair (freelancerId, projetoId) whose
      violation is Prisma's error P2002. */
  predicate PropostasOk(props: map<Id, Proposta>, ps: map<Id, Projeto>, us: map<Id, Usuario>)
  {
    (forall p :: p in props ==> props[p].projetoId in ps && props[p].freelancerId in us) &&
    (forall p, q :: p in props && q in props && p != q ==>
       props[p].freelancerId != props[q].freelancerId || props[p].projetoId != props[q].projetoId)
  }

  /** Every sub-record belongs to an existing résumé and sits in its own kind's table. */
  predicate SecoesOk(ss: map<SecaoKey, SubRegistro>, cs: map<Id, Curriculo>)
  {
    forall k :: k in ss ==> ss[k].curriculoId in cs && Kind(ss[k].campos) == k.secao
  }

  /** A new proposal keeps the table's constraints when its keys exist and its pair is new. */
  lemma AddPropostaOk(props: map<Id, Proposta>, ps: map<Id, Projeto>, us: map<Id, Usuario>,
                      id: Id, p: Proposta)
    requires PropostasOk(props, ps, us)
    requires id !in props && p.projetoId in ps && p.freelancerId in us
    requires forall q :: q in props ==>
               props[q].freelancerId != p.freelancerId || props[q].projetoId != p.projetoId
    ensures PropostasOk(props[id := p], ps, us)
  {
  }

  /** Changing columns other than the keys keeps the table's constraints. */
  lemma ReplacePropostaOk(props: map<Id, Proposta>, ps: map<Id, Projeto>, us: map<Id, Usuario>,
                          id: Id, p: Proposta)
    requires PropostasOk(props, ps, us)
    requires id in props && p.projetoId == props[id].projetoId && p.freelancerId == props[id].freelancerId
    ensures PropostasOk(props[id := p], ps, us)
  {
  }

  /** Writing a row of the right kind into an existing résumé keeps the sub-record tables'
      constraints. */
  lemma PutSecaoOk(ss: map<SecaoKey, SubRegistro>, cs: map<Id, Curriculo>, key: SecaoKey, row: SubRegistro)
    requires SecoesOk(ss, cs) && row.curriculoId in cs && Kind(row.campos) == key.secao
    ensures SecoesOk(ss[key := row], cs)
  {
  }

  /** Writing a project owned by an existing user keeps the constraints that mention the
      project table: its own foreign key and the proposals' foreign key into it. */
  lemma PutProjetoOk(ps: map<Id, Projeto>, props: map<Id, Proposta>, us: map<Id, Usuario>, id: Id, p: Projeto)
    requires ProjetosOk(ps, us) && PropostasOk(props, ps, us) && p.criadoPorId in us
    ensures ProjetosOk(ps[id := p], us) && PropostasOk(props, ps[id := p], us)
  {
  }

  /** Writing a profile for an existing user that no other profile holds keeps the
      profile table's constraints. */
  lemma PutClienteOk(cs: map<Id, Cliente>, us: map<Id, Usuario>, id: Id, c: Cliente)
    requires ClientesOk(cs, us) && c.usuarioId in us
    requires forall d :: d in cs && d != id ==> cs[d].usuarioId != c.usuarioId
    ensures ClientesOk(cs[id := c], us)
  {
  }

  /** Adding a user under a new id with an email no user has keeps every constraint that
      mentions the user table. */
  lemma AddUsuarioOk(us: map<Id, Usuario>, cs: map<Id, Cliente>, cvs: map<Id, Curriculo>,
                     ps: map<Id, Projeto>, props: map<Id, Proposta>, id: Id, u: Usuario)
    requires UniqueEmails(us) && ClientesOk(cs, us) && CurriculosOk(cvs, us)
    requires ProjetosOk(ps, us) && PropostasOk(props, ps, us)
    requires id !in us && forall k :: k in us ==> us[k].email != u.email
    ensures UniqueEmails(us[id := u]) && ClientesOk(cs, us[id := u]) && CurriculosOk(cvs, us[id := u])
    ensures ProjetosOk(ps, us[id := u]) && PropostasOk(props, ps, us[id := u])
  {
  }

  /** Writing a résumé for an existing user that no other résumé holds keeps the résumé
      table's constraints and the sub-records' foreign key into it. */
  lemma PutCurriculoOk(cvs: map<Id, Curriculo>, us: map<Id, Usuario>, ss: map<SecaoKey, SubRegistro>,
                       id: Id, c: Curriculo)
    requires CurriculosOk(cvs, us) && SecoesOk(ss, cvs) && c.usuarioId in us
    requires forall d :: d in cvs && d != id ==> cvs[d].usuarioId != c.usuarioId
    ensures CurriculosOk(cvs[id := c], us) && SecoesOk(ss, cvs[id := c])
  {
  }

  /** Rewriting a user's row, with an email no other user has, keeps every constraint that
      mentions the user table. */
  lemma ReplaceUsuarioOk(us: map<Id, Usuario>, cs: map<Id, Cliente>, cvs: map<Id, Curriculo>,
                         ps: map<Id, Projeto>, props: map<Id, Proposta>, id: Id, u: Usuario)
    requires UniqueEmails(us) && ClientesOk(cs, us) && CurriculosOk(cvs, us)
    requires ProjetosOk(ps, us) && PropostasOk(props, ps, us)
    requires id in us && forall k :: k in us && k != id ==> us[k].email != u.email
    ensures UniqueEmails(us[id := u]) && ClientesOk(cs, us[id := u]) && CurriculosOk(cvs, us[id := u])
    ensures ProjetosOk(ps, us[id := u]) && PropostasOk(props, ps, us[id := u])
  {
    assert us[id := u].Keys == us.Keys;
  }

  class Database {
    var usuarios: map<Id, Usuario>
    var clientes: map<Id, Cliente>
    var curriculos: map<Id, Curriculo>
    var projetos: map<Id, Projeto>
    var propostas: map<Id, Proposta>
    var secoes: map<SecaoKey, SubRegistro>

    /** The constraints the database enforces. */
    predicate Valid()
      reads this
    {
      UniqueEmails(usuarios) && ClientesOk(clientes, usuarios) &&
      CurriculosOk(curriculos, usuarios) && ProjetosOk(projetos, usuarios) &&
      PropostasOk(propostas, projetos, usuarios) && SecoesOk(secoes, curriculos)
    }

    constructor ()
      ensures Valid()
      ensures usuarios == map[] && clientes == map[] && curriculos == map[]
      ensures projetos == map[] && propostas == map[] && secoes == map[]
    {
      usuarios := map[];
      clientes := map[];
      curriculos := map[];
      projetos := map[];
      propostas := map[];
      secoes := map[];
    }

    predicate HasCliente(userId: Id)
      reads this
    {
      exists c :: c in clientes && clientes[c].usuarioId == userId
    }

    predicate HasCurriculo(userId: Id)
      reads this
    {
      exists c :: c in curriculos && curriculos[c].usuarioId == userId
    }

    /** `cliente.findUnique({ where: { usuarioId } })`. */
    method FindClienteByUsuario(userId: Id) returns (r: Option<Id>)
      requires ClientesOk(clientes, usuarios)
      ensures r.Some? <==> HasCliente(userId)
      ensures r.Some? ==> r.value in clientes && clientes[r.value].usuarioId == userId
      ensures r.Some? ==> forall c :: c in clientes && clientes[c].usuarioId == userId ==> c == r.value
    {
      if c :| c in clientes && clientes[c].usuarioId == userId {
        r := Some(c);
      } else {
        r := None;
      }
    }

    /** `curriculo.findUnique({ where: { usuarioId } })`. */
    method FindCurriculoByUsuario(userId: Id) returns (r: Option<Id>)
      requires CurriculosOk(curriculos, usuarios)
      ensures r.Some? <==> HasCurriculo(userId)
      ensures r.Some? ==> r.value in curriculos && curriculos[r.value].usuarioId == userId
      ensures r.Some? ==> forall c :: c in curriculos && curriculos[c].usuarioId == userId ==> c == r.value
    {
      if c :| c in curriculos && curriculos[c].usuarioId == userId {
        r := Some(c);
      } else {
        r := None;
      }
    }

    /** `usuario.findUnique({ where: { email } })`. */
    method FindUsuarioByEmail(email: string) returns (r: Option<Id>)
      ensures r.Some? <==> exists u :: u in usuarios && usuarios[u].email == email
      ensures r.Some? ==> r.value in usuarios && usuarios[r.value].email == email
    {
      if u :| u in usuarios && usuarios[u].email == email {
        r := Some(u);
      } else {
        r := None;
      }
    }

    /** `usuario.create`: a new row under a fresh id; the email must be unused. */
    method CreateUsuario(u: Usuario) returns (id: Id)
      requires Valid() && forall k :: k in usuarios ==> usuarios[k].email != u.email
      modifies this`usuarios
      ensures Valid()
      ensures id !in old(usuarios) && usuarios == old(usuarios)[id := u]
    {
      id := FreshId(usuarios.Keys);
      AddUsuarioOk(usuarios, clientes, curriculos, projetos, propostas, id, u);
      usuarios := usuarios[id := u];
    }

    /** `usuario.update`: the row keeps its id; the email stays unique. */
    method SetUsuario(id: Id, u: Usuario)
      requires Valid() && id in usuarios
      requires forall k :: k in usuarios && k != id ==> usuarios[k].email != u.email
      modifies this`usuarios
      ensures Valid() && usuarios == old(usuarios)[id := u]
    {
      ReplaceUsuarioOk(usuarios, clientes, curriculos, projetos, propostas, id, u);
      usuarios := usuarios[id := u];
    }

    /** `perfilCliente.create`: a new row under a fresh id, for an existing user that has no
        profile yet. */
    method CreateCliente(c: Cliente) returns (id: Id)
      requires Valid() && c.usuarioId in usuarios && !HasCliente(c.usuarioId)
      modifies this`clientes
      ensures Valid()
      ensures id !in old(clientes) && clientes == old(clientes)[id := c]
    {
      id := FreshId(clientes.Keys);
      PutClienteOk(clientes, usuarios, id, c);
      clientes := clientes[id := c];
    }

    /** `perfilCliente.update`: the row keeps its id and its user. */
    method SetCliente(id: Id, c: Cliente)
      requires Valid() && id in clientes && c.usuarioId == clientes[id].usuarioId
      modifies this`clientes
      ensures Valid() && clientes == old(clientes)[id := c]
    {
      PutClienteOk(clientes, usuarios, id, c);
      clientes := clientes[id := c];
    }

    /** `curriculo.create`: a new row under a fresh id, for an existing user that has no
        résumé yet. */
    method CreateCurriculo(c: Curriculo) returns (id: Id)
      requires Valid() && c.usuarioId in usuarios && !HasCurriculo(c.usuarioId)
      modifies this`curriculos
      ensures Valid()
      ensures id !in old(curriculos) && curriculos == old(curriculos)[id := c]
    {
      id := FreshId(curriculos.Keys);
      PutCurriculoOk(curriculos, usuarios, secoes, id, c);
      curriculos := curriculos[id := c];
    }

    /** `curriculo.update`: the row keeps its id and its user. */
    method SetCurriculo(id: Id, c: Curriculo)
      requires Valid() && id in curriculos && c.usuarioId == curriculos[id].usuarioId
      modifies this`curriculos
      ensures Valid() && curriculos == old(curriculos)[id := c]
    {
      PutCurriculoOk(curriculos, usuarios, secoes, id, c);
      curriculos := curriculos[id := c];
    }

    /** `projeto.create`: a new row under a fresh id, owned by an existing user. */
    method CreateProjeto(p: Projeto) returns (id: Id)
      requires Valid() && p.criadoPorId in usuarios
      modifies this`projetos
      ensures Valid()
      ensures id !in old(projetos) && projetos == old(projetos)[id := p]
    {
      id := FreshId(projetos.Keys);
      PutProjetoOk(projetos, propostas, usuarios, id, p);
      projetos := projetos[id := p];
    }

    /** `projeto.update`: the row keeps its id; its owner is an existing user. */
    method SetProjeto(id: Id, p: Projeto)
      requires Valid() && id in projetos && p.criadoPorId in usuarios
      modifies this`projetos
      ensures Valid() && projetos == old(projetos)[id := p]
    {
      PutProjetoOk(projetos, propostas, usuarios, id, p);
      projetos := projetos[id := p];
    }

    /** `proposta.create`: a new row under a fresh id; both foreign keys exist and the pair
        (freelancer, project) is new. */
    method CreateProposta(p: Proposta) returns (id: Id)
      requires Valid() && p.projetoId in projetos && p.freelancerId in usuarios
      requires forall q :: q in propostas ==>
                 propostas[q].freelancerId != p.freelancerId || propostas[q].projetoId != p.projetoId
      modifies this`propostas
      ensures Valid()
      ensures id !in old(propostas) && propostas == old(propostas)[id := p]
    {
      id := FreshId(propostas.Keys);
      AddPropostaOk(propostas, projetos, usuarios, id, p);
      propostas := propostas[id := p];
    }

    /** `proposta.update` of columns other than the keys. */
    method SetProposta(id: Id, p: Proposta)
      requires Valid() && id in propostas
      requires p.projetoId == propostas[id].projetoId && p.freelancerId == propostas[id].freelancerId
      modifies this`propostas
      ensures Valid() && propostas == old(propostas)[id := p]
    {
      ReplacePropostaOk(propostas, projetos, usuarios, id, p);
      propostas := propostas[id := p];
    }

    /** `proposta.delete`. */
    method DeleteProposta(id: Id)
      requires Valid()
      modifies this`propostas
      ensures Valid() && propostas == old(propostas) - {id}
    {
      propostas := propostas - {id};
    }

    /** A key no sub-record of the given kind uses yet. */
    method FreshSecaoKey(secao: Secao) returns (key: SecaoKey)
      ensures key.secao == secao && key !in secoes
    {
      var id := FreshId(set k | k in secoes :: k.id);
      key := SecaoKey(secao, id);
    }

    /** Create or update of a sub-record: a row of the key's kind in an existing résumé. */
    method SetSecao(key: SecaoKey, row: SubRegistro)
      requires Valid() && row.curriculoId in curriculos && Kind(row.campos) == key.secao
      modifies this`secoes
      ensures Valid() && secoes == old(secoes)[key := row]
    {
      PutSecaoOk(secoes, curriculos, key, row);
      secoes := secoes[key := row];
    }

    /** `delete` of a sub-record. */
    method DeleteSecao(key: SecaoKey)
      requires Valid()
      modifies this`secoes
      ensures Valid() && secoes == old(secoes) - {key}
    {
      secoes := secoes - {key};
    }
  }

  // ---------------------------------------------------------------------------------------
  // Ordering and paging of `findMany` results.
  // ---------------------------------------------------------------------------------------

  /** A sort key: `orderBy` fields compared in turn, each descending. A one-field order uses
      0 as its first component. */
  type SortKey = (int, int)

  predicate AtLeast(a: SortKey, b: SortKey)
  {
    a.0 > b.0 || (a.0 == b.0 && a.1 >= b.1)
  }

  /** Rows in descending key order (ties in any order). */
  predicate SortedDesc(ids: seq<Id>, key: map<Id, SortKey>)
  {
    forall i, j :: 0 <= i < j < |ids| && ids[i] in key && ids[j] in key ==> AtLeast(key[ids[i]], key[ids[j]])
  }

  predicate Distinct(ids: seq<Id>)
  {
    forall i, j :: 0 <= i < j < |ids| ==> ids[i] != ids[j]
  }

  /** `x` placed before the first row it is at least as large as. */
  function InsertDesc(ids: seq<Id>, x: Id, key: map<Id, SortKey>): (r: seq<Id>)
    requires x in key && forall i :: 0 <= i < |ids| ==> ids[i] in key
    ensures |r| == |ids| + 1
    ensures multiset(r) == multiset(ids) + multiset{x}
    ensures forall i :: 0 <= i < |r| ==> r[i] in key
  {
    if ids == [] || AtLeast(key[x], key[ids[0]]) then [x] + ids
    else
      assert ids == [ids[0]] + ids[1..];
      [ids[0]] + InsertDesc(ids[1..], x, key)
  }

  lemma {:induction false} InsertDescSorted(ids: seq<Id>, x: Id, key: map<Id, SortKey>)
    requires x in key && forall i :: 0 <= i < |ids| ==> ids[i] in key
    requires SortedDesc(ids, key)
    ensures SortedDesc(InsertDesc(ids, x, key), key)
  {
    if ids != [] && !AtLeast(key[x], key[ids[0]]) {
      var tail := ids[1..];
      assert SortedDesc(tail, key) by {
        forall i, j | 0 <= i < j < |tail|
          ensures AtLeast(key[tail[i]], key[tail[j]])
        {
          assert tail[i] == ids[i + 1] && tail[j] == ids[j + 1];
        }
      }
      InsertDescSorted(tail, x, key);
      var r := InsertDesc(ids, x, key);
      var rest := InsertDesc(tail, x, key);
      assert r == [ids[0]] + rest;
      forall j | 1 <= j < |r|
        ensures AtLeast(key[ids[0]], key[r[j]])
      {
        assert r[j] == rest[j - 1];
        assert rest[j - 1] in multiset(rest);
        assert rest[j - 1] in multiset(tail) + multiset{x};
        if rest[j - 1] != x {
          assert rest[j - 1] in tail;
          var k :| 0 <= k < |tail| && tail[k] == rest[j - 1];
          assert tail[k] == ids[k + 1];
        }
      }
    }
  }

  /** `findMany({ where, orderBy })`: the ids of `rows`, each once, in descending key order. */
  method OrderByDesc(rows: set<Id>, key: map<Id, SortKey>) returns (r: seq<Id>)
    requires rows <= key.Keys
    ensures multiset(r) == multiset(rows)
    ensures SortedDesc(r, key)
  {
    r := [];
    var rest := rows;
    while rest != {}
      invariant rest <= rows
      invariant multiset(r) + multiset(rest) == multiset(rows)
      invariant forall i :: 0 <= i < |r| ==> r[i] in key
      invariant SortedDesc(r, key)
      decreases rest
    {
      var x :| x in rest;
      InsertDescSorted(r, x, key);
      r := InsertDesc(r, x, key);
      rest := rest - {x};
    }
  }

  lemma RepeatCountsTwice(r: seq<Id>, i: nat, j: nat)
    requires i < j < |r|
    ensures r[i] == r[j] ==> multiset(r)[r[i]] >= 2
  {
    if r[i] == r[j] {
      assert r == r[..i] + [r[i]] + r[i + 1..j] + [r[j]] + r[j + 1..];
    }
  }

  /** A multiset that came from a set has every element once. */
  lemma {:induction false} FromSetIsDistinct(r: seq<Id>, rows: set<Id>)
    requires multiset(r) == multiset(rows)
    ensures Distinct(r)
    ensures forall x :: x in r <==> x in rows
  {
    forall i, j | 0 <= i < j < |r|
      ensures r[i] != r[j]
    {
      RepeatCountsTwice(r, i, j);
      assert multiset(rows)[r[i]] <= 1;
    }
    forall x
      ensures x in r <==> x in rows
    {
      assert x in r <==> x in multiset(r);
    }
  }

  /** Prisma's `skip`/`take` on an ordered result: no rows when `skip` is past the end. */
  function Page(ids: seq<Id>, skip: nat, take: nat): (r: seq<Id>)
    ensures |r| <= take
    ensures skip >= |ids| ==> r == []
    ensures skip < |ids| ==> |r| == if skip + take <= |ids| then take else |ids| - skip
    ensures forall i :: 0 <= i < |r| ==> skip + i < |ids| && r[i] == ids[skip + i]
  {
    if skip >= |ids| then []
    else if skip + take <= |ids| then ids[skip..skip + take]
    else ids[skip..]
  }

  /** A page of a listing: some descending order of all of `rows`, cut at `skip`/`take`. */
  ghost predicate IsPageOf(items: seq<Id>, rows: set<Id>, key: map<Id, SortKey>, skip: nat, take: nat)
  {
    exists all: seq<Id> ::
      Distinct(all) && (forall p :: p in all <==> p in rows) &&
      SortedDesc(all, key) && items == Page(all, skip, take)
  }

  /** `findMany({ where, orderBy, skip, take })` over the rows `where` selects. */
  method FindPage(rows: set<Id>, key: map<Id, SortKey>, skip: nat, take: nat) returns (items: seq<Id>)
    requires rows <= key.Keys
    ensures IsPageOf(items, rows, key, skip, take)
    ensures Distinct(items) && |items| <= take
    ensures forall p :: p in items ==> p in rows
  {
    var all := OrderByDesc(rows, key);
    FromSetIsDistinct(all, rows);
    items := Page(all, skip, take);
    forall i, j | 0 <= i < j < |items|
      ensures items[i] != items[j]
    {
      assert items[i] == all[skip + i] && items[j] == all[skip + j];
    }
  }

  /** Consecutive pages of the same size tile the result with no row repeated or skipped. */
  lemma {:induction false} PagesTile(ids: seq<Id>, page: nat, size: nat)
    requires size > 0
    ensures Page(ids, page * size, size) + Page(ids, (page + 1) * size, size) ==
            Page(ids, page * size, 2 * size)
  {
    var a := page * size;
    assert (page + 1) * size == a + size;
    if a + size >= |ids| {
      if a < |ids| {
        assert Page(ids, a, size) == ids[a..];
      }
    } else if a + 2 * size <= |ids| {
      assert ids[a..a + size] + ids[a + size..a + 2 * size] == ids[a..a + 2 * size];
    } else {
      assert ids[a..a + size] + ids[a + size..] == ids[a..];
    }
  }
}
