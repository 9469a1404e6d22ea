/** `src/actions/projetoActions.ts`: the desired-skills list (parsed from the form's free
    text, joined back for editing) and the project actions. */
module ProjetoActions {
  import opened Base
  import opened Generated
  import opened Auth
  import opened ProjetoSchema
  import opened Store

  // ---------------------------------------------------------------------------------
  // Desired skills: `split(/[\n,]+/).map(trim).filter(Boolean)` and `join(', ')`.
  // Splitting at every separator rather than at runs of separators only adds empty
  // pieces, which the filter drops.
  // ---------------------------------------------------------------------------------

  predicate IsSkillSeparator(c: char)
  {
    c == '\n' || c == ','
  }

  predicate NoSeparator(s: string)
  {
    forall i :: 0 <= i < |s| ==> !IsSkillSeparator(s[i])
  }

  /** The pieces between separators, empty pieces included (`"a,,b"` gives three). */
  function Split(s: string): (pieces: seq<string>)
    ensures |pieces| >= 1
    ensures forall k :: 0 <= k < |pieces| ==> NoSeparator(pieces[k])
  {
    if s == [] then [""]
    else if IsSkillSeparator(s[0]) then [""] + Split(s[1..])
    else
      var rest := Split(s[1..]);
      [[s[0]] + rest[0]] + rest[1..]
  }

  function TrimStart(s: string): (t: string)
    ensures |t| <= |s| && t == s[|s| - |t|..]
    ensures t == [] || !IsSpace(t[0])
    ensures forall i :: 0 <= i < |s| - |t| ==> IsSpace(s[i])
  {
    if s != [] && IsSpace(s[0]) then TrimStart(s[1..]) else s
  }

  function TrimEnd(s: string): (t: string)
    ensures |t| <= |s| && t == s[..|t|]
    ensures t == [] || !IsSpace(t[|t| - 1])
    ensures forall i :: |t| <= i < |s| ==> IsSpace(s[i])
  {
    if s != [] && IsSpace(s[|s| - 1]) then TrimEnd(s[..|s| - 1]) else s
  }

  /** `String.prototype.trim`. */
  function Trim(s: string): string
  {
    TrimEnd(TrimStart(s))
  }

  /** What a parsed skill looks like: non-empty, no surrounding blanks, no separator. */
  predicate IsSkill(x: string)
  {
    x != [] && !IsSpace(x[0]) && !IsSpace(x[|x| - 1]) && NoSeparator(x)
  }

  function TrimAll(xs: seq<string>): (ys: seq<string>)
    ensures |ys| == |xs|
  {
    if xs == [] then [] else [Trim(xs[0])] + TrimAll(xs[1..])
  }

  function DropEmpty(xs: seq<string>): seq<string>
  {
    if xs == [] then []
    else if xs[0] == "" then DropEmpty(xs[1..])
    else [xs[0]] + DropEmpty(xs[1..])
  }

  /** The skills list `saveProjetoAction` stores for the form's text: every entry is a
      skill. */
  function ParseSkills(s: string): (skills: seq<string>)
    ensures forall k :: 0 <= k < |skills| ==> IsSkill(skills[k])
  {
    TrimAllPieces(Split(s));
    DropEmptyKeepsSkills(TrimAll(Split(s)));
    DropEmpty(TrimAll(Split(s)))
  }

  /** The text `fetchProjetoParaEdicao` puts back in the form: a list of skills comes back
      from it unchanged. */
  function JoinSkills(xs: seq<string>): (text: string)
    ensures (forall k :: 0 <= k < |xs| ==> IsSkill(xs[k])) ==> ParseSkills(text) == xs
  {
    assert (forall k :: 0 <= k < |xs| ==> IsSkill(xs[k])) ==> ParseSkills(Join(xs, ", ")) == xs by {
      if forall k :: 0 <= k < |xs| ==> IsSkill(xs[k]) {
        ParseJoinRoundTrip(xs);
      }
    }
    Join(xs, ", ")
  }

  lemma {:induction false} TrimOfPieceIsSkillOrEmpty(p: string)
    requires NoSeparator(p)
    ensures Trim(p) == "" || IsSkill(Trim(p))
  {
    var t := TrimStart(p);
    var u := TrimEnd(t);
    NoSeparatorSlice(p, |p| - |t|, |p|);
    NoSeparatorSlice(t, 0, |u|);
    if u != [] {
      assert u[0] == t[0];
    }
  }

  lemma NoSeparatorSlice(s: string, a: int, b: int)
    requires NoSeparator(s) && 0 <= a <= b <= |s|
    ensures NoSeparator(s[a..b])
  {
    assert forall i :: 0 <= i < b - a ==> s[a..b][i] == s[a + i];
  }

  lemma {:induction false} TrimAllPieces(xs: seq<string>)
    requires forall k :: 0 <= k < |xs| ==> NoSeparator(xs[k])
    ensures forall k :: 0 <= k < |xs| ==> TrimAll(xs)[k] == "" || IsSkill(TrimAll(xs)[k])
  {
    if xs != [] {
      TrimOfPieceIsSkillOrEmpty(xs[0]);
      TrimAllPieces(xs[1..]);
      forall k | 0 <= k < |xs|
        ensures TrimAll(xs)[k] == "" || IsSkill(TrimAll(xs)[k])
      {
        if k > 0 {
          assert TrimAll(xs)[k] == TrimAll(xs[1..])[k - 1];
        }
      }
    }
  }

  lemma {:induction false} DropEmptyKeepsSkills(xs: seq<string>)
    requires forall k :: 0 <= k < |xs| ==> xs[k] == "" || IsSkill(xs[k])
    ensures forall k :: 0 <= k < |DropEmpty(xs)| ==> IsSkill(DropEmpty(xs)[k])
  {
    if xs != [] {
      DropEmptyKeepsSkills(xs[1..]);
    }
  }

  /** Trimming a parsed skill again changes nothing. */
  lemma ParsedSkillsAreTrimmed(s: string)
    ensures forall k :: 0 <= k < |ParseSkills(s)| ==> Trim(ParseSkills(s)[k]) == ParseSkills(s)[k]
  {
    forall k | 0 <= k < |ParseSkills(s)|
      ensures Trim(ParseSkills(s)[k]) == ParseSkills(s)[k]
    {
      SkillIsTrimmed(ParseSkills(s)[k]);
    }
  }

  lemma SkillIsTrimmed(x: string)
    requires IsSkill(x)
    ensures Trim(x) == x
  {
  }

  /** A separator cuts the text in two independent halves. */
  lemma {:induction false} SplitAtSeparator(a: string, c: char, b: string)
    requires IsSkillSeparator(c)
    ensures Split(a + [c] + b) == Split(a) + Split(b)
  {
    if a == [] {
      assert a + [c] + b == [c] + b;
      assert ([c] + b)[1..] == b;
    } else {
      assert (a + [c] + b)[0] == a[0];
      assert (a + [c] + b)[1..] == a[1..] + [c] + b;
      SplitAtSeparator(a[1..], c, b);
    }
  }

  lemma {:induction false} SplitWithoutSeparator(x: string)
    requires NoSeparator(x)
    ensures Split(x) == [x]
  {
    if x != [] {
      SplitWithoutSeparator(x[1..]);
      assert [x[0]] + x[1..] == x;
    }
  }

  /** A blank in front of the text changes nothing in the parsed list. */
  lemma LeadingBlankIgnored(s: string)
    ensures ParseSkills(" " + s) == ParseSkills(s)
  {
    var pieces := Split(s);
    assert (" " + s)[0] == ' ' && (" " + s)[1..] == s;
    assert Split(" " + s) == [" " + pieces[0]] + pieces[1..];
    assert TrimStart(" " + pieces[0]) == TrimStart(pieces[0]) by {
      assert (" " + pieces[0])[1..] == pieces[0];
    }
    assert TrimAll(Split(" " + s)) == TrimAll(pieces) by {
      assert [" " + pieces[0]] + pieces[1..] == [" " + pieces[0]] + pieces[1..];
      assert pieces == [pieces[0]] + pieces[1..];
    }
  }

  lemma {:induction false} TrimAllAppend(xs: seq<string>, ys: seq<string>)
    ensures TrimAll(xs + ys) == TrimAll(xs) + TrimAll(ys)
  {
    if xs != [] {
      var zs := xs + ys;
      assert zs[0] == xs[0];
      assert zs[1..] == xs[1..] + ys;
      TrimAllAppend(xs[1..], ys);
      calc {
        TrimAll(zs);
        [Trim(xs[0])] + TrimAll(xs[1..] + ys);
        [Trim(xs[0])] + (TrimAll(xs[1..]) + TrimAll(ys));
        ([Trim(xs[0])] + TrimAll(xs[1..])) + TrimAll(ys);
      }
    } else {
      assert xs + ys == ys;
    }
  }

  lemma {:induction false} DropEmptyAppend(xs: seq<string>, ys: seq<string>)
    ensures DropEmpty(xs + ys) == DropEmpty(xs) + DropEmpty(ys)
  {
    if xs != [] {
      var zs := xs + ys;
      assert zs[0] == xs[0];
      assert zs[1..] == xs[1..] + ys;
      DropEmptyAppend(xs[1..], ys);
      if xs[0] == "" {
        assert DropEmpty(zs) == DropEmpty(xs[1..] + ys);
      } else {
        calc {
          DropEmpty(zs);
          [xs[0]] + DropEmpty(xs[1..] + ys);
          [xs[0]] + (DropEmpty(xs[1..]) + DropEmpty(ys));
          ([xs[0]] + DropEmpty(xs[1..])) + DropEmpty(ys);
        }
      }
    } else {
      assert xs + ys == ys;
    }
  }

  /** Parsing distributes over a separator. */
  lemma ParseAtSeparator(a: string, c: char, b: string)
    requires IsSkillSeparator(c)
    ensures ParseSkills(a + [c] + b) == ParseSkills(a) + ParseSkills(b)
  {
    SplitAtSeparator(a, c, b);
    TrimAllAppend(Split(a), Split(b));
    DropEmptyAppend(TrimAll(Split(a)), TrimAll(Split(b)));
  }

  lemma JoinSkillsCons(xs: seq<string>)
    requires |xs| > 1
    ensures Join(xs, ", ") == xs[0] + [','] + (" " + Join(xs[1..], ", "))
  {
    var rest := Join(xs[1..], ", ");
    assert Join(xs, ", ") == xs[0] + ", " + rest;
    assert ", " + rest == [','] + (" " + rest);
  }

  lemma SingleSkillParses(x: string)
    requires IsSkill(x)
    ensures ParseSkills(x) == [x]
  {
    SplitWithoutSeparator(x);
    SkillIsTrimmed(x);
    assert [x][1..] == [];
    assert TrimAll([x]) == [x];
    assert DropEmpty([x]) == [x] + DropEmpty([]);
  }

  lemma EmptyTextParsesToNothing()
    ensures ParseSkills("") == []
  {
    assert Split("") == [""];
    assert [""][1..] == [];
    assert TrimAll([""]) == [""];
    assert DropEmpty([""]) == [];
  }

  lemma HeadTail(xs: seq<string>)
    requires xs != []
    ensures [xs[0]] + xs[1..] == xs
  {
  }

  lemma RoundTripStep(xs: seq<string>)
    requires |xs| > 1 && IsSkill(xs[0])
    requires ParseSkills(Join(xs[1..], ", ")) == xs[1..]
    ensures ParseSkills(Join(xs, ", ")) == xs
  {
    var rest := Join(xs[1..], ", ");
    JoinSkillsCons(xs);
    ParseAtSeparator(xs[0], ',', " " + rest);
    LeadingBlankIgnored(rest);
    SingleSkillParses(xs[0]);
    calc {
      ParseSkills(Join(xs, ", "));
      ParseSkills(xs[0] + [','] + (" " + rest));
      ParseSkills(xs[0]) + ParseSkills(" " + rest);
      [xs[0]] + xs[1..];
      { HeadTail(xs); }
      xs;
    }
  }

  /** Round trip: joining skills with ", " and parsing the text gives the same skills back,
      in the same order. */
  lemma {:induction false} ParseJoinRoundTrip(xs: seq<string>)
    requires forall k :: 0 <= k < |xs| ==> IsSkill(xs[k])
    ensures ParseSkills(Join(xs, ", ")) == xs
  {
    if xs == [] {
      EmptyTextParsesToNothing();
    } else if |xs| == 1 {
      SingleSkillParses(xs[0]);
    } else {
      assert forall k :: 0 <= k < |xs[1..]| ==> IsSkill(xs[1..][k]) by {
        forall k | 0 <= k < |xs[1..]| ensures IsSkill(xs[1..][k]) {
          assert xs[1..][k] == xs[k + 1];
        }
      }
      ParseJoinRoundTrip(xs[1..]);
      RoundTripStep(xs);
    }
  }

  /** Saving the text shown by the edit form stores the list that was already stored. */
  lemma ParseJoinParseIdempotent(s: string)
    ensures ParseSkills(JoinSkills(ParseSkills(s))) == ParseSkills(s)
  {
  }

  /** The schema only asks for one character, so "," is accepted and stores no skill. */
  lemma LoneCommaParsesToNothing()
    ensures ParseSkills(",") == []
  {
    assert ","[1..] == "";
    assert Split(",") == ["", ""];
    assert Trim("") == "";
    assert TrimAll(["", ""]) == ["", ""];
    assert DropEmpty(["", ""]) == [];
  }

  // ---------------------------------------------------------------------------------
  // Project rows
  // ---------------------------------------------------------------------------------

  const NeedsClientToList: string := "Complete o perfil de cliente para gerenciar projetos."
  const NeedsClientToSave: string := "Crie ou complete seu perfil de cliente para publicar projetos."
  const ProjetoNotFound: string := "Projeto não encontrado."
  const CannotEdit: string := "Você não pode editar este projeto."
  const CannotChangeStatus: string := "Você não pode alterar este projeto."
  const NotSaved: string := "Não foi possível salvar o projeto."
  const LoginToBrowse: string := "Acesso negado. Faça login para visualizar projetos."
  const BrowseFailed: string := "Não foi possível carregar os projetos no momento."
  const ListFailed: string := "Não foi possível carregar seus projetos."

  /** The columns `saveProjetoAction` writes from the parsed form, on create and on update
      alike; empty budget and deadline become null. */
  function ProjetoFromForm(d: ProjetoData, status: StatusProjeto, criadoPorId: Id, dataPublicacao: int): (p: Projeto)
    ensures p.titulo == d.titulo && p.descricao == d.descricao && p.tipo == d.tipo && p.remoto == d.remoto
    ensures p.habilidadesDesejadas == ParseSkills(d.habilidadesDesejadas)
    ensures p.orcamentoEstimado == OrNull(d.orcamentoEstimado) && p.prazoEstimado == OrNull(d.prazoEstimado)
    ensures p.orcamentoEstimado.Some? <==> Truthy(d.orcamentoEstimado)
    ensures p.prazoEstimado.Some? <==> Truthy(d.prazoEstimado)
    ensures p.status == status && p.criadoPorId == criadoPorId && p.dataPublicacao == dataPublicacao
  {
    Projeto(d.titulo, d.descricao, ParseSkills(d.habilidadesDesejadas), d.tipo, status,
            OrNull(d.orcamentoEstimado), OrNull(d.prazoEstimado), d.remoto, criadoPorId, dataPublicacao)
  }

  /** The caller may edit the project: an ADMIN always, a USER only its own. */
  predicate MayEdit(a: Authorization, p: Projeto): (ok: bool)
    ensures a.role == Some(ADMIN) ==> ok
    ensures a.role == Some(USER) ==> (ok <==> a.userId == Some(p.criadoPorId))
  {
    a.role != Some(USER) || a.userId == Some(p.criadoPorId)
  }

  /** The update branch of `saveProjetoAction`: the row must exist and the caller may
      edit it; the status is kept when the form has none and the owner never changes. */
  method UpdateProjeto(db: Database, a: Authorization, d: ProjetoData, id: Id)
    returns (r: ActionResult<Id>)
    requires db.Valid()
    modifies db`projetos
    ensures db.Valid()
    ensures id !in old(db.projetos) ==> r == Failure(ProjetoNotFound)
    ensures id in old(db.projetos) && !MayEdit(a, old(db.projetos)[id]) ==> r == Failure(CannotEdit)
    ensures r.Success? <==> id in old(db.projetos) && MayEdit(a, old(db.projetos)[id])
    ensures r.Success? ==>
              var existing := old(db.projetos)[id];
              var status := if d.status.Some? then d.status.value else existing.status;
              r.data == id &&
              db.projetos == old(db.projetos)[id := ProjetoFromForm(d, status, existing.criadoPorId, existing.dataPublicacao)]
    ensures r.Failure? ==> db.projetos == old(db.projetos)
  {
    if id !in db.projetos {
      return Failure(ProjetoNotFound);
    }
    var existing := db.projetos[id];
    if !MayEdit(a, existing) {
      return Failure(CannotEdit);
    }
    var status := if d.status.Some? then d.status.value else existing.status;
    var row := ProjetoFromForm(d, status, existing.criadoPorId, existing.dataPublicacao);
    db.SetProjeto(id, row);
    return Success(id);
  }

  /** The create branch of `saveProjetoAction`: a new row owned by the caller, ABERTO unless
      the form says otherwise; an owner that is not a user fails the foreign key. */
  method CreateProjeto(db: Database, userId: Id, d: ProjetoData, now: int)
    returns (r: ActionResult<Id>)
    requires db.Valid()
    modifies db`projetos
    ensures db.Valid()
    ensures r.Success? <==> userId in db.usuarios
    ensures r.Failure? ==> r.error == NotSaved && db.projetos == old(db.projetos)
    ensures r.Success? ==>
              var status := if d.status.Some? then d.status.value else ABERTO;
              r.data !in old(db.projetos) &&
              db.projetos == old(db.projetos)[r.data := ProjetoFromForm(d, status, userId, now)]
  {
    if userId !in db.usuarios {
      return Failure(NotSaved);
    }
    var status := if d.status.Some? then d.status.value else ABERTO;
    var id := db.CreateProjeto(ProjetoFromForm(d, status, userId, now));
    return Success(id);
  }

  /** What stops `saveProjetoAction` before it touches the table, if anything. */
  function SaveProjetoRefusal(db: Database, a: Authorization, form: ProjetoForm): (e: Option<string>)
    reads db
    ensures !Allowed(a) ==> e == Some(AccessDenied)
    ensures Allowed(a) && ProjetoIssues(form) != [] ==> e == Some(Join(ProjetoIssues(form), ", "))
    ensures Allowed(a) && ProjetoIssues(form) == [] ==>
              (e.Some? <==> a.role == Some(USER) && !db.HasCliente(a.userId.value)) &&
              (e.Some? ==> e.value == NeedsClientToSave)
  {
    if !Allowed(a) then Some(AccessDenied)
    else if ProjetoIssues(form) != [] then Some(Join(ProjetoIssues(form), ", "))
    else if a.role == Some(USER) && !db.HasCliente(a.userId.value) then Some(NeedsClientToSave)
    else None
  }

  /** `saveProjetoAction`: update when the form has an id, create otherwise. A USER needs a
      client profile and may only update its own projects; an ADMIN may update any. */
  method SaveProjeto(db: Database, decoded: Option<TokenPayload>, form: ProjetoForm, now: int)
    returns (r: ActionResult<Id>)
    requires db.Valid()
    modifies db`projetos
    ensures db.Valid()
    ensures var a := AuthorizeUser(decoded, [USER, ADMIN]);
            old(SaveProjetoRefusal(db, a, form)).Some? ==>
              r == Failure(old(SaveProjetoRefusal(db, a, form)).value) && db.projetos == old(db.projetos)
    ensures var a := AuthorizeUser(decoded, [USER, ADMIN]);
            old(SaveProjetoRefusal(db, a, form)).None? && Truthy(form.id) ==>
              var id := form.id.value;
              (id !in old(db.projetos) ==> r == Failure(ProjetoNotFound)) &&
              (id in old(db.projetos) && !MayEdit(a, old(db.projetos)[id]) ==> r == Failure(CannotEdit)) &&
              (r.Success? <==> id in old(db.projetos) && MayEdit(a, old(db.projetos)[id])) &&
              (r.Success? ==>
                 var existing := old(db.projetos)[id];
                 var d := SafeParseProjeto(form).value;
                 var status := if d.status.Some? then d.status.value else existing.status;
                 r.data == id &&
                 db.projetos == old(db.projetos)[id := ProjetoFromForm(d, status, existing.criadoPorId, existing.dataPublicacao)])
    ensures var a := AuthorizeUser(decoded, [USER, ADMIN]);
            old(SaveProjetoRefusal(db, a, form)).None? && !Truthy(form.id) ==>
              (r.Success? <==> a.userId.value in db.usuarios) &&
              (r.Failure? ==> r.error == NotSaved) &&
              (r.Success? ==>
                 var d := SafeParseProjeto(form).value;
                 var status := if d.status.Some? then d.status.value else ABERTO;
                 r.data !in old(db.projetos) &&
                 db.projetos == old(db.projetos)[r.data := ProjetoFromForm(d, status, a.userId.value, now)])
    ensures r.Failure? ==> db.projetos == old(db.projetos)
  {
    var a := AuthorizeUser(decoded, [USER, ADMIN]);
    var refusal := SaveProjetoRefusal(db, a, form);
    if refusal.Some? {
      return Failure(refusal.value);
    }
    var d := SafeParseProjeto(form).value;
    if Truthy(d.id) {
      r := UpdateProjeto(db, a, d, d.id.value);
    } else {
      r := CreateProjeto(db, a.userId.value, d, now);
    }
  }

  /** What `fetchProjetoParaEdicao` returns: the row, with the skills as one text. */
  datatype ProjetoParaEdicao = ProjetoParaEdicao(projeto: Projeto, habilidadesDesejadas: string)

  /** `fetchProjetoParaEdicao`: same access rule as an update. */
  method FetchProjetoParaEdicao(db: Database, decoded: Option<TokenPayload>, projetoId: Id)
    returns (r: ActionResult<ProjetoParaEdicao>)
    ensures var a := AuthorizeUser(decoded, [USER, ADMIN]);
            !Allowed(a) ==> r == Failure(AccessDenied)
    ensures var a := AuthorizeUser(decoded, [USER, ADMIN]);
            Allowed(a) ==>
              if projetoId !in db.projetos then r == Failure(ProjetoNotFound)
              else if !MayEdit(a, db.projetos[projetoId]) then r == Failure(CannotEdit)
              else r.Success? && r.data.projeto == db.projetos[projetoId]
    ensures r.Success? ==> JoinSkills(r.data.projeto.habilidadesDesejadas) == r.data.habilidadesDesejadas
  {
    var a := AuthorizeUser(decoded, [USER, ADMIN]);
    if !Allowed(a) {
      return Failure(AccessDenied);
    }
    if projetoId !in db.projetos {
      return Failure(ProjetoNotFound);
    }
    var p := db.projetos[projetoId];
    if a.role == Some(USER) && p.criadoPorId != a.userId.value {
      return Failure(CannotEdit);
    }
    return Success(ProjetoParaEdicao(p, JoinSkills(p.habilidadesDesejadas)));
  }

  /** Editing a saved project without touching the skills text stores the same skills:
      the text the edit form shows parses back to the list the project holds. */
  lemma EditFormKeepsSkills(form: ProjetoForm)
    requires ProjetoIssues(form) == []
    ensures var stored := ParseSkills(SafeParseProjeto(form).value.habilidadesDesejadas);
            ParseSkills(JoinSkills(stored)) == stored
  {
    ParseJoinParseIdempotent(SafeParseProjeto(form).value.habilidadesDesejadas);
  }

  /** `alterarStatusProjetoAction`: the owner or an ADMIN sets any status; nothing else
      changes. */
  method AlterarStatusProjeto(db: Database, decoded: Option<TokenPayload>, projetoId: Id, status: StatusProjeto)
    returns (r: ActionResult<Projeto>)
    requires db.Valid()
    modifies db`projetos
    ensures db.Valid()
    ensures var a := AuthorizeUser(decoded, [USER, ADMIN]);
            !Allowed(a) ==> r == Failure(AccessDenied)
    ensures var a := AuthorizeUser(decoded, [USER, ADMIN]);
            Allowed(a) ==>
              if projetoId !in old(db.projetos) then r == Failure(ProjetoNotFound)
              else if !MayEdit(a, old(db.projetos)[projetoId]) then r == Failure(CannotChangeStatus)
              else r == Success(old(db.projetos)[projetoId].(status := status)) &&
                   db.projetos == old(db.projetos)[projetoId := r.data]
    ensures r.Failure? ==> db.projetos == old(db.projetos)
  {
    var a := AuthorizeUser(decoded, [USER, ADMIN]);
    if !Allowed(a) {
      return Failure(AccessDenied);
    }
    if projetoId !in db.projetos {
      return Failure(ProjetoNotFound);
    }
    var p := db.projetos[projetoId];
    if a.role == Some(USER) && p.criadoPorId != a.userId.value {
      return Failure(CannotChangeStatus);
    }
    var atualizado := p.(status := status);
    db.SetProjeto(projetoId, atualizado);
    return Success(atualizado);
  }

  // ---------------------------------------------------------------------------------
  // Listings
  // ---------------------------------------------------------------------------------

  /** `orderBy: { dataPublicacao: 'desc' }`. */
  function DataPublicacaoKey(db: Database): (key: map<Id, SortKey>)
    reads db
    ensures key.Keys == db.projetos.Keys
  {
    map p | p in db.projetos :: (0, db.projetos[p].dataPublicacao)
  }

  /** The rows of one page and the count of all matching rows. */
  datatype Listing = Listing(items: seq<Id>, total: nat)

  /** `where: { status }`. */
  function RowsWithStatus(db: Database, st: StatusProjeto): (rows: set<Id>)
    reads db
    ensures forall p :: p in rows <==> p in db.projetos && db.projetos[p].status == st
  {
    set p | p in db.projetos && db.projetos[p].status == st
  }

  /** `where: { criadoPorId }`. */
  function RowsOwnedBy(db: Database, userId: Id): (rows: set<Id>)
    reads db
    ensures forall p :: p in rows <==> p in db.projetos && db.projetos[p].criadoPorId == userId
  {
    set p | p in db.projetos && db.projetos[p].criadoPorId == userId
  }

  /** `skip = (page - 1) * limit`. */
  function Skip(page: int, limit: nat): int
  {
    (page - 1) * limit
  }

  method ListProjetos(db: Database, rows: set<Id>, skip: nat, take: nat) returns (l: Listing)
    requires rows <= db.projetos.Keys
    ensures l.total == |rows| && IsPageOf(l.items, rows, DataPublicacaoKey(db), skip, take)
  {
    var items := FindPage(rows, DataPublicacaoKey(db), skip, take);
    l := Listing(items, |rows|);
  }

  /** `fetchAvailableProjetos`: page 1, 9 per page and status ABERTO unless given. The gate
      asks only for an authorized role. A page before the first gives a negative `skip`,
      which Prisma rejects. */
  method FetchAvailableProjetos(db: Database, decoded: Option<TokenPayload>,
                                page: Option<int>, limit: Option<nat>, status: Option<StatusProjeto>)
    returns (r: ActionResult<Listing>)
    ensures var a := AuthorizeUser(decoded, [USER, ADMIN]);
            !a.isAuthorized ==> r == Failure(LoginToBrowse)
    ensures var a := AuthorizeUser(decoded, [USER, ADMIN]);
            var pg := if page.Some? then page.value else 1;
            var lim := if limit.Some? then limit.value else 9;
            var st := if status.Some? then status.value else ABERTO;
            a.isAuthorized ==>
              if Skip(pg, lim) < 0 then r == Failure(BrowseFailed)
              else r.Success? && r.data.total == |RowsWithStatus(db, st)| &&
                   IsPageOf(r.data.items, RowsWithStatus(db, st), DataPublicacaoKey(db), Skip(pg, lim), lim)
  {
    var pg := if page.Some? then page.value else 1;
    var lim := if limit.Some? then limit.value else 9;
    var st := if status.Some? then status.value else ABERTO;
    var skip := Skip(pg, lim);
    var a := AuthorizeUser(decoded, [USER, ADMIN]);
    if !a.isAuthorized {
      return Failure(LoginToBrowse);
    }
    if skip < 0 {
      return Failure(BrowseFailed);
    }
    var l := ListProjetos(db, RowsWithStatus(db, st), skip, lim);
    return Success(l);
  }

  /** `fetchProjetosDoCliente`: the caller's own projects, for a caller with a client
      profile. */
  method FetchProjetosDoCliente(db: Database, decoded: Option<TokenPayload>, page: Option<int>, limit: Option<nat>)
    returns (r: ActionResult<Listing>)
    requires db.Valid()
    ensures var a := AuthorizeUser(decoded, [USER, ADMIN]);
            !Allowed(a) ==> r == Failure(AccessDenied)
    ensures var a := AuthorizeUser(decoded, [USER, ADMIN]);
            var pg := if page.Some? then page.value else 1;
            var lim := if limit.Some? then limit.value else 9;
            Allowed(a) ==>
              if !db.HasCliente(a.userId.value) then r == Failure(NeedsClientToList)
              else if Skip(pg, lim) < 0 then r == Failure(ListFailed)
              else r.Success? && r.data.total == |RowsOwnedBy(db, a.userId.value)| &&
                   IsPageOf(r.data.items, RowsOwnedBy(db, a.userId.value), DataPublicacaoKey(db), Skip(pg, lim), lim)
  {
    var pg := if page.Some? then page.value else 1;
    var lim := if limit.Some? then limit.value else 9;
    var skip := Skip(pg, lim);
    var a := AuthorizeUser(decoded, [USER, ADMIN]);
    if !Allowed(a) {
      return Failure(AccessDenied);
    }
    var perfil := db.FindClienteByUsuario(a.userId.value);
    if perfil.None? {
      return Failure(NeedsClientToList);
    }
    if skip < 0 {
      return Failure(ListFailed);
    }
    var l := ListProjetos(db, RowsOwnedBy(db, a.userId.value), skip, lim);
    return Success(l);
  }
}
