/** `projetoFormSchema`: the form a client fills in to create or edit a project. */
module ProjetoSchema {
  import opened Base
  import opened Generated
  import opened Zod

  /** The form as `safeParse` receives it; `remoto` is `undefined` when not sent. */
  datatype ProjetoForm = ProjetoForm(
    id: Option<string>,
    titulo: string,
    descricao: string,
    habilidadesDesejadas: string,
    tipo: string,
    status: Option<string>,
    orcamentoEstimado: Option<string>,
    prazoEstimado: Option<string>,
    remoto: Option<bool>)

  /** The parsed data, with the enums resolved and the default of `remoto` applied. */
  datatype ProjetoData = ProjetoData(
    id: Option<string>,
    titulo: string,
    descricao: string,
    habilidadesDesejadas: string,
    tipo: TipoProjeto,
    status: Option<StatusProjeto>,
    orcamentoEstimado: Option<string>,
    prazoEstimado: Option<string>,
    remoto: bool)

  /** The form's messages. */
  const TituloTooShort: string := "O título do projeto deve ter pelo menos 3 caracteres."
  const DescricaoTooShort: string := "A descrição do projeto deve ter pelo menos 20 caracteres."
  const HabilidadesRequired: string := "Informe ao menos uma habilidade desejada."

  function ProjetoIssues(f: ProjetoForm): (issues: seq<string>)
    ensures issues == [] <==>
              |f.titulo| >= 3 && |f.descricao| >= 20 && |f.habilidadesDesejadas| >= 1 &&
              ParseTipoProjeto(f.tipo).Some? &&
              (f.status.None? || ParseStatusProjeto(f.status.value).Some?)
  {
    MinLength(f.titulo, 3, TituloTooShort)
    + MinLength(f.descricao, 20, DescricaoTooShort)
    + MinLength(f.habilidadesDesejadas, 1, HabilidadesRequired)
    + Check(ParseTipoProjeto(f.tipo).Some?, InvalidEnum)
    + Check(f.status.None? || ParseStatusProjeto(f.status.value).Some?, InvalidEnum)
  }

  /** `projetoFormSchema.safeParse(f)`: the data when the form is valid. Budget and deadline
      are passed through whatever they hold, `''` included; `remoto` defaults to true. */
  function SafeParseProjeto(f: ProjetoForm): (r: Option<ProjetoData>)
    ensures r.Some? <==> ProjetoIssues(f) == []
    ensures r.Some? ==>
              r.value.titulo == f.titulo && r.value.descricao == f.descricao &&
              r.value.habilidadesDesejadas == f.habilidadesDesejadas &&
              TipoProjetoName(r.value.tipo) == f.tipo &&
              (r.value.status.Some? <==> f.status.Some?) &&
              (r.value.status.Some? ==> StatusProjetoName(r.value.status.value) == f.status.value) &&
              r.value.orcamentoEstimado == f.orcamentoEstimado &&
              r.value.prazoEstimado == f.prazoEstimado &&
              r.value.remoto == (f.remoto.None? || f.remoto.value) && r.value.id == f.id
  {
    if ProjetoIssues(f) != [] then None
    else
      Some(ProjetoData(
        f.id, f.titulo, f.descricao, f.habilidadesDesejadas, ParseTipoProjeto(f.tipo).value,
        if f.status.None? then None else Some(ParseStatusProjeto(f.status.value).value),
        f.orcamentoEstimado, f.prazoEstimado,
        if f.remoto.None? then true else f.remoto.value))
  }
}
