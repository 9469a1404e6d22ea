/** The résumé forms: personal information and the six kinds of sub-record (experience,
    education, skill, language, portfolio project, certification). */
module CurriculoSchema {
  import opened Base
  import opened Generated
  import opened Zod

  const DateFormatMessage: string := "Formato de data inválido (YYYY-MM)."

  /** `/^\d{4}-\d{2}$/`: four digits, a dash, two digits. The month is not range-checked. */
  predicate YearMonthShape(s: string)
  {
    |s| == 7 && AllDigits(s[..4]) && s[4] == '-' && AllDigits(s[5..])
  }

  datatype InformacoesPessoais = InformacoesPessoais(
    tituloProfissional: string,
    resumo: Option<string>,
    linkedinUrl: Option<string>,
    githubUrl: Option<string>,
    portfolioUrl: Option<string>)

  datatype Experiencia = Experiencia(
    id: Option<string>,
    curriculoId: Option<string>,
    cargo: string,
    nomeEmpresa: string,
    dataInicio: string,
    dataFim: Option<string>,
    local: Option<string>,
    descricao: Option<string>,
    trabalhoAtual: bool)

  datatype Formacao = Formacao(
    id: Option<string>,
    curriculoId: Option<string>,
    instituicao: string,
    curso: string,
    dataInicio: string,
    dataFim: Option<string>,
    areaEstudo: Option<string>,
    descricao: Option<string>,
    emCurso: bool)

  datatype Habilidade = Habilidade(id: Option<string>, curriculoId: Option<string>, nome: string)

  datatype Idioma = Idioma(id: Option<string>, curriculoId: Option<string>, nome: string, nivel: string)

  datatype PortfolioProjeto = PortfolioProjeto(
    id: Option<string>,
    curriculoId: Option<string>,
    nome: string,
    descricao: Option<string>,
    projectUrl: Option<string>,
    repositorioUrl: Option<string>,
    dataInicio: Option<string>,
    dataFim: Option<string>,
    tecnologiasUsadas: Option<seq<string>>)

  datatype Certificacao = Certificacao(
    id: Option<string>,
    curriculoId: Option<string>,
    nome: string,
    organizacaoEmissora: string,
    dataEmissao: string,
    credencialId: Option<string>,
    credencialUrl: Option<string>)

  /** The forms' messages. */
  const TituloRequired: string := "Título profissional é obrigatório."
  const LinkedinInvalid: string := "URL do LinkedIn inválida."
  const GithubInvalid: string := "URL do GitHub inválida."
  const PortfolioInvalid: string := "URL do Portfólio inválida."
  const CargoRequired: string := "Cargo é obrigatório."
  const NomeEmpresaRequired: string := "Nome da empresa é obrigatório."
  const DataFimRequiredJob: string := "A data de fim é obrigatória se não for o seu trabalho atual."
  const InstituicaoRequired: string := "Instituição é obrigatória."
  const CursoRequired: string := "Nome do curso é obrigatório."
  const DataFimRequiredCourse: string := "A data de fim é obrigatória se não for em curso."
  const HabilidadeRequired: string := "O nome da habilidade é obrigatório."
  const IdiomaRequired: string := "O nome do idioma é obrigatório."
  const ProjetoNomeRequired: string := "O nome do projeto é obrigatório."
  const ProjectUrlInvalid: string := "URL do Projeto inválida."
  const RepositorioUrlInvalid: string := "URL do Repositório inválida."
  const CertificadoRequired: string := "O nome do certificado é obrigatório."
  const OrganizacaoRequired: string := "A organização é obrigatória."
  const CredencialUrlInvalid: string := "URL da credencial inválida."

  function InformacoesPessoaisIssues(i: InformacoesPessoais, formats: Formats): (issues: seq<string>)
    ensures issues == [] <==>
              |i.tituloProfissional| >= 1 &&
              (i.resumo.None? || |i.resumo.value| <= 2000) &&
              (i.linkedinUrl.None? || i.linkedinUrl.value == "" || formats.isUrl(i.linkedinUrl.value)) &&
              (i.githubUrl.None? || i.githubUrl.value == "" || formats.isUrl(i.githubUrl.value)) &&
              (i.portfolioUrl.None? || i.portfolioUrl.value == "" || formats.isUrl(i.portfolioUrl.value))
  {
    MinLength(i.tituloProfissional, 1, TituloRequired)
    + OptionalOrEmpty(i.resumo, r => |r| <= 2000, TooLong(2000))
    + OptionalOrEmpty(i.linkedinUrl, formats.isUrl, LinkedinInvalid)
    + OptionalOrEmpty(i.githubUrl, formats.isUrl, GithubInvalid)
    + OptionalOrEmpty(i.portfolioUrl, formats.isUrl, PortfolioInvalid)
  }

  /** Fields first, then the refinement: unless this is the current job, an end date is
      required. */
  function ExperienciaIssues(e: Experiencia): (issues: seq<string>)
    ensures issues == [] <==>
              |e.cargo| >= 1 && |e.nomeEmpresa| >= 1 && YearMonthShape(e.dataInicio) &&
              (e.dataFim.None? || e.dataFim.value == "" || YearMonthShape(e.dataFim.value)) &&
              (e.local.None? || |e.local.value| <= 100) &&
              (!e.trabalhoAtual ==> Truthy(e.dataFim))
  {
    MinLength(e.cargo, 1, CargoRequired)
    + MinLength(e.nomeEmpresa, 1, NomeEmpresaRequired)
    + Check(YearMonthShape(e.dataInicio), DateFormatMessage)
    + OptionalOrEmpty(e.dataFim, YearMonthShape, DateFormatMessage)
    + OptionalOrEmpty(e.local, l => |l| <= 100, TooLong(100))
    + Check(e.trabalhoAtual || Truthy(e.dataFim), DataFimRequiredJob)
  }

  function FormacaoIssues(f: Formacao): (issues: seq<string>)
    ensures issues == [] <==>
              |f.instituicao| >= 1 && |f.curso| >= 1 && YearMonthShape(f.dataInicio) &&
              (f.dataFim.None? || f.dataFim.value == "" || YearMonthShape(f.dataFim.value)) &&
              (f.areaEstudo.None? || |f.areaEstudo.value| <= 255) &&
              (!f.emCurso ==> Truthy(f.dataFim))
  {
    MinLength(f.instituicao, 1, InstituicaoRequired)
    + MinLength(f.curso, 1, CursoRequired)
    + Check(YearMonthShape(f.dataInicio), DateFormatMessage)
    + OptionalOrEmpty(f.dataFim, YearMonthShape, DateFormatMessage)
    + OptionalOrEmpty(f.areaEstudo, a => |a| <= 255, TooLong(255))
    + Check(f.emCurso || Truthy(f.dataFim), DataFimRequiredCourse)
  }

  function HabilidadeIssues(h: Habilidade): (issues: seq<string>)
    ensures issues == [] <==> |h.nome| >= 1
  {
    MinLength(h.nome, 1, HabilidadeRequired)
  }

  function IdiomaIssues(i: Idioma): (issues: seq<string>)
    ensures issues == [] <==> |i.nome| >= 1 && i.nivel in {"BASICO", "INTERMEDIARIO", "AVANCADO", "ESPECIALISTA"}
  {
    MinLength(i.nome, 1, IdiomaRequired)
    + Check(ParseNivel(i.nivel).Some?, InvalidEnum)
  }

  /** `descricao` is picked from the marketplace project's generated schema, where it is a
      required string; the schema has no `nome`, so the picked shape starts with `descricao`
      and the extension's fields follow. */
  function PortfolioProjetoIssues(p: PortfolioProjeto, formats: Formats): (issues: seq<string>)
    ensures issues == [] <==>
              p.descricao.Some? &&
              |p.nome| >= 1 &&
              (p.projectUrl.None? || p.projectUrl.value == "" || formats.isUrl(p.projectUrl.value)) &&
              (p.repositorioUrl.None? || p.repositorioUrl.value == "" || formats.isUrl(p.repositorioUrl.value)) &&
              (p.dataInicio.None? || p.dataInicio.value == "" || YearMonthShape(p.dataInicio.value)) &&
              (p.dataFim.None? || p.dataFim.value == "" || YearMonthShape(p.dataFim.value))
  {
    Check(p.descricao.Some?, Required)
    + MinLength(p.nome, 1, ProjetoNomeRequired)
    + OptionalOrEmpty(p.projectUrl, formats.isUrl, ProjectUrlInvalid)
    + OptionalOrEmpty(p.repositorioUrl, formats.isUrl, RepositorioUrlInvalid)
    + OptionalOrEmpty(p.dataInicio, YearMonthShape, DateFormatMessage)
    + OptionalOrEmpty(p.dataFim, YearMonthShape, DateFormatMessage)
  }

  function CertificacaoIssues(c: Certificacao, formats: Formats): (issues: seq<string>)
    ensures issues == [] <==>
              |c.nome| >= 1 && |c.organizacaoEmissora| >= 1 && YearMonthShape(c.dataEmissao) &&
              (c.credencialUrl.None? || c.credencialUrl.value == "" || formats.isUrl(c.credencialUrl.value))
  {
    MinLength(c.nome, 1, CertificadoRequired)
    + MinLength(c.organizacaoEmissora, 1, OrganizacaoRequired)
    + Check(YearMonthShape(c.dataEmissao), DateFormatMessage)
    + OptionalOrEmpty(c.credencialUrl, formats.isUrl, CredencialUrlInvalid)
  }

  /** The shape alone is checked: a thirteenth month passes, a one-digit month does not. */
  lemma YearMonthShapeExamples()
    ensures YearMonthShape("2024-13")
    ensures YearMonthShape("2024-00")
    ensures !YearMonthShape("2024-1")
    ensures !YearMonthShape("24-01")
  {
    assert "2024-13"[..4] == "2024" && "2024-13"[5..] == "13";
    assert "2024-00"[..4] == "2024" && "2024-00"[5..] == "00";
  }

  /** For a past job, acceptance forces a well-formed end date; for a current one the end
      date may be left empty. */
  lemma {:induction false} PastJobNeedsEndDate(e: Experiencia)
    requires ExperienciaIssues(e) == [] && !e.trabalhoAtual
    ensures e.dataFim.Some? && YearMonthShape(e.dataFim.value)
  {
  }

  lemma {:induction false} CurrentJobEndDateOptional(e: Experiencia)
    requires ExperienciaIssues(e) == [] && e.trabalhoAtual
    ensures ExperienciaIssues(e.(dataFim := None)) == []
    ensures ExperienciaIssues(e.(dataFim := Some(""))) == []
  {
  }
}
