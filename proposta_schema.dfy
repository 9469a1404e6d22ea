/** `propostaFormSchema`: the proposal form a freelancer submits. */
module PropostaSchema {
  import opened Base
  import opened Generated
  import opened Zod

  /** The form as `safeParse` receives it. `prazoEstimadoDias` is the number
      `z.coerce.number()` produced; `status` is the raw enum string, when given. */
  datatype PropostaForm = PropostaForm(
    projetoId: string,
    mensagem: string,
    valor: string,
    prazoEstimadoDias: int,
    status: Option<string>)

  /** Number of leading decimal digits of `s`. */
  function LeadingDigits(s: string): (k: nat)
    ensures k <= |s|
    ensures forall i :: 0 <= i < k ==> IsDigit(s[i])
    ensures k < |s| ==> !IsDigit(s[k])
  {
    if s == [] || !IsDigit(s[0]) then 0 else 1 + LeadingDigits(s[1..])
  }

  /** `^\d+(?:[.,]\d{1,2})?$`: digits, then optionally one '.' or ',' and one or two digits. */
  predicate ValorShape(v: string)
  {
    var k := LeadingDigits(v);
    k >= 1 &&
    (k == |v| || ((v[k] == '.' || v[k] == ',') && 2 <= |v| - k <= 3 && AllDigits(v[k + 1..])))
  }

  /** The schema's messages, field by field. */
  const ProjetoRequired: string := "Projeto obrigatório."
  const MensagemTooShort: string := "Descreva sua proposta com pelo menos 10 caracteres."
  const ValorRequired: string := "Informe o valor proposto."
  const ValorFormat: string := "Formato inválido. Use apenas números e até duas casas decimais."
  const PrazoRequired: string := "Informe o prazo em dias."

  /** The issues `propostaFormSchema.safeParse` reports, field by field. */
  function PropostaIssues(p: PropostaForm): (issues: seq<string>)
    ensures issues == [] <==>
              |p.projetoId| >= 1 && |p.mensagem| >= 10 && ValorShape(p.valor) &&
              p.prazoEstimadoDias > 0 &&
              (p.status.None? || ParseStatusProposta(p.status.value).Some?)
  {
    MinLength(p.projetoId, 1, ProjetoRequired)
    + MinLength(p.mensagem, 10, MensagemTooShort)
    + MinLength(p.valor, 1, ValorRequired)
    + Check(ValorShape(p.valor), ValorFormat)
    + Check(p.prazoEstimadoDias > 0, PrazoRequired)
    + Check(p.status.None? || ParseStatusProposta(p.status.value).Some?, InvalidEnum)
  }

  predicate ValidProposta(p: PropostaForm)
  {
    PropostaIssues(p) == []
  }

  /** The empty value reports both the length message and the format message. */
  lemma EmptyValorTwoIssues(p: PropostaForm)
    requires p.valor == "" && |p.projetoId| >= 1 && |p.mensagem| >= 10 && p.prazoEstimadoDias > 0
    requires p.status.None?
    ensures PropostaIssues(p) == [ValorRequired, ValorFormat]
  {
  }

  /** The format check subsumes `min(1)`, and an accepted value has at most two decimals. */
  lemma ValorShapeBounds(v: string)
    requires ValorShape(v)
    ensures |v| >= 1
    ensures forall i :: 0 <= i < |v| && (v[i] == '.' || v[i] == ',') ==> |v| - i - 1 <= 2
  {
  }
}
