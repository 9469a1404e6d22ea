/** `clienteFormSchema`: the client (company) profile form. */
module ClienteSchema {
  import opened Base
  import opened Zod

  datatype ClienteForm = ClienteForm(
    id: string,
    nomeFantasia: string,
    descricao: Option<string>,
    cpfOuCnpj: Option<string>,
    websiteUrl: Option<string>,
    localizacao: Option<string>)

  /** `/^\d{11}$|^\d{14}$/`: the digits of a CPF or of a CNPJ, nothing else. */
  predicate CpfOuCnpjShape(s: string)
  {
    AllDigits(s) && (|s| == 11 || |s| == 14)
  }

  /** The form's messages. */
  const NomeFantasiaRequired: string := "Informe o nome fantasia ou identificação do cliente."
  const DescricaoTooLong: string := "A descrição não pode exceder 2000 caracteres."
  const CpfOuCnpjDigitsOnly: string := "Informe apenas números do CPF ou CNPJ."
  const WebsiteInvalid: string := "URL do website inválida."

  function ClienteIssues(f: ClienteForm, formats: Formats): (issues: seq<string>)
    ensures issues == [] <==>
              |f.nomeFantasia| >= 3 &&
              (f.descricao.None? || |f.descricao.value| <= 2000) &&
              (f.cpfOuCnpj.None? || f.cpfOuCnpj.value == "" || CpfOuCnpjShape(f.cpfOuCnpj.value)) &&
              (f.websiteUrl.None? || f.websiteUrl.value == "" || formats.isUrl(f.websiteUrl.value))
  {
    MinLength(f.nomeFantasia, 3, NomeFantasiaRequired)
    + OptionalOrEmpty(f.descricao, d => |d| <= 2000, DescricaoTooLong)
    + OptionalOrEmpty(f.cpfOuCnpj, CpfOuCnpjShape, CpfOuCnpjDigitsOnly)
    + OptionalOrEmpty(f.websiteUrl, formats.isUrl, WebsiteInvalid)
  }

  /** The tax id is accepted exactly when it is empty or 11 or 14 digits; a formatted CNPJ
      (with dots, slash and dash) is refused, and `localizacao` never matters. */
  lemma {:induction false} CpfOuCnpjAccepted(f: ClienteForm, formats: Formats, c: string)
    requires ClienteIssues(f, formats) == []
    ensures ClienteIssues(f.(cpfOuCnpj := Some(c)), formats) == [] <==> c == "" || CpfOuCnpjShape(c)
    ensures forall l :: ClienteIssues(f.(localizacao := l), formats) == []
  {
  }

  lemma FormattedCnpjRefused()
    ensures !CpfOuCnpjShape("12.345.678/0001-90")
  {
    assert !IsDigit("12.345.678/0001-90"[2]);
  }
}
