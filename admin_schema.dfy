/** The back-office forms: new company with its first user, admin password change, user
    edit and company edit. */
module AdminSchema {
  import opened Base
  import opened Generated
  import opened Zod

  datatype NovaEmpresa = NovaEmpresa(
    nomeEmpresa: string,
    cnpj: Option<string>,
    nomeRecrutador: string,
    emailRecrutador: string,
    senhaRecrutador: string)

  datatype MudarSenhaAdmin = MudarSenhaAdmin(novaSenha: string, confirmarNovaSenha: string)

  datatype EditarUsuario = EditarUsuario(
    id: string,
    nome: string,
    email: string,
    role: string,
    empresaId: Option<string>)

  datatype EmpresaForm = EmpresaForm(
    id: string,
    nome: string,
    descricao: Option<string>,
    cnpj: Option<string>,
    websiteUrl: Option<string>,
    logoUrl: Option<string>)

  /** The forms' messages. */
  const NomeEmpresaRequired: string := "O nome da empresa é obrigatório."
  const NomeRecrutadorRequired: string := "O nome do recrutador é obrigatório."
  const EmailRecrutadorInvalid: string := "O e-mail do recrutador é inválido."
  const SenhaTooShort: string := "A senha deve ter no mínimo 6 caracteres."
  const NovaSenhaTooShort: string := "A nova senha deve ter no mínimo 6 caracteres."
  const SenhasDiffer: string := "As senhas não coincidem."
  const NomeRequired: string := "O nome é obrigatório."
  const EmailInvalid: string := "O e-mail é inválido."
  const EmpresaRequired: string := "A seleção de uma empresa é obrigatória para recrutadores."
  const DescricaoTooLong: string := "A descrição não pode exceder 2000 caracteres."
  const CnpjMaskInvalid: string := "Formato de CNPJ inválido. Use 00.000.000/0000-00."
  const WebsiteInvalid: string := "URL do website inválida."
  const LogoInvalid: string := "URL do logo inválida."

  function NovaEmpresaIssues(n: NovaEmpresa, formats: Formats): (issues: seq<string>)
    ensures issues == [] <==>
              |n.nomeEmpresa| >= 3 && |n.nomeRecrutador| >= 3 &&
              formats.isEmail(n.emailRecrutador) && |n.senhaRecrutador| >= 6
  {
    MinLength(n.nomeEmpresa, 3, NomeEmpresaRequired)
    + MinLength(n.nomeRecrutador, 3, NomeRecrutadorRequired)
    + Check(formats.isEmail(n.emailRecrutador), EmailRecrutadorInvalid)
    + MinLength(n.senhaRecrutador, 6, SenhaTooShort)
  }

  function MudarSenhaIssues(m: MudarSenhaAdmin): (issues: seq<string>)
    ensures issues == [] <==> |m.novaSenha| >= 6 && m.novaSenha == m.confirmarNovaSenha
  {
    MinLength(m.novaSenha, 6, NovaSenhaTooShort)
    + Check(m.novaSenha == m.confirmarNovaSenha, SenhasDiffer)
  }

  /** `editarUsuarioSchema`. The refinement demands an `empresaId` for the role
      `'RECRUTADOR'`, which is not a value of the role enum: zod runs the refinement only once
      the role has parsed, and then it is `USER` or `ADMIN`. */
  function EditarUsuarioIssues(u: EditarUsuario, formats: Formats): (issues: seq<string>)
    ensures issues == [] <==>
              |u.nome| >= 3 && formats.isEmail(u.email) && u.role in {"USER", "ADMIN"}
  {
    var fields :=
      MinLength(u.nome, 3, NomeRequired)
      + Check(formats.isEmail(u.email), EmailInvalid)
      + Check(ParseRole(u.role).Some?, InvalidEnum);
    var refinement :=
      if ParseRole(u.role).Some? && u.role == "RECRUTADOR" && !Truthy(u.empresaId)
      then [EmpresaRequired]
      else [];
    fields + refinement
  }

  /** The `empresaId` refinement never decides anything. */
  lemma {:induction false} EmpresaIdIrrelevant(u: EditarUsuario, formats: Formats, e: Option<string>)
    ensures EditarUsuarioIssues(u, formats) == EditarUsuarioIssues(u.(empresaId := e), formats)
  {
  }

  /** `/^\d{2}\.\d{3}\.\d{3}\/\d{4}-\d{2}$/`, the formatted CNPJ `00.000.000/0000-00`. */
  predicate CnpjMaskShape(s: string)
  {
    |s| == 18 &&
    AllDigits(s[0..2]) && s[2] == '.' && AllDigits(s[3..6]) && s[6] == '.' &&
    AllDigits(s[7..10]) && s[10] == '/' && AllDigits(s[11..15]) && s[15] == '-' &&
    AllDigits(s[16..18])
  }

  function EmpresaIssues(e: EmpresaForm, formats: Formats): (issues: seq<string>)
    ensures issues == [] <==>
              |e.nome| >= 3 &&
              (e.descricao.None? || |e.descricao.value| <= 2000) &&
              (e.cnpj.None? || e.cnpj.value == "" || CnpjMaskShape(e.cnpj.value)) &&
              (e.websiteUrl.None? || e.websiteUrl.value == "" || formats.isUrl(e.websiteUrl.value)) &&
              (e.logoUrl.None? || e.logoUrl.value == "" || formats.isUrl(e.logoUrl.value))
  {
    MinLength(e.nome, 3, NomeEmpresaRequired)
    + OptionalOrEmpty(e.descricao, d => |d| <= 2000, DescricaoTooLong)
    + OptionalOrEmpty(e.cnpj, CnpjMaskShape, CnpjMaskInvalid)
    + OptionalOrEmpty(e.websiteUrl, formats.isUrl, WebsiteInvalid)
    + OptionalOrEmpty(e.logoUrl, formats.isUrl, LogoInvalid)
  }

  /** The two tax-id formats exclude each other: the company-edit form wants the mask, the
      client-profile form wants bare digits. */
  lemma CnpjMaskHasNoBareDigits(s: string)
    requires CnpjMaskShape(s)
    ensures !AllDigits(s)
  {
    assert !IsDigit(s[2]);
  }

  lemma CnpjMaskExample()
    ensures CnpjMaskShape("12.345.678/0001-90")
  {
    var s := "12.345.678/0001-90";
    assert s[0..2] == "12" && s[3..6] == "345" && s[7..10] == "678";
    assert s[11..15] == "0001" && s[16..18] == "90";
  }
}
