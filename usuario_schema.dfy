/** `cadastroSchema` and `loginSchema`: account registration and login. */
module UsuarioSchema {
  import opened Zod

  datatype Cadastro = Cadastro(nome: string, email: string, senha: string, confirmarSenha: string)

  datatype Login = Login(email: string, senha: string)

  /** The forms' messages. */
  const NomeRequired: string := "Nome obrigatório"
  const EmailInvalid: string := "Insira um email válido"
  const SenhaTooShort: string := "A senha deve ter no mínimo 6 caracteres"
  const SenhasDiffer: string := "As senhas não coincidem"
  const LoginEmailInvalid: string := "E-mail inválido"
  const SenhaRequired: string := "Senha obrigatória"

  /** The fields are checked first; the password-confirmation refinement adds its message
      when the two passwords differ. */
  function CadastroIssues(c: Cadastro, formats: Formats): (issues: seq<string>)
    ensures issues == [] <==>
              |c.nome| >= 1 && formats.isEmail(c.email) && |c.senha| >= 6 && c.senha == c.confirmarSenha
  {
    MinLength(c.nome, 1, NomeRequired)
    + Check(formats.isEmail(c.email), EmailInvalid)
    + MinLength(c.senha, 6, SenhaTooShort)
    + Check(c.senha == c.confirmarSenha, SenhasDiffer)
  }

  function LoginIssues(l: Login, formats: Formats): (issues: seq<string>)
    ensures issues == [] <==> formats.isEmail(l.email) && |l.senha| >= 1
  {
    Check(formats.isEmail(l.email), LoginEmailInvalid)
    + MinLength(l.senha, 1, SenhaRequired)
  }

  /** Any registration that passes also passes login with the same email and password. */
  lemma {:induction false} CadastroImpliesLogin(c: Cadastro, formats: Formats)
    requires CadastroIssues(c, formats) == []
    ensures LoginIssues(Login(c.email, c.senha), formats) == []
    ensures LoginIssues(Login(c.email, c.confirmarSenha), formats) == []
  {
  }
}
