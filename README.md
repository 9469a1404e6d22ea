# UniFreela server core in Dafny

UniFreela is a freelance marketplace built with Next.js. Clients (companies) publish
projects, freelancers keep a résumé and send proposals, and an administrator runs a back
office. This project models the server side that decides what each request does:

- the authorization gate that reads the session token (`src/lib/auth.server.ts`);
- the zod form schemas, and the enums and decimal check of the generated schemas;
- the server actions for projects, proposals, the client dashboard and profile, the back
  office and the résumé parts;
- the hook that turns a stored row into a form's initial values.

One Dafny module stands for each source file:

- `Base`, `Zod` and `Generated` hold the shared vocabulary, the zod building blocks and the
  generated enums.
- `AdminSchema`, `ClienteSchema`, `ProjetoSchema`, `PropostaSchema`, `UsuarioSchema` and
  `CurriculoSchema` model the form schemas. A schema is a function from the form to the list
  of issue messages it reports. Its contract says exactly when that list is empty.
- `Auth` holds `getDecodedToken` and `authorizeUser`. The token cookie, `JWT_SECRET` and
  `jwt.verify` are parameters.
- `ProjetoActions`, `PropostaActions`, `ClienteActions`, `AdminActions` and `CurriculoActions`
  model the server actions. Each action returns `{ success, error?, data? }` (`ActionResult`).
- `FormValues` models `useFormInitialValues`.
- `Store` models the database.

Prisma's database is the class `Store.Database`. It has one `map` field per table that the
actions read and write, and `Valid()` holds the foreign keys and unique columns the database
enforces. Every write goes through one of its methods. Each method states the table's new
contents and keeps `Valid()`.

Things outside the server core become parameters:

- `bcrypt.hash` is a function parameter;
- the current time is an integer parameter `now`;
- zod's e-mail and URL checks are the `Formats` parameter;
- a fresh cuid comes from `Base.FreshId`, which only promises an id not yet in use.

`findMany` with `orderBy` is specified by a sort key per row. Every listing returns the
matching rows, each once, in descending key order. `skip`/`take` cut that order
(`Store.IsPageOf`).

## Model

| member | source | states |
|---|---|---|
| Auth.GetDecodedToken | src/lib/auth.server.ts:15-35 | a missing or empty cookie or secret gives null; otherwise the payload exactly when `jwt.verify` accepts the token |
| Auth.AuthorizeUser | src/lib/auth.server.ts:43-57 | a payload without id or role gives `{null, false, null}`; otherwise the caller is authorized iff its role is among the required roles, and id and role are passed on; no required role authorizes nobody |
| Auth.AuthorizedHasIdentity | src/lib/auth.server.ts:50-56 | an authorized caller always carries a non-empty id, so the actions' extra `!userId` test never refuses anyone |
| Auth.AdminGateIsMembership | src/lib/auth.server.ts:54 | with `[ADMIN]` as required roles, `isAuthorized && role === ADMIN` is the same as `isAuthorized` |
| Base.OrNull | src/actions/clienteActions.ts:163-166 | `x \|\| null`: a value exactly when the field is a non-empty string, and then the field itself |
| Base.NatToStringRoundTrip | src/hooks/useFormInitialValues.ts:14-16 | the decimal rendering of a number reads back as that number |
| Zod.Check | src/schemas/curriculoSchema.ts:69-80 | one check reports no issue exactly when its condition holds |
| Zod.MinLength | src/schemas/usuarioSchema.ts:5-7 | `.min(n)` reports no issue exactly when the string has at least n characters |
| Zod.OptionalOrEmpty | src/schemas/clienteSchema.ts:6-17 | `X.optional().or(z.literal(''))` accepts absent, `''` or a value X accepts, and nothing else |
| Generated.ParseRole | src/schemas/generated/index.ts:66 | accepts exactly `USER` and `ADMIN`, and the parsed role's name is the input |
| Generated.ParseStatusProposta | src/schemas/generated/index.ts:82 | accepts exactly the four proposal statuses, naming the input |
| Generated.ParseStatusProjeto | src/schemas/generated/index.ts:78 | accepts exactly the five project statuses, naming the input |
| Generated.ParseTipoProjeto | src/schemas/generated/index.ts:74 | accepts exactly the five project kinds, accented `DIÁRIA` included |
| Generated.ParseNivel | src/schemas/generated/index.ts:70 | accepts exactly the four proficiency levels |
| Generated.StatusPropostaRoundTrip | src/schemas/generated/index.ts:82 | parsing a status's name gives the status back |
| Generated.IsValidDecimalInput | src/schemas/generated/index.ts:11-28 | undefined and null are refused, every number is accepted, a string iff it matches `DECIMAL_STRING_REGEX`, an object iff it has `d`, `e`, `s` and `toFixed` |
| Generated.IsDecimalString | src/schemas/generated/index.ts:18 | the special names are accepted, and an accepted string is non-empty and starts with a minus sign, a point, a digit, `I` or `N` (never `+`) |
| Generated.DecimalStringSpecialCases | src/schemas/generated/index.ts:18 | `Infinity`, `-Infinity` and `NaN` match; `-NaN`, `+1`, `1.` and `''` do not |
| Generated.HexLiteralAccepted | src/schemas/generated/index.ts:18 | a hexadecimal literal with a fraction and a binary exponent matches |
| Generated.BinaryAndOctalLiteralsAccepted | src/schemas/generated/index.ts:18 | a signed binary literal and an octal literal match |
| Generated.ForeignDigitRejected | src/schemas/generated/index.ts:18 | a digit outside the prefix's radix does not match |
| AdminSchema.NovaEmpresaIssues | src/schemas/adminSchema.ts:4-13 | the new-company form passes iff both names have 3+ characters, the e-mail is valid and the password has 6+ |
| AdminSchema.MudarSenhaIssues | src/schemas/adminSchema.ts:15-25 | the password change passes iff the password has 6+ characters and equals its confirmation |
| AdminSchema.EditarUsuarioIssues | src/schemas/adminSchema.ts:27-46 | the user edit passes iff the name has 3+ characters, the e-mail is valid and the role is `USER` or `ADMIN` |
| AdminSchema.EmpresaIdIrrelevant | src/schemas/adminSchema.ts:35-46 | the `RECRUTADOR` refinement never changes the outcome: the issues do not depend on `empresaId` |
| AdminSchema.EmpresaIssues | src/schemas/adminSchema.ts:48-70 | the company edit passes iff the name has 3+ characters, the description at most 2000, and CNPJ, website and logo are empty or well formed |
| AdminSchema.CnpjMaskHasNoBareDigits | src/schemas/adminSchema.ts:56-63 | a CNPJ in the mask `00.000.000/0000-00` is never all digits, so the client-profile form refuses it |
| AdminSchema.CnpjMaskExample | src/schemas/adminSchema.ts:56-63 | `12.345.678/0001-90` matches the mask |
| ClienteSchema.ClienteIssues | src/schemas/clienteSchema.ts:3-18 | the client profile passes iff the name has 3+ characters, the description at most 2000, the tax id is empty or 11 or 14 digits and the website empty or a URL |
| ClienteSchema.CpfOuCnpjAccepted | src/schemas/clienteSchema.ts:11-17 | in a valid form, replacing the tax id keeps it valid exactly when the new id is empty or 11 or 14 digits; the location never matters |
| ClienteSchema.FormattedCnpjRefused | src/schemas/clienteSchema.ts:11-15 | a formatted CNPJ is refused |
| ProjetoSchema.ProjetoIssues | src/schemas/projetoSchema.ts:5-15 | the project form passes iff title 3+, description 20+, skills 1+ characters, a valid kind and, when given, a valid status |
| ProjetoSchema.SafeParseProjeto | src/schemas/projetoSchema.ts:5-15 | data exactly for a valid form, with the enums resolved and `remoto` defaulting to true |
| UsuarioSchema.CadastroIssues | src/schemas/usuarioSchema.ts:3-13 | registration passes iff a name is given, the e-mail is valid, the password has 6+ characters and equals its confirmation |
| UsuarioSchema.LoginIssues | src/schemas/usuarioSchema.ts:22-25 | login passes iff the e-mail is valid and a password is given |
| UsuarioSchema.CadastroImpliesLogin | src/schemas/usuarioSchema.ts:3-25 | every accepted registration's e-mail and password (or confirmation) pass the login form |
| PropostaSchema.LeadingDigits | src/schemas/propostaSchema.ts:8-11 | counts exactly the run of digits that opens the value |
| PropostaSchema.PropostaIssues | src/schemas/propostaSchema.ts:5-14 | the proposal form passes iff a project is named, the message has 10+ characters, the value is digits with at most two decimals after `.` or `,`, the deadline is positive and the status, when given, is valid |
| PropostaSchema.EmptyValorTwoIssues | src/schemas/propostaSchema.ts:8-11 | an empty value reports both the required message and the format message, in that order |
| PropostaSchema.ValorShapeBounds | src/schemas/propostaSchema.ts:8-11 | an accepted value is non-empty and has at most two digits after its separator |
| CurriculoSchema.InformacoesPessoaisIssues | src/schemas/curriculoSchema.ts:15-41 | personal information passes iff the title is given and each URL is empty or valid |
| CurriculoSchema.ExperienciaIssues | src/schemas/curriculoSchema.ts:43-80 | an experience passes iff role, company and a `YYYY-MM` start are given, the end is empty or `YYYY-MM`, and a job that is not current has an end date |
| CurriculoSchema.FormacaoIssues | src/schemas/curriculoSchema.ts:82-116 | an education entry passes iff its fields and date shapes are valid |
| CurriculoSchema.HabilidadeIssues | src/schemas/curriculoSchema.ts:118-124 | a skill passes iff it has a name |
| CurriculoSchema.IdiomaIssues | src/schemas/curriculoSchema.ts:126-132 | a language passes iff it has a name and one of the four levels |
| CurriculoSchema.PortfolioProjetoIssues | src/schemas/curriculoSchema.ts:134-165 | a portfolio project passes iff its description is present (the picked project schema requires it), its name is given, its URLs are empty or valid and its dates are empty or `YYYY-MM` |
| CurriculoSchema.CertificacaoIssues | src/schemas/curriculoSchema.ts:167-193 | a certification passes iff name, issuer and a `YYYY-MM` date are given and the URL is empty or valid |
| CurriculoSchema.YearMonthShapeExamples | src/schemas/curriculoSchema.ts:55 | the date pattern checks the shape only: `2024-13` and `2024-00` pass, `2024-1` and `24-01` do not |
| CurriculoSchema.PastJobNeedsEndDate | src/schemas/curriculoSchema.ts:69-80 | an accepted past job has a well-formed end date |
| CurriculoSchema.CurrentJobEndDateOptional | src/schemas/curriculoSchema.ts:69-80 | an accepted current job stays accepted without an end date |
| ProjetoActions.Split | src/actions/projetoActions.ts:137-140 | cutting at every comma and line break gives at least one piece, and no piece holds a comma or a line break |
| ProjetoActions.TrimStart | src/actions/projetoActions.ts:137-140 | a suffix of the input that does not start with a blank, and everything removed before it is blank |
| ProjetoActions.TrimEnd | src/actions/projetoActions.ts:137-140 | a prefix of the input that does not end with a blank, and everything removed after it is blank |
| ProjetoActions.ParseSkills | src/actions/projetoActions.ts:137-140 | every stored skill is non-empty, trimmed, and free of commas and line breaks |
| ProjetoActions.JoinSkills | src/actions/projetoActions.ts:223 | the edit form's text parses back to exactly the stored list of skills |
| ProjetoActions.ParsedSkillsAreTrimmed | src/actions/projetoActions.ts:137-140 | trimming a stored skill again changes nothing |
| ProjetoActions.SplitAtSeparator | src/actions/projetoActions.ts:137-140 | a comma cuts the text into two independently split halves |
| ProjetoActions.LeadingBlankIgnored | src/actions/projetoActions.ts:137-140 | a blank in front of the text does not change the stored skills |
| ProjetoActions.ParseAtSeparator | src/actions/projetoActions.ts:137-140 | parsing distributes over a comma |
| ProjetoActions.SingleSkillParses | src/actions/projetoActions.ts:137-140 | one skill on its own parses to itself |
| ProjetoActions.EmptyTextParsesToNothing | src/actions/projetoActions.ts:137-140 | the empty text stores no skill |
| ProjetoActions.ParseJoinRoundTrip | src/actions/projetoActions.ts:137-140 | joining skills with `", "` and parsing the text gives the same skills back |
| ProjetoActions.ParseJoinParseIdempotent | src/actions/projetoActions.ts:137-140 | saving the text the edit form shows stores the list already stored |
| ProjetoActions.LoneCommaParsesToNothing | src/actions/projetoActions.ts:137-140 | the schema accepts `","`, which stores no skill |
| ProjetoActions.ProjetoFromForm | src/actions/projetoActions.ts:161-191 | the written columns: the form's title, description, kind and `remoto`, the parsed skills, budget and deadline as `|| null` gives them, and the given status, owner and publication time |
| ProjetoActions.UpdateProjeto | src/actions/projetoActions.ts:152-177 | a missing project and a caller who may not edit it are refused without change; otherwise only that row is rewritten from the form, keeping its owner and publication date |
| ProjetoActions.CreateProjeto | src/actions/projetoActions.ts:179-191 | a new row under a fresh id, owned by the caller, `ABERTO` unless the form sets a status |
| ProjetoActions.SaveProjetoRefusal | src/actions/projetoActions.ts:127-149 | the refusals before the database write, in the action's order: access denied, the joined issue messages, then a USER without a client profile; an ADMIN needs no profile |
| ProjetoActions.MayEdit | src/actions/projetoActions.ts:215-217 | an ADMIN may change any project, a USER exactly the projects it created |
| ProjetoActions.SaveProjeto | src/actions/projetoActions.ts:124-200 | a refusal changes nothing and returns its message; otherwise update when the form has an id, create when not |
| ProjetoActions.FetchProjetoParaEdicao | src/actions/projetoActions.ts:202-230 | the project for a caller who may edit it, with the skills joined back into one text |
| ProjetoActions.EditFormKeepsSkills | src/actions/projetoActions.ts:137-140 | resubmitting the edit form unchanged stores the same skills |
| ProjetoActions.AlterarStatusProjeto | src/actions/projetoActions.ts:232-262 | the owner or an admin sets the status of an existing project and nothing else changes; anyone else, or a missing project, changes nothing |
| ProjetoActions.DataPublicacaoKey | src/actions/projetoActions.ts:67 | one sort key per project, its publication time |
| ProjetoActions.RowsWithStatus | src/actions/projetoActions.ts:60-62 | exactly the projects with the status |
| ProjetoActions.RowsOwnedBy | src/actions/projetoActions.ts:108 | exactly the projects the user created |
| ProjetoActions.ListProjetos | src/actions/projetoActions.ts:60-73 | the total counts all matching rows and the items are that page of them, newest first |
| ProjetoActions.FetchAvailableProjetos | src/actions/projetoActions.ts:50-80 | gated callers get the page (default 1, 9 per page) of projects with the status (default `ABERTO`) and their total |
| ProjetoActions.FetchProjetosDoCliente | src/actions/projetoActions.ts:82-122 | a caller with a client profile gets a page of their own projects; any caller without one, ADMIN included, is refused |
| PropostaActions.NewProposta | src/actions/propostaActions.ts:106-115 | the caller is the freelancer, the form's project, text and term are kept, the status is the given one or `ENVIADA`, and the value is the form's text with its first comma replaced, a comma-free decimal string when the form accepted it |
| PropostaActions.NormalizeValor | src/actions/propostaActions.ts:106-115 | `replace(',', '.')`: the same length, unchanged without a comma, the first comma alone becomes a point |
| PropostaActions.NormalizedValorIsDecimal | src/actions/propostaActions.ts:106-115 | every value the form accepts becomes, after the replacement, a comma-free string `Prisma.Decimal` accepts |
| PropostaActions.InitialStatus | src/actions/propostaActions.ts:106-115 | the form's status when given, `ENVIADA` otherwise |
| PropostaActions.EnvioRefusal | src/actions/propostaActions.ts:79-104 | the refusals in order: access denied, the joined issues, no résumé, an existing proposal on the project; none exactly when all pass |
| PropostaActions.EnviarProposta | src/actions/propostaActions.ts:76-132 | a refusal changes nothing; otherwise exactly one new proposal, under a fresh id, from the normalized form; a missing project fails without change |
| PropostaActions.SendTwice | src/actions/propostaActions.ts:102-128 | once a send has stored the proposal, the same send is refused as already sent |
| PropostaActions.AtualizarStatusProposta | src/actions/propostaActions.ts:190-224 | only the owner of the proposal's project changes its status, and nothing else changes |
| PropostaActions.CancelarProposta | src/actions/propostaActions.ts:226-260 | a USER deletes their own proposal while it is sent or in negotiation; otherwise nothing changes |
| PropostaActions.StatusCondition | src/actions/propostaActions.ts:43-49 | a status condition exactly when a status other than `TODOS` is given |
| PropostaActions.CreatedAtKey | src/actions/propostaActions.ts:63 | one sort key per proposal, its creation time |
| PropostaActions.FindPropostas | src/actions/propostaActions.ts:43-63 | exactly the proposals matching the where clause, each once, newest first |
| PropostaActions.FetchUserPropostas | src/actions/propostaActions.ts:30-74 | an allowed caller gets their own proposals, filtered by status, newest first |
| PropostaActions.FetchPropostasDoCliente | src/actions/propostaActions.ts:134-188 | the proposals on the caller's projects, filtered by project and status, newest first |
| PropostaActions.FetchPropostaDetalhes | src/actions/propostaActions.ts:262-308 | the proposal for its author or the project's owner; "not found" for anyone else |
| ClienteActions.ProjetosAbertos | src/actions/clienteActions.ts:75-95 | exactly the open projects in scope |
| ClienteActions.PropostasRecebidas | src/actions/clienteActions.ts:75-95 | exactly the proposals on projects in scope |
| ClienteActions.PropostasComStatus | src/actions/clienteActions.ts:75-95 | exactly the in-scope proposals with the status |
| ClienteActions.FetchDashboardData | src/actions/clienteActions.ts:37-115 | an admin gets platform-wide counters, a USER the counters of their own projects and their profile's name |
| ClienteActions.CountersConsistent | src/actions/clienteActions.ts:75-95 | the status counters never exceed the received count, and a client's counters never exceed the platform's |
| ClienteActions.ProposalCountedForItsOwner | src/actions/clienteActions.ts:82-95 | every proposal counts for the owner of its project |
| ClienteActions.PerfilPadrao | src/actions/clienteActions.ts:128-135 | the default profile names the user and leaves every optional field null |
| ClienteActions.FetchClientePerfil | src/actions/clienteActions.ts:117-142 | get or create: the caller's profile, created with the defaults when missing |
| ClienteActions.FetchClientePerfilTwice | src/actions/clienteActions.ts:117-142 | loading again returns the same profile and creates nothing more |
| ClienteActions.Apply | src/actions/clienteActions.ts:158-175 | the written columns: the form's name, and each optional field or null when empty |
| ClienteActions.ApplyIdempotent | src/actions/clienteActions.ts:158-175 | applying the same form twice changes nothing more |
| ClienteActions.UpdateCliente | src/actions/clienteActions.ts:144-184 | an upsert on the caller's id: refused without change when not allowed or invalid; otherwise the caller's profile holds the form's columns |
| ClienteActions.SavedProfileTwice | src/actions/clienteActions.ts:158-175 | with one profile per user, a second identical save returns the same profile and leaves the table as the first did |
| ClienteActions.UpdateClienteTwice | src/actions/clienteActions.ts:144-184 | saving the same form again returns the same profile, only that profile changed and it holds the form |
| AdminActions.CriarEmpresaRefusal | src/actions/adminActions.ts:36-60 | the refusals in order: not an admin, an invalid form, an e-mail in use |
| AdminActions.CriarEmpresaComRecrutador | src/actions/adminActions.ts:33-92 | as written, every call fails: with the refusal's message, or with the server error the missing `tx.susuario` raises |
| AdminActions.NovoUsuario | src/actions/adminActions.ts:62-75 | the recruiter account: the form's name and e-mail, the hashed password, role USER, active |
| AdminActions.NovoCliente | src/actions/adminActions.ts:76-82 | the company profile linked to the account: the company name, the CNPJ as `cnpj || null` gives it, and every other optional column null |
| AdminActions.CriarEmpresaComRecrutadorCorrigido | src/actions/adminActions.ts:33-92 | with `tx.usuario`: the same refusals without change; otherwise exactly one new account and one new profile linked to it |
| AdminActions.InsertEmpresa | src/actions/adminActions.ts:64-83 | the transaction's two inserts under fresh ids, the profile pointing at the new account |
| AdminActions.LowerAll | src/actions/adminActions.ts:109-123 | the case-folded string, character by character |
| AdminActions.LowerIdempotent | src/actions/adminActions.ts:109-123 | folding twice is folding once |
| AdminActions.MatchesAtIgnoresCase | src/actions/adminActions.ts:109-123 | folding both sides first finds the same occurrences |
| AdminActions.ContainsIgnoresCase | src/actions/adminActions.ts:109-123 | the insensitive search does not depend on the case of name, e-mail or term |
| AdminActions.UsersMatching | src/actions/adminActions.ts:109-121 | exactly the users whose name or e-mail contains the term |
| AdminActions.TakeAny | src/actions/adminActions.ts:122 | `take` without order: distinct matching rows, as many as `take` allows |
| AdminActions.ProcurarUsuarios | src/actions/adminActions.ts:94-129 | a term under two characters finds nothing; otherwise up to 10 distinct matching users |
| AdminActions.GetAdminDashboardStats | src/actions/adminActions.ts:202-216 | for an admin, the number of users and of client profiles |
| AdminActions.ToEmpresaItem | src/actions/adminActions.ts:257-262 | one listing item with the profile's id, name, tax id and creation time |
| AdminActions.ToEmpresaItems | src/actions/adminActions.ts:257-262 | one item per row, in the rows' order |
| AdminActions.ClienteCreatedAtKey | src/actions/adminActions.ts:249 | one sort key per profile, its creation time |
| AdminActions.ListarTodasEmpresas | src/actions/adminActions.ts:219-269 | ten per page, newest first, optionally filtered by name or tax id; a negative skip is a server error |
| AdminActions.AtivoCriadoEmKey | src/actions/adminActions.ts:319 | active users sort before inactive ones |
| AdminActions.ListarTodosUsuarios | src/actions/adminActions.ts:271-331 | ten per page of the users matching term, role and status, active first then newest |
| AdminActions.AdminMudarSenhaUsuario | src/actions/adminActions.ts:131-158 | an empty id or a short password is refused; otherwise only that user's password becomes the hash |
| AdminActions.AdminEditarUsuario | src/actions/adminActions.ts:161-199 | an invalid form, a missing user or an e-mail held by another user changes nothing; otherwise name, e-mail and role are rewritten |
| AdminActions.AdminToggleUsuarioAtivo | src/actions/adminActions.ts:333-374 | an admin cannot switch their own account; otherwise an existing user's `ativo` flips and the new value is returned |
| AdminActions.ToggleTwice | src/actions/adminActions.ts:362-366 | switching a user twice restores the table |
| AdminActions.AdminEditarEmpresa | src/actions/adminActions.ts:377-408 | an invalid form or a missing profile changes nothing; otherwise name and tax id (empty as null) are rewritten |
| CurriculoActions.IssuesMessage | src/actions/curriculoParcialActions.ts:46-53 | never empty; it opens with the first issue's message |
| CurriculoActions.ProtectedGate | src/actions/curriculoParcialActions.ts:31-71 | no cookie, then an unverifiable token, then invalid input refuse with their messages; it proceeds exactly when all pass, with the token's id |
| CurriculoActions.GateIgnoresRole | src/actions/curriculoParcialActions.ts:31-71 | the gate's outcome does not depend on the token's role |
| CurriculoActions.CurriculoPadrao | src/actions/curriculoParcialActions.ts:79-81 | the created résumé belongs to the user, is titled `Meu Currículo`, and has every optional column null |
| CurriculoActions.GetCurriculoId | src/actions/curriculoParcialActions.ts:73-83 | the user's résumé, created when there is none; a missing id or user fails without change |
| CurriculoActions.GetCurriculoIdTwice | src/actions/curriculoParcialActions.ts:73-83 | asking twice gives the same answer and creates at most one résumé |
| CurriculoActions.ApplyInformacoes | src/actions/curriculoParcialActions.ts:87-93 | the written columns: the title, and each optional field or null when empty |
| CurriculoActions.SaveInformacoesPessoais | src/actions/curriculoParcialActions.ts:86-103 | an upsert on the user's id: the existing résumé, or a new one, holds the form's columns |
| CurriculoActions.SaveInformacoesPessoaisAction | src/actions/curriculoParcialActions.ts:104-107 | a refused gate changes nothing; once it passes, the logic's whole outcome (update of the caller's résumé, creation of one, or failure with nothing changed), and no other user's résumé changes |
| CurriculoActions.MovedTo | src/actions/curriculoParcialActions.ts:111-116 | the spread input's `curriculoId` is written on update, except by the portfolio logic |
| CurriculoActions.MonthDate | src/actions/curriculoParcialActions.ts:115 | `new Date('YYYY-MM')` is valid exactly for months 01 to 12, and keeps year and month |
| CurriculoActions.NullableDate | src/actions/curriculoParcialActions.ts:116 | an empty date is null; otherwise the date, or invalid |
| CurriculoActions.CamposOf | src/actions/curriculoParcialActions.ts:110-238 | the columns of the row, in the input's own table, or none when a date is invalid |
| CurriculoActions.ThirteenthMonthReachesDatabase | src/actions/curriculoParcialActions.ts:115 | `2024-13` passes the schema and fails at the database step |
| CurriculoActions.ColumnsIffDatesOk | src/actions/curriculoParcialActions.ts:110-238 | the columns exist exactly when every date is a real month |
| CurriculoActions.Overlay | src/actions/curriculoParcialActions.ts:111-123 | an update keeps the row in its own table |
| CurriculoActions.UpsertSecao | src/actions/curriculoParcialActions.ts:119-123 | as written: an existing id is updated whoever owns it; any other id creates a fresh row in the caller's résumé |
| CurriculoActions.SaveSecao | src/actions/curriculoParcialActions.ts:110-124 | the caller's résumé, created exactly when the caller has none and exists, then the as-written upsert; it succeeds exactly when the caller has or can get a résumé, every date is a real month, and an updated row's target résumé exists |
| CurriculoActions.SaveSecaoActionAsWritten | src/actions/curriculoParcialActions.ts:129 | as written: a refused gate changes nothing; once it passes, the caller's default résumé is added exactly when missing and creatable, the save succeeds exactly when the caller has or can get a résumé, the dates are real months and an updated row's target exists, a failure leaves the sub-records alone, and a success is the as-written upsert into the caller's résumé |
| CurriculoActions.SaveSecaoAction | src/actions/curriculoParcialActions.ts:129 | with the owner-scoped upsert (see Findings): a refused gate changes nothing; once it passes, the caller's default résumé is added exactly when missing and creatable, the save succeeds exactly when the caller has or can get a résumé and the dates are real months, a failure leaves the sub-records alone, and no row of another user's résumé changes |
| CurriculoActions.ForeignRowOverwritten | src/actions/curriculoParcialActions.ts:119-123 | a caller sending another résumé's row id rewrites that row |
| CurriculoActions.ForeignRowKept | src/actions/curriculoParcialActions.ts:125-128 | with owner scoping, the other résumé's row is kept and a new row is created for the caller |
| CurriculoActions.UpsertSecaoOwned | src/actions/curriculoParcialActions.ts:119-128 | owner-scoped upsert: rows of other résumés are kept and every new row is the caller's |
| CurriculoActions.OwnedUpsertFrame | src/actions/curriculoParcialActions.ts:125-128 | the owner-scoped upsert touches only the caller's résumé |
| CurriculoActions.SaveSecaoOwned | src/actions/curriculoParcialActions.ts:110-128 | the caller's default résumé is added exactly when missing and creatable, the save succeeds exactly when the caller has or can get a résumé and the dates are real months, a failure leaves the sub-records alone, and no row of another user's résumé changes |
| CurriculoActions.DeleteSecao | src/actions/curriculoParcialActions.ts:125-128 | the row is deleted exactly when it is in the caller's résumé; otherwise nothing changes |
| CurriculoActions.DeleteSecaoAction | src/actions/curriculoParcialActions.ts:125-130 | a refused gate changes nothing; otherwise the owner-scoped delete |
| FormValues.Pad2 | src/hooks/useFormInitialValues.ts:15 | `padStart(2, '0')`: a two-character result ending in the input, zeros in front |
| FormValues.FormatValue | src/hooks/useFormInitialValues.ts:6-19 | null becomes `''`, a date `YYYY-MM`, anything else is kept; no null or date is left |
| FormValues.FormatObjectForForm | src/hooks/useFormInitialValues.ts:5-22 | the same keys, each value formatted |
| FormValues.FormatIdempotent | src/hooks/useFormInitialValues.ts:5-22 | formatting formatted values changes nothing |
| FormValues.FormInitialValues | src/hooks/useFormInitialValues.ts:24-38 | without data, the defaults; with data, the keys of both, each data field formatted and overriding its default, every other default kept |
| FormValues.MonthRoundTrip | src/hooks/useFormInitialValues.ts:10-16 | a stored month shown in the form reads back as the same string |
| FormValues.DateRoundTrip | src/hooks/useFormInitialValues.ts:10-16 | a month shown in the form is a real month that saves back as the same date |
| Store.OrderByDesc | src/actions/propostaActions.ts:63 | `orderBy desc`: every row once, sorted by its key |
| Store.Page | src/actions/adminActions.ts:228-229 | `skip`/`take`: up to `take` consecutive rows from `skip`, none past the end |
| Store.FindPage | src/actions/adminActions.ts:240-254 | a page of some descending order of exactly the matching rows |
| Store.PagesTile | src/actions/projetoActions.ts:52 | consecutive pages of one size tile the ordered result |
| Store.Database.FindClienteByUsuario | src/actions/projetoActions.ts:42-48 | the user's one profile, when there is one |
| Store.Database.FindCurriculoByUsuario | src/actions/curriculoParcialActions.ts:74-77 | the user's one résumé, when there is one |
| Store.Database.FindUsuarioByEmail | src/actions/adminActions.ts:55-60 | a user with the e-mail, exactly when one exists |
| Store.Database.CreateUsuario | src/actions/adminActions.ts:65-73 | a new row under a fresh id |
| Store.Database.SetUsuario | src/actions/adminActions.ts:148-152 | the row rewritten, the e-mails still unique |
| Store.Database.CreateCliente | src/actions/clienteActions.ts:128-135 | a new profile under a fresh id |
| Store.Database.SetCliente | src/actions/clienteActions.ts:158-175 | the profile rewritten |
| Store.Database.CreateCurriculo | src/actions/curriculoParcialActions.ts:79-81 | a new résumé under a fresh id |
| Store.Database.SetCurriculo | src/actions/curriculoParcialActions.ts:95-102 | the résumé rewritten |
| Store.Database.CreateProjeto | src/actions/projetoActions.ts:179-191 | a new project under a fresh id |
| Store.Database.SetProjeto | src/actions/projetoActions.ts:161-173 | the project rewritten |
| Store.Database.CreateProposta | src/actions/propostaActions.ts:106-115 | a new proposal under a fresh id |
| Store.Database.SetProposta | src/actions/propostaActions.ts:213-216 | the proposal rewritten |
| Store.Database.DeleteProposta | src/actions/propostaActions.ts:253 | exactly that proposal removed |
| Store.Database.FreshSecaoKey | src/actions/curriculoParcialActions.ts:119-123 | a key of the kind that no sub-record uses |
| Store.Database.SetSecao | src/actions/curriculoParcialActions.ts:119-123 | the sub-record written |
| Store.Database.DeleteSecao | src/actions/curriculoParcialActions.ts:125-128 | exactly that sub-record removed |

## Left out

- String lengths count characters, while JavaScript counts UTF-16 code units; they differ only outside the Basic Multilingual Plane.
- `z.coerce.number()` on the proposal deadline: the form carries the number after coercion. NaN and non-integer deadlines are not modelled.
- `Prisma.Decimal` arithmetic and rounding are not modelled. The proposal value is stored as the decimal text it is built from.
- A non-integer page number is not modelled. Pages are integers.
- ProjetoActions.FetchAvailableProjetos: `limit` is a natural number. A negative or NaN limit, which the projects page can pass from the URL through `parseInt`, reaches Prisma's `take` in the source, and what Prisma then does (a backwards page or a validation error) is not modelled.
- ProjetoActions.FetchProjetosDoCliente: the same holds for its `limit`, which is a natural number in the model.
- ProjetoActions.Trim: `Base.IsSpace` covers only space, tab, newline, carriage return, form feed, vertical tab, no-break space, U+2028, U+2029 and U+FEFF. JavaScript's `trim` also removes U+1680, U+2000 to U+200A, U+202F, U+205F and U+3000, which the model's `Trim` keeps.
- Prisma's error messages are not modelled. Every exception the database raises reaches the caller as one placeholder message, `CurriculoActions.DatabaseError`.
- `jwt.verify`, `bcrypt.hash`, zod's e-mail and URL checks, the clock and cuid generation are parameters. Their internals are not modelled.
- zod's default messages are placeholders. Only the app's own messages are written out.
- AdminActions.ContainsIgnoresCase: `mode: 'insensitive'` is modelled as ASCII case folding only, because PostgreSQL's folding of other letters depends on the collation.
- The UI (pages and components), the API routes, JWT signing at login, `revalidatePath`, logging and `console` output are not part of this model.
- Concurrency and transaction isolation are not modelled. Each action runs alone.
- The order among rows with equal sort keys is left open. Prisma gives no order there either.
- The shapes `include` and `select` give to the returned objects are not modelled. The result lists row ids, and each item is the row's stored columns.
- Dates are kept as year and month. Days, times and time zones are not modelled, because the forms only ever send `YYYY-MM`.
- ClienteActions.FetchDashboardData: the catch path is not modelled, because the counts cannot throw in the model.
- CurriculoSchema.ExperienciaIssues and CurriculoSchema.FormacaoIssues follow the résumé forms' declared fields (`nomeEmpresa`, `trabalhoAtual`, `emCurso`). This assumes the generated file is regenerated from the current database schema and then patched by `scripts/fix-zod-cuid.js`, because `z.cuid()` does not exist in zod 3. Against the generated file as it stands (`src/schemas/generated/index.ts:205-230`), the experience form would also require `empresa` and `atual` and drop `trabalhoAtual`, and the education form would also require `concluido` and drop `emCurso`.
- `src/actions/freelancerActions.ts` is not part of this model.
- ProjetoActions.FetchProjetosDoCliente: the extra user lookup of `ensureClientePerfil` is folded into the profile lookup.
- The sort keys order rows by one integer per field. A `createdAt` is modelled as the integer `now` given at creation.

## Findings

| source | as written | input that shows it | evidently intended | confidence | as-written member | corrected member |
|---|---|---|---|---|---|---|
| src/actions/adminActions.ts:65 | the transaction calls `tx.susuario.create`, and the transaction client has no such model, so the call throws and every company creation ends in the generic error | any admin call with a valid form and an unused e-mail | `tx.usuario.create`: one new recruiter account and one client profile linked to it | not executed | AdminActions.CriarEmpresaComRecrutador | AdminActions.CriarEmpresaComRecrutadorCorrigido |
| src/actions/curriculoParcialActions.ts:119-123 | each save upserts with `where: { id: id \|\| '' }` and no owner condition, so a row id from another user's résumé is updated in place. The same holds for the five siblings at lines 141-145, 158-162, 175-179, 201-205 and 227-231 | a caller whose résumé is `cv-a` saves a skill with `id: 'h1'` while `h1` belongs to résumé `cv-b`: the row is rewritten and stays in `cv-b` (ForeignRowOverwritten; with the correction, ForeignRowKept) | `where: { id: id \|\| '', curriculo: { usuarioId } }`, as the deletes at lines 125-128 already do | not executed | CurriculoActions.UpsertSecao | CurriculoActions.UpsertSecaoOwned |
