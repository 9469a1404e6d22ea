/** The enums of the Prisma schema as the generated zod file lists them, and the
    decimal-literal recognizer `DECIMAL_STRING_REGEX` with `isValidDecimalInput`. */
module Generated {
  import opened Base

  datatype Role = USER | ADMIN

  datatype StatusProposta = ENVIADA | EM_NEGOCIACAO | ACEITA | RECUSADA

  datatype StatusProjeto = RASCUNHO | ABERTO | EM_ANDAMENTO | CONCLUIDO | CANCELADO

  datatype TipoProjeto = PROJETO_FIXO | DIARIA | HORA | CONSULTORIA | LONGO_PRAZO

  datatype NivelProficiencia = BASICO | INTERMEDIARIO | AVANCADO | ESPECIALISTA

  function RoleName(r: Role): string
  {
    match r
    case USER => "USER"
    case ADMIN => "ADMIN"
  }

  /** `z.enum(['USER','ADMIN'])` / `z.nativeEnum(RoleUsuario)`. */
  function ParseRole(s: string): (r: Option<Role>)
    ensures r.Some? <==> s in {"USER", "ADMIN"}
    ensures r.Some? ==> RoleName(r.value) == s
  {
    if s == "USER" then Some(USER)
    else if s == "ADMIN" then Some(ADMIN)
    else None
  }

  function StatusPropostaName(st: StatusProposta): string
  {
    match st
    case ENVIADA => "ENVIADA"
    case EM_NEGOCIACAO => "EM_NEGOCIACAO"
    case ACEITA => "ACEITA"
    case RECUSADA => "RECUSADA"
  }

  /** `StatusPropostaSchema`: exactly the four proposal statuses. */
  function ParseStatusProposta(s: string): (r: Option<StatusProposta>)
    ensures r.Some? <==> s in {"ENVIADA", "EM_NEGOCIACAO", "ACEITA", "RECUSADA"}
    ensures r.Some? ==> StatusPropostaName(r.value) == s
  {
    if s == "ENVIADA" then Some(ENVIADA)
    else if s == "EM_NEGOCIACAO" then Some(EM_NEGOCIACAO)
    else if s == "ACEITA" then Some(ACEITA)
    else if s == "RECUSADA" then Some(RECUSADA)
    else None
  }

  function StatusProjetoName(st: StatusProjeto): string
  {
    match st
    case RASCUNHO => "RASCUNHO"
    case ABERTO => "ABERTO"
    case EM_ANDAMENTO => "EM_ANDAMENTO"
    case CONCLUIDO => "CONCLUIDO"
    case CANCELADO => "CANCELADO"
  }

  /** `StatusProjetoSchema`. */
  function ParseStatusProjeto(s: string): (r: Option<StatusProjeto>)
    ensures r.Some? <==> s in {"RASCUNHO", "ABERTO", "EM_ANDAMENTO", "CONCLUIDO", "CANCELADO"}
    ensures r.Some? ==> StatusProjetoName(r.value) == s
  {
    if s == "RASCUNHO" then Some(RASCUNHO)
    else if s == "ABERTO" then Some(ABERTO)
    else if s == "EM_ANDAMENTO" then Some(EM_ANDAMENTO)
    else if s == "CONCLUIDO" then Some(CONCLUIDO)
    else if s == "CANCELADO" then Some(CANCELADO)
    else None
  }

  function TipoProjetoName(t: TipoProjeto): string
  {
    match t
    case PROJETO_FIXO => "PROJETO_FIXO"
    case DIARIA => "DIÁRIA"
    case HORA => "HORA"
    case CONSULTORIA => "CONSULTORIA"
    case LONGO_PRAZO => "LONGO_PRAZO"
  }

  /** `TipoProjetoSchema` (note the accented `DIÁRIA`). */
  function ParseTipoProjeto(s: string): (r: Option<TipoProjeto>)
    ensures r.Some? <==> s in {"PROJETO_FIXO", "DIÁRIA", "HORA", "CONSULTORIA", "LONGO_PRAZO"}
    ensures r.Some? ==> TipoProjetoName(r.value) == s
  {
    if s == "PROJETO_FIXO" then Some(PROJETO_FIXO)
    else if s == "DIÁRIA" then Some(DIARIA)
    else if s == "HORA" then Some(HORA)
    else if s == "CONSULTORIA" then Some(CONSULTORIA)
    else if s == "LONGO_PRAZO" then Some(LONGO_PRAZO)
    else None
  }

  function NivelName(n: NivelProficiencia): string
  {
    match n
    case BASICO => "BASICO"
    case INTERMEDIARIO => "INTERMEDIARIO"
    case AVANCADO => "AVANCADO"
    case ESPECIALISTA => "ESPECIALISTA"
  }

  /** `NivelProficienciaSchema`. */
  function ParseNivel(s: string): (r: Option<NivelProficiencia>)
    ensures r.Some? <==> s in {"BASICO", "INTERMEDIARIO", "AVANCADO", "ESPECIALISTA"}
    ensures r.Some? ==> NivelName(r.value) == s
  {
    if s == "BASICO" then Some(BASICO)
    else if s == "INTERMEDIARIO" then Some(INTERMEDIARIO)
    else if s == "AVANCADO" then Some(AVANCADO)
    else if s == "ESPECIALISTA" then Some(ESPECIALISTA)
    else None
  }

  /** The names are pairwise distinct, so the parsers invert them. */
  lemma StatusPropostaRoundTrip(st: StatusProposta)
    ensures ParseStatusProposta(StatusPropostaName(st)) == Some(st)
  {
  }

  // ----------------------------------------------------------------------------------
  // DECIMAL_STRING_REGEX, written as a recognizer. The regex is
  //   ^(?:-?Infinity|NaN|-?(?:BIN|OCT|HEX|DEC))$
  //   BIN = 0[bB][01]+(?:\.[01]+)?(?:[pP][-+]?\d+)?
  //   OCT = 0[oO][0-7]+(?:\.[0-7]+)?(?:[pP][-+]?\d+)?
  //   HEX = 0[xX][\da-fA-F]+(?:\.[\da-fA-F]+)?(?:[pP][-+]?\d+)?
  //   DEC = (?:\d+|\d*\.\d+)(?:[eE][-+]?\d+)?
  // Every repeated class is followed by a character outside it ('.', the exponent marker
  // or the end), so taking the longest run of digits never loses a match.
  // ----------------------------------------------------------------------------------

  predicate IsBinDigit(c: char) { c == '0' || c == '1' }

  predicate IsOctDigit(c: char) { '0' <= c <= '7' }

  predicate IsHexDigit(c: char) { IsDigit(c) || 'a' <= c <= 'f' || 'A' <= c <= 'F' }

  predicate IsBinaryExponentMarker(c: char) { c == 'p' || c == 'P' }

  predicate IsDecimalExponentMarker(c: char) { c == 'e' || c == 'E' }

  /** `[-+]?\d+` */
  predicate SignedDigits(s: string)
  {
    var t := if s != [] && (s[0] == '-' || s[0] == '+') then s[1..] else s;
    |t| >= 1 && AllDigits(t)
  }

  /** `(?:M[-+]?\d+)?` followed by the end of the input, for exponent marker M. */
  predicate OptExponent(s: string, marker: char -> bool)
  {
    s == [] || (marker(s[0]) && SignedDigits(s[1..]))
  }

  /** `\.D+` then an optional exponent, at the start of `s` (which begins with '.'). */
  predicate FractionThenExponent(s: string, digit: char -> bool, marker: char -> bool)
    requires s != [] && s[0] == '.'
  {
    var k := LeadingCount(s[1..], digit);
    k >= 1 && OptExponent(s[1 + k..], marker)
  }

  /** `D+(?:\.D+)?(?:[pP][-+]?\d+)?` for the digit class D of a radix prefix. */
  predicate RadixBody(s: string, digit: char -> bool)
  {
    var k := LeadingCount(s, digit);
    var rest := s[k..];
    k >= 1 &&
    if rest != [] && rest[0] == '.' then FractionThenExponent(rest, digit, IsBinaryExponentMarker)
    else OptExponent(rest, IsBinaryExponentMarker)
  }

  /** `(?:\d+|\d*\.\d+)(?:[eE][-+]?\d+)?` */
  predicate DecimalBody(s: string)
  {
    var k := LeadingCount(s, IsDigit);
    var rest := s[k..];
    if rest != [] && rest[0] == '.' then FractionThenExponent(rest, IsDigit, IsDecimalExponentMarker)
    else k >= 1 && OptExponent(rest, IsDecimalExponentMarker)
  }

  /** The alternatives after the optional sign. */
  predicate UnsignedNumber(s: string)
  {
    (|s| >= 2 && s[0] == '0' && (s[1] == 'b' || s[1] == 'B') && RadixBody(s[2..], IsBinDigit))
    || (|s| >= 2 && s[0] == '0' && (s[1] == 'o' || s[1] == 'O') && RadixBody(s[2..], IsOctDigit))
    || (|s| >= 2 && s[0] == '0' && (s[1] == 'x' || s[1] == 'X') && RadixBody(s[2..], IsHexDigit))
    || DecimalBody(s)
  }

  /** `DECIMAL_STRING_REGEX.test(s)`: the three special names, or an optional minus sign
      followed by a number, so an accepted string starts with a minus sign, a point, a digit,
      or the special names' first letter. */
  predicate IsDecimalString(s: string): (ok: bool)
    ensures s == "Infinity" || s == "-Infinity" || s == "NaN" ==> ok
    ensures ok ==> s != [] && (s[0] == '-' || s[0] == '.' || IsDigit(s[0]) || s[0] == 'I' || s[0] == 'N')
  {
    s == "Infinity" || s == "-Infinity" || s == "NaN" ||
    if s != [] && s[0] == '-' then UnsignedNumber(s[1..]) else UnsignedNumber(s)
  }

  /** A JavaScript number, as far as `typeof v === 'number'` cares: every value is one. */
  datatype JsNumber = Finite(value: real) | NotANumber | PositiveInfinity | NegativeInfinity

  /** The argument of `isValidDecimalInput`: `undefined`, `null`, a string, a number or an
      object, the latter given by the property names `in` finds on it. */
  datatype DecimalInput =
    | Undefined
    | Null
    | Str(s: string)
    | Num(n: JsNumber)
    | Obj(properties: set<string>)

  /** `isValidDecimalInput`. */
  function IsValidDecimalInput(v: DecimalInput): (ok: bool)
    ensures (v.Undefined? || v.Null?) ==> !ok
    ensures v.Num? ==> ok
    ensures v.Str? ==> (ok <==> IsDecimalString(v.s))
    ensures v.Obj? ==> (ok <==> {"d", "e", "s", "toFixed"} <= v.properties)
  {
    match v
    case Undefined => false
    case Null => false
    case Obj(props) => "d" in props && "e" in props && "s" in props && "toFixed" in props
    case Str(s) => IsDecimalString(s)
    case Num(_) => true
  }

  /** The named special values are accepted; a sign before `NaN`, a leading `+`, a bare
      trailing point and the empty string are not. */
  lemma DecimalStringSpecialCases()
    ensures IsDecimalString("Infinity") && IsDecimalString("-Infinity") && IsDecimalString("NaN")
    ensures !IsDecimalString("-NaN")
    ensures !IsDecimalString("+1")
    ensures !IsDecimalString("1.")
    ensures !IsDecimalString("")
  {
    assert LeadingCount("NaN", IsDigit) == 0;
    assert LeadingCount("+1", IsDigit) == 0;
    var one := "1.";
    assert LeadingCount(one, IsDigit) == 1 by {
      assert LeadingCount(one[1..], IsDigit) == 0;
    }
    assert one[1..] == ".";
  }

  /** A hexadecimal literal with a fraction and a binary exponent is accepted. */
  lemma HexLiteralAccepted()
    ensures IsDecimalString("0x1F.8p-3")
  {
    var h := "1F.8p-3";
    assert "0x1F.8p-3"[2..] == h;
    assert LeadingCount(h, IsHexDigit) == 2 by {
      assert h[1..] == "F.8p-3" && h[1..][1..] == ".8p-3";
    }
    assert h[2..] == ".8p-3";
    var f := ".8p-3";
    assert LeadingCount(f[1..], IsHexDigit) == 1 by {
      assert f[1..] == "8p-3" && f[1..][1..] == "p-3";
    }
    assert f[2..] == "p-3";
    assert SignedDigits("-3") by {
      assert "-3"[1..] == "3";
    }
    assert "p-3"[1..] == "-3";
    assert OptExponent("p-3", IsBinaryExponentMarker);
    assert FractionThenExponent(f, IsHexDigit, IsBinaryExponentMarker);
    assert RadixBody(h, IsHexDigit);
    assert UnsignedNumber("0x1F.8p-3");
  }

  /** A negative binary literal and an octal literal are accepted. */
  lemma BinaryAndOctalLiteralsAccepted()
    ensures IsDecimalString("-0b101")
    ensures IsDecimalString("0o17")
  {
    var b := "101";
    assert LeadingCount(b, IsBinDigit) == 3 by {
      assert b[1..] == "01" && b[1..][1..] == "1" && b[1..][1..][1..] == "";
    }
    assert b[3..] == "";
    assert "-0b101"[1..] == "0b101" && "0b101"[2..] == b;
    var o := "17";
    assert LeadingCount(o, IsOctDigit) == 2 by {
      assert o[1..] == "7" && o[1..][1..] == "";
    }
    assert o[2..] == "";
    assert "0o17"[2..] == o;
  }

  /** A digit outside the prefix's alphabet is rejected. */
  lemma ForeignDigitRejected()
    ensures !IsDecimalString("0b12")
    ensures !IsDecimalString("0o8")
  {
    var bad := "12";
    assert "0b12"[2..] == bad;
    assert LeadingCount(bad, IsBinDigit) == 1 by {
      assert bad[1..] == "2";
    }
    assert bad[1..] == "2";
    assert "0b12"[1..] == "b12";
    assert LeadingCount("0b12", IsDigit) == 1 by {
      assert "0b12"[1..] == "b12";
    }
    assert "0b12"[1..] == "b12";
    assert "0o8"[2..] == "8";
    assert LeadingCount("8", IsOctDigit) == 0;
    assert "0o8"[1..] == "o8";
    assert LeadingCount("0o8", IsDigit) == 1 by {
      assert "0o8"[1..] == "o8";
    }
  }
}
