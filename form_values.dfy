/** `src/hooks/useFormInitialValues.ts`: how a record loaded from the server becomes the
    initial values of a form. A JavaScript object is a map from key to value (the order of
    its keys is not modelled). */
module FormValues {
  import opened Base
  import opened CurriculoSchema
  import opened CurriculoActions
  import opened Store

  /** The values a loaded record holds. A `Date` is kept as what the formatter reads from it:
      its UTC year and its UTC month counted from 0, or nothing for an invalid date. */
  datatype JsValue =
    | JsNull
    | JsUndefined
    | JsString(s: string)
    | JsBool(b: bool)
    | JsNumber(n: int)
    | JsDate(year: int, month0: int)
    | JsInvalidDate
    | JsArray(items: seq<JsValue>)

  type JsObject = map<string, JsValue>

  /** `s.padStart(2, '0')`. */
  function Pad2(s: string): (r: string)
    ensures |s| >= 2 ==> r == s
    ensures |s| < 2 ==> |r| == 2 && r[2 - |s|..] == s && forall i :: 0 <= i < 2 - |s| ==> r[i] == '0'
    decreases 2 - |s|
  {
    if |s| >= 2 then s else Pad2("0" + s)
  }

  /** `` `${year}-${month}` `` with the month counted from 1 and padded to two digits; an
      invalid date gives `NaN` for both. */
  function MonthString(year: int, month0: int): string
  {
    IntToString(year) + "-" + Pad2(IntToString(month0 + 1))
  }

  /** The value `formatObjectForForm` maps one entry to. */
  function FormatValue(v: JsValue): (r: JsValue)
    ensures !r.JsNull? && !r.JsDate? && !r.JsInvalidDate?
    ensures v.JsNull? ==> r == JsString("")
    ensures !v.JsNull? && !v.JsDate? && !v.JsInvalidDate? ==> r == v
  {
    match v
    case JsNull => JsString("")
    case JsDate(y, m) => JsString(MonthString(y, m))
    case JsInvalidDate => JsString("NaN-NaN")
    case _ => v
  }

  /** `formatObjectForForm`: the same keys, each value formatted. */
  function FormatObjectForForm(data: JsObject): (r: JsObject)
    ensures r.Keys == data.Keys
    ensures forall k :: k in r ==> r[k] == FormatValue(data[k])
  {
    map k | k in data :: FormatValue(data[k])
  }

  /** Formatting a formatted object changes nothing: no null and no date is left. */
  lemma FormatIdempotent(data: JsObject)
    ensures FormatObjectForForm(FormatObjectForForm(data)) == FormatObjectForForm(data)
  {
    var once := FormatObjectForForm(data);
    var twice := FormatObjectForForm(once);
    forall k | k in once
      ensures twice[k] == once[k]
    {
      assert once[k] == FormatValue(data[k]);
    }
  }

  /** `useFormInitialValues`: the defaults, with the formatted initial data laid over them
      when there is any (`null` and `undefined` both count as none). The keys of the result
      are those of the defaults and of the initial data; an initial key wins with its
      formatted value, and every other default is kept. */
  function FormInitialValues(initialData: Option<JsObject>, defaultValues: JsObject): (r: JsObject)
    ensures initialData.None? ==> r == defaultValues
    ensures initialData.Some? ==>
              r.Keys == defaultValues.Keys + initialData.value.Keys &&
              (forall k :: k in initialData.value ==> r[k] == FormatValue(initialData.value[k])) &&
              (forall k :: k in defaultValues && k !in initialData.value ==> r[k] == defaultValues[k])
  {
    if initialData.None? then defaultValues else defaultValues + FormatObjectForForm(initialData.value)
  }

  // ---------------------------------------------------------------------------------------
  // Dates going back and forth between the form and the database
  // ---------------------------------------------------------------------------------------

  lemma {:induction false} DigitsNotZero(t: string)
    requires AllDigits(t) && t != [] && t[0] != '0'
    ensures DigitsValue(t) >= 1
    decreases |t|
  {
    if |t| > 1 {
      DigitsNotZero(t[..|t| - 1]);
    }
  }

  /** Digits without a leading zero are what `NatToString` writes for their value. */
  lemma {:induction false} NatToStringOfDigits(t: string)
    requires AllDigits(t) && t != [] && t[0] != '0'
    ensures NatToString(DigitsValue(t)) == t
    decreases |t|
  {
    var n := |t|;
    if n > 1 {
      var init := t[..n - 1];
      DigitsNotZero(init);
      NatToStringOfDigits(init);
      var v := DigitsValue(t);
      assert v / 10 == DigitsValue(init) && v % 10 == DigitValue(t[n - 1]);
      assert t == init + [t[n - 1]];
    }
  }

  /** Two digits read back as their tens and units. */
  lemma TwoDigits(t: string)
    requires |t| == 2 && AllDigits(t)
    ensures DigitsValue(t) == DigitValue(t[0]) * 10 + DigitValue(t[1])
  {
    var head := t[..1];
    assert head[..0] == [] && head[0] == t[0];
    assert DigitsValue(head) == DigitValue(t[0]);
    assert t[..|t| - 1] == head;
  }

  /** A month the database accepted, read back into a form, is the text it was saved from
      (for years written without a leading zero): the form and the save logic agree on
      `YYYY-MM`. */
  lemma MonthRoundTrip(s: string)
    requires MonthOk(s) && s[0] != '0'
    ensures var d := MonthDate(s).value;
            FormatValue(JsDate(d.year, d.month - 1)) == JsString(s)
  {
    var d := MonthDate(s).value;
    var y, m := s[..4], s[5..];
    NatToStringOfDigits(y);
    assert IntToString(d.year) == y;
    PaddedMonthText(m);
    assert MonthString(d.year, d.month - 1) == y + "-" + m;
    assert s == y + "-" + m;
  }

  /** Two month digits from 01 to 12 are what the form writes back for their value. */
  lemma PaddedMonthText(m: string)
    requires |m| == 2 && AllDigits(m) && 1 <= DigitsValue(m) <= 12
    ensures Pad2(IntToString(DigitsValue(m))) == m
  {
    TwoDigits(m);
    var v := DigitsValue(m);
    var u := DigitValue(m[1]);
    if m[0] == '0' {
      assert v == u;
      assert DigitChar(u) == m[1];
      assert IntToString(v) == [m[1]];
      assert Pad2([m[1]]) == "0" + [m[1]];
    } else {
      assert m[0] == '1' && v == 10 + u;
      assert v / 10 == 1 && v % 10 == u;
      assert DigitChar(1) == m[0] && DigitChar(u) == m[1];
      assert IntToString(v) == [m[0]] + [m[1]];
    }
    assert m == [m[0]] + [m[1]];
  }

  lemma FourDigits(n: nat)
    requires 1000 <= n <= 9999
    ensures |NatToString(n)| == 4
  {
    assert n / 10 / 10 / 10 == n / 1000 < 10;
    assert |NatToString(n / 10 / 10 / 10)| == 1;
    assert |NatToString(n / 10 / 10)| == 2;
    assert |NatToString(n / 10)| == 3;
  }

  /** The month text of a month from 01 to 12, padded to two digits, and its value. */
  lemma PaddedMonth(m: int)
    requires 1 <= m <= 12
    ensures var t := Pad2(IntToString(m));
            |t| == 2 && AllDigits(t) && DigitsValue(t) == m
  {
    var t := Pad2(IntToString(m));
    if m < 10 {
      assert t == "0" + [DigitChar(m)];
    } else {
      assert NatToString(m) == NatToString(1) + [DigitChar(m % 10)];
      assert t == [DigitChar(1), DigitChar(m % 10)];
    }
    TwoDigits(t);
  }

  /** A stored month of a four-digit year, shown in a form and saved again, is the same
      month: the text the formatter writes passes the date shape of the schemas and converts
      back to that month. */
  lemma ShapeOfParts(y: string, m: string)
    requires |y| == 4 && AllDigits(y) && |m| == 2 && AllDigits(m)
    ensures var s := y + "-" + m;
            YearMonthShape(s) && s[..4] == y && s[5..] == m
  {
    var s := y + "-" + m;
    assert s[..4] == y && s[5..] == m;
  }

  lemma DateRoundTrip(d: YearMonth)
    requires 1000 <= d.year <= 9999 && 1 <= d.month <= 12
    ensures FormatValue(JsDate(d.year, d.month - 1)).s == MonthString(d.year, d.month - 1)
    ensures MonthOk(MonthString(d.year, d.month - 1))
    ensures MonthDate(MonthString(d.year, d.month - 1)) == Some(d)
  {
    var y, m := NatToString(d.year), Pad2(IntToString(d.month));
    assert MonthString(d.year, d.month - 1) == y + "-" + m;
    FourDigits(d.year);
    NatToStringRoundTrip(d.year);
    PaddedMonth(d.month);
    ShapeOfParts(y, m);
  }
}
