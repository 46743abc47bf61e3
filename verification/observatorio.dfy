/**
 * read_observatorioObrasUrbanas_csv.py: a stand-alone cleaning script for
 * the same public-works CSV that `Limpieza` cleans for the loader.  It is a
 * sequence of whole-column rewrites; each is modelled as a function of one
 * cell, `CleanObsRow` applies them to a row and `LimpiarObservatorio` to the
 * table.  Its rules resemble those of `limpiar_datos` but differ in detail,
 * and the last section proves where: a missing amount is 0 and a blank one
 * missing (the other way round there), terms are rounded up instead of down,
 * percentages are whole numbers, dates are written back as "YYYY-MM-DD"
 * text, and a missing neighbourhood or address stays the text "nan".
 */
module Observatorio {
  import opened Wrappers
  import opened Text
  import opened Numbers
  import opened Cells
  import opened Limpieza

  /** Columns dropped by name (lines 27-33). */
  const ObsDroppedColumns: set<string> := {
    "lat", "lng", "imagen_1", "imagen_2", "imagen_3", "imagen_4", "beneficiarios", "mano_obra",
    "compromiso", "destacada", "ba_elige", "link_interno", "pliego_descarga", "estudio_ambiental_descarga",
    "financiamiento"
  }

  /** Columns the script indexes directly; a table without one of them stops it with a `KeyError`. */
  const ObsReadColumns: set<string> := {
    "monto_contrato", "fecha_inicio", "fecha_fin_inicial", "plazo_meses", "comuna", "barrio", "direccion",
    "porcentaje_avance", "licitacion_oferta_empresa", "licitacion_anio", "contratacion_tipo",
    "nro_contratacion", "cuit_contratista", "expediente_numero"
  }

  /** Columns whose only rule is that a blank becomes missing (lines 130, 214, 223, 244, 253, 263). */
  const BlankColumns: set<string> := {
    "comuna", "licitacion_oferta_empresa", "licitacion_anio", "nro_contratacion", "cuit_contratista",
    "expediente_numero"
  }

  /** Lines 19 and 33: the `Unnamed` columns and the listed ones are dropped. */
  predicate KeepObsColumn(c: string) {
    !StartsWith(c, "Unnamed") && c !in ObsDroppedColumns
  }

  // ---------------------------------------------------------------------
  // Dates as text

  /** `n` written with exactly `width` decimal digits, zero-padded on the left. */
  function Padded(n: nat, width: nat): (r: string)
    ensures |r| == width && AllDigits(r)
    ensures n < Pow10(width) ==> DigitsValue(r) == n
  {
    if width == 0 then []
    else
      var p := Padded(n / 10, width - 1);
      var r := p + [DigitChar(n % 10)];
      assert r[..width - 1] == p;
      r
  }

  /** The date a "YYYY-MM-DD" text names, if it has that form. */
  function ReadIsoDate(s: string): Option<Date> {
    if |s| == 10 && s[4] == '-' && s[7] == '-' && AllDigits(s[..4]) && AllDigits(s[5..7]) && AllDigits(s[8..])
    then Some(Date(DigitsValue(s[..4]), DigitsValue(s[5..7]), DigitsValue(s[8..])))
    else None
  }

  /** `strftime("%Y-%m-%d")`: the date as ten characters that read back as the same date. */
  function FormatDate(d: Timestamp): (r: string)
    ensures |r| == 10
    ensures ReadIsoDate(r) == Some(d)
  {
    var y := Padded(d.year, 4);
    var m := Padded(d.month, 2);
    var dd := Padded(d.day, 2);
    var r := y + "-" + m + "-" + dd;
    assert Pow10(2) == 100 && Pow10(4) == 10000 by {
      assert Pow10(1) == 10;
      assert Pow10(3) == 1000;
    }
    assert r[..4] == y && r[5..7] == m && r[8..] == dd;
    r
  }

  // ---------------------------------------------------------------------
  // Column rules

  /** Lines 50-58 on one text: `$` removed, stripped, every `.` removed, every `,` made `.`. */
  function AmountText(s: string): string {
    ReplaceChar(Delete(Strip(Delete(s, '$')), '.'), ',', '.')
  }

  /**
   * `monto_contrato` (lines 47-61): NaN is first replaced by 0, so a missing
   * amount ends as 0; text that is not a number once rewritten, a blank
   * among it, ends as NaN (`MontoContrast`); any other amount is the number
   * its rewritten text reads as (`MontoWholeAmount`, `MontoArgentineAgrees`).
   */
  function MontoObs(v: Option<string>): (r: Cell)
    ensures r.Number? || r.Missing?
    ensures v.None? ==> r == Number(0.0)
    ensures r.Missing? <==> v.Some? && ParseNumber(AmountText(v.value)).None?
    ensures v.Some? && ParseNumber(AmountText(v.value)).Some? ==> r == Number(ParseNumber(AmountText(v.value)).value)
  {
    match v
    case None =>
      ZeroAmount();
      NumberOrMissing(ParseNumber(AmountText("0")))
    case Some(s) => NumberOrMissing(ParseNumber(AmountText(s)))
  }

  /**
   * `fecha_inicio` and `fecha_fin_inicial` (lines 78-85, 94-101, 201): NaN
   * and the "no data" markers become NaT, and so does text `pd.to_datetime`
   * cannot read; a date is written back as "YYYY-MM-DD" text.
   */
  function FechaObs(v: Option<string>, parseDate: string -> Option<Timestamp>): (r: Cell)
    ensures r.Str? || r.Missing?
    ensures r.Str? <==> v.Some? && v.value !in NoDataMarkers && parseDate(v.value).Some?
    ensures r.Str? ==> ReadIsoDate(r.s) == Some(parseDate(v.value).value) && !IsBlank(r.s)
  {
    match v
    case None => Missing
    case Some(s) =>
      if s in NoDataMarkers then Missing
      else
        match parseDate(s)
        case Some(d) => Str(FormatDate(d))
        case None => Missing
  }

  /**
   * `plazo_meses` (lines 113-117): NaN, the "no data" markers and text that
   * is not a number count as 0; any other number is rounded up to a whole
   * number of months.
   */
  function PlazoObs(v: Option<string>): (r: Cell)
    ensures r.Number? && IsIntegral(r.n)
    ensures v.None? || v.value in NoDataMarkers || ParseNumber(v.value).None? ==> r == Number(0.0)
    ensures v.Some? && v.value !in NoDataMarkers && ParseNumber(v.value).Some? ==>
              ParseNumber(v.value).value <= r.n < ParseNumber(v.value).value + 1.0
  {
    var x := match v
             case None => 0.0
             case Some(s) =>
               if s in NoDataMarkers then 0.0
               else (match ParseNumber(s) case Some(n) => n case None => 0.0);
    Number(Ceil(x) as real)
  }

  /**
   * `porcentaje_avance` (lines 204-205): `%` signs removed, 0 when the rest
   * is not a number, and the fraction dropped toward zero.
   */
  function PorcentajeObs(v: Option<string>): (r: Cell)
    ensures r.Number? && IsIntegral(r.n)
    ensures PercentValue(v).None? ==> r == Number(0.0)
    ensures PercentValue(v).Some? && PercentValue(v).value >= 0.0 ==>
              0.0 <= r.n <= PercentValue(v).value < r.n + 1.0
    ensures PercentValue(v).Some? && PercentValue(v).value < 0.0 ==>
              r.n - 1.0 < PercentValue(v).value <= r.n <= 0.0
  {
    var x := if PercentValue(v).Some? then PercentValue(v).value else 0.0;
    Number(Trunc(x) as real)
  }

  /** Line 205's `pd.to_numeric` of the text left once the `%` signs are gone (line 204). */
  function PercentValue(v: Option<string>): Option<real> {
    ParseNumber(Delete(AsText(v), '%'))
  }

  /**
   * `barrio` and `direccion` (lines 141-143, 166-168): the text stripped,
   * lower-cased and its whitespace runs made single spaces; a name that is
   * then empty becomes missing.  NaN is first written as "nan" and stays so.
   */
  function LugarObs(v: Option<string>): (r: Cell)
    ensures r.Str? || r.Missing?
    ensures r.Missing? <==> v.Some? && Strip(v.value) == ""
    ensures r.Str? ==> Normalized(r.s) && r.s != ""
    ensures r.Str? ==> r.s == NormalizeName(AsText(v))
  {
    var t := AsText(v);
    var y := NormalizeName(t);
    NormalizeNameNormalized(t);
    StripLowerCollapse(t);
    NanNormalized();
    if IsBlank(y) then Missing else Str(y)
  }

  /** Lines 130, 214, 223, 244, 253 and 263: an exact "" or " " becomes missing, any other value is kept. */
  function BlankToMissing(v: Option<string>): (r: Cell)
    ensures r.Str? || r.Missing?
    ensures r.Missing? <==> v.None? || IsBlank(v.value)
    ensures r.Str? ==> r.s == v.value
  {
    match v
    case None => Missing
    case Some(s) => if IsBlank(s) then Missing else Str(s)
  }

  /**
   * `contratacion_tipo` (lines 232-235): blanks are made `pd.NA`, but the
   * following `astype(str)` writes that as the text "<NA>", and NaN as
   * "nan", before the transliteration; the column never ends missing
   * (`ContratacionTipoVersusLimpieza`).
   */
  function ContratacionTipoObs(v: Option<string>, translit: string -> string): (r: Cell)
    ensures r.Str?
  {
    var t := match v
             case None => "nan"
             case Some(s) => if IsBlank(s) then "<NA>" else s;
    Str(translit(t))
  }

  /**
   * The rule for one column; columns the script does not mention are left as
   * read.  Each rule gives the kind of value `ObsCellShape` names.
   */
  function CleanObsCell(col: string, v: Option<string>, translit: string -> string,
                        parseDate: string -> Option<Timestamp>): (r: Cell)
    ensures ObsCellShape(col, r)
  {
    if col == "monto_contrato" then MontoObs(v)
    else if col == "fecha_inicio" || col == "fecha_fin_inicial" then FechaObs(v, parseDate)
    else if col == "plazo_meses" then PlazoObs(v)
    else if col == "barrio" || col == "direccion" then LugarObs(v)
    else if col == "porcentaje_avance" then PorcentajeObs(v)
    else if col == "contratacion_tipo" then ContratacionTipoObs(v, translit)
    else if col in BlankColumns then BlankToMissing(v)
    else Pass(v)
  }

  /** The kind of value each column holds once the script has run. */
  predicate ObsCellShape(col: string, c: Cell) {
    if col == "monto_contrato" then c.Number? || c.Missing?
    else if col == "fecha_inicio" || col == "fecha_fin_inicial" then c.Missing? || (c.Str? && ReadIsoDate(c.s).Some?)
    else if col == "plazo_meses" || col == "porcentaje_avance" then c.Number? && IsIntegral(c.n)
    else if col == "barrio" || col == "direccion" then c.Missing? || (c.Str? && Normalized(c.s) && c.s != "")
    else if col == "contratacion_tipo" then c.Str?
    else if col in BlankColumns then c.Missing? || (c.Str? && !IsBlank(c.s))
    else c.Str? || c.Missing?
  }

  /** One row: the kept columns, each rewritten by its rule. */
  function CleanObsRow(r: RawRow, translit: string -> string, parseDate: string -> Option<Timestamp>): (q: Row)
    ensures forall c :: c in q <==> c in r && KeepObsColumn(c)
    ensures forall c :: c in q ==> ObsCellShape(c, q[c])
  {
    var q := map c | c in r && KeepObsColumn(c) :: CleanObsCell(c, r[c], translit, parseDate);
    forall c | c in q
      ensures ObsCellShape(c, q[c])
    {
      assert q[c] == CleanObsCell(c, r[c], translit, parseDate);
    }
    q
  }

  /**
   * The script over a table whose columns are `header`: `None` when a column
   * it indexes is absent, which stops it with a `KeyError` before the file
   * is written; otherwise every row cleaned, in order, none dropped and none
   * merged (unlike `LimpiarDatos`, this script removes no duplicates).
   */
  function LimpiarObservatorio(header: set<string>, rows: seq<RawRow>, translit: string -> string,
                               parseDate: string -> Option<Timestamp>): (r: Option<seq<Row>>)
    requires forall i :: 0 <= i < |rows| ==> rows[i].Keys == header
    ensures r.None? <==> exists c :: c in ObsReadColumns && c !in header
    ensures r.Some? ==> |r.value| == |rows|
    ensures r.Some? ==> forall i :: 0 <= i < |rows| ==> r.value[i] == CleanObsRow(rows[i], translit, parseDate)
    ensures r.Some? ==> forall i :: 0 <= i < |rows| ==> ObsReadColumns <= r.value[i].Keys
  {
    if ObsReadColumns <= header then
      ObsReadColumnsKept();
      Some(Map(rows, row => CleanObsRow(row, translit, parseDate)))
    else None
  }

  // ---------------------------------------------------------------------
  // Lemmas

  lemma ZeroAmount()
    ensures ParseNumber(AmountText("0")) == Some(0.0)
  {
    var z := "0";
    DeleteAbsent(z, '$');
    var b := Strip(z);
    assert b == z by {
      StrippedFixpoint(z);
    }
    DeleteAbsent(z, '.');
    var d := ReplaceChar(z, ',', '.');
    assert d == z;
    assert AmountText(z) == d;
    ParseNumberDigits(z);
    assert DigitsValue(z) == 0;
  }

  lemma StripLowerCollapse(t: string)
    ensures NormalizeName(t) == "" <==> Strip(t) == ""
  {
  }

  /** None of the columns the script indexes is among those it drops. */
  lemma ObsReadColumnsKept()
    ensures forall c :: c in ObsReadColumns ==> KeepObsColumn(c)
  {
    forall c | c in ObsReadColumns
      ensures KeepObsColumn(c)
    {
      assert c[0] != 'U';
    }
  }

  /**
   * The script reads the file number as `expediente_numero`; a table whose
   * column is spelt `expediente-numero`, as `limpiar_datos` reads it, stops
   * the script.
   */
  lemma ExpedienteSpelling(header: set<string>, rows: seq<RawRow>, translit: string -> string,
                           parseDate: string -> Option<Timestamp>)
    requires forall i :: 0 <= i < |rows| ==> rows[i].Keys == header
    requires "expediente-numero" in header && "expediente_numero" !in header
    ensures LimpiarObservatorio(header, rows, translit, parseDate).None?
  {
  }

  /**
   * The script drops every column `limpiar_datos` drops, and also the
   * coordinates, `imagen_1`, `mano_obra`, `destacada` and `financiamiento`,
   * which `limpiar_datos` keeps for the loader.
   */
  lemma ObsDropsMore(c: string)
    ensures KeepObsColumn(c) ==> KeepColumn(c)
    ensures c in {"lat", "lng", "imagen_1", "mano_obra", "destacada", "financiamiento"} ==>
              KeepColumn(c) && !KeepObsColumn(c)
  {
    if c in {"lat", "lng", "imagen_1", "mano_obra", "destacada", "financiamiento"} {
      assert c[0] != 'U';
    }
  }

  /** Every "YYYY-MM-DD" text names one date: distinct dates are written differently. */
  lemma FormatDateInjective(d: Timestamp, e: Timestamp)
    ensures FormatDate(d) == FormatDate(e) <==> d == e
  {
    if FormatDate(d) == FormatDate(e) {
      assert Some(d) == ReadIsoDate(FormatDate(e));
    }
  }

  /**
   * The dates agree with `limpiar_datos` except on the "no data" markers,
   * which this script turns into NaT before parsing: a date `Fecha` finds is
   * the date written here, and NaT stays NaT.
   */
  lemma FechaVersusLimpieza(v: Option<string>, parseDate: string -> Option<Timestamp>)
    ensures v.Some? && v.value in NoDataMarkers ==> FechaObs(v, parseDate) == Missing
    ensures v.None? || v.value !in NoDataMarkers ==>
              FechaObs(v, parseDate) == (if Fecha(v, parseDate).Day? then Str(FormatDate(Fecha(v, parseDate).d)) else Missing)
  {
  }

  /** A missing amount is 0 here and NaN in `limpiar_datos`; an empty one is NaN here and 0 there. */
  lemma MontoContrast()
    ensures MontoObs(None) == Number(0.0) && MontoContrato(None) == Missing
    ensures MontoObs(Some("")) == Missing && MontoContrato(Some("")) == Number(0.0)
  {
    MontoMissing(None);
    MontoBlank();
    assert Delete("", '$') == "" && Delete("", '.') == "";
    assert Strip("") == "";
    ParseNumberNeedsDigit("");
  }

  lemma {:induction false} DeleteDollarsLeavesSpaces(p: string)
    requires forall i :: 0 <= i < |p| ==> p[i] == '$' || IsSpace(p[i])
    ensures forall i :: 0 <= i < |Delete(p, '$')| ==> IsSpace(Delete(p, '$')[i])
  {
    if p != [] {
      DeleteDollarsLeavesSpaces(p[1..]);
    }
  }

  /** Stripping text that has only whitespace in front of a stripped text leaves that text. */
  lemma StripAfterSpaces(p: string, b: string)
    requires forall i :: 0 <= i < |p| ==> IsSpace(p[i])
    requires b != [] && Stripped(b)
    ensures Strip(p + b) == b
  {
    var s := p + b;
    var l := LeadingSpaces(s);
    assert s[|p|] == b[0];
    assert l == |p|;
    var r := Strip(s);
    assert s[|s| - 1] == b[|b| - 1];
    assert r == s[|p|..|p| + |b|] == b;
  }

  /**
   * An amount in the Argentine format, `$ 1.234.567,89`, is read as the same
   * number as in `limpiar_datos`, although the two remove the currency sign
   * and the blanks differently.
   */
  lemma MontoArgentineAgrees(prefix: string, whole: string, frac: string)
    requires forall i :: 0 <= i < |prefix| ==> prefix[i] == '$' || IsSpace(prefix[i])
    requires forall i :: 0 <= i < |whole| ==> IsDigit(whole[i]) || whole[i] == '.'
    requires AllDigits(frac)
    requires |Delete(whole, '.')| + |frac| > 0
    ensures AllDigits(Delete(whole, '.'))
    ensures MontoObs(Some(prefix + whole + "," + frac)) == Number(DecimalValue(Delete(whole, '.'), frac))
    ensures MontoObs(Some(prefix + whole + "," + frac)) == MontoContrato(Some(prefix + whole + "," + frac))
  {
    var w := Delete(whole, '.');
    MontoArgentineFormat(prefix, whole, frac);
    ArgentineAmountText(prefix, whole, frac);
    ParseNumberDecimal(w, frac);
  }

  /** An amount with no separators, `$ 1500`, is read as its digits' value. */
  lemma MontoWholeAmount(prefix: string, digits: string)
    requires forall i :: 0 <= i < |prefix| ==> prefix[i] == '$' || IsSpace(prefix[i])
    requires AllDigits(digits) && digits != []
    ensures MontoObs(Some(prefix + digits)) == Number(DigitsValue(digits) as real)
  {
    WholeAmountText(prefix, digits);
    ParseNumberDigits(digits);
  }

  /** Lines 51-58 leave a plain digit string behind its `$` and blanks as it is. */
  lemma WholeAmountText(prefix: string, digits: string)
    requires forall i :: 0 <= i < |prefix| ==> prefix[i] == '$' || IsSpace(prefix[i])
    requires AllDigits(digits) && digits != []
    ensures AmountText(prefix + digits) == digits
  {
    DigitsHaveNoMarks(digits);
    DeleteAppend(prefix, digits, '$');
    DeleteAbsent(digits, '$');
    DeleteDollarsLeavesSpaces(prefix);
    StripAfterSpaces(Delete(prefix, '$'), digits);
    DeleteAbsent(digits, '.');
    assert ReplaceChar(digits, ',', '.') == digits;
  }

  lemma DigitsHaveNoMarks(digits: string)
    requires AllDigits(digits) && digits != []
    ensures '$' !in digits && '.' !in digits && ',' !in digits
    ensures Stripped(digits)
    ensures forall i :: 0 <= i < |digits| ==> digits[i] != ','
  {
  }

  /** The script cleans a name written with stray blanks and capitals to its plain form. */
  lemma LugarExample()
    ensures LugarObs(Some("  Villa   URQUIZA ")) == Str("villa urquiza")
  {
    NormalizeExample();
  }

  /** Lines 51-58 turn `$ 1.234.567,89` into `1234567.89`. */
  lemma ArgentineAmountText(prefix: string, whole: string, frac: string)
    requires forall i :: 0 <= i < |prefix| ==> prefix[i] == '$' || IsSpace(prefix[i])
    requires forall i :: 0 <= i < |whole| ==> IsDigit(whole[i]) || whole[i] == '.'
    requires AllDigits(frac)
    ensures AllDigits(Delete(whole, '.'))
    ensures AmountText(prefix + whole + "," + frac) == Delete(whole, '.') + "." + frac
  {
    var body := whole + "," + frac;
    DeleteDigitsAndDots(whole);
    ArgentineDollarsStripped(prefix, body, whole, frac);
    MontoDotsDropped(whole, frac);
    MontoCommaToPoint(Delete(whole, '.'), frac);
  }

  lemma ArgentineDollarsStripped(prefix: string, body: string, whole: string, frac: string)
    requires forall i :: 0 <= i < |prefix| ==> prefix[i] == '$' || IsSpace(prefix[i])
    requires forall i :: 0 <= i < |whole| ==> IsDigit(whole[i]) || whole[i] == '.'
    requires AllDigits(frac) && body == whole + "," + frac
    ensures Strip(Delete(prefix + whole + "," + frac, '$')) == body
  {
    assert prefix + whole + "," + frac == prefix + body;
    forall i | 0 <= i < |body|
      ensures body[i] != '$' && !IsSpace(body[i])
    {
      if i > |whole| {
        assert body[i] == frac[i - |whole| - 1];
      }
    }
    DeleteAppend(prefix, body, '$');
    DeleteAbsent(body, '$');
    DeleteDollarsLeavesSpaces(prefix);
    assert Stripped(body);
    StripAfterSpaces(Delete(prefix, '$'), body);
  }

  /**
   * The term agrees with `limpiar_datos` except for a positive number with
   * a fraction, which is one month longer here (rounded up, not down).
   */
  lemma PlazoVersusLimpieza(v: Option<string>)
    ensures PlazoObs(v).n == PlazoMeses(v).n +
              (if v.Some? && v.value !in NoDataMarkers && ParseNumber(v.value).Some? &&
                  ParseNumber(v.value).value > 0.0 && !IsIntegral(ParseNumber(v.value).value) then 1.0 else 0.0)
  {
    var x := match v
             case None => 0.0
             case Some(s) =>
               if s in NoDataMarkers then 0.0
               else (match ParseNumber(s) case Some(n) => n case None => 0.0);
    CeilVersusTrunc(x);
  }

  /** The percentage is that of `limpiar_datos` with its fraction dropped. */
  lemma PorcentajeVersusLimpieza(v: Option<string>)
    ensures PorcentajeObs(v) == Number(Trunc(PorcentajeAvance(v).n) as real)
  {
    if v.Some? && IsBlank(v.value) {
      var s := v.value;
      DeleteAbsent(s, '%');
      ParseNumberNeedsDigit(s);
      DeleteAbsent("0", '%');
      ParseNumberDigits("0");
    }
  }

  /** A cleaned place name is cleaned to itself. */
  lemma LugarIdempotent(v: Option<string>)
    ensures LugarObs(v).Str? ==> LugarObs(Some(LugarObs(v).s)) == LugarObs(v)
  {
    if LugarObs(v).Str? {
      var z := LugarObs(v).s;
      NormalizeNameFixpoint(z);
      StrippedFixpoint(z);
    }
  }

  /**
   * A missing neighbourhood or address is the text "nan" here, where
   * `limpiar_datos` writes "sin barrio" and " "; a "." is kept here and made
   * "sin barrio" there; any other normalised name is the same in all three.
   */
  lemma LugarVersusLimpieza(z: string)
    requires Normalized(z) && z != "" && z != "nan" && z != "."
    ensures LugarObs(None) == Str("nan") && Barrio(None) == Str("sin barrio") && Direccion(None) == Str(" ")
    ensures LugarObs(Some(".")) == Str(".") && Barrio(Some(".")) == Str("sin barrio")
    ensures LugarObs(Some(z)) == Barrio(Some(z)) == Direccion(Some(z)) == Str(z)
  {
    LugarMissing();
    LugarDot();
    LugarName(z);
  }

  /** Capitals outside ASCII are lower-cased too: "NUÑEZ" is cleaned to "nuñez". */
  lemma LugarAccentedCapital()
    ensures LugarObs(Some("NU\U{D1}EZ")) == Str("nu\U{F1}ez")
  {
    var t := "NU\U{D1}EZ";
    assert Stripped(t);
    StrippedFixpoint(t);
    LowerLatin1();
    assert Collapsed("nu\U{F1}ez");
    CollapseFixpoint("nu\U{F1}ez");
  }

  /** A missing place: "nan" here, "sin barrio" and " " in `limpiar_datos`. */
  lemma LugarMissing()
    ensures LugarObs(None) == Str("nan") && Barrio(None) == Str("sin barrio") && Direccion(None) == Str(" ")
  {
    NanNormalized();
    BarrioReplaceNormalized("nan");
    SinBarrioNormalized();
  }

  /** A "." is kept here and becomes "sin barrio" in `limpiar_datos`. */
  lemma LugarDot()
    ensures LugarObs(Some(".")) == Str(".") && Barrio(Some(".")) == Str("sin barrio")
  {
    DotNormalized();
    BarrioReplaceNormalized(".");
    BlankNotNan();
    SpaceStripsToEmpty();
  }

  /** Any other normalised name is the same in all three rules. */
  lemma LugarName(z: string)
    requires Normalized(z) && z != "" && z != "nan" && z != "."
    ensures LugarObs(Some(z)) == Barrio(Some(z)) == Direccion(Some(z)) == Str(z)
  {
    BarrioOfNormalized(z);
    NormalizeNameFixpoint(z);
    NormalizedNanText(z);
    StrippedFixpoint(z);
  }

  lemma DotNormalized()
    ensures Normalized(".") && NormalizeName(".") == "." && !IsNanText(".") && Strip(".") == "."
  {
    assert Stripped(".");
    StrippedFixpoint(".");
    NormalizeNameFixpoint(".");
  }

  /**
   * The contracting type agrees with `limpiar_datos` (transliteration, then
   * nothing more) except on a blank, which this script turns into the text
   * "<NA>" before transliterating.
   */
  lemma ContratacionTipoVersusLimpieza(v: Option<string>, translit: string -> string,
                                       parseDate: string -> Option<Timestamp>)
    ensures v.Some? && IsBlank(v.value) ==> ContratacionTipoObs(v, translit) == Str(translit("<NA>"))
    ensures v.None? || !IsBlank(v.value) ==>
              ContratacionTipoObs(v, translit) == CleanCell("contratacion_tipo", Some(translit(AsText(v))), parseDate)
  {
    assert "contratacion_tipo" !in MandatoryColumns;
  }
}
