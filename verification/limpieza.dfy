/**
 * `GestionarObra.limpiar_datos` (gestionar_obras.py): the cleaning pass that
 * turns the rows of the public-works CSV into rows the loader can store.
 *
 * Every column rule is a function from the cell as read (after the accent
 * folding of lines 37-40) to the cleaned cell; `CleanRow` applies them to a
 * row and `LimpiarDatos` runs the whole pass over the table.  Transliteration
 * (`unidecode`) and date parsing (`pd.to_datetime`) are parameters.
 */
module Limpieza {
  import opened Wrappers
  import opened Text
  import opened Numbers
  import opened Cells

  /** Columns whose text is folded to ASCII (lines 38-39); `expediente_numero` is spelt with an underscore there. */
  const AccentColumns: set<string> := {
    "entorno", "nombre", "etapa", "tipo", "area_responsable", "descripcion", "barrio", "direccion",
    "licitacion_oferta_empresa", "contratacion_tipo", "nro_contratacion", "cuit_contratista",
    "expediente_numero", "financiamiento"
  }

  /** Columns dropped as irrelevant (lines 48-50). */
  const DroppedColumns: set<string> := {
    "imagen_2", "imagen_3", "imagen_4", "beneficiarios", "compromiso", "ba_elige", "link_interno",
    "pliego_descarga", "estudio_ambiental_descarga"
  }

  /** The columns the pass reads unconditionally; a CSV without one of them makes it fail. */
  const ReadColumns: set<string> := {
    "monto_contrato", "fecha_inicio", "fecha_fin_inicial", "plazo_meses", "porcentaje_avance",
    "licitacion_anio", "mano_obra", "destacada", "comuna", "barrio", "direccion", "lat", "lng",
    "nombre", "descripcion"
  }

  /** The texts that mean "no data" (line 87 of gestionar_obras.py, besides NaN). */
  const NoDataMarkers: set<string> := {"", "A/D", "a/d", "s/d", "S/D", "Sin dato", "SIN DATO"}

  /** The table of multi-district values meant to pick one district (lines 125-140). */
  const ComunaVariants: map<string, string> := map[
    "4 y 1" := "4",
    "1 a 15" := "1",
    "14, 2 , 1" := "14",
    "1 y 4" := "1",
    "7 y 14" := "7",
    "7, 15 y 14" := "7",
    "7 y 9" := "9",
    "4, 8 y 9" := "8",
    "7, 8 y 9" := "7",
    "." := "0",
    "8 y 12" := "8",
    "1, 2, 3, 4, 5, 6, 7, 8, 9 y 10" := "1",
    "12 y 13" := "12",
    "10/11/12/13/14/15" := "10"
  ]

  /**
   * The table of neighbourhood spellings (lines 150-172).  The source lists the
   * "San Nicolas, Monserrat, San Telmo y La Boca" entry twice, with the same value.
   */
  const BarrioVariants: map<string, string> := map[
    "." := " ",
    "Villa 6 - Barrio Cilda\U{F1}ez" := "villa 6",
    "Nu\U{C3}\U{B1}ez" := "nu\U{F1}ez",
    "Cuenca Matanza- Riachuelo" := "cuenca matanza",
    "Barracas y Nueva Pompeya" := "barracas",
    "La Boca y San Telmo" := "la boca",
    "Territorio CABA" := "territorio caba",
    "Recoleta, Palermo y Retiro" := "recoleta",
    "San Nicolas, Monserrat, " + "San Telmo y La Boca" := "san nicolas",
    "P. Chacabuco/Palermo" := "parque chacabuco",
    "P. Chacabuco/Agronom\U{ED}a/ Palermo" := "parque chacabuco",
    "Flores, Floresta" := "flores",
    "Mataderos, Villa Riachuelo, " + "Barracas, Nueva Pompeya, " + "Villa Lugano y La Boca" := "mataderos",
    "Villa Soldati, Flores, " + "Floresta, Parque Avellaneda, " + "Mataderos, Villa Lugano, " +
      "Villa Riachuelo, Villa Lugano" := "villa soldati",
    "Villa Lugano, Parque " + "Avellaneda y Flores" := "villa lugano",
    "Villa Soldati y Saavedra" := "villa soldati",
    "Villa Soldati, Flores, " + "Floresta, Parque Avellaneda, " + "Mataderos, Villa Lugano, " +
      "Villa Riachuelo, Villa Lugano, " + "Liniers, Parque Chacabuco, " + "Caballito, Boedo, " +
      "San Cristobal, Constituci\U{F3}n, " + "Boca, Barracas, " + "Parque Patricios  y Nueva Pompeya" := "villa soldati",
    "Nu\U{F1}ez y Saavedra" := "nu\U{F1}ez",
    "YERBAL - VILLA LURO - " + "VELEZ SARFIELD FLORESTA - " + "MONTE CASTRO - " + "VILLA DEL PARQUE - " +
      "VILLA SANTA RITA - " + "PATERNAL - VILLA CRESPO - " + "VILLA URQUIZA" := "villa urquiza"
  ]

  /** The pattern that marks the one corrupt file number (line 197); each `.` in it matches any character. */
  const CorruptPattern: string := "EX-2016- 25.688.941\U{ED}\U{A2}\U{C2}\U{80}\U{C2}\U{93}MGEYA-DGIURB"

  /** Text columns given `" "` where missing (lines 201-202), including the misspelt `contraracion_tipo`. */
  const MandatoryColumns: set<string> := {
    "entorno", "nombre", "etapa", "tipo", "area_responsable", "descripcion", "barrio", "direccion",
    "licitacion_oferta_empresa", "contraracion_tipo", "nro_contratacion", "cuit_contratista"
  }

  // ---------------------------------------------------------------------
  // Cell-level helpers

  /** `astype(str)`: a NaN cell becomes the text `"nan"`. */
  function AsText(v: Option<string>): string {
    match v
    case Some(s) => s
    case None => "nan"
  }

  /** A column left as read. */
  function Pass(v: Option<string>): Cell {
    match v
    case Some(s) => Str(s)
    case None => Missing
  }

  /** `fillna(" ")`. */
  function FillBlank(c: Cell): Cell {
    if c.Missing? then Str(" ") else c
  }

  /** The outcome of `pd.to_numeric(errors="coerce")`: a number, or NaN. */
  function NumberOrMissing(x: Option<real>): Cell {
    match x
    case Some(n) => Number(n)
    case None => Missing
  }

  predicate IsBlank(s: string) { s == "" || s == " " }

  /** Lines 146-147 and 177-178: stripped, lower-cased, whitespace runs made single spaces. */
  function NormalizeName(s: string): string {
    Collapse(Lower(Strip(s)))
  }

  predicate Normalized(s: string) {
    Stripped(s) && NoUpper(s) && Collapsed(s)
  }

  // ---------------------------------------------------------------------
  // Column rules

  /**
   * `monto_contrato` (lines 65-74): an amount written the Argentine way,
   * `$ 1.234.567,89`, becomes 1234567.89 (`MontoArgentineFormat`).  A NaN
   * cell reads as `"nan"` and ends as NaN; a blank one ends as 0.
   */
  function MontoContrato(v: Option<string>): (r: Cell)
    ensures r.Number? || r.Missing?
    ensures IsBlank(MontoText(v)) ==> r == Number(0.0)
    ensures r.Missing? <==> !IsBlank(MontoText(v)) && ParseNumber(MontoText(v)).None?
    ensures !IsBlank(MontoText(v)) && ParseNumber(MontoText(v)).Some? ==> r == Number(ParseNumber(MontoText(v)).value)
  {
    var u := MontoText(v);
    if IsBlank(u) then Number(0.0) else NumberOrMissing(ParseNumber(u))
  }

  /**
   * Lines 65-72: the amount's text with the currency sign, the whitespace
   * and the thousands dots deleted and the decimal comma made a point.
   */
  function MontoText(v: Option<string>): string {
    var t := DeleteDollarAndSpace(Strip(AsText(v)));
    ReplaceChar(Delete(t, '.'), ',', '.')
  }

  /** `fecha_inicio` and `fecha_fin_inicial` (lines 80-81): a date, or NaT when the text is not one. */
  function Fecha(v: Option<string>, parseDate: string -> Option<Timestamp>): (r: Cell)
    ensures r.Day? || r.Missing?
    ensures v.None? ==> r.Missing?
  {
    match v
    case None => Missing
    case Some(s) =>
      match parseDate(s)
      case Some(d) => Day(d)
      case None => Missing
  }

  /**
   * `plazo_meses` (lines 86-90): a whole number of months; NaN, the
   * "no data" markers and text that is not a number count as 0, and a
   * fraction is dropped toward zero.
   */
  function PlazoMeses(v: Option<string>): (r: Cell)
    ensures r.Number? && IsIntegral(r.n)
    ensures v.None? || v.value in NoDataMarkers ==> r == Number(0.0)
    ensures v.Some? && v.value !in NoDataMarkers && ParseNumber(v.value).Some? ==>
              r.n == Trunc(ParseNumber(v.value).value) as real
    ensures v.Some? && v.value !in NoDataMarkers && ParseNumber(v.value).None? ==> r == Number(0.0)
  {
    var x := match v
             case None => 0.0
             case Some(s) =>
               if s in NoDataMarkers then 0.0
               else (match ParseNumber(s) case Some(n) => n case None => 0.0);
    Number(Trunc(x) as real)
  }

  /**
   * `porcentaje_avance` (lines 95-100): the number left once `%` signs are
   * removed, 0 when there is none.  The value is not limited to 0..100.
   */
  function PorcentajeAvance(v: Option<string>): (r: Cell)
    ensures r.Number?
    ensures v.None? || IsBlank(v.value) ==> r == Number(0.0)
    ensures v.Some? && !IsBlank(v.value) && ParseNumber(Delete(v.value, '%')).Some? ==>
              r == Number(ParseNumber(Delete(v.value, '%')).value)
    ensures v.Some? && !IsBlank(v.value) && ParseNumber(Delete(v.value, '%')).None? ==> r == Number(0.0)
  {
    DeleteAbsent("nan", '%');
    ParseNumberNeedsDigit("nan");
    DeleteAbsent("0", '%');
    ParseNumberDigits("0");
    var s := match v
             case None => "nan"
             case Some(s) => if IsBlank(s) then "0" else s;
    Number(match ParseNumber(Delete(s, '%')) case Some(n) => n case None => 0.0)
  }

  /** `licitacion_anio` (lines 105-107): NaN and blanks become 0, but other text that is not a number stays NaN. */
  function LicitacionAnio(v: Option<string>): (r: Cell)
    ensures r.Number? || r.Missing?
    ensures r.Missing? <==> v.Some? && !IsBlank(v.value) && ParseNumber(v.value).None?
    ensures v.None? || IsBlank(v.value) ==> r == Number(0.0)
    ensures v.Some? && !IsBlank(v.value) && ParseNumber(v.value).Some? ==> r == Number(ParseNumber(v.value).value)
  {
    match v
    case None => Number(0.0)
    case Some(s) => if IsBlank(s) then Number(0.0) else NumberOrMissing(ParseNumber(s))
  }

  /** `mano_obra` (lines 111-113): a number, 0 when there is none. */
  function ManoObra(v: Option<string>): (r: Cell)
    ensures r.Number?
    ensures v.Some? && !IsBlank(v.value) && ParseNumber(v.value).Some? ==> r.n == ParseNumber(v.value).value
    ensures v.None? || IsBlank(v.value) || ParseNumber(v.value).None? ==> r.n == 0.0
  {
    match v
    case None => Number(0.0)
    case Some(s) =>
      if IsBlank(s) then Number(0.0)
      else Number(match ParseNumber(s) case Some(n) => n case None => 0.0)
  }

  /** `destacada` (lines 117-118): true exactly for "SI" in any letter case, surrounding whitespace aside; NaN is false. */
  function Destacada(v: Option<string>): (r: Cell)
    ensures r.Flag?
    ensures r.b <==> v.Some? && Strip(v.value) in {"SI", "Si", "sI", "si"}
  {
    StrippedFixpoint("nan");
    UpperSi(Strip(AsText(v)));
    Flag(Upper(Strip(AsText(v))) == "SI")
  }

  /**
   * `comuna` (lines 122-123, 142, 211): the district number, truncated to an
   * integer, and 0 when the text is blank or not a number.  The variant table
   * is applied after the conversion to numbers, when no cell can equal one of
   * its text keys any more, so it never changes a value (`ComunaVariantsUnused`).
   */
  function Comuna(v: Option<string>): (r: Cell)
    ensures r.Number? && IsIntegral(r.n)
    ensures v.Some? && !IsBlank(v.value) && ParseNumber(v.value).Some? ==> r.n == Trunc(ParseNumber(v.value).value) as real
    ensures v.None? || IsBlank(v.value) || ParseNumber(v.value).None? ==> r == Number(0.0)
  {
    var x := match v
             case None => None
             case Some(s) => if IsBlank(s) then Some(0.0) else ParseNumber(s);
    match x
    case Some(n) => Number(Trunc(n) as real)
    case None => Number(0.0)
  }

  /** `Series.replace` with a table, on one value: the value the table gives a key, any other value unchanged. */
  function Replace(table: map<string, string>, x: string): string {
    if x in table then table[x] else x
  }

  /** Lines 212-213: a name that reads "nan" or is blank gives way to `default`. */
  function NameOr(t: string, default: string): string {
    if !IsNanText(t) && Strip(t) != "" then t else default
  }

  /**
   * `barrio` (lines 146-147, 173, 212): the neighbourhood name normalised
   * and looked up in the variant table; "nan" or an empty name becomes
   * "sin barrio".  The result is the input's normalised name, except that
   * "nan", "" and "." (the one table entry a lower-cased name can reach)
   * become "sin barrio"; it is never a key of the variant table.
   */
  function Barrio(v: Option<string>): (r: Cell)
    ensures r.Str?
    ensures r.s == "sin barrio" || (Normalized(r.s) && r.s != "" && r.s != "nan" && r.s !in BarrioVariants)
    ensures NormalizeName(AsText(v)) in BarrioVariants ==> NormalizeName(AsText(v)) == "." && r.s == "sin barrio"
    ensures NormalizeName(AsText(v)) !in BarrioVariants ==>
              r.s == if NormalizeName(AsText(v)) in {"", "nan"} then "sin barrio" else NormalizeName(AsText(v))
  {
    var y := NormalizeName(AsText(v));
    NormalizeNameNormalized(AsText(v));
    BarrioReplaceNormalized(y);
    BlankNotNan();
    SpaceStripsToEmpty();
    NormalizedNanText(y);
    StrippedFixpoint(y);
    if y in BarrioVariants then
      BarrioVariantsReachable(y);
      Str(NameOr(Replace(BarrioVariants, y), "sin barrio"))
    else
      Str(NameOr(Replace(BarrioVariants, y), "sin barrio"))
  }

  /** `direccion` (lines 177-178, 215): the address normalised; "nan" becomes a single space. */
  function Direccion(v: Option<string>): (r: Cell)
    ensures r.Str?
    ensures r.s == " " || (Normalized(r.s) && r.s != "nan")
    ensures NormalizeName(AsText(v)) != "nan" ==> r.s == NormalizeName(AsText(v))
    ensures NormalizeName(AsText(v)) == "nan" ==> r.s == " "
  {
    var y := NormalizeName(AsText(v));
    NormalizeNameNormalized(AsText(v));
    NormalizedNanText(y);
    Str(if !IsNanText(y) then y else " ")
  }

  /**
   * `lat` and `lng` (lines 182-186): a decimal comma is accepted.  A blank
   * cell is first replaced by the number 0, which the following `.str`
   * operation turns into NaN, so blank coordinates end up missing.
   */
  function Coordinate(v: Option<string>): (r: Cell)
    ensures r.Number? || r.Missing?
  {
    var s := Strip(AsText(v));
    if IsBlank(s) then Missing
    else NumberOrMissing(ParseNumber(ReplaceChar(s, ',', '.')))
  }

  /** `cuit_contratista` and `expediente-numero` (lines 190-192): no whitespace around `;` separators. */
  function Separated(v: Option<string>): (r: Cell)
    ensures r.Missing? <==> v.None?
    ensures r.Str? ==> NoSpaceAroundSemicolons(r.s) && NonSpace(r.s) == NonSpace(v.value)
  {
    match v
    case None => Missing
    case Some(s) => Str(NormalizeSemicolons(s))
  }

  /** `nombre` (lines 205-207, 213): "SIN NOMBRE" in place of a missing, "nan" or blank name. */
  function Nombre(v: Option<string>): (r: Cell)
    ensures r.Str? && !IsNanText(r.s) && Strip(r.s) != ""
    ensures v.Some? && !IsNanText(v.value) && Strip(v.value) != "" ==> r.s == v.value
  {
    SinNombre();
    Str(NameOr(match v case Some(s) => s case None => " ", "SIN NOMBRE"))
  }

  /** `descripcion` (line 214): a single space in place of a missing or "nan" description. */
  function Descripcion(v: Option<string>): (r: Cell)
    ensures r.Str? && !IsNanText(r.s)
    ensures v.Some? && !IsNanText(v.value) ==> r.s == v.value
  {
    BlankNotNan();
    match v
    case Some(s) => if !IsNanText(s) then Str(s) else Str(" ")
    case None => Str(" ")
  }

  /** The rule for one column; on text, or outside the accent-folded columns, it gives the kind of value `CellShape` names. */
  function CleanCell(col: string, v: Option<string>, parseDate: string -> Option<Timestamp>): (r: Cell)
    ensures col !in AccentColumns || v.Some? ==> CellShape(col, r)
  {
    if col == "monto_contrato" then MontoContrato(v)
    else if col == "fecha_inicio" || col == "fecha_fin_inicial" then Fecha(v, parseDate)
    else if col == "plazo_meses" then PlazoMeses(v)
    else if col == "porcentaje_avance" then PorcentajeAvance(v)
    else if col == "licitacion_anio" then LicitacionAnio(v)
    else if col == "mano_obra" then ManoObra(v)
    else if col == "destacada" then Destacada(v)
    else if col == "comuna" then Comuna(v)
    else if col == "barrio" then Barrio(v)
    else if col == "direccion" then Direccion(v)
    else if col == "lat" || col == "lng" then Coordinate(v)
    else if col == "cuit_contratista" then FillBlank(Separated(v))
    else if col == "expediente-numero" then Separated(v)
    else if col == "nombre" then Nombre(v)
    else if col == "descripcion" then Descripcion(v)
    else if col in MandatoryColumns then FillBlank(Pass(v))
    else Pass(v)
  }

  /** The kind of value each column holds once cleaned; the same dispatch as `CleanCell`. */
  predicate CellShape(col: string, c: Cell) {
    if col == "monto_contrato" then c.Number? || c.Missing?
    else if col == "fecha_inicio" || col == "fecha_fin_inicial" then c.Day? || c.Missing?
    else if col == "plazo_meses" then c.Number? && IsIntegral(c.n)
    else if col == "porcentaje_avance" then c.Number?
    else if col == "licitacion_anio" then c.Number? || c.Missing?
    else if col == "mano_obra" then c.Number?
    else if col == "destacada" then c.Flag?
    else if col == "comuna" then c.Number? && IsIntegral(c.n)
    else if col == "barrio" then c.Str? && (c.s == "sin barrio" || (Normalized(c.s) && c.s != "" && c.s != "nan"))
    else if col == "direccion" then c.Str? && (c.s == " " || Normalized(c.s))
    else if col == "lat" || col == "lng" then c.Number? || c.Missing?
    else if col == "cuit_contratista" then c.Str? && (c.s == " " || NoSpaceAroundSemicolons(c.s))
    else if col == "expediente-numero" then (c.Str? || c.Missing?) && (c.Str? ==> NoSpaceAroundSemicolons(c.s))
    else if col == "nombre" then c.Str? && Strip(c.s) != "" && !IsNanText(c.s)
    else if col == "descripcion" then c.Str? && !IsNanText(c.s)
    else (c.Str? || c.Missing?) && (col in AccentColumns ==> c.Str?)
  }

  // ---------------------------------------------------------------------
  // Row and table level

  /** Lines 37-40: the listed columns become `unidecode(str(value))`. */
  function Transliterate(r: RawRow, translit: string -> string): (q: RawRow)
    ensures q.Keys == r.Keys
    ensures forall c :: c in q && c in AccentColumns ==> q[c] == Some(translit(AsText(r[c])))
    ensures forall c :: c in q && c !in AccentColumns ==> q[c] == r[c]
  {
    map c | c in r :: if c in AccentColumns then Some(translit(AsText(r[c]))) else r[c]
  }

  /** Lines 44-51: the `Unnamed` columns and the listed ones are dropped. */
  predicate KeepColumn(c: string) {
    !StartsWith(c, "Unnamed") && c !in DroppedColumns
  }

  /** A row as it stands before the per-column rules: folded and pruned. */
  function Prepare(r: RawRow, translit: string -> string): (q: RawRow)
    ensures forall c :: c in q <==> c in r && KeepColumn(c)
    ensures forall c :: c in q ==> q[c] == if c in AccentColumns then Some(translit(AsText(r[c]))) else r[c]
  {
    SelectColumns(Transliterate(r, translit), KeepColumn)
  }

  function Prepared(rows: seq<RawRow>, translit: string -> string): seq<RawRow> {
    Map(rows, r => Prepare(r, translit))
  }

  /** Lines 62-192 and 205-215 applied to one row. */
  function CleanRow(r: RawRow, parseDate: string -> Option<Timestamp>): (q: Row)
    ensures q.Keys == r.Keys
  {
    map c | c in r :: CleanCell(c, r[c], parseDate)
  }

  /**
   * Line 197: the row whose file number holds the corrupt text.  A missing
   * file number, or one shorter than the pattern, never matches.
   */
  predicate IsCorrupt(row: Row)
    ensures IsCorrupt(row) ==> "expediente-numero" in row && row["expediente-numero"].Str? && |CorruptPattern| <= |row["expediente-numero"].s|
  {
    "expediente-numero" in row && row["expediente-numero"].Str? &&
    ContainsPattern(row["expediente-numero"].s, CorruptPattern)
  }

  /** Every column of the row holds the kind of value its rule produces. */
  predicate Cleaned(row: Row) {
    forall c :: c in row ==> CellShape(c, row[c])
  }

  /** Every accent-folded column holds text. */
  predicate Folded(r: RawRow) {
    forall c :: c in r && c in AccentColumns ==> r[c].Some?
  }

  /**
   * `limpiar_datos` over the rows of the CSV, whose columns are `header`.
   * A CSV without one of the columns the pass reads makes it fail with a
   * `KeyError` (`None`).  Otherwise the result holds, in order of first
   * appearance, one cleaned row for each distinct prepared row, except the
   * corrupt one; `origen` are the prepared rows they come from.
   */
  method LimpiarDatos(header: set<string>, crudo: seq<RawRow>, translit: string -> string,
                      parseDate: string -> Option<Timestamp>)
    returns (obras: Option<seq<Row>>, ghost origen: seq<RawRow>)
    requires forall i :: 0 <= i < |crudo| ==> crudo[i].Keys == header
    ensures obras.None? <==> !(ReadColumns <= header)
    ensures obras.Some? ==> |obras.value| == |origen| <= |crudo|
    ensures obras.Some? ==> forall k :: 0 <= k < |obras.value| ==> obras.value[k] == CleanRow(origen[k], parseDate)
    ensures obras.Some? ==> OrderedBy(origen, Prepared(crudo, translit))
    ensures obras.Some? ==>
              forall i :: 0 <= i < |crudo| && !IsCorrupt(CleanRow(Prepare(crudo[i], translit), parseDate)) ==>
                Prepare(crudo[i], translit) in origen
    ensures obras.Some? ==>
              forall k :: 0 <= k < |obras.value| ==>
                !IsCorrupt(obras.value[k]) && Cleaned(obras.value[k]) && ReadColumns <= obras.value[k].Keys
  {
    if !(ReadColumns <= header) {
      return None, [];
    }
    var preparadas := Prepared(crudo, translit);
    var filas;
    filas, origen := DedupApplyFilter(preparadas, r => CleanRow(r, parseDate), (row: Row) => !IsCorrupt(row),
                                      r => !IsCorrupt(CleanRow(r, parseDate)));
    PreparedRowsShape(crudo, translit);
    CleanedRows(origen, preparadas, parseDate);
    obras := Some(filas);
  }

  // ---------------------------------------------------------------------
  // Lemmas

  /** None of the columns the pass reads is dropped. */
  lemma ReadColumnKept(c: string)
    requires c in ReadColumns
    ensures KeepColumn(c)
  {
    assert c[0] != 'U';
  }

  /** Preparing keeps the columns the pass reads and folds the accent columns to text. */
  lemma PreparedShape(r: RawRow, translit: string -> string)
    requires ReadColumns <= r.Keys
    ensures ReadColumns <= Prepare(r, translit).Keys
    ensures Folded(Prepare(r, translit))
  {
    forall c | c in ReadColumns
      ensures c in Prepare(r, translit)
    {
      ReadColumnKept(c);
    }
  }

  lemma PreparedRowsShape(crudo: seq<RawRow>, translit: string -> string)
    requires forall i :: 0 <= i < |crudo| ==> ReadColumns <= crudo[i].Keys
    ensures forall j :: 0 <= j < |crudo| ==>
              ReadColumns <= Prepared(crudo, translit)[j].Keys && Folded(Prepared(crudo, translit)[j])
  {
    forall j | 0 <= j < |crudo|
      ensures ReadColumns <= Prepared(crudo, translit)[j].Keys && Folded(Prepared(crudo, translit)[j])
    {
      PreparedShape(crudo[j], translit);
    }
  }

  lemma CleanedRows(rows: seq<RawRow>, from: seq<RawRow>, parseDate: string -> Option<Timestamp>)
    requires forall k :: 0 <= k < |rows| ==> rows[k] in from
    requires forall j :: 0 <= j < |from| ==> ReadColumns <= from[j].Keys && Folded(from[j])
    ensures forall k :: 0 <= k < |rows| ==>
              Cleaned(CleanRow(rows[k], parseDate)) && ReadColumns <= CleanRow(rows[k], parseDate).Keys
  {
    forall k | 0 <= k < |rows|
      ensures Cleaned(CleanRow(rows[k], parseDate)) && ReadColumns <= CleanRow(rows[k], parseDate).Keys
    {
      var j :| 0 <= j < |from| && from[j] == rows[k];
      CleanRowCleaned(rows[k], parseDate);
    }
  }

  /** Every cleaned row has the shape `Cleaned` describes. */
  lemma CleanRowCleaned(r: RawRow, parseDate: string -> Option<Timestamp>)
    requires Folded(r)
    ensures Cleaned(CleanRow(r, parseDate))
  {
    forall c | c in r
      ensures CellShape(c, CleanRow(r, parseDate)[c])
    {
      assert CleanRow(r, parseDate)[c] == CleanCell(c, r[c], parseDate);
    }
  }

  lemma NormalizeNameNormalized(s: string)
    ensures Normalized(NormalizeName(s))
  {
    var t := Strip(s);
    LowerNormalizes(t);
    CollapseKeeps(Lower(t));
    CollapseCollapsed(Lower(t));
  }

  /** Normalising a normalised name leaves it unchanged. */
  lemma NormalizeNameFixpoint(s: string)
    requires Normalized(s)
    ensures NormalizeName(s) == s
  {
    StrippedFixpoint(s);
    LowerNormalizes(s);
    CollapseFixpoint(s);
  }

  lemma NormalizedNanText(s: string)
    requires Normalized(s)
    ensures IsNanText(s) <==> s == "nan"
  {
    StrippedFixpoint(s);
    LowerNormalizes(s);
  }

  /**
   * Of the neighbourhood table only the `"."` entry can ever apply: every
   * other key starts with a capital letter, and the names are lower-cased
   * before the table is consulted.
   */
  lemma BarrioVariantsReachable(y: string)
    requires NoUpper(y) && y in BarrioVariants
    ensures y == "."
  {
    BarrioVariantsCapitalised(y);
  }

  lemma BarrioVariantsCapitalised(k: string)
    requires k in BarrioVariants
    ensures k == "." || IsUpper(k[0])
  {
  }

  lemma SpaceStripsToEmpty()
    ensures Strip(" ") == ""
  {
    assert Stripped(Strip(" "));
  }

  lemma BlankNotNan()
    ensures !IsNanText(" ")
  {
    SpaceStripsToEmpty();
  }

  lemma SinBarrioNormalized()
    ensures Normalized("sin barrio") && "sin barrio" !in BarrioVariants
    ensures !IsNanText("sin barrio") && Strip("sin barrio") == "sin barrio"
  {
    SinBarrioStripped();
    SinBarrioCollapsed();
    StrippedFixpoint("sin barrio");
    LowerNormalizes("sin barrio");
    if "sin barrio" in BarrioVariants {
      BarrioVariantsCapitalised("sin barrio");
    }
  }

  lemma SinBarrioStripped()
    ensures Stripped("sin barrio") && NoUpper("sin barrio")
  {
  }

  lemma SinBarrioCollapsed()
    ensures Collapsed("sin barrio")
  {
    var s := "sin barrio";
    forall i | 0 <= i < |s| && IsSpace(s[i])
      ensures s[i] == ' ' && (i + 1 < |s| ==> !IsSpace(s[i + 1]))
    {
      assert i == 3;
    }
  }

  lemma BarrioDot()
    ensures "." in BarrioVariants && BarrioVariants["."] == " "
  {
  }

  /** On a normalised name the table can only turn "." into a blank. */
  lemma BarrioReplaceNormalized(y: string)
    requires Normalized(y)
    ensures Replace(BarrioVariants, y) == if y == "." then " " else y
  {
    BarrioDot();
    if y in BarrioVariants {
      BarrioVariantsReachable(y);
    }
  }

  /** A normalised name that is not ".", "nan" or "" is its own neighbourhood. */
  lemma BarrioOfNormalized(z: string)
    requires Normalized(z) && z != "" && z != "nan" && z != "."
    ensures Barrio(Some(z)) == Str(z)
  {
    NormalizeNameFixpoint(z);
    BarrioReplaceNormalized(z);
    NormalizedNanText(z);
    StrippedFixpoint(z);
  }

  /** The neighbourhood rule is idempotent: a cleaned name is cleaned to itself. */
  lemma BarrioIdempotent(v: Option<string>)
    ensures Barrio(Some(Barrio(v).s)) == Barrio(v)
  {
    var z := Barrio(v).s;
    BarrioDot();
    if z == "sin barrio" {
      SinBarrioNormalized();
      BarrioOfNormalized(z);
    } else {
      BarrioOfNormalized(z);
    }
  }

  /** A name written with stray blanks and capitals is cleaned to its plain form, as a neighbourhood or an address. */
  lemma BarrioExample()
    ensures Barrio(Some("  Villa   URQUIZA ")) == Str("villa urquiza")
    ensures Direccion(Some("  Villa   URQUIZA ")) == Str("villa urquiza")
  {
    NormalizeExample();
    BarrioOfName(Some("  Villa   URQUIZA "), "villa urquiza");
  }

  /** A name that normalises to anything but "", "nan" or "." is kept as normalised. */
  lemma BarrioOfName(v: Option<string>, y: string)
    requires NormalizeName(AsText(v)) == y && y != "" && y != "nan" && y != "."
    ensures Barrio(v) == Str(y)
  {
  }

  lemma NormalizeExample()
    ensures NormalizeName("  Villa   URQUIZA ") == "villa urquiza"
  {
    ExampleStripped();
    ExampleLowered();
    ExampleCollapsed();
  }

  lemma ExampleStripped()
    ensures Strip("  Villa   URQUIZA ") == "Villa   URQUIZA"
  {
    var p, b, q := "  ", "Villa   URQUIZA", " ";
    assert p + b + q == "  Villa   URQUIZA ";
    StripBetween(p, b, q);
  }

  lemma ExampleLowered()
    ensures Lower("Villa   URQUIZA") == "villa   urquiza"
  {
  }

  lemma ExampleCollapsed()
    ensures Collapse("villa   urquiza") == "villa urquiza"
  {
    var a, sp, b := "villa", "   ", "urquiza";
    assert a + sp + b == "villa   urquiza";
    CollapseSpaced(a, sp, b);
    assert a + " " + b == "villa urquiza";
  }

  /** What a cleaned `barrio` cell holds. */
  lemma BarrioShape(c: Cell)
    requires CellShape("barrio", c)
    ensures c.Str? && (c.s == "sin barrio" || (Normalized(c.s) && c.s != "" && c.s != "nan"))
  {
  }

  lemma SinNombre()
    ensures !IsNanText("SIN NOMBRE") && Strip("SIN NOMBRE") != ""
  {
    StrippedFixpoint("SIN NOMBRE");
  }

  lemma {:induction false} DeleteDollarAndSpaceKeeps(s: string)
    requires forall i :: 0 <= i < |s| ==> s[i] != '$' && !IsSpace(s[i])
    ensures DeleteDollarAndSpace(s) == s
  {
    if s != [] {
      DeleteDollarAndSpaceKeeps(s[1..]);
      assert s == [s[0]] + s[1..];
    }
  }

  lemma {:induction false} DeleteDollarAndSpaceDrops(s: string)
    requires forall i :: 0 <= i < |s| ==> s[i] == '$' || IsSpace(s[i])
    ensures DeleteDollarAndSpace(s) == []
  {
    if s != [] {
      DeleteDollarAndSpaceDrops(s[1..]);
    }
  }

  /** Stripping before deleting all whitespace and dollar signs makes no difference. */
  lemma DeleteDollarAndSpaceStrip(s: string)
    ensures DeleteDollarAndSpace(Strip(s)) == DeleteDollarAndSpace(s)
  {
    var i := LeadingSpaces(s);
    var j := i + |Strip(s)|;
    assert s == s[..i] + s[i..j] + s[j..];
    DeleteDollarAndSpaceAppend(s[..i] + s[i..j], s[j..]);
    DeleteDollarAndSpaceAppend(s[..i], s[i..j]);
    DeleteDollarAndSpaceDrops(s[..i]);
    DeleteDollarAndSpaceDrops(s[j..]);
  }

  lemma {:induction false} DeleteDigitsAndDots(w: string)
    requires forall i :: 0 <= i < |w| ==> IsDigit(w[i]) || w[i] == '.'
    ensures AllDigits(Delete(w, '.'))
  {
    if w != [] {
      DeleteDigitsAndDots(w[1..]);
    }
  }

  /** The currency sign and blanks in front are dropped, the rest is kept. */
  lemma MontoPrefixDropped(prefix: string, whole: string, frac: string)
    requires forall i :: 0 <= i < |prefix| ==> prefix[i] == '$' || IsSpace(prefix[i])
    requires forall i :: 0 <= i < |whole| ==> IsDigit(whole[i]) || whole[i] == '.'
    requires AllDigits(frac)
    ensures DeleteDollarAndSpace(Strip(prefix + whole + "," + frac)) == whole + "," + frac
  {
    var body := whole + "," + frac;
    assert prefix + whole + "," + frac == prefix + body;
    forall i | 0 <= i < |body|
      ensures body[i] != '$' && !IsSpace(body[i])
    {
      if i > |whole| {
        assert body[i] == frac[i - |whole| - 1];
      }
    }
    DeleteDollarAndSpaceStrip(prefix + body);
    DeleteDollarAndSpaceAppend(prefix, body);
    DeleteDollarAndSpaceDrops(prefix);
    DeleteDollarAndSpaceKeeps(body);
  }

  lemma MontoDotsDropped(whole: string, frac: string)
    requires AllDigits(frac)
    ensures Delete(whole + "," + frac, '.') == Delete(whole, '.') + "," + frac
  {
    DeleteAppend(whole, "," + frac, '.');
    DeleteAbsent("," + frac, '.');
    assert whole + "," + frac == whole + ("," + frac);
  }

  lemma MontoCommaToPoint(w: string, frac: string)
    requires AllDigits(w) && AllDigits(frac)
    ensures ReplaceChar(w + "," + frac, ',', '.') == w + "." + frac
  {
  }

  lemma MontoUnfold(s: string, t: string)
    requires DeleteDollarAndSpace(Strip(s)) == t && !IsBlank(ReplaceChar(Delete(t, '.'), ',', '.'))
    ensures MontoContrato(Some(s)) == NumberOrMissing(ParseNumber(ReplaceChar(Delete(t, '.'), ',', '.')))
  {
  }

  /**
   * An amount written with a currency sign and spaces in front, dots between
   * thousands and a decimal comma is read as that amount: the dots are
   * dropped and the comma becomes the decimal point.
   */
  lemma MontoArgentineFormat(prefix: string, whole: string, frac: string)
    requires forall i :: 0 <= i < |prefix| ==> prefix[i] == '$' || IsSpace(prefix[i])
    requires forall i :: 0 <= i < |whole| ==> IsDigit(whole[i]) || whole[i] == '.'
    requires AllDigits(frac)
    requires |Delete(whole, '.')| + |frac| > 0
    ensures AllDigits(Delete(whole, '.'))
    ensures MontoContrato(Some(prefix + whole + "," + frac)) == Number(DecimalValue(Delete(whole, '.'), frac))
  {
    var w := Delete(whole, '.');
    DeleteDigitsAndDots(whole);
    MontoPrefixDropped(prefix, whole, frac);
    MontoDotsDropped(whole, frac);
    MontoCommaToPoint(w, frac);
    MontoUnfold(prefix + whole + "," + frac, whole + "," + frac);
    ParseNumberDecimal(w, frac);
  }

  predicate LowerWord(s: string) {
    s != [] && forall i :: 0 <= i < |s| ==> IsLower(s[i])
  }

  lemma LowerWordStripped(s: string)
    requires LowerWord(s)
    ensures Strip(s) == s
  {
    assert Stripped(s);
    StrippedFixpoint(s);
  }

  lemma LowerWordNoSigns(s: string)
    requires LowerWord(s)
    ensures DeleteDollarAndSpace(s) == s
  {
    DeleteDollarAndSpaceKeeps(s);
  }

  lemma LowerWordNoSeparators(s: string)
    requires LowerWord(s)
    ensures ReplaceChar(Delete(s, '.'), ',', '.') == s
  {
    DeleteAbsent(s, '.');
    assert ReplaceChar(s, ',', '.') == s;
  }

  /** An amount made of lower-case letters only, such as the `"nan"` a NaN cell reads as, is not a number. */
  lemma MontoWord(s: string)
    requires LowerWord(s)
    ensures MontoContrato(Some(s)) == Missing
  {
    LowerWordStripped(s);
    LowerWordNoSigns(s);
    LowerWordNoSeparators(s);
    assert s[0] != ' ';
    MontoUnfold(s, s);
    ParseNumberNeedsDigit(s);
  }

  /** A NaN amount stays NaN; the loader later stores it as 0. */
  lemma MontoMissing(v: Option<string>)
    requires v.None?
    ensures MontoContrato(v) == Missing
  {
    MontoWord(AsText(v));
  }

  /** A blank amount becomes 0. */
  lemma MontoBlank()
    ensures MontoContrato(Some("")) == Number(0.0)
  {
    assert Strip("") == "";
  }

  /** Upper-cased, exactly the four spellings of "si" read "SI". */
  lemma UpperSi(t: string)
    ensures Upper(t) == "SI" <==> t in {"SI", "Si", "sI", "si"}
  {
    if Upper(t) == "SI" {
      assert |t| == 2 && ToUpper(t[0]) == 'S' && ToUpper(t[1]) == 'I';
      assert t == [t[0], t[1]];
    }
  }

  lemma ComunaNotNumber(s: string, i: nat)
    requires i < |s| && !NumberChar(s[i]) && !IsBlank(s)
    ensures Comuna(Some(s)) == Number(0.0)
  {

  }

  /**
   * No entry of the district table ever applies: every key is text that is
   * not a number, so the cell is already 0 when the table is consulted; in
   * particular "7, 8 y 9" ends as 0, not 7.
   */
  lemma ComunaVariantsUnused(k: string)
    requires k in ComunaVariants
    ensures Comuna(Some(k)) == Number(0.0)
  {
    ComunaKeyNotNumber(k);
    if k == "." {
      ParseNumberNeedsDigit(k);
    } else {
      var i :| 0 <= i < |k| && !NumberChar(k[i]);
      ComunaNotNumber(k, i);
    }
  }

  lemma ComunaKeyNotNumber(k: string)
    requires k in ComunaVariants
    ensures k == "." || (!IsBlank(k) && exists i :: 0 <= i < |k| && !NumberChar(k[i]))
  {
    if k != "." {
      assert |k| > 3;
      if NumberChar(k[1]) && NumberChar(k[2]) {
        assert !NumberChar(k[3]);
      }
    }
  }

  /** A blank coordinate is missing rather than 0. */
  lemma CoordinateBlank(s: string)
    requires forall i :: 0 <= i < |s| ==> IsSpace(s[i])
    ensures Coordinate(Some(s)) == Missing
  {
    assert AllSpace(Strip(s));
  }

  lemma CoordinateOf(s: string, t: string, x: real)
    requires Stripped(s) && !IsBlank(s)
    requires ReplaceChar(s, ',', '.') == t && ParseNumber(t) == Some(x)
    ensures Coordinate(Some(s)) == Number(x)
  {
    StrippedFixpoint(s);
  }

  lemma NegativeCommaStripped(whole: string, frac: string)
    requires AllDigits(whole) && AllDigits(frac) && whole != [] && frac != []
    ensures Stripped("-" + whole + "," + frac)
  {
    var s := "-" + whole + "," + frac;
    assert s[|s| - 1] == frac[|frac| - 1];
  }

  lemma NegativeCommaReplaced(whole: string, frac: string)
    requires AllDigits(whole) && AllDigits(frac)
    ensures ReplaceChar("-" + whole + "," + frac, ',', '.') == "-" + (whole + "." + frac)
  {
  }

  lemma DecimalEndsInDigit(whole: string, frac: string)
    requires AllDigits(frac) && frac != []
    ensures !IsAsciiSpace((whole + "." + frac)[|whole + "." + frac| - 1])
  {
    var b := whole + "." + frac;
    assert b[|b| - 1] == frac[|frac| - 1];
  }

  lemma NegativeDecimal(whole: string, frac: string)
    requires AllDigits(whole) && AllDigits(frac) && frac != []
    ensures ParseNumber("-" + (whole + "." + frac)) == Some(-DecimalValue(whole, frac))
  {
    ParseUnsignedDecimal(whole, frac);
    DecimalEndsInDigit(whole, frac);
    ParseNumberMinus(whole + "." + frac, DecimalValue(whole, frac));
  }

  /** A negative coordinate written with a decimal comma is read as that number. */
  lemma CoordinateDecimalComma(whole: string, frac: string)
    requires AllDigits(whole) && AllDigits(frac) && whole != [] && frac != []
    ensures Coordinate(Some("-" + whole + "," + frac)) == Number(-DecimalValue(whole, frac))
  {
    NegativeCommaFacts(whole, frac);
    CoordinateOf("-" + whole + "," + frac, "-" + (whole + "." + frac), -DecimalValue(whole, frac));
  }

  /** `-<whole>,<frac>` is stripped text that reads, once `,` becomes `.`, as minus the decimal. */
  lemma NegativeCommaFacts(whole: string, frac: string)
    requires AllDigits(whole) && AllDigits(frac) && whole != [] && frac != []
    ensures Stripped("-" + whole + "," + frac) && !IsBlank("-" + whole + "," + frac)
    ensures ReplaceChar("-" + whole + "," + frac, ',', '.') == "-" + (whole + "." + frac)
    ensures ParseNumber("-" + (whole + "." + frac)) == Some(-DecimalValue(whole, frac))
  {
    NegativeCommaStripped(whole, frac);
    NegativeCommaReplaced(whole, frac);
    NegativeDecimal(whole, frac);
    assert |"-" + whole + "," + frac| >= 3;
  }

  lemma PercentDropped(digits: string)
    requires AllDigits(digits)
    ensures Delete(digits + "%", '%') == digits
  {
    DeleteAppend(digits, "%", '%');
    DeleteAbsent(digits, '%');
  }

  /**
   * The percentage is the number in front of the `%` sign, whatever its
   * size: nothing limits it to 0..100.
   */
  lemma PorcentajeDigits(digits: string)
    requires AllDigits(digits) && digits != []
    ensures PorcentajeAvance(Some(digits + "%")) == Number(DigitsValue(digits) as real)
  {
    PercentDropped(digits);
    ParseNumberDigits(digits);
  }

  /** Every character is ASCII. */
  predicate IsAscii(s: string) {
    forall i :: 0 <= i < |s| ==> s[i] < '\U{80}'
  }

  /** What the model relies on about `unidecode`: it leaves ASCII text as it is. */
  ghost predicate Unidecode(translit: string -> string) {
    forall s :: IsAscii(s) ==> translit(s) == s
  }

  lemma NanNormalized()
    ensures Normalized("nan") && NormalizeName("nan") == "nan" && IsNanText("nan") && Strip("nan") == "nan"
  {
    assert Stripped("nan");
    StrippedFixpoint("nan");
    NormalizeNameFixpoint("nan");
  }

  /** A NaN cell of an accent-folded column reaches its rule as the text "nan". */
  lemma NanFolded(r: RawRow, translit: string -> string, c: string)
    requires Unidecode(translit)
    requires c in r && r[c].None? && c in {"barrio", "nombre", "descripcion", "direccion"}
    ensures c in Prepare(r, translit) && AsText(Prepare(r, translit)[c]) == "nan"
  {
    assert IsAscii("nan");
    assert c in AccentColumns;
    assert c !in DroppedColumns;
    assert !StartsWith(c, "Unnamed") by {
      assert c[0] != 'U';
    }
    assert Prepare(r, translit)[c] == Some(translit(AsText(r[c])));
  }

  /**
   * End to end, a row whose neighbourhood, name, description and address
   * are NaN reaches the rules of those columns (`Barrio`, `Nombre`,
   * `Descripcion`, `Direccion`, which `CleanCell` applies to them) as the text
   * "nan", since `unidecode(str(nan))` is "nan"; the rules turn it into
   * "sin barrio", "SIN NOMBRE" and a blank description and address.
   */
  lemma NanTextColumns(r: RawRow, translit: string -> string)
    requires Unidecode(translit)
    requires "barrio" in r && r["barrio"].None? && "nombre" in r && r["nombre"].None?
    requires "descripcion" in r && r["descripcion"].None? && "direccion" in r && r["direccion"].None?
    ensures var p := Prepare(r, translit);
            && "barrio" in p && Barrio(p["barrio"]) == Str("sin barrio")
            && "nombre" in p && Nombre(p["nombre"]) == Str("SIN NOMBRE")
            && "descripcion" in p && Descripcion(p["descripcion"]) == Str(" ")
            && "direccion" in p && Direccion(p["direccion"]) == Str(" ")
  {
    var p := Prepare(r, translit);
    NanFolded(r, translit, "barrio");
    NanFolded(r, translit, "nombre");
    NanFolded(r, translit, "descripcion");
    NanFolded(r, translit, "direccion");
    NanRules(p["barrio"], p["nombre"], p["descripcion"], p["direccion"]);
  }

  /** The rules of the four text columns on cells that read as "nan". */
  lemma NanRules(b: Option<string>, n: Option<string>, d: Option<string>, a: Option<string>)
    requires AsText(b) == "nan" && AsText(n) == "nan" && AsText(d) == "nan" && AsText(a) == "nan"
    ensures Barrio(b) == Str("sin barrio")
    ensures Nombre(n) == Str("SIN NOMBRE")
    ensures Descripcion(d) == Str(" ")
    ensures Direccion(a) == Str(" ")
  {
    NanNormalized();
    BarrioReplaceNormalized("nan");
    SinNombre();
    SpaceStripsToEmpty();
  }
}
