/**
 * `GestionarObra.cargar_datos` (gestionar_obras.py, lines 253-363): every
 * cleaned row is stored as an `Obra` of modelo_orm.py, after its lookup rows
 * are found or created.  The lookup rows are created outside the `try`, so
 * they stay even when saving the `Obra` fails; such a row is reported and
 * the loop goes on.
 *
 * What the database refuses on `Obra.save` besides the NOT NULL dates
 * (disk, locks, anything SQLite may raise) is the parameter `accepts`.
 */
module Carga {
  import opened Wrappers
  import opened Text
  import opened Numbers
  import opened Cells
  import opened Lookup
  import opened Schema
  import opened Limpieza

  /** The columns the loop reads from every cleaned row. */
  const LoadColumns: set<string> := {
    "entorno", "etapa", "tipo", "contratacion_tipo", "area_responsable", "comuna", "barrio", "nombre",
    "descripcion", "direccion", "licitacion_oferta_empresa", "cuit_contratista", "nro_contratacion",
    "expediente-numero", "lat", "lng", "mano_obra", "monto_contrato", "licitacion_anio", "fecha_inicio",
    "fecha_fin_inicial", "plazo_meses", "porcentaje_avance", "imagen_1", "destacada", "financiamiento"
  }

  /** The kind of value every column the loop reads holds in a cleaned row (`CleanedLoadShape`). */
  predicate LoadShape(row: Row) {
    "entorno" in row && row["entorno"].Str? && "etapa" in row && row["etapa"].Str? &&
    "tipo" in row && row["tipo"].Str? && "contratacion_tipo" in row && row["contratacion_tipo"].Str? &&
    "area_responsable" in row && row["area_responsable"].Str? && "comuna" in row && row["comuna"].Number? &&
    "barrio" in row && row["barrio"].Str? && "nombre" in row && row["nombre"].Str? &&
    "descripcion" in row && row["descripcion"].Str? && "direccion" in row && row["direccion"].Str? &&
    "licitacion_oferta_empresa" in row && row["licitacion_oferta_empresa"].Str? &&
    "cuit_contratista" in row && row["cuit_contratista"].Str? &&
    "nro_contratacion" in row && row["nro_contratacion"].Str? &&
    "expediente-numero" in row && (row["expediente-numero"].Str? || row["expediente-numero"].Missing?) &&
    "lat" in row && (row["lat"].Number? || row["lat"].Missing?) &&
    "lng" in row && (row["lng"].Number? || row["lng"].Missing?) &&
    "mano_obra" in row && row["mano_obra"].Number? &&
    "monto_contrato" in row && (row["monto_contrato"].Number? || row["monto_contrato"].Missing?) &&
    "licitacion_anio" in row && (row["licitacion_anio"].Number? || row["licitacion_anio"].Missing?) &&
    "fecha_inicio" in row && (row["fecha_inicio"].Day? || row["fecha_inicio"].Missing?) &&
    "fecha_fin_inicial" in row && (row["fecha_fin_inicial"].Day? || row["fecha_fin_inicial"].Missing?) &&
    "plazo_meses" in row && row["plazo_meses"].Number? &&
    "porcentaje_avance" in row && row["porcentaje_avance"].Number? &&
    "imagen_1" in row && (row["imagen_1"].Str? || row["imagen_1"].Missing?) &&
    "destacada" in row && row["destacada"].Flag? && "financiamiento" in row && row["financiamiento"].Str?
  }

  // ---------------------------------------------------------------------
  // Values handed to peewee

  /** Lines 259-263 and 267: the text, or `default` when it reads "nan". */
  function NanOr(s: string, default: string): (r: string)
    ensures !IsNanText(s) ==> r == s
    ensures IsNanText(s) ==> r == default
  {
    if !IsNanText(s) then s else default
  }

  /** Line 264 with line 41 of modelo_orm.py: the district number, stored by a text column as `str(n)`. */
  function ComunaNombre(n: real): (r: string)
    ensures ParseInteger(r) == Some(Trunc(n))
  {
    IntToText(Trunc(n))
  }

  /** A text column given a value or NaN: the text, or `str(nan)`. */
  function CharValue(v: Option<string>): (r: string)
    ensures v.Some? ==> r == v.value
    ensures v.None? ==> r == "nan"
  {
    match v
    case Some(s) => s
    case None => "nan"
  }

  /** `nro_contratacion` in an `IntegerField` (line 56 of modelo_orm.py): `int(s)`, or the text itself. */
  function IntegerOf(s: string): (r: IntegerValue)
    ensures r.Int? <==> ParseInteger(s).Some?
    ensures r.Int? ==> r.i == ParseInteger(s).value
    ensures r.Text? ==> r.s == s
  {
    match ParseInteger(s)
    case Some(i) => Int(i)
    case None => Text(s)
  }

  /** Lines 318-328: a missing amount or year counts as 0. */
  function OrZero(v: Option<real>): (r: real)
    ensures v.Some? ==> r == v.value
    ensures v.None? ==> r == 0.0
  {
    match v
    case Some(x) => x
    case None => 0.0
  }

  function TextOrNaN(c: Cell): Option<string> {
    if c.Str? then Some(c.s) else None
  }

  function NumberOrNaN(c: Cell): Option<real> {
    if c.Number? then Some(c.n) else None
  }

  function DayOrNaT(c: Cell): Option<Timestamp> {
    if c.Day? then Some(c.d) else None
  }

  /**
   * One row as the loop hands it to peewee: the lookup keys after the
   * defaults of lines 259-268, the coordinates of lines 293-311 and the
   * `Obra` columns after lines 318-336, converted as the fields store them.
   */
  datatype Fila = Fila(
    entorno: string, etapa: string, tipo: string, contratacionTipo: string, areaResponsable: string,
    comuna: string, barrio: string, contratista: ContratistaRec, direccion: string,
    lat: Option<real>, lng: Option<real>,
    nombre: string, descripcion: string, monto: real,
    fechaInicio: Option<Timestamp>, fechaFinInicial: Option<Timestamp>, plazo: int, porcentaje: real,
    anio: int, imagen: Option<string>, manoObra: int, destacada: bool, financiamiento: Option<string>)

  /** The `Contratista` of a row (lines 286-290). */
  function ContratistaOf(row: Row): ContratistaRec
    requires LoadShape(row)
  {
    ContratistaRec(row["licitacion_oferta_empresa"].s, row["cuit_contratista"].s,
                   IntegerOf(row["nro_contratacion"].s), Some(CharValue(TextOrNaN(row["expediente-numero"]))))
  }

  /**
   * Lines 259-336 for one cleaned row.  `Barrio` and `Direccion` receive
   * the cleaned `barrio` and `direccion` themselves (lines 284, 313): the
   * defaults of lines 265 and 268 are computed there and never used.
   */
  function FilaOf(row: Row): (f: Fila)
    requires LoadShape(row)
    ensures ParseInteger(f.comuna) == Some(Trunc(row["comuna"].n))
    ensures f.barrio == row["barrio"].s && f.direccion == row["direccion"].s
    ensures !IsNanText(f.entorno) && !IsNanText(f.etapa) && !IsNanText(f.tipo)
    ensures !IsNanText(f.contratacionTipo) && !IsNanText(f.areaResponsable)
    ensures f.fechaInicio.Some? <==> row["fecha_inicio"].Day?
    ensures f.fechaFinInicial.Some? <==> row["fecha_fin_inicial"].Day?
    ensures row["monto_contrato"].Missing? ==> f.monto == 0.0
    ensures row["licitacion_anio"].Missing? ==> f.anio == 0
  {
    LookupDefaults();
    Fila(NanOr(row["entorno"].s, "SIN ENTORNO"), NanOr(row["etapa"].s, "SIN ETAPA"),
         NanOr(row["tipo"].s, "SIN TIPO"), NanOr(row["contratacion_tipo"].s, "SIN CONTRATACION"),
         NanOr(row["area_responsable"].s, "SIN AREA"), ComunaNombre(row["comuna"].n), row["barrio"].s,
         ContratistaOf(row), row["direccion"].s, NumberOrNaN(row["lat"]), NumberOrNaN(row["lng"]),
         NameOr(row["nombre"].s, "SIN NOMBRE"), NanOr(row["descripcion"].s, " "),
         OrZero(NumberOrNaN(row["monto_contrato"])),
         DayOrNaT(row["fecha_inicio"]), DayOrNaT(row["fecha_fin_inicial"]), Trunc(row["plazo_meses"].n),
         row["porcentaje_avance"].n, Trunc(OrZero(NumberOrNaN(row["licitacion_anio"]))),
         Some(CharValue(TextOrNaN(row["imagen_1"]))), Trunc(row["mano_obra"].n), row["destacada"].b,
         Some(row["financiamiento"].s))
  }

  function FilasOf(rows: seq<Row>): (fs: seq<Fila>)
    requires forall i :: 0 <= i < |rows| ==> LoadShape(rows[i])
    ensures |fs| == |rows| && forall i :: 0 <= i < |rows| ==> fs[i] == FilaOf(rows[i])
  {
    seq(|rows|, i requires 0 <= i < |rows| => FilaOf(rows[i]))
  }

  // ---------------------------------------------------------------------
  // One row

  /** The ids of the rows an `Obra` refers to (and of its `Comuna` and `Barrio`). */
  datatype Refs = Refs(
    entorno: nat, etapa: nat, tipo: nat, contratacionTipo: nat, areaResponsable: nat, comuna: nat,
    barrio: nat, contratista: nat, direccion: nat)

  datatype Found = Found(tablas: Tables, refs: Refs)

  /**
   * Lines 271-316: the lookup rows of one row, found or created in order.
   * `Barrio` is keyed by its name and the district's id, and `Direccion`
   * by the address, the neighbourhood's id and the coordinates.
   */
  function Lookups(t: Tables, f: Fila): (r: Found)
    ensures r.tablas.obras == t.obras
  {
    var e := GetOrCreate(t.entornos, f.entorno);
    var et := GetOrCreate(t.etapas, f.etapa);
    var ti := GetOrCreate(t.tipos, f.tipo);
    var ct := GetOrCreate(t.contratacionTipos, f.contratacionTipo);
    var ar := GetOrCreate(t.areasResponsables, f.areaResponsable);
    var co := GetOrCreate(t.comunas, f.comuna);
    var ba := GetOrCreate(t.barrios, BarrioRec(f.barrio, co.id));
    var k := GetOrCreate(t.contratistas, f.contratista);
    var di := GetOrCreate(t.direcciones, DireccionRec(f.direccion, ba.id, f.lat, f.lng));
    Found(Tables(e.rows, et.rows, ti.rows, ct.rows, ar.rows, co.rows, ba.rows, k.rows, di.rows, t.obras),
          Refs(e.id, et.id, ti.id, ct.id, ar.id, co.id, ba.id, k.id, di.id))
  }

  /**
   * Lines 339-358: the `Obra` built from a row and the ids of its lookup
   * rows.  Its `Comuna` and `Barrio` reach it only through its `Direccion`.
   */
  function NuevaObra(f: Fila, refs: Refs): (o: ObraRec)
    ensures o.entorno == refs.entorno && o.etapa == refs.etapa && o.tipo == refs.tipo
    ensures o.contratacionTipo == refs.contratacionTipo && o.areaResponsable == refs.areaResponsable
    ensures o.direccion == refs.direccion && o.licitacionOfertaEmpresa == refs.contratista
    ensures o.fechaInicio == f.fechaInicio && o.fechaFinInicial == f.fechaFinInicial
  {
    ObraRec(refs.entorno, refs.etapa, refs.tipo, refs.contratacionTipo, refs.areaResponsable, refs.direccion,
            refs.contratista, f.nombre, f.descripcion, f.monto, f.fechaInicio, f.fechaFinInicial, f.plazo,
            f.porcentaje, f.anio, f.imagen, f.manoObra, f.destacada, f.financiamiento)
  }

  /**
   * `obra.save()` (line 359) on modelo_orm.py's `Obra`: no `validate` runs,
   * so amounts, terms and percentages are stored whatever their value; only
   * the NOT NULL dates and whatever else the database refuses stop it.
   */
  predicate Saves(o: ObraRec, accepts: ObraRec -> bool)
    ensures Saves(o, accepts) ==> o.fechaInicio.Some? && o.fechaFinInicial.Some?
  {
    o.fechaInicio.Some? && o.fechaFinInicial.Some? && accepts(o)
  }

  datatype Loaded = Loaded(tablas: Tables, saved: bool)

  /**
   * One pass of the loop (lines 259-361): the `Obra` is stored exactly when
   * the database takes it, and it is the only `Obra` added
   * (`LoadRowKeepsLookups` shows the lookup rows stay either way).
   */
  function LoadRow(t: Tables, f: Fila, accepts: ObraRec -> bool): (r: Loaded)
    ensures r.saved <==> Saves(NuevaObra(f, Lookups(t, f).refs), accepts)
    ensures r.tablas.obras == t.obras + (if r.saved then [NuevaObra(f, Lookups(t, f).refs)] else [])
  {
    var found := Lookups(t, f);
    var o := NuevaObra(f, found.refs);
    if Saves(o, accepts) then Loaded(found.tablas.(obras := t.obras + [o]), true) else Loaded(found.tablas, false)
  }

  /** The whole loop over `filas`, starting from `t`: every table only grows, and by at most one `Obra` a row. */
  function LoadAll(t: Tables, filas: seq<Fila>, accepts: ObraRec -> bool): (r: Tables)
    ensures Extends(t, r)
    ensures |r.obras| <= |t.obras| + |filas|
  {
    if filas == [] then t
    else
      var u := LoadAll(t, filas[..|filas| - 1], accepts);
      LookupsExtends(u, filas[|filas| - 1]);
      ExtendsTrans(t, u, LoadRow(u, filas[|filas| - 1], accepts).tablas);
      LoadRow(u, filas[|filas| - 1], accepts).tablas
  }

  /** Whether the `Obra` of row `k` was stored. */
  predicate Saved(t: Tables, filas: seq<Fila>, k: nat, accepts: ObraRec -> bool)
    requires k < |filas|
  {
    LoadRow(LoadAll(t, filas[..k], accepts), filas[k], accepts).saved
  }

  /** The positions of the `false` entries of `b`, in order. */
  function Positions(b: seq<bool>): seq<int> {
    if b == [] then []
    else Positions(b[..|b| - 1]) + (if b[|b| - 1] then [] else [|b| - 1])
  }

  /** For every row of `filas`, in order, whether the loop stored its `Obra`. */
  function Flags(t: Tables, filas: seq<Fila>, accepts: ObraRec -> bool): (b: seq<bool>)
    ensures |b| == |filas|
  {
    if filas == [] then []
    else
      var n := |filas| - 1;
      Flags(t, filas[..n], accepts) + [LoadRow(LoadAll(t, filas[..n], accepts), filas[n], accepts).saved]
  }

  /** The rows whose `Obra` the loop did not store (lines 360-361): exactly those, in increasing order. */
  function Failed(t: Tables, filas: seq<Fila>, accepts: ObraRec -> bool): (r: seq<int>)
    ensures forall k :: k in r <==> 0 <= k < |filas| && !Flags(t, filas, accepts)[k]
    ensures Increasing(r)
  {
    var b := Flags(t, filas, accepts);
    PositionsFalse(b);
    PositionsIncreasing(b);
    Positions(b)
  }

  /** The loader never repeats a lookup row, in any table, UNIQUE or not. */
  predicate NoRepeats(t: Tables) {
    Distinct(t.entornos) && Distinct(t.etapas) && Distinct(t.tipos) && Distinct(t.contratacionTipos) &&
    Distinct(t.areasResponsables) && Distinct(t.comunas) && Distinct(t.barrios) &&
    Distinct(t.contratistas) && Distinct(t.direcciones)
  }

  /** The database the loader writes to. */
  class Database {
    var tablas: Tables

    /** `create_tables`: every table empty. */
    constructor ()
      ensures tablas == Empty
    {
      tablas := Empty;
    }

    /** The loop body: the lookup rows, then the `Obra` inside `try` (lines 259-361). */
    method CargarFila(f: Fila, accepts: ObraRec -> bool) returns (guardada: bool)
      modifies this
      ensures tablas == LoadRow(old(tablas), f, accepts).tablas
      ensures guardada == LoadRow(old(tablas), f, accepts).saved
    {
      var e := GetOrCreate(tablas.entornos, f.entorno);
      tablas := tablas.(entornos := e.rows);
      var et := GetOrCreate(tablas.etapas, f.etapa);
      tablas := tablas.(etapas := et.rows);
      var ti := GetOrCreate(tablas.tipos, f.tipo);
      tablas := tablas.(tipos := ti.rows);
      var ct := GetOrCreate(tablas.contratacionTipos, f.contratacionTipo);
      tablas := tablas.(contratacionTipos := ct.rows);
      var ar := GetOrCreate(tablas.areasResponsables, f.areaResponsable);
      tablas := tablas.(areasResponsables := ar.rows);
      var co := GetOrCreate(tablas.comunas, f.comuna);
      tablas := tablas.(comunas := co.rows);
      var ba := GetOrCreate(tablas.barrios, BarrioRec(f.barrio, co.id));
      tablas := tablas.(barrios := ba.rows);
      var k := GetOrCreate(tablas.contratistas, f.contratista);
      tablas := tablas.(contratistas := k.rows);
      var di := GetOrCreate(tablas.direcciones, DireccionRec(f.direccion, ba.id, f.lat, f.lng));
      tablas := tablas.(direcciones := di.rows);
      var obra := NuevaObra(f, Refs(e.id, et.id, ti.id, ct.id, ar.id, co.id, ba.id, k.id, di.id));
      if Saves(obra, accepts) {
        tablas := tablas.(obras := tablas.obras + [obra]);
        guardada := true;
      } else {
        guardada := false;
      }
    }

    /**
     * The loop over the cleaned rows (lines 257-361): every row is loaded in
     * order; `fallidas` are, in order, the rows whose `Obra` was not stored.
     */
    method CargarFilas(filas: seq<Fila>, accepts: ObraRec -> bool) returns (fallidas: seq<int>)
      requires WellFormed(tablas) && NoRepeats(tablas)
      modifies this
      ensures tablas == LoadAll(old(tablas), filas, accepts)
      ensures WellFormed(tablas) && NoRepeats(tablas) && Extends(old(tablas), tablas)
      ensures fallidas == Failed(old(tablas), filas, accepts)
      ensures |tablas.obras| == |old(tablas).obras| + |filas| - |fallidas|
    {
      ghost var t0 := tablas;
      fallidas := [];
      var i := 0;
      ProgressStart(t0, filas, accepts);
      while i < |filas|
        invariant Progress(t0, filas, i, accepts, tablas, fallidas)
      {
        ProgressStep(t0, filas, i, accepts, tablas, fallidas);
        var guardada := CargarFila(filas[i], accepts);
        if !guardada {
          fallidas := fallidas + [i];
        }
        i := i + 1;
      }
      ProgressDone(t0, filas, i, accepts, tablas, fallidas);
    }

    /**
     * `cargar_datos`: clean the CSV rows (whose columns are `header`), then
     * load them.  `limpias` are the cleaned rows, `origen` the prepared CSV
     * rows they come from: in CSV order, and every row that is not corrupt
     * is among them.
     */
    method CargarDatos(header: set<string>, crudo: seq<RawRow>, translit: string -> string,
                       parseDate: string -> Option<Timestamp>, accepts: ObraRec -> bool)
      returns (fallidas: seq<int>, ghost limpias: seq<Row>, ghost origen: seq<RawRow>)
      requires forall i :: 0 <= i < |crudo| ==> crudo[i].Keys == header
      requires LoadColumns <= header
      requires WellFormed(tablas) && NoRepeats(tablas)
      modifies this
      ensures |limpias| == |origen| <= |crudo|
      ensures forall k :: 0 <= k < |limpias| ==> limpias[k] == CleanRow(origen[k], parseDate)
      ensures OrderedBy(origen, Prepared(crudo, translit))
      ensures forall i :: 0 <= i < |crudo| && !IsCorrupt(CleanRow(Prepare(crudo[i], translit), parseDate)) ==>
                Prepare(crudo[i], translit) in origen
      ensures forall k :: 0 <= k < |limpias| ==> LoadShape(limpias[k]) && !IsCorrupt(limpias[k])
      ensures tablas == LoadAll(old(tablas), FilasOf(limpias), accepts)
      ensures WellFormed(tablas) && NoRepeats(tablas) && Extends(old(tablas), tablas)
      ensures fallidas == Failed(old(tablas), FilasOf(limpias), accepts)
    {
      assert ReadColumns <= LoadColumns;
      var datos;
      datos, origen := LimpiarDatos(header, crudo, translit, parseDate);
      PreparedLoadColumns(crudo, translit, header);
      forall k | 0 <= k < |datos.value|
        ensures LoadShape(datos.value[k])
      {
        assert origen[k] in Prepared(crudo, translit);
        assert datos.value[k].Keys == origen[k].Keys;
        CleanedLoadShape(datos.value[k]);
      }
      limpias := datos.value;
      fallidas := CargarFilas(FilasOf(datos.value), accepts);
    }
  }

  // ---------------------------------------------------------------------
  // Lemmas

  lemma LoadColumnKept(c: string)
    requires c in LoadColumns
    ensures KeepColumn(c)
  {
    assert c[0] != 'U';
  }

  /** Preparing the rows keeps every column the loop reads. */
  lemma PreparedLoadColumns(crudo: seq<RawRow>, translit: string -> string, header: set<string>)
    requires forall i :: 0 <= i < |crudo| ==> crudo[i].Keys == header
    requires LoadColumns <= header
    ensures forall r :: r in Prepared(crudo, translit) ==> LoadColumns <= r.Keys
  {
    forall r | r in Prepared(crudo, translit)
      ensures LoadColumns <= r.Keys
    {
      var i :| 0 <= i < |crudo| && Prepared(crudo, translit)[i] == r;
      forall c | c in LoadColumns
        ensures c in r
      {
        LoadColumnKept(c);
      }
    }
  }

  /** A cleaned row holding every column the loop reads has the shape the loop needs. */
  lemma CleanedLoadShape(row: Row)
    requires Cleaned(row) && LoadColumns <= row.Keys
    ensures LoadShape(row)
  {
    CleanedNamesShape(row);
    CleanedPlaceShape(row);
    CleanedContractShape(row);
    CleanedTextShape(row);
    CleanedNumbersShape(row);
    CleanedRestShape(row);
  }

  lemma CleanedNamesShape(row: Row)
    requires Cleaned(row) && LoadColumns <= row.Keys
    ensures row["entorno"].Str? && row["etapa"].Str? && row["tipo"].Str?
    ensures row["contratacion_tipo"].Str? && row["area_responsable"].Str?
  {
    assert CellShape("entorno", row["entorno"]);
    assert CellShape("etapa", row["etapa"]);
    assert CellShape("tipo", row["tipo"]);
    assert CellShape("contratacion_tipo", row["contratacion_tipo"]);
    assert CellShape("area_responsable", row["area_responsable"]);
  }

  lemma CleanedPlaceShape(row: Row)
    requires Cleaned(row) && LoadColumns <= row.Keys
    ensures row["comuna"].Number? && row["barrio"].Str? && row["direccion"].Str?
    ensures row["lat"].Number? || row["lat"].Missing?
    ensures row["lng"].Number? || row["lng"].Missing?
  {
    assert CellShape("comuna", row["comuna"]);
    assert CellShape("barrio", row["barrio"]);
    assert CellShape("direccion", row["direccion"]);
    assert CellShape("lat", row["lat"]);
    assert CellShape("lng", row["lng"]);
  }

  lemma CleanedContractShape(row: Row)
    requires Cleaned(row) && LoadColumns <= row.Keys
    ensures row["licitacion_oferta_empresa"].Str? && row["cuit_contratista"].Str?
    ensures row["nro_contratacion"].Str?
  {
    assert CellShape("licitacion_oferta_empresa", row["licitacion_oferta_empresa"]);
    assert CellShape("cuit_contratista", row["cuit_contratista"]);
    assert CellShape("nro_contratacion", row["nro_contratacion"]);
  }

  lemma CleanedTextShape(row: Row)
    requires Cleaned(row) && LoadColumns <= row.Keys
    ensures row["expediente-numero"].Str? || row["expediente-numero"].Missing?
    ensures row["nombre"].Str? && row["descripcion"].Str?
  {
    assert CellShape("expediente-numero", row["expediente-numero"]);
    NombreShape(row["nombre"]);
    DescripcionShape(row["descripcion"]);
  }

  lemma NombreShape(c: Cell)
    requires CellShape("nombre", c)
    ensures c.Str?
  {
  }

  lemma DescripcionShape(c: Cell)
    requires CellShape("descripcion", c)
    ensures c.Str?
  {
  }

  lemma CleanedNumbersShape(row: Row)
    requires Cleaned(row) && LoadColumns <= row.Keys
    ensures row["mano_obra"].Number? && row["plazo_meses"].Number? && row["porcentaje_avance"].Number?
    ensures row["monto_contrato"].Number? || row["monto_contrato"].Missing?
    ensures row["licitacion_anio"].Number? || row["licitacion_anio"].Missing?
  {
    assert CellShape("mano_obra", row["mano_obra"]);
    assert CellShape("plazo_meses", row["plazo_meses"]);
    assert CellShape("porcentaje_avance", row["porcentaje_avance"]);
    assert CellShape("monto_contrato", row["monto_contrato"]);
    assert CellShape("licitacion_anio", row["licitacion_anio"]);
  }

  lemma CleanedRestShape(row: Row)
    requires Cleaned(row) && LoadColumns <= row.Keys
    ensures row["fecha_inicio"].Day? || row["fecha_inicio"].Missing?
    ensures row["fecha_fin_inicial"].Day? || row["fecha_fin_inicial"].Missing?
    ensures row["imagen_1"].Str? || row["imagen_1"].Missing?
    ensures row["destacada"].Flag? && row["financiamiento"].Str?
  {
    CleanedDatesShape(row);
    CleanedImageShape(row);
    CleanedFlagShape(row);
    CleanedFundingShape(row);
  }

  lemma CleanedImageShape(row: Row)
    requires Cleaned(row) && LoadColumns <= row.Keys
    ensures row["imagen_1"].Str? || row["imagen_1"].Missing?
  {
    assert CellShape("imagen_1", row["imagen_1"]);
  }

  lemma CleanedFlagShape(row: Row)
    requires Cleaned(row) && LoadColumns <= row.Keys
    ensures row["destacada"].Flag?
  {
    assert CellShape("destacada", row["destacada"]);
  }

  lemma CleanedFundingShape(row: Row)
    requires Cleaned(row) && LoadColumns <= row.Keys
    ensures row["financiamiento"].Str?
  {
    assert CellShape("financiamiento", row["financiamiento"]);
  }

  lemma CleanedDatesShape(row: Row)
    requires Cleaned(row) && LoadColumns <= row.Keys
    ensures row["fecha_inicio"].Day? || row["fecha_inicio"].Missing?
    ensures row["fecha_fin_inicial"].Day? || row["fecha_fin_inicial"].Missing?
  {
    assert CellShape("fecha_inicio", row["fecha_inicio"]);
    assert CellShape("fecha_fin_inicial", row["fecha_fin_inicial"]);
  }

  /** Each step of the loop keeps the schema's constraints and adds no repeated lookup row. */
  lemma LoadRowWellFormed(t: Tables, f: Fila, accepts: ObraRec -> bool)
    requires WellFormed(t) && NoRepeats(t)
    ensures WellFormed(LoadRow(t, f, accepts).tablas) && NoRepeats(LoadRow(t, f, accepts).tablas)
    ensures Extends(t, LoadRow(t, f, accepts).tablas)
  {
    var found := Lookups(t, f);
    LookupsDistinct(t, f);
    LookupsExtends(t, f);
    LookupsWellFormed(t, f);
    var o := NuevaObra(f, found.refs);
    if Saves(o, accepts) {
      LookupsRefs(t, f);
      AddObraWellFormed(found.tablas, o);
    }
  }

  /** Storing an `Obra` whose references exist keeps the constraints. */
  lemma AddObraWellFormed(u: Tables, o: ObraRec)
    requires WellFormed(u) && ObraFits(o, u)
    ensures WellFormed(u.(obras := u.obras + [o])) && Extends(u, u.(obras := u.obras + [o]))
  {
    var v := u.(obras := u.obras + [o]);
    forall p | p in v.obras
      ensures ObraFits(p, v)
    {
      if p in u.obras {
        ObraFitsExtends(p, u, v);
      }
    }
  }

  /** The lookups keep the constraints of the tables they touch. */
  lemma LookupsWellFormed(t: Tables, f: Fila)
    requires WellFormed(t) && NoRepeats(t)
    ensures WellFormed(Lookups(t, f).tablas)
  {
    var u := Lookups(t, f).tablas;
    LookupsDistinct(t, f);
    LookupsExtends(t, f);
    LookupsForeignKeys(t, f);
    forall o | o in u.obras
      ensures ObraFits(o, u)
    {
      ObraFitsExtends(o, t, u);
    }
  }

  lemma LookupsDistinct(t: Tables, f: Fila)
    requires NoRepeats(t)
    ensures NoRepeats(Lookups(t, f).tablas)
  {
    var r := Lookups(t, f).refs;
    GetOrCreateDistinct(t.entornos, f.entorno);
    GetOrCreateDistinct(t.etapas, f.etapa);
    GetOrCreateDistinct(t.tipos, f.tipo);
    GetOrCreateDistinct(t.contratacionTipos, f.contratacionTipo);
    GetOrCreateDistinct(t.areasResponsables, f.areaResponsable);
    GetOrCreateDistinct(t.comunas, f.comuna);
    GetOrCreateDistinct(t.barrios, BarrioRec(f.barrio, r.comuna));
    GetOrCreateDistinct(t.contratistas, f.contratista);
    GetOrCreateDistinct(t.direcciones, DireccionRec(f.direccion, r.barrio, f.lat, f.lng));
  }

  /** The defaults of lines 259-263 do not read "nan". */
  lemma LookupDefaults()
    ensures !IsNanText("SIN ENTORNO") && !IsNanText("SIN ETAPA") && !IsNanText("SIN TIPO")
    ensures !IsNanText("SIN CONTRATACION") && !IsNanText("SIN AREA")
  {
    StrippedFixpoint("SIN ENTORNO");
    StrippedFixpoint("SIN ETAPA");
    StrippedFixpoint("SIN TIPO");
    StrippedFixpoint("SIN CONTRATACION");
    StrippedFixpoint("SIN AREA");
  }

  /** The lookups only add rows at the end of their tables. */
  lemma LookupsExtends(t: Tables, f: Fila)
    ensures Extends(t, Lookups(t, f).tablas)
  {
  }

  /** Every id the lookups hand to the `Obra` names a row of its table. */
  lemma LookupsRefs(t: Tables, f: Fila)
    ensures var found := Lookups(t, f);
            Ref(found.refs.entorno, |found.tablas.entornos|) && Ref(found.refs.etapa, |found.tablas.etapas|) &&
            Ref(found.refs.tipo, |found.tablas.tipos|) &&
            Ref(found.refs.contratacionTipo, |found.tablas.contratacionTipos|) &&
            Ref(found.refs.areaResponsable, |found.tablas.areasResponsables|) &&
            Ref(found.refs.direccion, |found.tablas.direcciones|) &&
            Ref(found.refs.contratista, |found.tablas.contratistas|)
  {
  }

  /** Every `Barrio` names an existing `Comuna`, and every `Direccion` an existing `Barrio`. */
  lemma LookupsForeignKeys(t: Tables, f: Fila)
    requires WellFormed(t)
    ensures var u := Lookups(t, f).tablas;
            (forall b :: b in u.barrios ==> Ref(b.comuna, |u.comunas|)) &&
            (forall d :: d in u.direcciones ==> Ref(d.barrio, |u.barrios|))
  {
    var co := GetOrCreate(t.comunas, f.comuna);
    var ba := GetOrCreate(t.barrios, BarrioRec(f.barrio, co.id));
    var di := GetOrCreate(t.direcciones, DireccionRec(f.direccion, ba.id, f.lat, f.lng));
    var u := Lookups(t, f).tablas;
    assert u.comunas == co.rows && u.barrios == ba.rows && u.direcciones == di.rows;
    AppendedKeys(t.barrios, ba, BarrioRec(f.barrio, co.id));
    forall b | b in ba.rows
      ensures Ref(b.comuna, |co.rows|)
    {
      if b in t.barrios {
        assert Ref(b.comuna, |t.comunas|);
      }
    }
    AppendedKeys(t.direcciones, di, DireccionRec(f.direccion, ba.id, f.lat, f.lng));
    forall d | d in di.rows
      ensures Ref(d.barrio, |ba.rows|)
    {
      if d in t.direcciones {
        assert Ref(d.barrio, |t.barrios|);
      }
    }
  }

  /** A row of the table `get_or_create` leaves is one of the old rows or the key. */
  lemma AppendedKeys<K>(t: seq<K>, g: Got<K>, k: K)
    requires g == GetOrCreate(t, k)
    ensures forall x :: x in g.rows ==> x in t || x == k
  {
  }

  /**
   * Looking a row's lookup rows up a second time finds them all and adds
   * nothing: each `get_or_create` returns the row created the first time.
   */
  lemma LookupsIdempotent(t: Tables, f: Fila)
    ensures Lookups(Lookups(t, f).tablas, f) == Lookups(t, f)
  {
    var r := Lookups(t, f).refs;
    GetOrCreateIdempotent(t.entornos, f.entorno);
    GetOrCreateIdempotent(t.etapas, f.etapa);
    GetOrCreateIdempotent(t.tipos, f.tipo);
    GetOrCreateIdempotent(t.contratacionTipos, f.contratacionTipo);
    GetOrCreateIdempotent(t.areasResponsables, f.areaResponsable);
    GetOrCreateIdempotent(t.comunas, f.comuna);
    GetOrCreateIdempotent(t.barrios, BarrioRec(f.barrio, r.comuna));
    GetOrCreateIdempotent(t.contratistas, f.contratista);
    GetOrCreateIdempotent(t.direcciones, DireccionRec(f.direccion, r.barrio, f.lat, f.lng));
  }

  /** The lookups ignore the `Obra` table. */
  lemma LookupsIgnoreObras(t: Tables, f: Fila, obras: seq<ObraRec>)
    ensures Lookups(t.(obras := obras), f) == Found(Lookups(t, f).tablas.(obras := obras), Lookups(t, f).refs)
  {
  }

  /**
   * After a row is loaded, whether its `Obra` was stored or not, every
   * lookup row it needs is in the database: looking them up again adds
   * nothing.  A failed save keeps the lookup rows and stores no `Obra`.
   */
  lemma LoadRowKeepsLookups(t: Tables, f: Fila, accepts: ObraRec -> bool)
    ensures Lookups(LoadRow(t, f, accepts).tablas, f).tablas == LoadRow(t, f, accepts).tablas
    ensures !LoadRow(t, f, accepts).saved ==> LoadRow(t, f, accepts).tablas.obras == t.obras
    ensures LoadRow(t, f, accepts).tablas.(obras := t.obras) == Lookups(t, f).tablas
  {
    var found := Lookups(t, f);
    LookupsIdempotent(t, f);
    LookupsIgnoreObras(found.tablas, f, LoadRow(t, f, accepts).tablas.obras);
  }

  /** Loading the same row twice creates its lookup rows once; the second pass finds the same ids. */
  lemma LoadRowTwice(t: Tables, f: Fila, accepts: ObraRec -> bool)
    ensures var u := LoadRow(t, f, accepts).tablas;
            Lookups(u, f).refs == Lookups(t, f).refs &&
            LoadRow(u, f, accepts).tablas.(obras := u.obras) == u
  {
    var found := Lookups(t, f);
    var u := LoadRow(t, f, accepts).tablas;
    LookupsIdempotent(t, f);
    LookupsIgnoreObras(found.tablas, f, u.obras);
  }

  /** The name of the `Obra` is the cleaned one: the loader's own default never applies. */
  lemma NombreAsCleaned(row: Row)
    requires LoadShape(row) && CellShape("nombre", row["nombre"])
    ensures FilaOf(row).nombre == row["nombre"].s
  {
  }

  /**
   * Line 265 computes a default neighbourhood name that `Barrio` never
   * receives (line 284 passes the cleaned `barrio`); on a cleaned row the
   * two agree anyway.
   */
  lemma BarrioDefaultInert(c: Cell)
    requires CellShape("barrio", c)
    ensures NameOr(c.s, "sin barrio") == c.s
  {
    BarrioShape(c);
    if c.s == "sin barrio" {
      SinBarrioNormalized();
    } else {
      NormalizedNanText(c.s);
      StrippedFixpoint(c.s);
    }
  }

  /** A row whose dates are both known and that the database accepts is stored, whatever its amounts and percentages. */
  lemma LoadRowStoresDated(t: Tables, f: Fila, accepts: ObraRec -> bool)
    requires f.fechaInicio.Some? && f.fechaFinInicial.Some?
    requires accepts(NuevaObra(f, Lookups(t, f).refs))
    ensures LoadRow(t, f, accepts).saved
    ensures LoadRow(t, f, accepts).tablas.obras == t.obras + [NuevaObra(f, Lookups(t, f).refs)]
  {
  }

  /** A row missing either date is never stored (NOT NULL, lines 83-84 of modelo_orm.py). */
  lemma LoadRowSkipsUndated(t: Tables, f: Fila, accepts: ObraRec -> bool)
    requires f.fechaInicio.None? || f.fechaFinInicial.None?
    ensures !LoadRow(t, f, accepts).saved && LoadRow(t, f, accepts).tablas.obras == t.obras
  {
  }

  /** What the loop of `CargarFilas` knows once it has loaded `i` rows. */
  ghost predicate Progress(t0: Tables, filas: seq<Fila>, i: nat, accepts: ObraRec -> bool, t: Tables, fallidas: seq<int>) {
    i <= |filas| && t == LoadAll(t0, filas[..i], accepts) &&
    fallidas == Positions(Flags(t0, filas[..i], accepts)) && |t.obras| == |t0.obras| + i - |fallidas|
  }

  lemma ProgressStart(t0: Tables, filas: seq<Fila>, accepts: ObraRec -> bool)
    ensures Progress(t0, filas, 0, accepts, t0, [])
  {
    assert filas[..0] == [];
  }

  /** Once every row is loaded, the invariant is the method's postcondition. */
  lemma ProgressDone(t0: Tables, filas: seq<Fila>, i: nat, accepts: ObraRec -> bool, t: Tables, fallidas: seq<int>)
    requires WellFormed(t0) && NoRepeats(t0)
    requires i >= |filas| && Progress(t0, filas, i, accepts, t, fallidas)
    ensures t == LoadAll(t0, filas, accepts)
    ensures WellFormed(t) && NoRepeats(t) && Extends(t0, t)
    ensures fallidas == Failed(t0, filas, accepts)
    ensures |t.obras| == |t0.obras| + |filas| - |fallidas|
  {
    assert filas[..i] == filas;
    LoadAllWellFormed(t0, filas, accepts);
  }

  /** One pass of the loop keeps its invariant. */
  lemma ProgressStep(t0: Tables, filas: seq<Fila>, i: nat, accepts: ObraRec -> bool, t: Tables, fallidas: seq<int>)
    requires i < |filas| && Progress(t0, filas, i, accepts, t, fallidas)
    ensures Progress(t0, filas, i + 1, accepts, LoadRow(t, filas[i], accepts).tablas,
                     if LoadRow(t, filas[i], accepts).saved then fallidas else fallidas + [i])
  {
    var r := LoadRow(t, filas[i], accepts);
    LoadAllStep(t0, filas, i, accepts);
    LoadStepFailed(t0, filas, i, accepts, t, fallidas);
    assert |r.tablas.obras| == |t.obras| + (if r.saved then 1 else 0);
    assert fallidas + [] == fallidas;
  }

  /** Loading any sequence of rows keeps the schema's constraints and only adds rows. */
  lemma {:induction false} LoadAllWellFormed(t: Tables, filas: seq<Fila>, accepts: ObraRec -> bool)
    requires WellFormed(t) && NoRepeats(t)
    ensures WellFormed(LoadAll(t, filas, accepts)) && NoRepeats(LoadAll(t, filas, accepts))
    ensures Extends(t, LoadAll(t, filas, accepts))
    decreases |filas|
  {
    if filas != [] {
      var p := filas[..|filas| - 1];
      LoadAllWellFormed(t, p, accepts);
      LoadRowWellFormed(LoadAll(t, p, accepts), filas[|filas| - 1], accepts);
      ExtendsTrans(t, LoadAll(t, p, accepts), LoadAll(t, filas, accepts));
    }
  }

  /** One pass of the loop keeps the failed rows' part of its invariant. */
  lemma LoadStepFailed(t0: Tables, filas: seq<Fila>, i: nat, accepts: ObraRec -> bool, t: Tables, fallidas: seq<int>)
    requires i < |filas| && t == LoadAll(t0, filas[..i], accepts)
    requires fallidas == Positions(Flags(t0, filas[..i], accepts))
    ensures fallidas + (if LoadRow(t, filas[i], accepts).saved then [] else [i])
            == Positions(Flags(t0, filas[..i + 1], accepts))
  {
    var r := LoadRow(t, filas[i], accepts);
    PrefixStep(filas, i);
    FlagsLast(t0, filas[..i + 1], accepts);
    PositionsAppend(Flags(t0, filas[..i], accepts), r.saved);
  }

  /** A row is reported exactly when its `Obra` was not stored. */
  lemma FailedNotSaved(t: Tables, filas: seq<Fila>, k: nat, accepts: ObraRec -> bool)
    requires k < |filas|
    ensures k in Failed(t, filas, accepts) <==> !Saved(t, filas, k, accepts)
  {
    FlagsSaved(t, filas, k, accepts);
  }

  lemma FlagsLast(t: Tables, filas: seq<Fila>, accepts: ObraRec -> bool)
    requires filas != []
    ensures Flags(t, filas, accepts)
            == Flags(t, filas[..|filas| - 1], accepts)
               + [LoadRow(LoadAll(t, filas[..|filas| - 1], accepts), filas[|filas| - 1], accepts).saved]
  {
  }

  lemma PrefixStep<T>(s: seq<T>, i: nat)
    requires i < |s|
    ensures |s[..i + 1]| - 1 == i && s[..i + 1][..i] == s[..i] && s[..i + 1][i] == s[i]
  {
  }

  /** Row `k`'s flag is whether its `Obra` was stored, whatever the rows after it. */
  lemma {:induction false} FlagsSaved(t: Tables, filas: seq<Fila>, k: nat, accepts: ObraRec -> bool)
    requires k < |filas|
    ensures Flags(t, filas, accepts)[k] == Saved(t, filas, k, accepts)
    decreases |filas|
  {
    var n := |filas| - 1;
    var p := Flags(t, filas[..n], accepts);
    var x := LoadRow(LoadAll(t, filas[..n], accepts), filas[n], accepts).saved;
    assert Flags(t, filas, accepts) == p + [x];
    if k < n {
      FlagsSaved(t, filas[..n], k, accepts);
      SavedPrefix(t, filas, n, k, accepts);
      assert (p + [x])[k] == p[k];
    } else {
      assert k == n && filas[..k] == filas[..n];
    }
  }

  /** Whether a row was stored does not depend on the rows after it. */
  lemma SavedPrefix(t: Tables, filas: seq<Fila>, n: nat, k: nat, accepts: ObraRec -> bool)
    requires k < n <= |filas|
    ensures Saved(t, filas[..n], k, accepts) == Saved(t, filas, k, accepts)
  {
    assert filas[..n][..k] == filas[..k];
  }

  /** One more flag adds its position when it is `false`. */
  lemma PositionsAppend(b: seq<bool>, x: bool)
    ensures Positions(b + [x]) == Positions(b) + (if x then [] else [|b|])
  {
    assert (b + [x])[..|b|] == b;
  }

  /** The loop's result after `i + 1` rows is one more pass over its result after `i`. */
  lemma LoadAllStep(t: Tables, filas: seq<Fila>, i: nat, accepts: ObraRec -> bool)
    requires i < |filas|
    ensures LoadAll(t, filas[..i + 1], accepts) == LoadRow(LoadAll(t, filas[..i], accepts), filas[i], accepts).tablas
  {
    assert filas[..i + 1][..i] == filas[..i];
  }

  /** `Positions` lists exactly the `false` entries. */
  lemma {:induction false} PositionsFalse(b: seq<bool>)
    ensures forall k :: k in Positions(b) <==> 0 <= k < |b| && !b[k]
  {
    if b != [] {
      var n := |b| - 1;
      PositionsFalse(b[..n]);
      assert forall k :: 0 <= k < n ==> b[..n][k] == b[k];
    }
  }

  /** `Positions` lists them in increasing order. */
  lemma {:induction false} PositionsIncreasing(b: seq<bool>)
    ensures Increasing(Positions(b))
  {
    if b != [] {
      var n := |b| - 1;
      PositionsIncreasing(b[..n]);
      PositionsFalse(b[..n]);
      IncreasingAppend(Positions(b[..n]), n, b[n]);
    }
  }

  predicate Increasing(s: seq<int>) {
    forall a, b :: 0 <= a < b < |s| ==> s[a] < s[b]
  }

  lemma IncreasingAppend(p: seq<int>, n: int, skip: bool)
    requires Increasing(p) && forall k :: k in p ==> k < n
    ensures Increasing(p + (if skip then [] else [n]))
  {
    if !skip {
      var q := p + [n];
      forall a, b | 0 <= a < b < |q|
        ensures q[a] < q[b]
      {
        assert q[a] == p[a] && p[a] in p;
      }
    }
  }

  lemma ExtendsTrans(t: Tables, u: Tables, v: Tables)
    requires Extends(t, u) && Extends(u, v)
    ensures Extends(t, v)
  {
  }
}
