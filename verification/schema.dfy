/**
 * The tables of modelo_orm.py, the schema the loader in gestionar_obras.py
 * writes to: one record type per table, foreign keys as the ids of rows of
 * the referenced table, nullable columns as `Option`, and the NOT NULL,
 * UNIQUE and foreign-key constraints as `WellFormed`.
 */
module Schema {
  import opened Wrappers
  import opened Cells
  import opened Lookup

  /**
   * What an `IntegerField` holds: peewee stores `int(value)`, or the value
   * as it came when `int()` cannot read it.
   */
  datatype IntegerValue = Int(i: int) | Text(s: string)

  /** `Barrio` (lines 46-51): a name and the one `Comuna` it belongs to. */
  datatype BarrioRec = BarrioRec(nombre: string, comuna: nat)

  /** `Contratista` (lines 53-60): only `expediente_numero` may be NULL. */
  datatype ContratistaRec = ContratistaRec(
    nombreEmpresa: string, cuitContratista: string, nroContratacion: IntegerValue, expedienteNumero: Option<string>)

  /** `Direccion` (lines 62-69): the one `Barrio` it lies in; `lat` and `lng` may be NULL. */
  datatype DireccionRec = DireccionRec(ubicacion: string, barrio: nat, lat: Option<real>, lng: Option<real>)

  /**
   * `Obra` (lines 71-91) as the loader builds it.  The two dates are
   * `Option` because the object may hold `None` before it is saved; the
   * table does not accept that (`ObraFits`).
   */
  datatype ObraRec = ObraRec(
    entorno: nat, etapa: nat, tipo: nat, contratacionTipo: nat, areaResponsable: nat, direccion: nat,
    licitacionOfertaEmpresa: nat,
    nombre: string, descripcion: string, montoContrato: real,
    fechaInicio: Option<Timestamp>, fechaFinInicial: Option<Timestamp>,
    plazoMeses: int, porcentajeAvance: real, licitacionAnio: int, imagen1: Option<string>,
    manoObra: int, destacada: bool, financiamiento: Option<string>)

  /** The database: every table, its rows in insertion order (row `i` has id `i + 1`). */
  datatype Tables = Tables(
    entornos: seq<string>, etapas: seq<string>, tipos: seq<string>,
    contratacionTipos: seq<string>, areasResponsables: seq<string>, comunas: seq<string>,
    barrios: seq<BarrioRec>, contratistas: seq<ContratistaRec>, direcciones: seq<DireccionRec>,
    obras: seq<ObraRec>)

  /** The database `create_tables` leaves behind. */
  const Empty: Tables := Tables([], [], [], [], [], [], [], [], [], [])

  /** An `Obra` row the table accepts: its seven references exist and both dates are set. */
  predicate ObraFits(o: ObraRec, t: Tables) {
    Ref(o.entorno, |t.entornos|) && Ref(o.etapa, |t.etapas|) && Ref(o.tipo, |t.tipos|) &&
    Ref(o.contratacionTipo, |t.contratacionTipos|) && Ref(o.areaResponsable, |t.areasResponsables|) &&
    Ref(o.direccion, |t.direcciones|) && Ref(o.licitacionOfertaEmpresa, |t.contratistas|) &&
    o.fechaInicio.Some? && o.fechaFinInicial.Some?
  }

  /**
   * The constraints of modelo_orm.py: `nombre` is UNIQUE in `Entorno`,
   * `Etapa` and `TipoObra` only (lines 11, 17, 23; not lines 29, 35, 41,
   * 47), and every foreign key names an existing row (lines 48, 64, 72-78).
   */
  predicate WellFormed(t: Tables) {
    Distinct(t.entornos) && Distinct(t.etapas) && Distinct(t.tipos) &&
    (forall b :: b in t.barrios ==> Ref(b.comuna, |t.comunas|)) &&
    (forall d :: d in t.direcciones ==> Ref(d.barrio, |t.barrios|)) &&
    (forall o :: o in t.obras ==> ObraFits(o, t))
  }

  /** Every table grew only at its end. */
  predicate Extends(t: Tables, u: Tables) {
    t.entornos <= u.entornos && t.etapas <= u.etapas && t.tipos <= u.tipos &&
    t.contratacionTipos <= u.contratacionTipos && t.areasResponsables <= u.areasResponsables &&
    t.comunas <= u.comunas && t.barrios <= u.barrios && t.contratistas <= u.contratistas &&
    t.direcciones <= u.direcciones && t.obras <= u.obras
  }

  // ---------------------------------------------------------------------
  // Lemmas

  /** The empty database satisfies every constraint. */
  lemma EmptyWellFormed()
    ensures WellFormed(Empty)
  {
  }

  /** A second `Entorno`, `Etapa` or `TipoObra` with a name already present breaks the UNIQUE constraint. */
  lemma UniqueNames(t: Tables, n: string)
    ensures n in t.entornos ==> !WellFormed(t.(entornos := t.entornos + [n]))
    ensures n in t.etapas ==> !WellFormed(t.(etapas := t.etapas + [n]))
    ensures n in t.tipos ==> !WellFormed(t.(tipos := t.tipos + [n]))
  {
    if n in t.entornos { RepeatNotDistinct(t.entornos, n); }
    if n in t.etapas { RepeatNotDistinct(t.etapas, n); }
    if n in t.tipos { RepeatNotDistinct(t.tipos, n); }
  }

  /** Appending a row already present makes the table repeat it. */
  lemma RepeatNotDistinct<T>(s: seq<T>, n: T)
    requires n in s
    ensures !Distinct(s + [n])
  {
    var i :| 0 <= i < |s| && s[i] == n;
    assert (s + [n])[i] == (s + [n])[|s|];
  }

  /** A second `ContratacionTipo`, `AreaResponsable` or `Comuna` of the same name is accepted. */
  lemma RepeatedNamesAccepted(t: Tables, n: string)
    requires WellFormed(t)
    ensures WellFormed(t.(contratacionTipos := t.contratacionTipos + [n]))
    ensures WellFormed(t.(areasResponsables := t.areasResponsables + [n]))
    ensures WellFormed(t.(comunas := t.comunas + [n]))
  {
  }

  /** Adding rows to the tables keeps every reference valid. */
  lemma ObraFitsExtends(o: ObraRec, t: Tables, u: Tables)
    requires ObraFits(o, t) && Extends(t, u)
    ensures ObraFits(o, u)
  {
  }
}
