/**
 * The lifecycle of a work in modelo_orm2.py (lines 104-170): an `Obra`
 * whose fields the transitions assign in memory before calling `save`,
 * which runs `validate` and writes the row only when every check passes.
 * The stages live in the `Etapa` table, whose names are UNIQUE (line 19);
 * every transition finds or creates its stage by name.
 */
module Ciclo {
  import opened Wrappers
  import opened Numbers
  import opened Cells
  import opened Lookup

  /**
   * Why a call raises: the `ValueError`s of `validate` (lines 104-114), and
   * the `TypeError` Python raises when it compares or adds a `None`
   * (`None < 0`, `0 <= None`, `None + n`).
   */
  datatype Falla =
    | PlazoNegativo
    | AvanceFueraDeRango
    | MontoNegativo
    | ManoObraNegativa
    | TextoVacio
    | TipoInvalido

  /**
   * The fields of `Obra` (lines 67-99) that `validate` reads or a
   * transition assigns; references are ids.  A field is `Option` when the
   * object in memory may hold `None` in it: the nullable columns, and the
   * fields with no default that the caller may leave unset.
   */
  datatype Registro = Registro(
    etapa: nat, tipoContratacion: nat, empresa: Option<nat>, fuenteFinanciamiento: Option<nat>,
    nombre: Option<string>, descripcion: Option<string>, montoContrato: Option<real>, porcentajeAvance: Option<real>,
    plazoMeses: Option<int>, manoObra: Option<int>, nroContratacion: Option<int>, expedienteNumero: Option<string>,
    fechaInicio: Option<Timestamp>, fechaFinInicial: Option<Timestamp>,
    destacada: bool, finalizada: bool, rescindida: bool)

  /** The check of line 105 passes. */
  predicate PasaPlazo(r: Registro) {
    r.plazoMeses.Some? && r.plazoMeses.value >= 0
  }

  /** The check of line 107 passes. */
  predicate PasaAvance(r: Registro) {
    r.porcentajeAvance.Some? && 0.0 <= r.porcentajeAvance.value <= 100.0
  }

  /** The check of line 109 passes. */
  predicate PasaMonto(r: Registro) {
    r.montoContrato.Some? && r.montoContrato.value >= 0.0
  }

  /** The check of line 111 passes: a `None` workforce is skipped. */
  predicate PasaManoObra(r: Registro) {
    r.manoObra.None? || r.manoObra.value >= 0
  }

  /** The check of line 113 passes: `not x` holds of `None` and of "". */
  predicate PasaTextos(r: Registro) {
    r.nombre.Some? && r.nombre.value != "" && r.descripcion.Some? && r.descripcion.value != ""
  }

  /** Every check of `validate` passes. */
  predicate Valido(r: Registro) {
    PasaPlazo(r) && PasaAvance(r) && PasaMonto(r) && PasaManoObra(r) && PasaTextos(r)
  }

  /**
   * `validate` (lines 104-114): the first check that fails, in the order
   * of the source, or `None` when all pass.  Each error is raised exactly
   * when every earlier check passes and its own fails.
   */
  function Validate(r: Registro): (e: Option<Falla>)
    ensures e.None? <==> Valido(r)
    ensures e == Some(TipoInvalido) <==>
              r.plazoMeses.None? || (PasaPlazo(r) && r.porcentajeAvance.None?) ||
              (PasaPlazo(r) && PasaAvance(r) && r.montoContrato.None?)
    ensures e == Some(PlazoNegativo) <==> r.plazoMeses.Some? && r.plazoMeses.value < 0
    ensures e == Some(AvanceFueraDeRango) <==>
              PasaPlazo(r) && r.porcentajeAvance.Some? && !(0.0 <= r.porcentajeAvance.value <= 100.0)
    ensures e == Some(MontoNegativo) <==>
              PasaPlazo(r) && PasaAvance(r) && r.montoContrato.Some? && r.montoContrato.value < 0.0
    ensures e == Some(ManoObraNegativa) <==> PasaPlazo(r) && PasaAvance(r) && PasaMonto(r) && !PasaManoObra(r)
    ensures e == Some(TextoVacio) <==>
              PasaPlazo(r) && PasaAvance(r) && PasaMonto(r) && PasaManoObra(r) && !PasaTextos(r)
  {
    if r.plazoMeses.None? then Some(TipoInvalido)
    else if r.plazoMeses.value < 0 then Some(PlazoNegativo)
    else if r.porcentajeAvance.None? then Some(TipoInvalido)
    else if !(0.0 <= r.porcentajeAvance.value <= 100.0) then Some(AvanceFueraDeRango)
    else if r.montoContrato.None? then Some(TipoInvalido)
    else if r.montoContrato.value < 0.0 then Some(MontoNegativo)
    else if r.manoObra.Some? && r.manoObra.value < 0 then Some(ManoObraNegativa)
    else if r.nombre.None? || r.nombre.value == "" || r.descripcion.None? || r.descripcion.value == "" then
      Some(TextoVacio)
    else None
  }

  /** What `adjudicar_obra` may receive as the file number: `str` of it is stored. */
  datatype Expediente = Numero(n: int) | Texto(s: string) | Ninguno

  /** `str(nro_expediente)` (line 133): the decimal digits of a number, a text itself, "None" for `None`. */
  function ExpedienteTexto(x: Expediente): (r: string)
    ensures x.Numero? ==> ParseInteger(r) == Some(x.n)
    ensures x.Texto? ==> r == x.s
    ensures x.Ninguno? ==> r == "None"
  {
    match x
    case Numero(n) => IntToText(n)
    case Texto(s) => s
    case Ninguno => "None"
  }

  /**
   * What `save` (lines 116-118) leaves behind: the stored row becomes
   * `datos` when `validate` passes and stays `antes` when it raises.
   */
  predicate Persistio(antes: Option<Registro>, despues: Option<Registro>, datos: Registro, error: Option<Falla>) {
    error == Validate(datos) && despues == (if error.None? then Some(datos) else antes)
  }

  /** The `Etapa` table: stage names in insertion order, the id of a row its position plus one. */
  class Etapas {
    var nombres: seq<string>

    constructor ()
      ensures nombres == []
    {
      nombres := [];
    }

    /** `Etapa.get_or_create(nombre=...)[0]`: the id of the stage of that name, created when missing. */
    method ObtenerOCrear(nombre: string) returns (id: nat)
      modifies this
      ensures nombres == GetOrCreate(old(nombres), nombre).rows && id == GetOrCreate(old(nombres), nombre).id
      ensures Ref(id, |nombres|) && nombres[id - 1] == nombre
      ensures nombre in old(nombres) ==> nombres == old(nombres)
      ensures Distinct(old(nombres)) ==> Distinct(nombres)
    {
      var g := GetOrCreate(nombres, nombre);
      if Distinct(nombres) {
        GetOrCreateDistinct(nombres, nombre);
      }
      nombres := g.rows;
      id := g.id;
    }
  }

  /** A work: the fields in memory, the row last stored (none before the first save) and the stage table. */
  class Obra {
    var datos: Registro
    var guardado: Option<Registro>
    const etapas: Etapas

    /** The stage table repeats no name, and the stored row always passed `validate`. */
    predicate Consistente()
      reads this, etapas
    {
      Distinct(etapas.nombres) && (guardado.Some? ==> Valido(guardado.value))
    }

    /** An `Obra(...)` built in memory and not yet saved, over a stage table that keeps its UNIQUE names. */
    constructor (datos: Registro, etapas: Etapas)
      requires Distinct(etapas.nombres)
      ensures this.datos == datos && guardado == None && this.etapas == etapas
      ensures Consistente()
    {
      this.datos := datos;
      guardado := None;
      this.etapas := etapas;
    }

    /** `save`: `validate`, then the write. */
    method Save() returns (error: Option<Falla>)
      requires Consistente()
      modifies this
      ensures Consistente()
      ensures datos == old(datos) && Persistio(old(guardado), guardado, datos, error)
    {
      error := Validate(datos);
      if error.None? {
        guardado := Some(datos);
      }
    }

    /** `nuevo_proyecto` (lines 120-123): stage "Proyecto", progress 0. */
    method NuevoProyecto() returns (error: Option<Falla>)
      requires Consistente()
      modifies this, etapas
      ensures Consistente()
      ensures etapas.nombres == GetOrCreate(old(etapas.nombres), "Proyecto").rows
      ensures datos == old(datos).(etapa := GetOrCreate(old(etapas.nombres), "Proyecto").id, porcentajeAvance := Some(0.0))
      ensures etapas.nombres[datos.etapa - 1] == "Proyecto"
      ensures Persistio(old(guardado), guardado, datos, error)
    {
      var id := etapas.ObtenerOCrear("Proyecto");
      datos := datos.(etapa := id, porcentajeAvance := Some(0.0));
      error := Save();
    }

    /** `iniciar_contratacion` (lines 125-129): stage "Licitación", contracting type and number. */
    method IniciarContratacion(tipoContratacion: nat, nroContratacion: Option<int>) returns (error: Option<Falla>)
      requires Consistente()
      modifies this, etapas
      ensures Consistente()
      ensures etapas.nombres == GetOrCreate(old(etapas.nombres), "Licitación").rows
      ensures datos == old(datos).(etapa := GetOrCreate(old(etapas.nombres), "Licitación").id,
                                   tipoContratacion := tipoContratacion, nroContratacion := nroContratacion)
      ensures etapas.nombres[datos.etapa - 1] == "Licitación"
      ensures Persistio(old(guardado), guardado, datos, error)
    {
      var id := etapas.ObtenerOCrear("Licitación");
      datos := datos.(etapa := id, tipoContratacion := tipoContratacion, nroContratacion := nroContratacion);
      error := Save();
    }

    /** `adjudicar_obra` (lines 131-135): the company, the file number as text, stage "Adjudicada". */
    method AdjudicarObra(empresa: Option<nat>, nroExpediente: Expediente) returns (error: Option<Falla>)
      requires Consistente()
      modifies this, etapas
      ensures Consistente()
      ensures etapas.nombres == GetOrCreate(old(etapas.nombres), "Adjudicada").rows
      ensures datos == old(datos).(empresa := empresa, expedienteNumero := Some(ExpedienteTexto(nroExpediente)),
                                   etapa := GetOrCreate(old(etapas.nombres), "Adjudicada").id)
      ensures nroExpediente.Numero? ==> ParseInteger(datos.expedienteNumero.value) == Some(nroExpediente.n)
      ensures nroExpediente.Texto? ==> datos.expedienteNumero == Some(nroExpediente.s)
      ensures etapas.nombres[datos.etapa - 1] == "Adjudicada"
      ensures Persistio(old(guardado), guardado, datos, error)
    {
      var expediente := ExpedienteTexto(nroExpediente);
      assert nroExpediente.Numero? ==> ParseInteger(expediente) == Some(nroExpediente.n);
      var id := etapas.ObtenerOCrear("Adjudicada");
      datos := datos.(empresa := empresa, expedienteNumero := Some(expediente), etapa := id);
      error := Save();
    }

    /** `iniciar_obra` (lines 137-144): flag, dates, funding and workforce, stage "En Ejecucion". */
    method IniciarObra(destacada: bool, fechaInicio: Option<Timestamp>, fechaFinInicial: Option<Timestamp>,
                       fuenteFinanciamiento: Option<nat>, manoObra: Option<int>)
      returns (error: Option<Falla>)
      requires Consistente()
      modifies this, etapas
      ensures Consistente()
      ensures etapas.nombres == GetOrCreate(old(etapas.nombres), "En Ejecucion").rows
      ensures datos == old(datos).(destacada := destacada, fechaInicio := fechaInicio,
                                   fechaFinInicial := fechaFinInicial, fuenteFinanciamiento := fuenteFinanciamiento,
                                   manoObra := manoObra, etapa := GetOrCreate(old(etapas.nombres), "En Ejecucion").id)
      ensures etapas.nombres[datos.etapa - 1] == "En Ejecucion"
      ensures Persistio(old(guardado), guardado, datos, error)
    {
      var id := etapas.ObtenerOCrear("En Ejecucion");
      datos := datos.(destacada := destacada, fechaInicio := fechaInicio, fechaFinInicial := fechaFinInicial,
                      fuenteFinanciamiento := fuenteFinanciamiento, manoObra := manoObra, etapa := id);
      error := Save();
    }

    /**
     * `actualizar_porcentaje_avance` (lines 146-151): a value in [0, 100] is
     * set and saved; any other raises before anything changes.
     */
    method ActualizarPorcentajeAvance(valor: real) returns (error: Option<Falla>)
      requires Consistente()
      modifies this
      ensures Consistente()
      ensures 0.0 <= valor <= 100.0 ==>
                datos == old(datos).(porcentajeAvance := Some(valor)) && Persistio(old(guardado), guardado, datos, error)
      ensures !(0.0 <= valor <= 100.0) ==>
                error == Some(AvanceFueraDeRango) && datos == old(datos) && guardado == old(guardado)
    {
      if 0.0 <= valor <= 100.0 {
        datos := datos.(porcentajeAvance := Some(valor));
        error := Save();
      } else {
        error := Some(AvanceFueraDeRango);
      }
    }

    /**
     * `incrementar_plazo` (lines 153-155): the term grows by `cantidad` in
     * memory, whether or not the save then accepts it; on a work whose term
     * is `None` the addition raises and nothing changes.
     */
    method IncrementarPlazo(cantidad: int) returns (error: Option<Falla>)
      requires Consistente()
      modifies this
      ensures Consistente()
      ensures old(datos).plazoMeses.None? ==> error == Some(TipoInvalido) && datos == old(datos) && guardado == old(guardado)
      ensures old(datos).plazoMeses.Some? ==>
                datos == old(datos).(plazoMeses := Some(old(datos).plazoMeses.value + cantidad)) &&
                Persistio(old(guardado), guardado, datos, error)
    {
      match datos.plazoMeses
      case None =>
        error := Some(TipoInvalido);
      case Some(p) =>
        datos := datos.(plazoMeses := Some(p + cantidad));
        error := Save();
    }

    /**
     * `incrementar_mano_obra` (lines 157-159): as `IncrementarPlazo`; on a
     * work whose workforce is `None` the addition raises and nothing changes.
     */
    method IncrementarManoObra(cantidad: int) returns (error: Option<Falla>)
      requires Consistente()
      modifies this
      ensures Consistente()
      ensures old(datos).manoObra.None? ==> error == Some(TipoInvalido) && datos == old(datos) && guardado == old(guardado)
      ensures old(datos).manoObra.Some? ==>
                datos == old(datos).(manoObra := Some(old(datos).manoObra.value + cantidad)) &&
                Persistio(old(guardado), guardado, datos, error)
    {
      match datos.manoObra
      case None =>
        error := Some(TipoInvalido);
      case Some(n) =>
        datos := datos.(manoObra := Some(n + cantidad));
        error := Save();
    }

    /** `finalizar_obra` (lines 161-165): stage "Finalizada", progress 100, finished. */
    method FinalizarObra() returns (error: Option<Falla>)
      requires Consistente()
      modifies this, etapas
      ensures Consistente()
      ensures etapas.nombres == GetOrCreate(old(etapas.nombres), "Finalizada").rows
      ensures datos == old(datos).(etapa := GetOrCreate(old(etapas.nombres), "Finalizada").id,
                                   porcentajeAvance := Some(100.0), finalizada := true)
      ensures etapas.nombres[datos.etapa - 1] == "Finalizada"
      ensures Persistio(old(guardado), guardado, datos, error)
    {
      var id := etapas.ObtenerOCrear("Finalizada");
      datos := datos.(etapa := id, porcentajeAvance := Some(100.0), finalizada := true);
      error := Save();
    }

    /** `rescindir_obra` (lines 167-170): rescinded, stage "Rescindida"; progress and `finalizada` untouched. */
    method RescindirObra() returns (error: Option<Falla>)
      requires Consistente()
      modifies this, etapas
      ensures Consistente()
      ensures etapas.nombres == GetOrCreate(old(etapas.nombres), "Rescindida").rows
      ensures datos == old(datos).(rescindida := true, etapa := GetOrCreate(old(etapas.nombres), "Rescindida").id)
      ensures etapas.nombres[datos.etapa - 1] == "Rescindida"
      ensures Persistio(old(guardado), guardado, datos, error)
    {
      var id := etapas.ObtenerOCrear("Rescindida");
      datos := datos.(rescindida := true, etapa := id);
      error := Save();
    }
  }

  /**
   * No transition looks at the current stage: a finished work can be
   * sent back to "Proyecto", which resets its progress to 0 and leaves it
   * marked finished.
   */
  method FinalizarYReabrir(o: Obra) returns (error: Option<Falla>)
    requires o.Consistente()
    modifies o, o.etapas
    ensures o.Consistente()
    ensures o.datos.porcentajeAvance == Some(0.0) && o.datos.finalizada
    ensures Ref(o.datos.etapa, |o.etapas.nombres|) && o.etapas.nombres[o.datos.etapa - 1] == "Proyecto"
    ensures Valido(old(o.datos)) ==> error.None? && o.guardado == Some(o.datos)
  {
    var primero := o.FinalizarObra();
    error := o.NuevoProyecto();
  }

  /**
   * Repeating a transition reuses its stage: the second call finds the row
   * the first one created and adds none.
   */
  method FinalizarDosVeces(o: Obra) returns (error: Option<Falla>)
    requires o.Consistente()
    modifies o, o.etapas
    ensures o.Consistente()
    ensures o.etapas.nombres == GetOrCreate(old(o.etapas.nombres), "Finalizada").rows
    ensures o.datos.etapa == GetOrCreate(old(o.etapas.nombres), "Finalizada").id
  {
    var primero := o.FinalizarObra();
    GetOrCreateIdempotent(old(o.etapas.nombres), "Finalizada");
    error := o.FinalizarObra();
  }

  // ---------------------------------------------------------------------
  // Lemmas

  /** A save writes only rows that pass `validate`: the stored row stays valid across every save. */
  lemma PersistioValido(antes: Option<Registro>, despues: Option<Registro>, datos: Registro, error: Option<Falla>)
    requires Persistio(antes, despues, datos, error)
    requires antes.Some? ==> Valido(antes.value)
    ensures despues.Some? ==> Valido(despues.value)
    ensures error.None? <==> despues == Some(datos)
  {
  }

  /**
   * On a valid work, growing the term by `cantidad` (negative or not) is
   * accepted exactly when the new term is not negative.
   */
  lemma IncrementoPlazo(r: Registro, n: int, cantidad: int)
    requires Valido(r) && r.plazoMeses == Some(n)
    ensures Validate(r.(plazoMeses := Some(n + cantidad))).None? <==> n + cantidad >= 0
    ensures n + cantidad < 0 ==> Validate(r.(plazoMeses := Some(n + cantidad))) == Some(PlazoNegativo)
  {
  }

  /** The same for the workforce. */
  lemma IncrementoManoObra(r: Registro, n: int, cantidad: int)
    requires Valido(r) && r.manoObra == Some(n)
    ensures Validate(r.(manoObra := Some(n + cantidad))).None? <==> n + cantidad >= 0
  {
  }

  /**
   * The checks run in the order of the source: a work whose workforce is
   * negative and whose name is empty fails on the workforce (line 111
   * comes before line 113).
   */
  lemma ManoObraAntesQueTextos(r: Registro)
    requires PasaPlazo(r) && PasaAvance(r) && PasaMonto(r)
    requires r.manoObra == Some(-1) && r.nombre == Some("")
    ensures Validate(r) == Some(ManoObraNegativa)
  {
  }

  /**
   * A work built without a term (the field has no default, line 83) is
   * never stored: `validate` raises a `TypeError` on its first check.
   */
  lemma SinPlazoNoSeGuarda(r: Registro, antes: Option<Registro>, despues: Option<Registro>, error: Option<Falla>)
    requires r.plazoMeses.None? && Persistio(antes, despues, r, error)
    ensures error == Some(TipoInvalido) && despues == antes
  {
  }

  /** The stage names the transitions use are all different, so each transition has a stage of its own. */
  lemma NombresDeEtapa()
    ensures Distinct(["Proyecto", "Licitación", "Adjudicada", "En Ejecucion", "Finalizada", "Rescindida"])
  {
  }
}
