/**
 * The results screen's lookup: fetch the vehicle document keyed by the plate
 * from `vehiculos`, then the owner document keyed by its `propietario_id` from
 * `propietarios`, and merge both into the record the screen shows.
 */
module Lookup {
  import opened Wrappers
  import opened Values

  /** A document of `vehiculos` (`propietario_id` is `propietarioId`, `año` is `anio`). */
  datatype VehiculoBD = VehiculoBD(
    marca: string, modelo: string, color: string,
    anio: Dyn, adeudos: Dyn, propietarioId: string)

  /** A document of `propietarios`. */
  datatype PropietarioBD = PropietarioBD(nombre: string)

  /** The merged record the screen shows. */
  datatype ResultadoFinal = ResultadoFinal(
    nombrePropietario: string, marca: string, modelo: string, color: string,
    anio: string, adeudos: Dyn)

  /** What one `get()` delivers: its failure listener ran; or its success
      listener ran with a document that does not exist; or with one that
      exists but that `toObject` cannot convert (a stored field of the wrong
      type), so `toObject` throws and the listener stops before assigning
      anything; or with one that `toObject` turned into a value (`None` when
      it gave null). */
  datatype Fetch<T> = Failed | Missing | Unreadable | Found(obj: Option<T>)

  /** `estadoBusqueda`: "cargando", "exito", "no_encontrado", "error". */
  datatype Estado = Cargando | Exito | NoEncontrado | Error

  /** One document read issued to the database. */
  datatype Consulta = Consulta(coleccion: string, documento: string)

  const Vehiculos := "vehiculos"
  const Propietarios := "propietarios"
  const Desconocido := "Desconocido"

  /** The vehicle fetch leads to an owner fetch: the document exists, it
      deserialises, and its owner id is not empty. */
  predicate OwnerFetched(v: Fetch<VehiculoBD>) {
    v.Found? && v.obj.Some? && v.obj.value.propietarioId != ""
  }

  /** The record built from a vehicle and the deserialised owner. */
  function Merge(v: VehiculoBD, p: Option<PropietarioBD>): ResultadoFinal {
    ResultadoFinal(
      if p.Some? then p.value.nombre else Desconocido,
      v.marca, v.modelo, v.color, ToText(v.anio), v.adeudos)
  }

  /** The reads the lookup issues, in order. */
  function Consultas(placaId: string, v: Fetch<VehiculoBD>): (r: seq<Consulta>)
    ensures 1 <= |r| <= 2 && r[0] == Consulta(Vehiculos, placaId)
    ensures |r| == 2 <==> OwnerFetched(v)
    ensures |r| == 2 ==> r[1] == Consulta(Propietarios, v.obj.value.propietarioId)
  {
    [Consulta(Vehiculos, placaId)] +
    if OwnerFetched(v) then [Consulta(Propietarios, v.obj.value.propietarioId)] else []
  }

  /** The final `(estadoBusqueda, resultado)` once both listeners have run,
      as a function of the two fetches. */
  function Outcome(v: Fetch<VehiculoBD>, o: Fetch<PropietarioBD>): (r: (Estado, Option<ResultadoFinal>))
    ensures r.0 == Cargando <==> v == Unreadable || (OwnerFetched(v) && o == Unreadable)
    ensures r.1.Some? <==> r.0 == Exito
    ensures r.0 == NoEncontrado <==> v == Missing
    ensures r.0 == Exito <==> OwnerFetched(v) && o.Found?
    ensures r.0 == Error <==>
      v == Failed || (v.Found? && !OwnerFetched(v)) || (OwnerFetched(v) && (o == Failed || o == Missing))
    ensures r.0 == Exito ==>
      var vd, res := v.obj.value, r.1.value;
      res.marca == vd.marca && res.modelo == vd.modelo && res.color == vd.color &&
      res.anio == ToText(vd.anio) && res.adeudos == vd.adeudos &&
      res.nombrePropietario == (if o.obj.None? then Desconocido else o.obj.value.nombre)
  {
    match v
    case Failed => (Error, None)
    case Missing => (NoEncontrado, None)
    case Unreadable => (Cargando, None)
    case Found(datos) =>
      if datos.Some? && datos.value.propietarioId != "" then
        match o
        case Found(p) => (Exito, Some(Merge(datos.value, p)))
        case Unreadable => (Cargando, None)
        case _ => (Error, None)
      else (Error, None)
  }

  /** Which callback the screen is waiting for. After the last listener has
      run nothing changes the state any more; it stays `Cargando` when that
      listener threw. */
  datatype Espera = EsperaVehiculo | EsperaPropietario(vehiculo: VehiculoBD) | Terminada

  /** The remembered state of one results screen and its `LaunchedEffect`. */
  class Busqueda {
    const placaId: string
    var estadoBusqueda: Estado
    var resultado: Option<ResultadoFinal>
    var consultas: seq<Consulta>
    var espera: Espera

    ghost predicate Valid()
      reads this
    {
      (resultado.Some? <==> estadoBusqueda == Exito) &&
      match espera
      case EsperaVehiculo =>
        estadoBusqueda == Cargando && consultas == [Consulta(Vehiculos, placaId)]
      case EsperaPropietario(v) =>
        estadoBusqueda == Cargando && v.propietarioId != "" &&
        consultas == [Consulta(Vehiculos, placaId), Consulta(Propietarios, v.propietarioId)]
      case Terminada =>
        1 <= |consultas| <= 2 && consultas[0] == Consulta(Vehiculos, placaId)
    }

    /** The screen opens loading with no result and reads the vehicle document. */
    constructor (placaId: string)
      ensures Valid() && this.placaId == placaId
      ensures estadoBusqueda == Cargando && resultado == None && espera == EsperaVehiculo
      ensures consultas == [Consulta(Vehiculos, placaId)]
    {
      this.placaId := placaId;
      estadoBusqueda := Cargando;
      resultado := None;
      consultas := [Consulta(Vehiculos, placaId)];
      espera := EsperaVehiculo;
    }

    /** The listeners of the vehicle read. */
    method OnVehiculo(f: Fetch<VehiculoBD>)
      requires Valid() && espera == EsperaVehiculo
      modifies this
      ensures Valid() && resultado == None
      ensures OwnerFetched(f) ==>
        estadoBusqueda == Cargando && espera == EsperaPropietario(f.obj.value) &&
        consultas == old(consultas) + [Consulta(Propietarios, f.obj.value.propietarioId)]
      ensures !OwnerFetched(f) ==>
        espera == Terminada && consultas == old(consultas) &&
        estadoBusqueda == (if f == Missing then NoEncontrado else if f == Unreadable then Cargando else Error)
    {
      match f
      case Failed =>
        estadoBusqueda := Error;
        espera := Terminada;
      case Missing =>
        estadoBusqueda := NoEncontrado;
        espera := Terminada;
      case Unreadable =>
        espera := Terminada;
      case Found(datosVehiculo) =>
        if datosVehiculo.Some? && datosVehiculo.value.propietarioId != "" {
          consultas := consultas + [Consulta(Propietarios, datosVehiculo.value.propietarioId)];
          espera := EsperaPropietario(datosVehiculo.value);
        } else {
          estadoBusqueda := Error;
          espera := Terminada;
        }
    }

    /** The listeners of the owner read. */
    method OnPropietario(f: Fetch<PropietarioBD>)
      requires Valid() && espera.EsperaPropietario?
      modifies this
      ensures Valid() && espera == Terminada && consultas == old(consultas)
      ensures f.Found? ==> estadoBusqueda == Exito && resultado == Some(Merge(old(espera).vehiculo, f.obj))
      ensures f == Unreadable ==> estadoBusqueda == Cargando && resultado == None
      ensures f == Failed || f == Missing ==> estadoBusqueda == Error && resultado == None
    {
      var datosVehiculo := espera.vehiculo;
      match f {
        case Found(datosPropietario) =>
          resultado := Some(Merge(datosVehiculo, datosPropietario));
          estadoBusqueda := Exito;
        case Unreadable =>
        case _ =>
          estadoBusqueda := Error;
      }
      espera := Terminada;
    }
  }

  /** One whole lookup: open the screen, deliver the vehicle read, and deliver
      the owner read when one was issued. The screen ends in the state
      `Outcome` gives, having issued exactly the reads `Consultas` lists. */
  method Buscar(placaId: string, v: Fetch<VehiculoBD>, o: Fetch<PropietarioBD>)
    returns (estado: Estado, resultado: Option<ResultadoFinal>, consultas: seq<Consulta>)
    ensures (estado, resultado) == Outcome(v, o)
    ensures consultas == Consultas(placaId, v)
  {
    var b := new Busqueda(placaId);
    b.OnVehiculo(v);
    if b.espera.EsperaPropietario? {
      b.OnPropietario(o);
    }
    estado, resultado, consultas := b.estadoBusqueda, b.resultado, b.consultas;
  }
}
