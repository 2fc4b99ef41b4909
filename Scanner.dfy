/**
 * The scanner screen's capture button: the `estaAnalizando` busy flag, the
 * temporary photo files, and the callbacks of the photo save, the decode
 * and crop, and text recognition.
 */
module Scanner {
  import opened Wrappers
  import opened PlateMatcher

  /** Left (or top) edge of a crop of `cropSize` pixels centred in `size`
      pixels; the crop size itself comes from a floating-point fraction. */
  function CropOrigin(size: int, cropSize: int): (x: int)
    requires 0 <= cropSize <= size
    ensures 0 <= x && x + cropSize <= size
    ensures size - cropSize - x == x || size - cropSize - x == x + 1
  {
    (size - cropSize) / 2
  }

  /** The navigation route prefix of the results screen. */
  const Resultados := "resultados/"

  /** A route to the results screen of a plate. */
  predicate IsPlateRoute(r: string) {
    |r| >= |Resultados| && r[..|Resultados|] == Resultados && IsPlate(r[|Resultados|..])
  }

  const NoPlaca := "No se encontró placa en el recuadro"
  const ErrorAnalizar := "Error al analizar"
  const ErrorProcesarFoto := "Error al procesar la foto"
  const ErrorTomarFoto := "Error al tomar la foto"

  /** What a started capture still waits for: the callback of the photo
      save, or the listeners of text recognition (whether its success or
      failure listener and its complete listener have run yet). */
  datatype Fase = Guardando | Reconociendo(resultado: bool, completo: bool)

  /** Capture `f` still waits for its save or for its recognition result. */
  predicate EnCurso(pendientes: map<nat, Fase>, f: nat) {
    f in pendientes && (pendientes[f] == Guardando || !pendientes[f].resultado)
  }

  /** The file of capture `f` must still exist: its complete listener is still due. */
  predicate FileDue(pendientes: map<nat, Fase>, f: nat) {
    f in pendientes && (pendientes[f] == Guardando || !pendientes[f].completo)
  }

  /** Changing or removing the entry of one capture `f` leaves every other
      capture as it was. */
  lemma OthersUnchanged(p: map<nat, Fase>, q: map<nat, Fase>, f: nat)
    requires forall g | g in q && g != f :: g in p && q[g] == p[g]
    ensures forall g | EnCurso(q, g) && g != f :: EnCurso(p, g)
    ensures forall g | FileDue(q, g) && g != f :: FileDue(p, g)
  {
  }

  /** The remembered state of the scanner screen together with the effects
      it has on the outside: temporary files on disk (named by the number of
      the capture that created them), the captures whose callbacks are still
      due, navigations and short messages. */
  class Escaner {
    var estaAnalizando: bool
    var capturas: nat
    var temporales: set<nat>
    var pendientes: map<nat, Fase>
    var navegaciones: seq<string>
    var avisos: seq<string>

    /** Captures are numbered in order; the file of a capture whose complete
        listener is still due exists; at most one capture is in flight, and
        while one is the flag is set; every navigation goes to a plate. */
    ghost predicate Valid()
      reads this
    {
      (forall f | f in temporales :: f < capturas) &&
      (forall f | f in pendientes :: f < capturas) &&
      (forall f | FileDue(pendientes, f) :: f in temporales) &&
      (forall f, g | EnCurso(pendientes, f) && EnCurso(pendientes, g) :: f == g) &&
      (forall f | EnCurso(pendientes, f) :: estaAnalizando) &&
      forall k | 0 <= k < |navegaciones| :: IsPlateRoute(navegaciones[k])
    }

    constructor ()
      ensures Valid() && !estaAnalizando && capturas == 0 && temporales == {} && pendientes == map[]
      ensures navegaciones == [] && avisos == []
    {
      estaAnalizando := false;
      capturas := 0;
      temporales := {};
      pendientes := map[];
      navegaciones := [];
      avisos := [];
    }

    /** The button: ignored while busy; otherwise sets the flag, creates a
        temporary file and starts exactly one capture, whose number it returns. */
    method Click() returns (foto: Option<nat>)
      requires Valid()
      modifies this
      ensures Valid()
      ensures old(estaAnalizando) ==> foto == None && unchanged(this)
      ensures !old(estaAnalizando) ==>
        foto == Some(old(capturas)) && estaAnalizando && capturas == old(capturas) + 1 &&
        temporales == old(temporales) + {old(capturas)} &&
        pendientes == old(pendientes)[old(capturas) := Guardando] &&
        navegaciones == old(navegaciones) && avisos == old(avisos)
    {
      if estaAnalizando {
        return None;
      }
      estaAnalizando := true;
      var photoFile := capturas;
      temporales := temporales + {photoFile};
      assert photoFile !in pendientes;
      OthersUnchanged(pendientes, pendientes[photoFile := Guardando], photoFile);
      pendientes := pendientes[photoFile := Guardando];
      capturas := capturas + 1;
      return Some(photoFile);
    }

    /** `onImageSaved`: returns early when the save gave no URI (the flag
        stays set and no callback of this capture follows); when decoding or
        cropping throws, reports it and clears the flag; otherwise submits
        the crop to text recognition. */
    method OnImageSaved(photoFile: nat, tieneUri: bool, recorteOk: bool) returns (reconociendo: bool)
      requires Valid() && photoFile in pendientes && pendientes[photoFile] == Guardando
      modifies this
      ensures Valid()
      ensures reconociendo <==> tieneUri && recorteOk
      ensures pendientes == if reconociendo
                            then old(pendientes)[photoFile := Reconociendo(false, false)]
                            else old(pendientes) - {photoFile}
      ensures tieneUri && !recorteOk ==>
        !estaAnalizando && avisos == old(avisos) + [ErrorProcesarFoto]
      ensures !(tieneUri && !recorteOk) ==>
        estaAnalizando == old(estaAnalizando) && avisos == old(avisos)
      ensures capturas == old(capturas) && temporales == old(temporales)
      ensures navegaciones == old(navegaciones)
    {
      assert EnCurso(pendientes, photoFile);
      OthersUnchanged(pendientes, pendientes - {photoFile}, photoFile);
      OthersUnchanged(pendientes, pendientes[photoFile := Reconociendo(false, false)], photoFile);
      if !tieneUri {
        pendientes := pendientes - {photoFile};
        return false;
      }
      if !recorteOk {
        avisos := avisos + [ErrorProcesarFoto];
        estaAnalizando := false;
        pendientes := pendientes - {photoFile};
        return false;
      }
      pendientes := pendientes[photoFile := Reconociendo(false, false)];
      return true;
    }

    /** Marks the recognition result of a capture as delivered. */
    function Resuelta(photoFile: nat): map<nat, Fase>
      requires photoFile in pendientes && pendientes[photoFile].Reconociendo?
      reads this
    {
      if pendientes[photoFile].completo then pendientes - {photoFile}
      else pendientes[photoFile := Reconociendo(true, false)]
    }

    /** The recognition success listener: navigates to the plate's results
        when one is found, reports otherwise, and clears the flag. */
    method OnOcrSuccess(photoFile: nat, blocks: seq<string>)
      requires Valid() && photoFile in pendientes
      requires pendientes[photoFile].Reconociendo? && !pendientes[photoFile].resultado
      modifies this
      ensures Valid() && !estaAnalizando && pendientes == old(Resuelta(photoFile))
      ensures FindPlate(blocks).Some? ==>
        navegaciones == old(navegaciones) + [Resultados + FindPlate(blocks).value] &&
        avisos == old(avisos)
      ensures FindPlate(blocks).None? ==>
        navegaciones == old(navegaciones) && avisos == old(avisos) + [NoPlaca]
      ensures capturas == old(capturas) && temporales == old(temporales)
    {
      assert EnCurso(pendientes, photoFile);
      OthersUnchanged(pendientes, Resuelta(photoFile), photoFile);
      var placaEncontrada := BuscarPlaca(blocks);
      if placaEncontrada.Some? {
        var ruta := Resultados + placaEncontrada.value;
        assert ruta[|Resultados|..] == placaEncontrada.value;
        navegaciones := navegaciones + [ruta];
      } else {
        avisos := avisos + [NoPlaca];
      }
      pendientes := Resuelta(photoFile);
      estaAnalizando := false;
    }

    /** The recognition failure listener: reports and clears the flag. */
    method OnOcrFailure(photoFile: nat)
      requires Valid() && photoFile in pendientes
      requires pendientes[photoFile].Reconociendo? && !pendientes[photoFile].resultado
      modifies this
      ensures Valid() && !estaAnalizando && pendientes == old(Resuelta(photoFile))
      ensures avisos == old(avisos) + [ErrorAnalizar]
      ensures capturas == old(capturas) && temporales == old(temporales)
      ensures navegaciones == old(navegaciones)
    {
      assert EnCurso(pendientes, photoFile);
      OthersUnchanged(pendientes, Resuelta(photoFile), photoFile);
      avisos := avisos + [ErrorAnalizar];
      pendientes := Resuelta(photoFile);
      estaAnalizando := false;
    }

    /** The recognition complete listener: deletes the capture's temporary
        file; the flag is left alone. */
    method OnOcrComplete(photoFile: nat)
      requires Valid() && photoFile in pendientes
      requires pendientes[photoFile].Reconociendo? && !pendientes[photoFile].completo
      modifies this
      ensures Valid()
      ensures temporales == old(temporales) - {photoFile}
      ensures pendientes == if old(pendientes[photoFile].resultado) then old(pendientes) - {photoFile}
                            else old(pendientes)[photoFile := Reconociendo(false, true)]
      ensures estaAnalizando == old(estaAnalizando) && capturas == old(capturas)
      ensures navegaciones == old(navegaciones) && avisos == old(avisos)
    {
      OthersUnchanged(pendientes, pendientes - {photoFile}, photoFile);
      OthersUnchanged(pendientes, pendientes[photoFile := Reconociendo(false, true)], photoFile);
      temporales := temporales - {photoFile};
      if pendientes[photoFile].resultado {
        pendientes := pendientes - {photoFile};
      } else {
        pendientes := pendientes[photoFile := Reconociendo(false, true)];
      }
    }

    /** `onError` of the photo save: reports and clears the flag. */
    method OnSaveError(photoFile: nat)
      requires Valid() && photoFile in pendientes && pendientes[photoFile] == Guardando
      modifies this
      ensures Valid() && !estaAnalizando && pendientes == old(pendientes) - {photoFile}
      ensures avisos == old(avisos) + [ErrorTomarFoto]
      ensures capturas == old(capturas) && temporales == old(temporales)
      ensures navegaciones == old(navegaciones)
    {
      assert EnCurso(pendientes, photoFile);
      OthersUnchanged(pendientes, pendientes - {photoFile}, photoFile);
      avisos := avisos + [ErrorTomarFoto];
      pendientes := pendientes - {photoFile};
      estaAnalizando := false;
    }
  }

  /** How one capture ends: the save fails, the save gives no URI, decoding
      or cropping throws, recognition fails, or recognition succeeds with
      these text blocks. */
  datatype Intento = ErrorGuardado | SinUri | ErrorRecorte | OcrFalla | OcrExito(blocks: seq<string>)

  /** The messages one capture shows. */
  function AvisosDe(i: Intento): seq<string> {
    match i
    case ErrorGuardado => [ErrorTomarFoto]
    case SinUri => []
    case ErrorRecorte => [ErrorProcesarFoto]
    case OcrFalla => [ErrorAnalizar]
    case OcrExito(blocks) => if FindPlate(blocks).Some? then [] else [NoPlaca]
  }

  /** One press of the button on a fresh screen, followed by the callbacks
      that the given ending delivers. Only the no-URI ending leaves the screen
      busy; the temporary file is deleted only when recognition ran; the
      screen navigates only to a plate that was found. */
  method Capturar(intento: Intento)
    returns (analizando: bool, temporalQueda: bool, rutas: seq<string>, mensajes: seq<string>)
    ensures analizando <==> intento == SinUri
    ensures temporalQueda <==> !(intento.OcrFalla? || intento.OcrExito?)
    ensures rutas == if intento.OcrExito? && FindPlate(intento.blocks).Some?
                     then [Resultados + FindPlate(intento.blocks).value] else []
    ensures forall k | 0 <= k < |rutas| :: IsPlateRoute(rutas[k])
    ensures mensajes == AvisosDe(intento)
  {
    var e := new Escaner();
    var foto := e.Click();
    var photoFile := foto.value;
    match intento {
      case ErrorGuardado =>
        e.OnSaveError(photoFile);
      case SinUri =>
        var _ := e.OnImageSaved(photoFile, false, true);
      case ErrorRecorte =>
        var _ := e.OnImageSaved(photoFile, true, false);
      case OcrFalla =>
        var _ := e.OnImageSaved(photoFile, true, true);
        e.OnOcrFailure(photoFile);
        e.OnOcrComplete(photoFile);
      case OcrExito(blocks) =>
        var _ := e.OnImageSaved(photoFile, true, true);
        e.OnOcrSuccess(photoFile, blocks);
        e.OnOcrComplete(photoFile);
    }
    analizando, temporalQueda, rutas, mensajes := e.estaAnalizando, photoFile in e.temporales, e.navegaciones, e.avisos;
  }

  /** A second press while the first capture is in flight starts nothing:
      only one temporary file exists and only one capture was started. */
  method ClickWhileBusy() returns (primera: Option<nat>, segunda: Option<nat>, capturas: nat, temporales: set<nat>)
    ensures primera == Some(0) && segunda == None
    ensures capturas == 1 && temporales == {0}
  {
    var e := new Escaner();
    primera := e.Click();
    segunda := e.Click();
    capturas, temporales := e.capturas, e.temporales;
  }

  /** After a save that gave no URI the flag is never cleared: a later
      press is ignored and the temporary file stays on disk. */
  method StuckAfterMissingUri() returns (reintento: Option<nat>, analizando: bool, temporales: set<nat>)
    ensures reintento == None && analizando && temporales == {0}
  {
    var e := new Escaner();
    var foto := e.Click();
    var _ := e.OnImageSaved(foto.value, false, true);
    reintento := e.Click();
    analizando, temporales := e.estaAnalizando, e.temporales;
  }
}
