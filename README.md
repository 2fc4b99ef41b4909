# Detector de placas — a verified model of its decision logic

The app photographs a licence plate, crops the photo to the on-screen guide,
runs on-device text recognition, picks the plate out of the recognised text
blocks, and then looks the plate up in two document collections (`vehiculos`,
then `propietarios` through the vehicle's `propietario_id`). This project
models, in Dafny, the parts of `MainActivity.kt` that make decisions:

- `PlateMatcher` — `buscarPlaca`: each block is cleaned (the characters of
  `[\s\n-]` removed, then upper-cased; on Android the regular expressions are
  ICU's, so `\s` is every Unicode White_Space character, the no-break and
  ideographic spaces included) and the first cleaned block that is a
  whole match of `^[A-Z0-9]{6,8}$` is returned. `FindPlate` is the recursive
  specification; `BuscarPlaca` is the source's loop with its early return,
  proved equal to it.
- `Values` — the `toString()` of a Firestore field typed `Any?` (`año`, and
  the amount in the debt text): a string, a whole number, null or another value.
- `Debt` — the `when` over `adeudos` that picks the debt text and colour.
- `Lookup` — the `LaunchedEffect` of the results screen: class `Busqueda`
  holds `estadoBusqueda` and `resultado`, and its methods `OnVehiculo` and
  `OnPropietario` are the success/failure listeners of the two reads. A
  read can also deliver a document that `toObject` cannot convert; it then
  throws inside the listener and the state stays "cargando".
  `Outcome` gives the final state as a function of the two read outcomes,
  and `Buscar` proves that the class reaches it.
- `Scanner` — the capture button of the scanner screen: class `Escaner`
  holds the `estaAnalizando` flag, the temporary photo files, the navigations
  and the short messages; its methods are the button and the callbacks of
  the photo save, decode/crop and text recognition. Each started capture
  records which callbacks are still due, so the methods follow the order in
  which the callbacks arrive. The class keeps an invariant: at most one
  capture is in flight, and while one is, the flag is set. `CropOrigin` is
  the integer centring of the crop.

Where the code does something one might not expect, the model follows the code:

- An empty `propietario_id` sets `"error"` (not a "not found" state), and
  no owner read is issued.
- A missing owner document sets `"error"`, not `"no_encontrado"`.
- The owner name falls back to `"Desconocido"` only when `toObject` gives
  null; an empty `nombre` is shown as it is.
- The temporary photo file is deleted only by the recognition complete
  listener. The save-error, no-URI and decode/crop-exception paths leave it
  on disk, and the no-URI path also leaves `estaAnalizando` set.

## Model

| member | source | states |
|---|---|---|
| PlateMatcher.Strip | app/src/main/java/com/example/detectorplacas/MainActivity.kt:590 | removing `[\s\n-]` leaves no Unicode white space (tab, line feed, vertical tab, form feed, carriage return, space, U+0085, U+00A0, U+1680, U+2000-U+200A, U+2028, U+2029, U+202F, U+205F, U+3000) and no hyphen, and never lengthens the text |
| PlateMatcher.CleanIsPerCharacter | app/src/main/java/com/example/detectorplacas/MainActivity.kt:590 | cleaning works character by character and keeps the order: a separator contributes nothing, any other character contributes its upper-case form |
| PlateMatcher.StripIdentity | app/src/main/java/com/example/detectorplacas/MainActivity.kt:590 | removing separators leaves a text unchanged exactly when it has none |
| PlateMatcher.UpperOutput | app/src/main/java/com/example/detectorplacas/MainActivity.kt:590 | upper-casing produces only characters that upper-casing leaves alone, and adds no separator |
| PlateMatcher.CleanIdempotent | app/src/main/java/com/example/detectorplacas/MainActivity.kt:590 | cleaning a cleaned block changes nothing |
| PlateMatcher.PlateIsClean | app/src/main/java/com/example/detectorplacas/MainActivity.kt:588-592 | a text that matches the plate pattern is its own cleaned form |
| PlateMatcher.FindPlate | app/src/main/java/com/example/detectorplacas/MainActivity.kt:587-596 | a result is 6 to 8 characters, each `A`-`Z` or `0`-`9`; the result is null exactly when no block's cleaned text matches |
| PlateMatcher.BuscarPlaca | app/src/main/java/com/example/detectorplacas/MainActivity.kt:587-596 | the loop with early return gives the same result as the first-match specification |
| PlateMatcher.FindPlateFirstMatch | app/src/main/java/com/example/detectorplacas/MainActivity.kt:589-593 | when block `i` is the first whose cleaned text matches, that cleaned text is returned |
| PlateMatcher.FindPlateIsFirstMatch | app/src/main/java/com/example/detectorplacas/MainActivity.kt:589-595 | a returned plate is the cleaned text of some block, and no earlier block's cleaned text matched |
| PlateMatcher.FindPlateNormalized | app/src/main/java/com/example/detectorplacas/MainActivity.kt:589-591 | matching blocks that were cleaned beforehand gives the same result as matching the raw blocks |
| PlateMatcher.HyphenatedPlate | app/src/main/java/com/example/detectorplacas/MainActivity.kt:588-592 | the block `vla-551a` yields the plate `VLA551A` |
| PlateMatcher.SeparatorInsideBlock | app/src/main/java/com/example/detectorplacas/MainActivity.kt:589-592 | a separator inside a single block is dropped, and the block yields the cleaned text of its two parts joined when that is a plate |
| PlateMatcher.SeparatorInsidePlate | app/src/main/java/com/example/detectorplacas/MainActivity.kt:589-592 | a separator between two runs of plate characters is dropped, and the joined text is returned when it is a plate |
| PlateMatcher.NoBreakSpacePlate | app/src/main/java/com/example/detectorplacas/MainActivity.kt:590-592 | the block `VLA`, no-break space, `551A` yields the plate `VLA551A` |
| PlateMatcher.ShortBlockRejected | app/src/main/java/com/example/detectorplacas/MainActivity.kt:588-591 | the block `12345` yields no plate |
| Values.NatToString | app/src/main/java/com/example/detectorplacas/MainActivity.kt:388 | the text of a whole number is a non-empty run of decimal digits with no leading zero |
| Values.NatToStringRoundTrip | app/src/main/java/com/example/detectorplacas/MainActivity.kt:388 | the digits of a natural number read back as that number |
| Values.IntToStringRoundTrip | app/src/main/java/com/example/detectorplacas/MainActivity.kt:537 | the text of any whole number, negative ones with a minus sign, reads back as that number |
| Debt.DebtDisplay | app/src/main/java/com/example/detectorplacas/MainActivity.kt:529-541 | green exactly for "Ninguno" in any case, the string "0" or a number not above zero, and then the text is "Sin Adeudo"; grey "N/A" exactly for null or a value that is neither string nor number; otherwise red, with `"$ "` followed by the value's own text |
| Debt.Amount | app/src/main/java/com/example/detectorplacas/MainActivity.kt:534 | an amount owed is shown in red as `"$ "` then the amount, and can never read "Sin Adeudo" or "N/A" |
| Debt.DebtExamples | app/src/main/java/com/example/detectorplacas/MainActivity.kt:529-541 | one case per row of the debt table: `NINGUNO`, `"0"`, `""`, `"1500"`, 500, 0, -3 and null |
| Lookup.Consultas | app/src/main/java/com/example/detectorplacas/MainActivity.kt:372-378 | the vehicle is read first, keyed by the plate; a second read, of the owner keyed by `propietario_id`, is issued exactly when the vehicle exists, deserialises and has a non-empty owner id |
| Lookup.Outcome | app/src/main/java/com/example/detectorplacas/MainActivity.kt:372-404 | the lookup stays "cargando" exactly when `toObject` throws on the vehicle document, or on the owner document once it is read; a result exists exactly when the state is "exito"; "no_encontrado" exactly when the vehicle document is missing; "exito" exactly when the owner was read and its document converts; "error" in every other case (a failed read, a null vehicle object, an empty owner id, a missing owner document); on success brand, model, colour and debt are copied, the year is its text, and the name is the owner's or "Desconocido" when the owner object is null |
| Lookup.Busqueda.constructor | app/src/main/java/com/example/detectorplacas/MainActivity.kt:365-372 | the screen starts in "cargando" with no result and has read only the vehicle |
| Lookup.Busqueda.OnVehiculo | app/src/main/java/com/example/detectorplacas/MainActivity.kt:373-404 | a failed read sets "error", a missing document "no_encontrado", a null object or empty owner id "error", a document `toObject` cannot convert leaves "cargando", all without an owner read; otherwise it stays loading and issues the owner read; the result stays null |
| Lookup.Busqueda.OnPropietario | app/src/main/java/com/example/detectorplacas/MainActivity.kt:379-396 | an existing owner document sets the merged result and "exito"; a missing document or a failed read sets "error"; a document `toObject` cannot convert leaves "cargando"; only "exito" has a result |
| Lookup.Buscar | app/src/main/java/com/example/detectorplacas/MainActivity.kt:369-405 | driving the screen through its listeners ends in the state `Outcome` gives, having issued exactly the reads `Consultas` lists |
| Scanner.CropOrigin | app/src/main/java/com/example/detectorplacas/MainActivity.kt:237-238 | the crop lies inside the image and is centred: the two margins differ by at most one pixel |
| Scanner.Escaner.constructor | app/src/main/java/com/example/detectorplacas/MainActivity.kt:205 | the screen starts not busy, with no capture, no file, no navigation and no message |
| Scanner.Escaner.Click | app/src/main/java/com/example/detectorplacas/MainActivity.kt:212-220 | a press while busy changes nothing; otherwise it sets the flag, creates one temporary file and starts exactly one capture, which then waits for its save callback; at most one capture is ever in flight |
| Scanner.Escaner.OnImageSaved | app/src/main/java/com/example/detectorplacas/MainActivity.kt:224-283 | without a URI no further callback of the capture is due and the flag stays set; a decode or crop exception reports and clears the flag but keeps the file; otherwise recognition starts and its listeners become due |
| Scanner.Escaner.OnOcrSuccess | app/src/main/java/com/example/detectorplacas/MainActivity.kt:252-263 | navigates to `resultados/` plus the plate when one is found, reports "no plate" otherwise, and clears the flag |
| Scanner.Escaner.OnOcrFailure | app/src/main/java/com/example/detectorplacas/MainActivity.kt:264-270 | reports the error and clears the flag without navigating |
| Scanner.Escaner.OnOcrComplete | app/src/main/java/com/example/detectorplacas/MainActivity.kt:271-275 | deletes the capture's temporary file and leaves the flag, navigations and messages alone |
| Scanner.Escaner.OnSaveError | app/src/main/java/com/example/detectorplacas/MainActivity.kt:286-292 | reports the error and clears the flag, keeping the file |
| Scanner.Capturar | app/src/main/java/com/example/detectorplacas/MainActivity.kt:212-292 | over one whole capture: only the no-URI ending leaves the screen busy; the file is gone only when recognition ran; the screen navigates only to a plate that was found; the message shown for each ending |
| Scanner.ClickWhileBusy | app/src/main/java/com/example/detectorplacas/MainActivity.kt:213-220 | a second press while the first capture is in flight starts no capture and creates no file |
| Scanner.StuckAfterMissingUri | app/src/main/java/com/example/detectorplacas/MainActivity.kt:225 | after a save without a URI the flag stays set, a later press is ignored and the file stays on disk |

## Left out

- The crop size (lines 235-236) multiplies by `Float` fractions and truncates; it is floating point. `CropOrigin` takes the crop size as an input no larger than the image.
- Camera capture, `ImageDecoder`/`MediaStore` decoding, `Bitmap.createBitmap` and `recycle` are platform calls. They enter the model only as the outcomes passed to `OnImageSaved` and `OnSaveError`; the recycling of bitmaps is not modelled.
- Text recognition is an external engine; only its output, the block texts, enters the model.
- Firestore `get()` and `toObject` involve the network and reflection. They enter as `Fetch` outcomes: failed, missing, unreadable (`toObject` throws), or found with the deserialised object or null. When `toObject` throws inside a listener on the main thread, the app most likely crashes. The model captures only that the listener makes no assignment.
- Values.ToText: numbers are whole numbers (`Long`); a Firestore `Double` would print with a fractional part ("2020.0") and compares with `toDouble() > 0`. Values of other types carry their own text.
- PlateMatcher.UpperOf: `uppercase()` is modelled for ASCII letters and for the non-ASCII characters whose upper case is made of ASCII letters (dotless i, long s, sharp s, the ligatures U+FB00-U+FB06). Other characters are kept as they are. Their real upper case is never made only of `A`-`Z`/`0`-`9`, so which block is accepted and what is returned do not change. Only the cleaned text of a rejected block may differ.
- Debt.FoldChar: `equals(ignoreCase = true)` is modelled only for comparison with "Ninguno": ASCII letters, plus the two non-ASCII characters the JVM treats as equal to `i` ignoring case.
- Threads: `mainExecutor`, `cameraExecutor` and the order in which listeners run. Each listener body is one atomic method. The flag is cleared in the listener itself rather than in the runnable it posts to the main thread.
- The lookup running once per `placaId` (the `LaunchedEffect` key), and callbacks arriving after the screen is left, are Compose lifecycle behaviour.
- The navigation router (lines 175-193) is not modelled. This includes its `"N/A"` fallback for a missing `placaId` at line 187. The model records the route string `resultados/<plate>` that the scanner navigates to.
- UI rendering, `InfoRow`, the camera permission request, the theme and `build.gradle.kts` (build configuration) are not part of this model.
