# Categorías y cursos — a Dafny model of the admin client

This project models the state-handling core of a React admin client that manages
two kinds of records, *categorías* and *cursos*, through a REST API.

- **The API service** (`Api`). It names the base URL and builds the request paths:
  the collection path, the entity path `/<collection>/{id}/`, and the filtered path
  `/cursos/categoria/{id}/`. It also picks the multipart parts that `create` and
  `update` send. A `FormData` buffer collects those parts in place; `Serialize` fills it
  with a loop.
- **The two forms** (`FormCurso`, `FormCategoria`). Each form is a class whose fields are
  the component's state: `formData`, `imagen`, `imagenActual`, `loading`, `error` and
  `isEditing`, plus `navigatedTo` for where `navigate` was sent. Each handler is one
  method. An awaited API call is split in two:
  - a method that issues the request and returns it;
  - a continuation that takes the call's outcome (`Ok(data)` or `Fail`) and does what
    the `try`/`catch`/`finally` does.
- **The two list pages** (`ListaCursos`, `ListaCategorias`). Each page is a class over
  the loaded sequence, with the same split for loading, confirmed deletion and the
  course filter. The pure card helpers (category name, level label and colour,
  description excerpt) and the page's render precedence (`Listing.Render`) are functions.

The JavaScript semantics the code leans on are modelled explicitly:
- truthiness and `||`, and `!== null && !== undefined`;
- object spread and property order: a property that is set keeps its place, and a new
  one goes last;
- `.trim()`, which throws on a non-string;
- the `Number` conversion behind `value <= 0`, where NaN compares false;
- `parseInt`, which reads the leading digits;
- `parseFloat`, which reads the longest numeric prefix;
- the decimal text of an id in a template literal.

Numbers are exact rationals with an explicit NaN.

Two facts shape the course form's contracts:
- Validation compares the raw text numerically, but the payload re-parses it with
  `parseInt` and `parseFloat`. So `"1.5"` hours passes and is sent as `1`, and text that
  is not a number at all passes and is sent as NaN
  (`FractionalDuracionPasses`, `NonNumericDuracionPasses`, `NonNumericPrecioPasses`).
  These lemmas are about the submit handler alone. In the browser the inputs'
  `type="number"`, `min`, `step` and `required` attributes
  (`src/components/FormCurso.jsx:201-229`) stop such a submit before `handleSubmit` runs.
- Loading a course defaults each falsy field. Loading a category copies `nombre` and
  `descripcion` as they are, so a category without `nombre` later makes submit throw on
  `.trim()` (`FormCategoria.MissingNombreThrows`).

Three more facts about the code:
- Each form shows its loading screen whenever `loading && isEditing`. That includes
  an edit-mode submit, not only the initial fetch.
- The category form copies the loaded fields as they are, without defaults.
- The course list's initial load always fetches every course. Only the filter handler
  asks for one category's courses.

## Model

| member | source | states |
|---|---|---|
| Api.BaseUrl | src/services/api.js:3 | the base URL is never empty; it is the configured value when that is set and non-empty, else the built-in default |
| Api.KeptParts | src/services/api.js:23-27 | every part sent holds a value that is neither null nor undefined, taken unchanged from a property of the payload; never more parts than properties |
| Api.KeptPartsAppend | src/services/api.js:23-26 | part selection goes property by property in key order: the parts of two runs of properties are the parts of each, concatenated |
| Api.KeptPartsNames | src/services/api.js:23-27 | a key is sent iff the payload has it and its value is present; other keys are omitted, not sent empty |
| Api.PartNamesAppend | src/services/api.js:25 | the part names of appended parts are the names of each run, in order |
| Api.FormData.Append | src/services/api.js:25 | `formData.append` adds exactly one part at the end of the buffer |
| Api.Serialize | src/services/api.js:22-27 | the `forEach` loop leaves the fresh buffer holding exactly the kept parts of the payload, in key order (loop invariant) |
| Api.Create | src/services/api.js:59-68 | `create` (also lines 21-30 for categories) is a POST of the kept parts to the collection path |
| Api.Update | src/services/api.js:72-81 | `update` (also lines 34-43 for categories) is a PUT of the kept parts to `/<collection>/{id}/` |
| Api.CollectionPath | src/services/api.js:15 | the list and create path of a collection (also lines 28, 53, 66) is a slash-delimited path of at least three characters |
| Api.EntityPath | src/services/api.js:18 | `/<collection>/{id}/` (also lines 41, 47, 56, 79, 85): the collection path, then the id, then a closing slash |
| Api.CategoriaFilterPath | src/services/api.js:88 | `/cursos/categoria/{id}/`: the course collection path, then exactly `categoria/` and the id, then a closing slash |
| Api.GetAll | src/services/api.js:15 | `getAll` (also line 53) is a bodiless GET of the collection path, which the server reads as no single record |
| Api.GetById | src/services/api.js:18 | `getById` (also line 56) is a bodiless GET of the entity path; for an id that is one path segment, the server reads back exactly this collection and id |
| Api.Remove | src/services/api.js:47 | `delete` (also line 85) is a bodiless DELETE of the entity path, read back as exactly this collection and id |
| Api.GetByCategoria | src/services/api.js:88 | `getByCategoria` is a bodiless GET of the filter path, which the server reads as no single record |
| Api.ParseIn | src/services/api.js:18 | the server-side reading of entity paths, written to prove them injective: what it reads back out of one collection's path is always a single non-empty path segment |
| Api.EntityPathRoundTrip | src/services/api.js:56 | get, update and delete paths name their collection and id and nothing else: parsing `/<collection>/{id}/` gives back both |
| Api.EntityPathParsed | src/services/api.js:85 | every path that parses is exactly the entity path of what it parses to |
| Api.FilterPathIsNoEntityPath | src/services/api.js:88 | `/cursos/categoria/{id}/` is not the entity path of any record |
| Api.CollectionPathIsNoEntityPath | src/services/api.js:15 | the collection path is not an entity path |
| JsStrings.Trim | src/components/FormCurso.jsx:94 | `.trim()` yields the input minus its leading and trailing whitespace: it starts right after the leading whitespace, only whitespace follows it, neither of its ends is whitespace, and it is empty iff the input is all whitespace |
| JsStrings.TrimStart | src/components/FormCurso.jsx:113-114 | the whitespace skip before `parseInt` and `parseFloat` scan: only whitespace is removed, the rest is a suffix that does not start with whitespace, empty iff the text is blank |
| JsStrings.TrimOfUnpadded | src/components/FormCurso.jsx:94 | trimming text that neither starts nor ends with whitespace leaves it unchanged |
| JsValues.Truthy | src/components/FormCurso.jsx:94 | `!formData.categoria`: exactly `undefined`, `null`, `false`, `0`, NaN and `''` are falsy |
| JsValues.Or | src/components/FormCurso.jsx:50-56 | `x \|\| d` yields one of its operands, `x` when it is truthy, and is truthy iff either operand is |
| JsValues.Present | src/services/api.js:24 | `v !== null && v !== undefined`; a value that fails it is falsy |
| JsValues.Get | src/components/FormCurso.jsx:50-57 | `curso.f` reads `undefined` unless the record holds an entry `f` with that value, so any other value read is one stored under `f` |
| JsValues.Set | src/components/FormCurso.jsx:73-76 | the spread `{ ...prev, [name]: v }` keeps the key order and appends a key that was not there |
| JsValues.SetGet | src/components/FormCurso.jsx:73-76 | after the spread, the named key reads `v` and every other key reads as before |
| JsValues.SetNew | src/components/FormCurso.jsx:116-117 | setting a key the object lacks appends it as the last property |
| JsValues.GetAt | src/components/FormCurso.jsx:48 | reading a property returns the value stored under that key |
| JsValues.FromFieldsGet | src/components/FormCurso.jsx:6-15 | an object literal reads each of its keys as the value written for it |
| JsValues.SetFromFields | src/components/FormCurso.jsx:111-115 | overriding a key of an object literal by spread is the literal with that value replaced |
| JsNumbers.DecimalText | src/services/api.js:85 | an id in a template literal is written as its decimal digits, with no leading zero, and those digits denote the id |
| JsNumbers.DecimalTextRoundTrip | src/services/api.js:85 | `parseInt` and `Number` of an id's text give the id back |
| JsNumbers.DecimalTextInjective | src/services/api.js:85 | different ids give different path text |
| JsNumbers.DigitTextParses | src/components/FormCurso.jsx:99 | digit text reads as its value under `Number`, `parseInt` and `parseFloat` alike |
| JsNumbers.ParseFloatAgreesWithToNumber | src/components/FormCurso.jsx:114 | for unpadded text that `Number` reads as finite, `parseFloat` reads the same number |
| JsNumbers.FractionalTextToNumber | src/components/FormCurso.jsx:99 | `Number("w.f")` is the decimal value w.f |
| JsNumbers.FractionalTextParseInt | src/components/FormCurso.jsx:113 | `parseInt("w.f")` stops at the point and gives the whole part w |
| JsNumbers.ToNumber | src/components/FormCurso.jsx:99 | the coercion behind `duracion <= 0` (and `precio <= 0`, line 104): a number is itself, blank text is 0, `undefined` is NaN |
| JsNumbers.ParseInt | src/components/FormCurso.jsx:113 | `parseInt(duracion)` is NaN or a whole number; a non-negative number keeps its integer part; blank text is NaN, unlike `Number` |
| JsNumbers.ParseFloat | src/components/FormCurso.jsx:114 | `parseFloat(precio)`: a number is itself; blank text and every value that is neither text nor number is NaN |
| JsNumbers.NonNumericText | src/components/FormCurso.jsx:104 | text that cannot start a number is NaN under `Number`, `parseFloat` and `parseInt` |
| Forms.RequiredText | src/components/FormCurso.jsx:94 | `!v.trim()` is defined exactly on strings and is false exactly for text that is not all whitespace |
| Forms.RouteHasId | src/components/FormCurso.jsx:29 | `if (id)` on the route parameter (also FormCategoria.jsx:21): true exactly for a present, truthy (non-empty) string |
| Forms.SaveRequest | src/components/FormCurso.jsx:120-124 | the save (also FormCategoria.jsx:81-85) sends the payload's kept parts; in edit mode a PUT that the server reads back as exactly the routed record, otherwise a POST to the collection path, which names no single record |
| Forms.Save | src/components/FormCategoria.jsx:81-85 | issuing the awaited call (also FormCurso.jsx:120-124) yields exactly that save request |
| Forms.WithImagen | src/components/FormCurso.jsx:116-118 | with no file chosen the payload is the draft unchanged; with one, its `imagen` property is the file |
| Forms.WithImagenParts | src/components/FormCategoria.jsx:77-80 | the payload's parts are the draft's parts followed by the file part exactly when a file was chosen, and `imagen` is sent iff a file was chosen |
| Forms.AttachedFileParts | src/components/FormCategoria.jsx:79 | attaching a file to a draft without `imagen` adds one part at the end |
| Forms.AppendedFileParts | src/components/FormCategoria.jsx:79 | a file property at the end of the payload is sent as the last part |
| FormCurso.AsObj | src/components/FormCurso.jsx:6-15 | the course draft is an object with exactly the eight properties in declaration order |
| FormCurso.AsObjGet | src/components/FormCurso.jsx:6-15 | each draft property reads as the draft's value for that field |
| FormCurso.AsObjFields | src/components/FormCurso.jsx:49-57 | each of the eight named properties reads as the matching draft field |
| FormCurso.InitialDraft | src/components/FormCurso.jsx:6-15 | the create draft (blank texts, 'principiante', active) is load-stable, and submitting it unchanged gives the required-fields message |
| FormCurso.WithField | src/components/FormCurso.jsx:73-76 | the named field takes the value and every other field keeps its own |
| FormCurso.FromValues | src/components/FormCurso.jsx:6-15 | a draft built from eight values holds exactly those values |
| FormCurso.ChangeIsSpread | src/components/FormCurso.jsx:73-76 | changing one field is the spread: the named field takes the value and no other property changes |
| FormCurso.ClearsPositiveCheck | src/components/FormCurso.jsx:99-104 | a value passes `!v \|\| v <= 0` (both the `duracion` and the `precio` rule): a number passes iff it is positive, blank text never passes |
| FormCurso.ValidateCurso | src/components/FormCurso.jsx:94-107 | the first failing rule decides: a non-string `nombre`/`instructor` throws; blank `nombre`/`instructor` or falsy `categoria` gives the required-fields message; then a falsy or `Number` ≤ 0 `duracion` gives the duration message; then the same for `precio`; submit passes iff all three rules pass (each case iff) |
| FormCurso.Coerced | src/components/FormCurso.jsx:111-115 | `duracion` becomes its `parseInt` (NaN or a whole number) and `precio` its `parseFloat` (NaN or a number); no other field changes |
| FormCurso.CoercedIsSpread | src/components/FormCurso.jsx:111-115 | the coerced draft is the spread with `duracion` replaced by its `parseInt` and `precio` by its `parseFloat` |
| FormCurso.CursoPayloadIsSpread | src/components/FormCurso.jsx:111-118 | the payload is that spread, plus `imagen` only when a file was chosen |
| FormCurso.CursoPayloadGet | src/components/FormCurso.jsx:111-118 | the payload's `duracion` is the integer parse, its `precio` the float parse, its `imagen` the chosen file, and every other key reads as in the draft |
| FormCurso.CursoPayload | src/components/FormCurso.jsx:111-118 | the payload's keys are the eight draft fields in order, plus `imagen` last iff a file was chosen |
| FormCurso.CursoPayloadParts | src/components/FormCurso.jsx:111-118 | `duracion` and `precio` are always sent, and `imagen` is sent iff a file was chosen |
| FormCurso.NumberSent | src/components/FormCurso.jsx:113-114 | a parsed number, NaN included, is never null or undefined, so it is always sent |
| FormCurso.ImagenSent | src/components/FormCurso.jsx:116-118 | an `imagen` part goes out iff a new file was chosen |
| FormCurso.ImagenIsNoField | src/components/FormCurso.jsx:6-15 | `imagen` is not a draft field |
| FormCurso.SentWhenPresent | src/services/api.js:24-25 | every present property of a payload is sent |
| FormCurso.DigitDuracion | src/components/FormCurso.jsx:99 | digit text clears the duration check iff its value is positive, and `parseInt` sends that value |
| FormCurso.SubmittedDuracionPositive | src/components/FormCurso.jsx:99-113 | for digit text or a whole number, a passing draft sends a whole `duracion` of at least 1 |
| FormCurso.WholePositiveDuracion | src/components/FormCurso.jsx:113 | a positive whole number passes through `parseInt` unchanged |
| FormCurso.SubmittedPrecioPositive | src/components/FormCurso.jsx:104-114 | for unpadded numeric text, a passing draft sends a positive `precio` equal to the text's value |
| FormCurso.PositiveText | src/components/FormCurso.jsx:104 | numeric text that clears the price check has a positive value, which `parseFloat` sends |
| FormCurso.FractionalDuracionPasses | src/components/FormCurso.jsx:99-113 | a positive fractional `duracion` such as "1.5" passes validation and is sent truncated to its whole part |
| FormCurso.NonNumericPrecioPasses | src/components/FormCurso.jsx:104-114 | a `precio` that is not a number at all passes validation (NaN ≤ 0 is false) and is sent as NaN |
| FormCurso.NonNumericDuracionPasses | src/components/FormCurso.jsx:99-113 | a `duracion` that is not a number at all passes validation and is sent as NaN |
| FormCurso.DefaultedCursoFields | src/components/FormCurso.jsx:49-57 | each truthy field of a loaded course is kept and each falsy one becomes `''` (`nivel`: 'principiante'); `activo` becomes true only when undefined, so a loaded `false` is kept |
| FormCurso.DefaultedCurso | src/components/FormCurso.jsx:49-58 | whatever the server sends, the loaded draft is load-stable: no field is left falsy except as `''`, `nivel` is never falsy and `activo` never undefined |
| FormCurso.OrBlankStable | src/components/FormCurso.jsx:50 | `x \|\| ''` is truthy or the empty string |
| FormCurso.InitialIsEmptyLoad | src/components/FormCurso.jsx:6-15 | the create form's initial draft is what loading an empty record gives |
| FormCurso.DefaultedCursoRoundTrip | src/components/FormCurso.jsx:49-57 | reloading a draft's own object gives it back iff every field already survives its default |
| FormCurso.DefaultedCursoIdempotent | src/components/FormCurso.jsx:49-57 | defaulting a loaded course twice changes nothing more |
| FormCurso.Controller.constructor | src/components/FormCurso.jsx:6-22 | the initial state: default draft, no file or picture, no categories, not loading, no error, create mode |
| FormCurso.Controller.Mount | src/components/FormCurso.jsx:27-33 | always fetches categories; a non-empty route id switches to edit mode, sets loading (the loading screen shows) and fetches that course |
| FormCurso.Controller.CategoriasLoaded | src/components/FormCurso.jsx:35-42 | loaded categories replace the options; a failure changes nothing |
| FormCurso.Controller.CursoLoaded | src/components/FormCurso.jsx:44-69 | a loaded course becomes the defaulted draft and clears the error; a truthy `imagen` becomes the current picture; a failure keeps the draft and sets 'Error al cargar el curso'; loading ends either way |
| FormCurso.Controller.ApplyLoaded | src/components/FormCurso.jsx:48-62 | the defaulted course becomes the draft, a truthy `imagen` the current picture (otherwise it stays), the error is cleared; nothing else changes |
| FormCurso.Controller.ShowsLoadingScreen | src/components/FormCurso.jsx:134 | the loading screen replaces the form exactly when `loading && isEditing`; in a reachable state only a route with an id shows it |
| FormCurso.Controller.HandleChange | src/components/FormCurso.jsx:71-77 | the named field takes the checked state for a checkbox, else the text; nothing else changes |
| FormCurso.Controller.HandleImageChange | src/components/FormCurso.jsx:79-82 | a chosen file becomes `imagen`; no file changes nothing |
| FormCurso.Controller.HandleSubmit | src/components/FormCurso.jsx:91-124 | a failing rule sets its message and sends nothing; a passing draft sets loading and sends `update(id, payload)` in edit mode or `create(payload)`; the draft is never changed |
| FormCurso.Controller.SubmitDraft | src/components/FormCurso.jsx:110-124 | once the draft passed: loading is set and the save request of the payload is issued; nothing else changes |
| FormCurso.Controller.SubmitSettled | src/components/FormCurso.jsx:125-131 | success navigates to `/cursos`; failure keeps the draft, does not navigate and sets the error for the mode; loading ends false |
| FormCategoria.AsObj | src/components/FormCategoria.jsx:6-9 | the category draft is an object with exactly `nombre` and `descripcion`, in that order |
| FormCategoria.InitialDraft | src/components/FormCategoria.jsx:6-9 | the create draft is blank, so submitting it unchanged gives the required-fields message |
| FormCategoria.WithField | src/components/FormCategoria.jsx:47-53 | as an object, the named field reads the new value and every other property reads as before |
| FormCategoria.LoadedCategoria | src/components/FormCategoria.jsx:31-34 | the loaded draft reads `nombre` and `descripcion` exactly as the server record does, `undefined` when missing |
| FormCategoria.CategoriaPayload | src/components/FormCategoria.jsx:77-80 | the payload's keys are `nombre` and `descripcion`, plus `imagen` last iff a file was chosen |
| FormCategoria.AsObjFields | src/components/FormCategoria.jsx:31-34 | both properties read as the draft holds them |
| FormCategoria.ChangeIsSpread | src/components/FormCategoria.jsx:47-53 | changing one field is the spread `{ ...prev, [name]: value }` |
| FormCategoria.LoadedCategoriaRoundTrip | src/components/FormCategoria.jsx:31-34 | edit-load copies both fields as returned: loading a draft's own object gives it back, whatever it holds |
| FormCategoria.ValidateCategoria | src/components/FormCategoria.jsx:70-73 | a non-string `nombre` (or `descripcion` after a filled `nombre`) throws; a blank one gives 'Por favor completa todos los campos'; submit passes iff both are non-blank text (each case iff) |
| FormCategoria.MissingNombreThrows | src/components/FormCategoria.jsx:31-34 | a loaded category without string `nombre` can never be submitted: `.trim()` throws |
| FormCategoria.PassingDraftParts | src/components/FormCategoria.jsx:77-80 | a passing draft sends `nombre` and `descripcion` in order, then the file exactly when one was chosen |
| FormCategoria.Controller.constructor | src/components/FormCategoria.jsx:6-15 | the initial state: empty draft, no file or picture, not loading, no error, create mode |
| FormCategoria.Controller.Mount | src/components/FormCategoria.jsx:20-29 | a non-empty route id switches to edit mode, sets loading (the loading screen shows) and fetches that category; otherwise nothing happens |
| FormCategoria.Controller.CategoriaLoaded | src/components/FormCategoria.jsx:27-45 | a loaded category becomes the draft as sent and clears the error; a truthy `imagen` becomes the current picture; a failure keeps the draft and sets 'Error al cargar la categoría'; loading ends either way |
| FormCategoria.Controller.ApplyLoaded | src/components/FormCategoria.jsx:31-38 | the fields as sent become the draft, a truthy `imagen` the current picture (otherwise it stays), the error is cleared; nothing else changes |
| FormCategoria.Controller.ShowsLoadingScreen | src/components/FormCategoria.jsx:95 | the loading screen replaces the form exactly when `loading && isEditing`; in a reachable state only a route with an id shows it |
| FormCategoria.Controller.HandleChange | src/components/FormCategoria.jsx:47-53 | the named field takes the text; nothing else changes |
| FormCategoria.Controller.HandleImageChange | src/components/FormCategoria.jsx:55-58 | a chosen file becomes `imagen`; no file changes nothing |
| FormCategoria.Controller.HandleSubmit | src/components/FormCategoria.jsx:67-85 | a blank field sets the message and sends nothing; a passing draft sets loading and sends `update(id, payload)` in edit mode or `create(payload)`; the draft is never changed |
| FormCategoria.Controller.SubmitDraft | src/components/FormCategoria.jsx:76-85 | once the draft passed: loading is set and the save request of the payload is issued; nothing else changes |
| FormCategoria.Controller.SubmitSettled | src/components/FormCategoria.jsx:86-92 | success navigates to `/categorias`; failure keeps the draft, does not navigate and sets the error for the mode; loading ends false |
| Listing.RemoveById | src/components/ListaCursos.jsx:44 | `filter(item => item.id !== id)` never makes the list longer |
| Listing.RemoveByIdMembers | src/components/ListaCursos.jsx:44 | an item stays iff it was in the list and does not carry the id |
| Listing.RemoveByIdAppend | src/components/ListaCursos.jsx:44 | the filter works piecewise, so the order of the remaining items is preserved |
| Listing.RemoveByIdCount | src/components/ListaCategorias.jsx:32 | exactly the items carrying the id go: the list shrinks by their number |
| Listing.RemoveByIdAbsent | src/components/ListaCategorias.jsx:32 | when no item carries the id the list is unchanged |
| Listing.RemoveByIdIdempotent | src/components/ListaCategorias.jsx:32 | removing the same id a second time removes nothing more |
| Listing.Render | src/components/ListaCategorias.jsx:40-64 | the loading screen iff loading; else the error banner iff an error is set; else the empty state iff the list is empty (line 82); else the list in order |
| ListaCursos.FirstWithId | src/components/ListaCursos.jsx:73 | `find` yields the first category with the id, or none iff no category has it |
| ListaCursos.NombreCategoria | src/components/ListaCursos.jsx:72-75 | the name of the first category whose id matches, else 'Sin categoría' |
| ListaCursos.NombreOfListed | src/components/ListaCursos.jsx:72-75 | with unique ids, every listed category's own id shows its own name |
| ListaCursos.NivelLabel | src/components/ListaCursos.jsx:77-84 | the three levels map to their capitalised labels; any other input is returned unchanged |
| ListaCursos.NivelLabelIdempotent | src/components/ListaCursos.jsx:77-84 | a label is its own label |
| ListaCursos.NivelColor | src/components/ListaCursos.jsx:86-93 | the grey class is returned iff the level is not one of the three |
| ListaCursos.NivelColorInjective | src/components/ListaCursos.jsx:87-91 | the three levels have three different colours |
| ListaCursos.Excerpt | src/components/ListaCursos.jsx:187-193 | an empty description shows nothing; one of up to 100 characters shows unchanged; a longer one shows its first 100 characters followed by '...' |
| ListaCursos.ExcerptStable | src/components/ListaCursos.jsx:189-191 | cutting an excerpt again changes nothing |
| ListaCursos.Controller.constructor | src/components/ListaCursos.jsx:6-10 | the page starts with empty lists, loading, no error and no filter, so it shows the loading screen |
| ListaCursos.Controller.Mount | src/components/ListaCursos.jsx:12-20 | mounting fetches every course and every category and sets loading |
| ListaCursos.Controller.CursosLoaded | src/components/ListaCursos.jsx:17-29 | a load replaces the list and clears the error; a failure keeps the list and shows 'Error al cargar los cursos'; loading ends either way |
| ListaCursos.Controller.CategoriasLoaded | src/components/ListaCursos.jsx:31-38 | loaded categories replace the filter options; a failure changes nothing |
| ListaCursos.Controller.HandleDelete | src/components/ListaCursos.jsx:40-43 | without confirmation nothing is sent; with it, a DELETE of `/cursos/{id}/`, which names exactly that course |
| ListaCursos.Controller.DeleteSettled | src/components/ListaCursos.jsx:43-47 | success leaves the old list minus every course with the id, nothing else changing; failure keeps the list and shows 'Error al eliminar el curso' in its place |
| ListaCursos.Controller.HandleFiltroCategoria | src/components/ListaCursos.jsx:52-61 | `''` fetches all courses and any other value that category's courses; loading is set |
| ListaCursos.Controller.FiltroSettled | src/components/ListaCursos.jsx:56-69 | success replaces the list, stores the filter and clears the error; failure keeps list and filter and shows 'Error al filtrar cursos'; loading ends false either way |
| ListaCategorias.Controller.constructor | src/components/ListaCategorias.jsx:6-8 | the page starts with an empty list, loading and no error, so it shows the loading screen |
| ListaCategorias.Controller.Mount | src/components/ListaCategorias.jsx:10-17 | mounting fetches every category and sets loading |
| ListaCategorias.Controller.CategoriasLoaded | src/components/ListaCategorias.jsx:14-26 | a load replaces the list in server order and clears the error; a failure keeps the list and shows 'Error al cargar las categorías'; loading ends either way |
| ListaCategorias.Controller.HandleDelete | src/components/ListaCategorias.jsx:28-31 | without confirmation nothing is sent; with it, a DELETE of `/categorias/{id}/`, which names exactly that category |
| ListaCategorias.Controller.DeleteSettled | src/components/ListaCategorias.jsx:31-36 | success removes exactly the categories with the id and keeps the order of the rest; failure keeps the list and shows 'Error al eliminar la categoría' in its place |

## Left out

- HTTP transport (axios, headers, base URL wiring into requests): each awaited call is a request value out and an outcome parameter in.
- Async interleaving: each continuation is applied to the state as it stands. Races between responses are not modelled. Nor are the stale list captured by a delete's closure or a response that lands after unmount.
- `window.confirm` is a boolean parameter, `navigate` is the recorded `navigatedTo` route, and `console.error` is not modelled.
- The `FileReader` preview in both forms (`imagenPreview`): it is an asynchronous browser API. Only the chosen file is modelled.
- IEEE-754 doubles: numbers are exact rationals. Not covered: `Infinity`, hexadecimal, octal and binary literals, a `parseInt` radix prefix, and the exponent form used when a number is turned back into text.
- The multipart byte encoding (RFC 7578) done by the browser's `FormData`: only which parts are appended, in which order, is modelled. Values are not converted to strings.
- Strings are sequences of Unicode characters: JavaScript's UTF-16 code-unit lengths (the 100-character excerpt) are not modelled.
- Object property order is insertion order. Integer-like keys, which JavaScript lists first, and keys inherited from `Object.prototype` (which `niveles[nivel]` would find) are not modelled.
- FormCurso.Controller.HandleChange: accepts only the eight draft field names; an input with any other `name` would add a new property to the draft.
- FormCategoria.Controller.HandleChange: accepts only `nombre` and `descripcion`, for the same reason.
- A response whose body is `null`: `Response<Obj>` always carries an object. In the code, `curso.nombre` (`src/components/FormCurso.jsx:50`) or `response.data.nombre` (`src/components/FormCategoria.jsx:32`) would then throw inside the `try`, and the load error would be set.
- The drafts are records of exactly their fields, so a server record's extra properties never enter them. This is what the code does too, since both edit-loads build a fresh object literal.
- Server records in the lists are typed entities (integer ids, string texts). The category list reads `imagen_url` while the category form reads `imagen`; the model builds on neither picture field of the list.
- The card markup of both lists (instructor, hours, price, active label, edit link) and the browser's own `required`/`min`/`step` input validation.
- `src/App.jsx` (routes), `src/components/Navbar.jsx` and `src/components/Home.jsx` are not part of this model.
