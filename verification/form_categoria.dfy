/**
 * The category form (`FormCategoria`): the same create/edit state machine
 * as the course form, over a draft of two text fields and with no
 * defaulting of what the server sends.
 */
module FormCategoria {
  import opened Wrappers
  import opened JsStrings
  import opened JsValues
  import opened Api
  import opened Forms

  const REQUIRED_MESSAGE := "Por favor completa todos los campos"
  const LOAD_ERROR := "Error al cargar la categoría"
  const UPDATE_ERROR := "Error al actualizar la categoría"
  const CREATE_ERROR := "Error al crear la categoría"
  const LIST_ROUTE := "/categorias"

  // -------------------------------------------------------------------- draft

  /** The form's `formData`: always an object with exactly these two properties. */
  datatype CategoriaDraft = CategoriaDraft(nombre: JsValue, descripcion: JsValue)

  const FIELDS: seq<string> := ["nombre", "descripcion"]

  /** The draft as a JavaScript object. */
  function AsObj(d: CategoriaDraft): (o: Obj)
    ensures KeysOf(o) == FIELDS
  {
    [Entry("nombre", d.nombre), Entry("descripcion", d.descripcion)]
  }

  /** Both properties read back as the draft holds them. */
  lemma AsObjFields(d: CategoriaDraft)
    ensures Get(AsObj(d), "nombre") == d.nombre && Get(AsObj(d), "descripcion") == d.descripcion
  {
    assert AsObj(d)[1..] == [Entry("descripcion", d.descripcion)];
  }

  /** The create form's draft: both fields blank, so submitting it as it is gives the required-fields message. */
  function InitialDraft(): (d: CategoriaDraft)
    ensures ValidateCategoria(d) == Rejects(REQUIRED_MESSAGE)
  {
    CategoriaDraft(Str(""), Str(""))
  }

  /** The draft with field `name` holding `v`: as an object, that property reads `v` and every other one as before. */
  function WithField(d: CategoriaDraft, name: string, v: JsValue): (r: CategoriaDraft)
    requires name in FIELDS
    ensures Get(AsObj(r), name) == v
    ensures forall k :: k != name ==> Get(AsObj(r), k) == Get(AsObj(d), k)
  {
    var r := if name == "nombre" then d.(nombre := v) else d.(descripcion := v);
    AsObjFields(r);
    r
  }

  /** Changing one field of the draft is the spread `{ ...prev, [name]: v }`. */
  lemma ChangeIsSpread(d: CategoriaDraft, name: string, v: JsValue)
    requires name in FIELDS
    ensures AsObj(WithField(d, name, v)) == Set(AsObj(d), name, v)
  {
    var o := AsObj(d);
    if name == "nombre" {
      assert o[0].key == name;
    } else {
      assert o[0].key != name && o[1..][0].key == name;
      assert Set(o[1..], name, v) == [Entry(name, v)];
    }
  }

  /**
   * The draft built from a loaded category: the two properties exactly as
   * the server sent them, `undefined` when one is missing.
   */
  function LoadedCategoria(data: Obj): (d: CategoriaDraft)
    ensures Get(AsObj(d), "nombre") == Get(data, "nombre")
    ensures Get(AsObj(d), "descripcion") == Get(data, "descripcion")
  {
    var d := CategoriaDraft(Get(data, "nombre"), Get(data, "descripcion"));
    AsObjFields(d);
    d
  }

  /** Loading a draft's own object gives the draft back, whatever it holds. */
  lemma LoadedCategoriaRoundTrip(d: CategoriaDraft)
    ensures LoadedCategoria(AsObj(d)) == d
  {
    AsObjFields(d);
  }

  // ---------------------------------------------------------------- validation

  /**
   * `!nombre.trim() || !descripcion.trim()`: a non-string `nombre`, or a
   * non-string `descripcion` after a non-blank `nombre`, makes `.trim()`
   * throw; otherwise both must hold non-blank text.
   */
  function ValidateCategoria(d: CategoriaDraft): (r: Check)
    ensures r == Throws <==> !d.nombre.Str? || (RequiredText(d.nombre) == Some(true) && !d.descripcion.Str?)
    ensures r == Rejects(REQUIRED_MESSAGE) <==>
      r != Throws && (RequiredText(d.nombre) == Some(false) || RequiredText(d.descripcion) == Some(false))
    ensures r == Passes <==> RequiredText(d.nombre) == Some(true) && RequiredText(d.descripcion) == Some(true)
    ensures r == Passes || r == Throws || r == Rejects(REQUIRED_MESSAGE)
  {
    match RequiredText(d.nombre)
    case None => Throws
    case Some(false) => Rejects(REQUIRED_MESSAGE)
    case Some(true) =>
      match RequiredText(d.descripcion)
      case None => Throws
      case Some(false) => Rejects(REQUIRED_MESSAGE)
      case Some(true) => Passes
  }

  /** A loaded category that lacks `nombre` (or has a non-string one) can never be submitted: `.trim()` throws. */
  lemma MissingNombreThrows(data: Obj)
    requires !Get(data, "nombre").Str?
    ensures ValidateCategoria(LoadedCategoria(data)) == Throws
  {
  }

  // ------------------------------------------------------------------ payload

  /**
   * `{ ...formData }`, plus `imagen` when a new file was chosen: the keys
   * are `nombre` and `descripcion`, then `imagen` last exactly when a file
   * was chosen.
   */
  function CategoriaPayload(d: CategoriaDraft, imagen: Option<FileRef>): (p: Obj)
    ensures KeysOf(p) == FIELDS + (if imagen.Some? then ["imagen"] else [])
  {
    WithImagen(AsObj(d), imagen)
  }

  /**
   * A draft that passes validation is sent as its two text parts, in
   * order, followed by the new file exactly when one was chosen.
   */
  lemma PassingDraftParts(d: CategoriaDraft, imagen: Option<FileRef>)
    requires ValidateCategoria(d) == Passes
    ensures KeptParts(CategoriaPayload(d, imagen))
         == [Part("nombre", d.nombre), Part("descripcion", d.descripcion)]
          + (if imagen.Some? then [Part("imagen", File(imagen.value))] else [])
  {
    var o := AsObj(d);
    assert o[..1] == [Entry("nombre", d.nombre)];
    assert o[..1][..0] == [];
    assert KeptParts(o) == [Part("nombre", d.nombre), Part("descripcion", d.descripcion)];
    WithImagenParts(o, imagen);
  }

  // -------------------------------------------------------------- controller

  class Controller {
    /** The route parameter `id`; `None` on the create route. */
    const routeId: Option<string>
    var formData: CategoriaDraft
    var imagen: Option<FileRef>
    var imagenActual: JsValue
    var loading: bool
    var error: Option<string>
    var isEditing: bool
    /** Where `navigate` was last sent, if anywhere. */
    var navigatedTo: Option<string>

    /** Edit mode always has an id to update. */
    predicate Valid()
      reads this
    {
      isEditing ==> RouteHasId(routeId)
    }

    /** `if (loading && isEditing)`: the form is replaced by the loading screen, which only an edit route can show. */
    predicate ShowsLoadingScreen()
      reads this
      ensures Valid() && ShowsLoadingScreen() ==> RouteHasId(routeId)
    {
      loading && isEditing
    }

    constructor (routeId: Option<string>)
      ensures Valid()
      ensures this.routeId == routeId && formData == InitialDraft()
      ensures imagen == None && imagenActual == Null
      ensures !loading && error == None && !isEditing && navigatedTo == None
    {
      this.routeId := routeId;
      formData := InitialDraft();
      imagen := None;
      imagenActual := Null;
      loading := false;
      error := None;
      isEditing := false;
      navigatedTo := None;
    }

    /** The mount effect: on an edit route, switch to edit mode and fetch the category (which sets `loading` first). */
    method Mount() returns (requests: seq<Request>)
      requires Valid()
      modifies this
      ensures Valid()
      ensures requests == if RouteHasId(routeId) then [GetById(Categorias, routeId.value)] else []
      ensures isEditing == (old(isEditing) || RouteHasId(routeId))
      ensures loading == (old(loading) || RouteHasId(routeId))
      ensures RouteHasId(routeId) ==> ShowsLoadingScreen()
      ensures formData == old(formData) && imagen == old(imagen) && imagenActual == old(imagenActual)
      ensures error == old(error) && navigatedTo == old(navigatedTo)
    {
      requests := [];
      if routeId.Some? && routeId.value != "" {
        isEditing := true;
        loading := true;
        requests := [GetById(Categorias, routeId.value)];
      }
    }

    /**
     * `fetchCategoria` settles: a loaded category becomes the draft as sent
     * and clears the error, its truthy `imagen` becomes the current picture;
     * a failure keeps the draft and sets the load error.  Loading ends either way.
     */
    method CategoriaLoaded(response: Response<Obj>)
      requires Valid()
      modifies this
      ensures Valid()
      ensures !loading && !ShowsLoadingScreen()
      ensures response.Ok? ==> formData == LoadedCategoria(response.data) && error == None
      ensures response.Ok? && Truthy(Get(response.data, "imagen")) ==> imagenActual == Get(response.data, "imagen")
      ensures response.Ok? && !Truthy(Get(response.data, "imagen")) ==> imagenActual == old(imagenActual)
      ensures response.Fail? ==> formData == old(formData) && imagenActual == old(imagenActual) && error == Some(LOAD_ERROR)
      ensures imagen == old(imagen) && isEditing == old(isEditing) && navigatedTo == old(navigatedTo)
    {
      match response {
        case Ok(data) =>
          ApplyLoaded(data);
        case Fail =>
          error := Some(LOAD_ERROR);
      }
      loading := false;
    }

    /** The `try` block after the fetch: the category becomes the draft, a truthy `imagen` the current picture, and the error is cleared. */
    method ApplyLoaded(data: Obj)
      modifies this
      ensures formData == LoadedCategoria(data) && error == None
      ensures Truthy(Get(data, "imagen")) ==> imagenActual == Get(data, "imagen")
      ensures !Truthy(Get(data, "imagen")) ==> imagenActual == old(imagenActual)
      ensures imagen == old(imagen) && isEditing == old(isEditing) && navigatedTo == old(navigatedTo)
      ensures loading == old(loading)
    {
      formData := LoadedCategoria(data);
      if Truthy(Get(data, "imagen")) {
        imagenActual := Get(data, "imagen");
      }
      error := None;
    }

    /** `handleChange` for the input named `name` (one of the draft's fields): the draft becomes `{ ...prev, [name]: value }`. */
    method HandleChange(name: string, value: string)
      requires Valid() && name in FIELDS
      modifies this
      ensures Valid()
      ensures formData == WithField(old(formData), name, Str(value))
      ensures imagen == old(imagen) && imagenActual == old(imagenActual)
      ensures loading == old(loading) && error == old(error) && isEditing == old(isEditing)
      ensures navigatedTo == old(navigatedTo)
    {
      formData := WithField(formData, name, Str(value));
    }

    /** `handleImageChange`: a chosen file becomes the new picture; no file changes nothing. */
    method HandleImageChange(file: Option<FileRef>)
      modifies this
      ensures imagen == if file.Some? then file else old(imagen)
      ensures formData == old(formData) && imagenActual == old(imagenActual)
      ensures loading == old(loading) && error == old(error) && isEditing == old(isEditing)
      ensures navigatedTo == old(navigatedTo)
    {
      if file.Some? {
        imagen := file;
      }
    }

    /**
     * `handleSubmit` up to the awaited call.  A blank field sets the
     * message; a throwing `.trim()` changes nothing; a valid draft sets
     * `loading` and issues `update(id, payload)` in edit mode or
     * `create(payload)` otherwise.  The draft is never changed.
     */
    method HandleSubmit() returns (sent: Option<Request>)
      requires Valid()
      modifies this
      ensures Valid()
      ensures ValidateCategoria(formData) != Passes ==> sent == None && loading == old(loading)
      ensures ValidateCategoria(formData) == Rejects(REQUIRED_MESSAGE) ==> error == Some(REQUIRED_MESSAGE)
      ensures ValidateCategoria(formData) == Throws ==> error == old(error)
      ensures ValidateCategoria(formData) == Passes ==> loading && error == old(error)
      ensures ValidateCategoria(formData) == Passes ==>
        sent == Some(SaveRequest(Categorias, isEditing, routeId, CategoriaPayload(formData, imagen)))
      ensures formData == old(formData) && imagen == old(imagen) && imagenActual == old(imagenActual)
      ensures isEditing == old(isEditing) && navigatedTo == old(navigatedTo)
    {
      sent := None;
      match ValidateCategoria(formData)
      case Throws =>
      case Rejects(message) =>
        error := Some(message);
      case Passes =>
        var request := SubmitDraft();
        sent := Some(request);
    }

    /** The rest of `handleSubmit` once the draft passed: set `loading` and issue the save of its payload. */
    method SubmitDraft() returns (request: Request)
      requires Valid()
      modifies this
      ensures Valid() && loading
      ensures request == SaveRequest(Categorias, isEditing, routeId, CategoriaPayload(formData, imagen))
      ensures formData == old(formData) && imagen == old(imagen) && imagenActual == old(imagenActual)
      ensures isEditing == old(isEditing) && navigatedTo == old(navigatedTo) && error == old(error)
    {
      loading := true;
      request := Save(Categorias, isEditing, routeId, CategoriaPayload(formData, imagen));
    }

    /**
     * The submit's awaited call settles: success navigates to the category
     * list; failure keeps the draft and sets the error for the current mode.
     * Loading ends either way.
     */
    method SubmitSettled(outcome: Response<()>)
      requires Valid()
      modifies this
      ensures Valid()
      ensures !loading
      ensures outcome.Ok? ==> navigatedTo == Some(LIST_ROUTE) && error == old(error)
      ensures outcome.Fail? ==> navigatedTo == old(navigatedTo)
      ensures outcome.Fail? && isEditing ==> error == Some(UPDATE_ERROR)
      ensures outcome.Fail? && !isEditing ==> error == Some(CREATE_ERROR)
      ensures formData == old(formData) && imagen == old(imagen) && imagenActual == old(imagenActual)
      ensures isEditing == old(isEditing)
    {
      match outcome {
        case Ok(_) =>
          navigatedTo := Some(LIST_ROUTE);
        case Fail =>
          error := Some(if isEditing then UPDATE_ERROR else CREATE_ERROR);
      }
      loading := false;
    }
  }
}
