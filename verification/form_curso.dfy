/**
 * The course form (`FormCurso`): a create/edit state machine over a draft
 * of eight fields.  Each awaited API call is split into the handler that
 * issues the request and the continuation that receives its outcome.
 */
module FormCurso {
  import opened Wrappers
  import opened JsStrings
  import opened JsValues
  import opened JsNumbers
  import opened Api
  import opened Entities
  import opened Forms

  const REQUIRED_MESSAGE := "Por favor completa los campos obligatorios"
  const DURACION_MESSAGE := "La duración debe ser mayor a 0"
  const PRECIO_MESSAGE := "El precio debe ser mayor a 0"
  const LOAD_ERROR := "Error al cargar el curso"
  const UPDATE_ERROR := "Error al actualizar el curso"
  const CREATE_ERROR := "Error al crear el curso"
  const LIST_ROUTE := "/cursos"

  // -------------------------------------------------------------------- draft

  /**
   * The form's `formData`.  Every object the form stores there has exactly
   * these eight properties, in this order, so the draft is a record; `AsObj`
   * turns it back into the object that the submit handler spreads.
   */
  datatype CursoDraft = CursoDraft(
    nombre: JsValue, descripcion: JsValue, duracion: JsValue, precio: JsValue,
    instructor: JsValue, nivel: JsValue, categoria: JsValue, activo: JsValue)

  /** The draft's property names, in the order the draft literals list them. */
  const FIELDS: seq<string> := ["nombre", "descripcion", "duracion", "precio", "instructor", "nivel", "categoria", "activo"]

  lemma FieldsDistinct()
    ensures DistinctStrings(FIELDS)
  {
  }

  /** Names each field position. */
  lemma FieldNames()
    ensures FIELDS[0] == "nombre" && FIELDS[1] == "descripcion" && FIELDS[2] == "duracion"
    ensures FIELDS[3] == "precio" && FIELDS[4] == "instructor" && FIELDS[5] == "nivel"
    ensures FIELDS[6] == "categoria" && FIELDS[7] == "activo"
  {
  }

  /** The draft's values, in the order of FIELDS. */
  function Values(d: CursoDraft): (vs: seq<JsValue>)
    ensures |vs| == |FIELDS|
  {
    [d.nombre, d.descripcion, d.duracion, d.precio, d.instructor, d.nivel, d.categoria, d.activo]
  }

  /** The draft as a JavaScript object. */
  function AsObj(d: CursoDraft): (o: Obj)
    ensures KeysOf(o) == FIELDS
  {
    FieldsDistinct();
    FromFields(FIELDS, Values(d))
  }

  /** Reading property `FIELDS[i]` of the object reads the draft's `i`-th field. */
  lemma AsObjGet(d: CursoDraft, i: nat)
    requires i < |FIELDS|
    ensures Get(AsObj(d), FIELDS[i]) == Values(d)[i]
  {
    FieldsDistinct();
    FromFieldsGet(FIELDS, Values(d), i);
  }

  /**
   * The create form's draft: every text blank, level 'principiante' and
   * active.  It is load-stable, and submitting it as it is gives the
   * required-fields message.
   */
  function InitialDraft(): (d: CursoDraft)
    ensures LoadStable(d) && d.nivel == Str("principiante") && d.activo == Bool(true)
    ensures ValidateCurso(d) == Rejects(REQUIRED_MESSAGE)
  {
    CursoDraft(Str(""), Str(""), Str(""), Str(""), Str(""), Str("principiante"), Str(""), Bool(true))
  }

  /** The position of a field name in FIELDS. */
  function FieldIndex(name: string): (i: nat)
    requires name in FIELDS
    ensures i < |FIELDS| && FIELDS[i] == name
  {
    FieldNames();
    if name == "nombre" then 0 else if name == "descripcion" then 1 else if name == "duracion" then 2
    else if name == "precio" then 3 else if name == "instructor" then 4 else if name == "nivel" then 5
    else if name == "categoria" then 6 else 7
  }

  /** The draft whose values, in the order of FIELDS, are `vs`. */
  function FromValues(vs: seq<JsValue>): (d: CursoDraft)
    requires |vs| == |FIELDS|
    ensures Values(d) == vs
  {
    CursoDraft(vs[0], vs[1], vs[2], vs[3], vs[4], vs[5], vs[6], vs[7])
  }

  /** The draft with field `name` holding `v` and every other field as it was. */
  function WithField(d: CursoDraft, name: string, v: JsValue): (r: CursoDraft)
    requires name in FIELDS
    ensures forall i :: 0 <= i < |FIELDS| ==> Values(r)[i] == if FIELDS[i] == name then v else Values(d)[i]
  {
    FieldsDistinct();
    FromValues(Values(d)[FieldIndex(name) := v])
  }

  /**
   * Changing one field of the draft is the spread `{ ...prev, [name]: v }`:
   * as an object, the field takes the new value and keeps its place.
   */
  lemma ChangeIsSpread(d: CursoDraft, name: string, v: JsValue)
    requires name in FIELDS
    ensures AsObj(WithField(d, name, v)) == Set(AsObj(d), name, v)
    ensures Get(AsObj(WithField(d, name, v)), name) == v
    ensures forall k :: k != name ==> Get(AsObj(WithField(d, name, v)), k) == Get(AsObj(d), k)
  {
    FieldsDistinct();
    var i := FieldIndex(name);
    SetFromFields(FIELDS, Values(d), i, v);
    forall k | k != name
      ensures Get(AsObj(WithField(d, name, v)), k) == Get(AsObj(d), k)
    {
      SetGet(AsObj(d), name, v, k);
    }
    SetGet(AsObj(d), name, v, name);
  }

  // ---------------------------------------------------------------- validation

  /** `nombre` and `instructor` hold non-blank text and a category is selected. */
  predicate RequiredFilled(d: CursoDraft) {
    RequiredText(d.nombre) == Some(true) && RequiredText(d.instructor) == Some(true) && Truthy(d.categoria)
  }

  /**
   * The value gets past `!v || v <= 0`; `NaN` compares false, so it gets
   * past.  A number gets past exactly when it is positive, and blank text
   * never does.
   */
  predicate ClearsPositiveCheck(v: JsValue)
    ensures v.Num? ==> (ClearsPositiveCheck(v) <==> v.x > 0.0)
    ensures v.Str? && AllWhitespace(v.s) ==> !ClearsPositiveCheck(v)
  {
    Truthy(v) && !AtMostZero(ToNumber(v))
  }

  /**
   * The submit handler's checks in their order: required text (where a
   * non-string `nombre` or, after a non-blank `nombre`, a non-string
   * `instructor` makes `.trim()` throw), then `duracion`, then `precio`.
   */
  function ValidateCurso(d: CursoDraft): (r: Check)
    ensures r == Throws <==> !d.nombre.Str? || (RequiredText(d.nombre) == Some(true) && !d.instructor.Str?)
    ensures r == Rejects(REQUIRED_MESSAGE) <==> r != Throws && !RequiredFilled(d)
    ensures r == Rejects(DURACION_MESSAGE) <==> RequiredFilled(d) && !ClearsPositiveCheck(d.duracion)
    ensures r == Rejects(PRECIO_MESSAGE) <==>
      RequiredFilled(d) && ClearsPositiveCheck(d.duracion) && !ClearsPositiveCheck(d.precio)
    ensures r == Passes <==> RequiredFilled(d) && ClearsPositiveCheck(d.duracion) && ClearsPositiveCheck(d.precio)
  {
    match RequiredText(d.nombre)
    case None => Throws
    case Some(false) => Rejects(REQUIRED_MESSAGE)
    case Some(true) =>
      match RequiredText(d.instructor)
      case None => Throws
      case Some(false) => Rejects(REQUIRED_MESSAGE)
      case Some(true) =>
        if !Truthy(d.categoria) then Rejects(REQUIRED_MESSAGE)
        else if !ClearsPositiveCheck(d.duracion) then Rejects(DURACION_MESSAGE)
        else if !ClearsPositiveCheck(d.precio) then Rejects(PRECIO_MESSAGE)
        else Passes
  }

  // ------------------------------------------------------------------ payload

  /**
   * The draft with its numbers coerced: `parseInt(duracion)` at position 2,
   * `parseFloat(precio)` at 3; both become numbers (NaN included), a whole
   * one for `duracion`, and no other field changes.
   */
  function Coerced(d: CursoDraft): (r: CursoDraft)
    ensures r.duracion == AsValue(ParseInt(d.duracion)) && r.precio == AsValue(ParseFloat(d.precio))
    ensures r.duracion.NaN? || (r.duracion.Num? && r.duracion.x == r.duracion.x.Floor as real)
    ensures r.precio.NaN? || r.precio.Num?
    ensures r.(duracion := d.duracion, precio := d.precio) == d
  {
    FieldNames();
    FromValues(Values(d)[2 := AsValue(ParseInt(d.duracion))][3 := AsValue(ParseFloat(d.precio))])
  }

  /**
   * The object the submit handler sends: the coerced draft, plus `imagen`
   * when a new file was chosen.  Its keys are the eight draft fields in
   * order, then `imagen` last exactly when a file was chosen.
   */
  function CursoPayload(d: CursoDraft, imagen: Option<FileRef>): (p: Obj)
    ensures KeysOf(p) == FIELDS + (if imagen.Some? then ["imagen"] else [])
  {
    ImagenIsNoField();
    WithImagen(AsObj(Coerced(d)), imagen)
  }

  /**
   * The payload is `{ ...formData, duracion: parseInt(duracion), precio:
   * parseFloat(precio) }` with the file attached: both numbers keep their
   * places among the draft's properties.
   */
  lemma CursoPayloadIsSpread(d: CursoDraft, imagen: Option<FileRef>)
    ensures CursoPayload(d, imagen)
         == WithImagen(Set(Set(AsObj(d), "duracion", AsValue(ParseInt(d.duracion))), "precio", AsValue(ParseFloat(d.precio))), imagen)
  {
    CoercedIsSpread(d);
  }

  lemma CoercedIsSpread(d: CursoDraft)
    ensures AsObj(Coerced(d)) == Set(Set(AsObj(d), "duracion", AsValue(ParseInt(d.duracion))), "precio", AsValue(ParseFloat(d.precio)))
  {
    FieldsDistinct();
    FieldNames();
    var dur := AsValue(ParseInt(d.duracion));
    var pre := AsValue(ParseFloat(d.precio));
    var withDuracion := Values(d)[2 := dur];
    SetFromFields(FIELDS, Values(d), 2, dur);
    assert Set(AsObj(d), "duracion", dur) == FromFields(FIELDS, withDuracion);
    SetFromFields(FIELDS, withDuracion, 3, pre);
  }

  /**
   * The payload holds the integer parse of `duracion` and the numeric parse
   * of `precio`, the chosen file under `imagen`, and every other field as
   * the draft has it.
   */
  lemma CursoPayloadGet(d: CursoDraft, imagen: Option<FileRef>, k: string)
    ensures Get(CursoPayload(d, imagen), "duracion") == AsValue(ParseInt(d.duracion))
    ensures Get(CursoPayload(d, imagen), "precio") == AsValue(ParseFloat(d.precio))
    ensures imagen.Some? ==> Get(CursoPayload(d, imagen), "imagen") == File(imagen.value)
    ensures k != "duracion" && k != "precio" && (k != "imagen" || imagen.None?) ==>
      Get(CursoPayload(d, imagen), k) == Get(AsObj(d), k)
  {
    var numeric := Set(Set(AsObj(d), "duracion", AsValue(ParseInt(d.duracion))), "precio", AsValue(ParseFloat(d.precio)));
    CursoPayloadIsSpread(d, imagen);
    NumericSpreadGet(d, k);
    WithImagenGet(numeric, imagen, "duracion");
    WithImagenGet(numeric, imagen, "precio");
    WithImagenGet(numeric, imagen, k);
  }

  /** The two spreads `{...formData, duracion: …, precio: …}` before the picture is added. */
  lemma NumericSpreadGet(d: CursoDraft, k: string)
    ensures var numeric := Set(Set(AsObj(d), "duracion", AsValue(ParseInt(d.duracion))), "precio", AsValue(ParseFloat(d.precio)));
      && Get(numeric, "duracion") == AsValue(ParseInt(d.duracion))
      && Get(numeric, "precio") == AsValue(ParseFloat(d.precio))
      && (k != "duracion" && k != "precio" ==> Get(numeric, k) == Get(AsObj(d), k))
  {
    var dur := AsValue(ParseInt(d.duracion));
    var pre := AsValue(ParseFloat(d.precio));
    var withDuracion := Set(AsObj(d), "duracion", dur);
    SetGet(AsObj(d), "duracion", dur, "precio");
    SetGet(AsObj(d), "duracion", dur, k);
    SetGet(withDuracion, "precio", pre, "duracion");
    SetGet(withDuracion, "precio", pre, k);
  }

  /**
   * Both parsed numbers are always sent (a parse yields a number or NaN,
   * never null or undefined), and an `imagen` part is sent exactly when a
   * new file was chosen.
   */
  lemma CursoPayloadParts(d: CursoDraft, imagen: Option<FileRef>)
    ensures "duracion" in PartNames(KeptParts(CursoPayload(d, imagen)))
    ensures "precio" in PartNames(KeptParts(CursoPayload(d, imagen)))
    ensures "imagen" in PartNames(KeptParts(CursoPayload(d, imagen))) <==> imagen.Some?
  {
    NumberSent(d, imagen, "duracion");
    NumberSent(d, imagen, "precio");
    ImagenSent(d, imagen);
  }

  lemma NumberSent(d: CursoDraft, imagen: Option<FileRef>, k: string)
    requires k == "duracion" || k == "precio"
    ensures k in PartNames(KeptParts(CursoPayload(d, imagen)))
  {
    CursoPayloadGet(d, imagen, k);
    SentWhenPresent(CursoPayload(d, imagen), k);
  }

  lemma ImagenSent(d: CursoDraft, imagen: Option<FileRef>)
    ensures "imagen" in PartNames(KeptParts(CursoPayload(d, imagen))) <==> imagen.Some?
  {
    ImagenIsNoField();
    WithImagenParts(AsObj(Coerced(d)), imagen);
  }

  lemma ImagenIsNoField()
    ensures "imagen" !in FIELDS
  {
  }

  lemma SentWhenPresent(p: Obj, k: string)
    requires k in KeysOf(p) && Present(Get(p, k))
    ensures k in PartNames(KeptParts(p))
  {
    KeptPartsNames(p, k);
  }

  /** A digit string clears the duration check exactly when its value is positive, and `parseInt` sends that value. */
  lemma DigitDuracion(s: string)
    requires s != [] && AllDigits(s)
    ensures ClearsPositiveCheck(Str(s)) <==> DigitsValue(s) > 0
    ensures ParseInt(Str(s)) == Finite(DigitsValue(s) as real)
  {
    DigitTextParses(s);
    assert ToNumber(Str(s)) == StringToNumber(s);
    assert ParseInt(Str(s)) == ParseIntText(s);
  }

  /**
   * A draft that passes with a digit-string or whole-number duration sends
   * a duration of at least 1.
   */
  lemma SubmittedDuracionPositive(d: CursoDraft, imagen: Option<FileRef>)
    requires ValidateCurso(d) == Passes
    requires (d.duracion.Str? && AllDigits(d.duracion.s)) || (d.duracion.Num? && d.duracion.x == d.duracion.x.Floor as real)
    ensures var sent := Get(CursoPayload(d, imagen), "duracion");
      sent.Num? && sent.x >= 1.0 && sent.x == sent.x.Floor as real
  {
    CursoPayloadGet(d, imagen, "duracion");
    var v := d.duracion;
    assert ClearsPositiveCheck(v);
    if v.Str? {
      DigitDuracion(v.s);
    } else {
      WholePositiveDuracion(v.x);
    }
  }

  lemma WholePositiveDuracion(x: real)
    requires x == x.Floor as real && ClearsPositiveCheck(Num(x))
    ensures var sent := AsValue(ParseInt(Num(x)));
      sent.Num? && sent.x == x && sent.x >= 1.0 && sent.x == sent.x.Floor as real
  {
    assert x > 0.0;
    assert Trunc(x) == x.Floor;
  }

  /**
   * A draft that passes with a price typed as a plain literal (no padding)
   * sends that same positive number.
   */
  lemma SubmittedPrecioPositive(d: CursoDraft, imagen: Option<FileRef>, text: string)
    requires ValidateCurso(d) == Passes
    requires d.precio == Str(text)
    requires text != [] && !IsJsWhitespace(text[0]) && !IsJsWhitespace(text[|text| - 1])
    requires StringToNumber(text).Finite?
    ensures StringToNumber(text).r > 0.0
    ensures Get(CursoPayload(d, imagen), "precio") == Num(StringToNumber(text).r)
  {
    PositiveText(text);
    CursoPayloadGet(d, imagen, "precio");
  }

  lemma PositiveText(text: string)
    requires ClearsPositiveCheck(Str(text))
    requires text != [] && !IsJsWhitespace(text[0]) && !IsJsWhitespace(text[|text| - 1])
    requires StringToNumber(text).Finite?
    ensures StringToNumber(text).r > 0.0
    ensures AsValue(ParseFloat(Str(text))) == Num(StringToNumber(text).r)
  {
    ParseFloatAgreesWithToNumber(text);
  }

  /**
   * Validation compares the whole text as a number while the payload keeps
   * only `parseInt`'s leading digits: a fractional duration such as "0.5"
   * passes, and only its whole part (here 0) is sent.
   */
  lemma FractionalDuracionPasses(d: CursoDraft, imagen: Option<FileRef>, whole: string, fraction: string)
    requires whole != [] && AllDigits(whole) && fraction != [] && AllDigits(fraction)
    requires d.duracion == Str(whole + "." + fraction) && DecimalValue(whole, fraction) > 0.0
    requires RequiredFilled(d) && ClearsPositiveCheck(d.precio)
    ensures ValidateCurso(d) == Passes
    ensures Get(CursoPayload(d, imagen), "duracion") == Num(DigitsValue(whole) as real)
  {
    FractionalTextToNumber(whole, fraction);
    FractionalTextParseInt(whole, fraction);
    CursoPayloadGet(d, imagen, "duracion");
  }

  /**
   * A number that is no number at all gets past its check (`NaN <= 0` is
   * false) and is sent as `NaN`: for `precio`, and likewise for `duracion`.
   */
  lemma NonNumericPrecioPasses(d: CursoDraft, imagen: Option<FileRef>, text: string)
    requires text != [] && StartsNoNumber(text[0]) && d.precio == Str(text)
    requires RequiredFilled(d) && ClearsPositiveCheck(d.duracion)
    ensures ValidateCurso(d) == Passes
    ensures Get(CursoPayload(d, imagen), "precio") == NaN
  {
    NonNumericText(text);
    CursoPayloadGet(d, imagen, "precio");
  }

  lemma NonNumericDuracionPasses(d: CursoDraft, imagen: Option<FileRef>, text: string)
    requires text != [] && StartsNoNumber(text[0]) && d.duracion == Str(text)
    requires RequiredFilled(d) && ClearsPositiveCheck(d.precio)
    ensures ValidateCurso(d) == Passes
    ensures Get(CursoPayload(d, imagen), "duracion") == NaN
  {
    NonNumericText(text);
    CursoPayloadGet(d, imagen, "duracion");
  }

  // -------------------------------------------------------------- edit-load

  /** `curso.f || ''` */
  function OrBlank(v: JsValue): JsValue {
    Or(v, Str(""))
  }

  /** A field that `f || ''` leaves as it is: truthy, or already ''. */
  predicate BlankStable(v: JsValue) {
    Truthy(v) || v == Str("")
  }

  /**
   * A draft that the edit-load produces unchanged: no falsy text other than
   * '', a truthy level, and a defined `activo`.
   */
  predicate LoadStable(d: CursoDraft) {
    BlankStable(d.nombre) && BlankStable(d.descripcion) && BlankStable(d.duracion) && BlankStable(d.precio)
    && BlankStable(d.instructor) && Truthy(d.nivel) && BlankStable(d.categoria) && d.activo != Undefined
  }

  /**
   * The draft built from a loaded course: every falsy field becomes '',
   * `nivel` becomes 'principiante', and `activo` becomes true only when it
   * is undefined (false and null are kept).
   */
  function DefaultedCurso(curso: Obj): (d: CursoDraft)
    ensures LoadStable(d)
  {
    var activo := Get(curso, "activo");
    CursoDraft(
      OrBlank(Get(curso, "nombre")),
      OrBlank(Get(curso, "descripcion")),
      OrBlank(Get(curso, "duracion")),
      OrBlank(Get(curso, "precio")),
      OrBlank(Get(curso, "instructor")),
      Or(Get(curso, "nivel"), Str("principiante")),
      OrBlank(Get(curso, "categoria")),
      if activo != Undefined then activo else Bool(true))
  }

  /**
   * Field by field: a truthy value is kept and a falsy one (missing, null,
   * false, 0, NaN or '') is replaced by its default; `activo` is replaced
   * only when missing.
   */
  lemma DefaultedCursoFields(curso: Obj)
    ensures var d := DefaultedCurso(curso);
      && (Truthy(Get(curso, "nombre")) ==> d.nombre == Get(curso, "nombre"))
      && (!Truthy(Get(curso, "nombre")) ==> d.nombre == Str(""))
      && (Truthy(Get(curso, "descripcion")) ==> d.descripcion == Get(curso, "descripcion"))
      && (!Truthy(Get(curso, "descripcion")) ==> d.descripcion == Str(""))
      && (Truthy(Get(curso, "duracion")) ==> d.duracion == Get(curso, "duracion"))
      && (!Truthy(Get(curso, "duracion")) ==> d.duracion == Str(""))
      && (Truthy(Get(curso, "precio")) ==> d.precio == Get(curso, "precio"))
      && (!Truthy(Get(curso, "precio")) ==> d.precio == Str(""))
      && (Truthy(Get(curso, "instructor")) ==> d.instructor == Get(curso, "instructor"))
      && (!Truthy(Get(curso, "instructor")) ==> d.instructor == Str(""))
      && (Truthy(Get(curso, "nivel")) ==> d.nivel == Get(curso, "nivel"))
      && (!Truthy(Get(curso, "nivel")) ==> d.nivel == Str("principiante"))
      && (Truthy(Get(curso, "categoria")) ==> d.categoria == Get(curso, "categoria"))
      && (!Truthy(Get(curso, "categoria")) ==> d.categoria == Str(""))
      && (Get(curso, "activo") == Undefined ==> d.activo == Bool(true))
      && (Get(curso, "activo") != Undefined ==> d.activo == Get(curso, "activo"))
  {
  }

  lemma OrBlankStable(v: JsValue)
    ensures BlankStable(OrBlank(v))
  {
  }

  /** The create form starts from what loading a course with no properties would give. */
  lemma InitialIsEmptyLoad()
    ensures InitialDraft() == DefaultedCurso([])
  {
  }

  /** Reading the draft's object back field by field gives the draft. */
  lemma AsObjFields(d: CursoDraft)
    ensures Get(AsObj(d), "nombre") == d.nombre && Get(AsObj(d), "descripcion") == d.descripcion
    ensures Get(AsObj(d), "duracion") == d.duracion && Get(AsObj(d), "precio") == d.precio
    ensures Get(AsObj(d), "instructor") == d.instructor && Get(AsObj(d), "nivel") == d.nivel
    ensures Get(AsObj(d), "categoria") == d.categoria && Get(AsObj(d), "activo") == d.activo
  {
    FieldNames();
    AsObjGet(d, 0);
    AsObjGet(d, 1);
    AsObjGet(d, 2);
    AsObjGet(d, 3);
    AsObjGet(d, 4);
    AsObjGet(d, 5);
    AsObjGet(d, 6);
    AsObjGet(d, 7);
  }

  /** Loading a draft's own object gives the draft back exactly when the draft is load-stable. */
  lemma DefaultedCursoRoundTrip(d: CursoDraft)
    ensures DefaultedCurso(AsObj(d)) == d <==> LoadStable(d)
  {
    AsObjFields(d);
  }

  /** Loading a draft that was itself built by a load changes nothing. */
  lemma DefaultedCursoIdempotent(curso: Obj)
    ensures DefaultedCurso(AsObj(DefaultedCurso(curso))) == DefaultedCurso(curso)
  {
    DefaultedCursoRoundTrip(DefaultedCurso(curso));
  }

  // -------------------------------------------------------------- controller

  class Controller {
    /** The route parameter `id`; `None` on the create route. */
    const routeId: Option<string>
    var formData: CursoDraft
    var imagen: Option<FileRef>
    var imagenActual: JsValue
    var categorias: seq<Categoria>
    var loading: bool
    var error: Option<string>
    var isEditing: bool
    /** Where `navigate` was last sent, if anywhere. */
    var navigatedTo: Option<string>

    /** Edit mode always has an id to update. */
    predicate Valid()
      reads this
    {
      isEditing ==> RouteHasId(routeId)
    }

    /** `if (loading && isEditing)`: the form is replaced by the loading screen, which only an edit route can show. */
    predicate ShowsLoadingScreen()
      reads this
      ensures Valid() && ShowsLoadingScreen() ==> RouteHasId(routeId)
    {
      loading && isEditing
    }

    constructor (routeId: Option<string>)
      ensures Valid()
      ensures this.routeId == routeId && formData == InitialDraft()
      ensures imagen == None && imagenActual == Null && categorias == []
      ensures !loading && error == None && !isEditing && navigatedTo == None
    {
      this.routeId := routeId;
      formData := InitialDraft();
      imagen := None;
      imagenActual := Null;
      categorias := [];
      loading := false;
      error := None;
      isEditing := false;
      navigatedTo := None;
    }

    /**
     * The mount effect: fetch the categories and, on an edit route, switch
     * to edit mode and fetch the course (which sets `loading` first).
     */
    method Mount() returns (requests: seq<Request>)
      requires Valid()
      modifies this
      ensures Valid()
      ensures requests == [GetAll(Categorias)] + (if RouteHasId(routeId) then [GetById(Cursos, routeId.value)] else [])
      ensures isEditing == (old(isEditing) || RouteHasId(routeId))
      ensures loading == (old(loading) || RouteHasId(routeId))
      ensures RouteHasId(routeId) ==> ShowsLoadingScreen()
      ensures formData == old(formData) && imagen == old(imagen) && imagenActual == old(imagenActual)
      ensures categorias == old(categorias) && error == old(error) && navigatedTo == old(navigatedTo)
    {
      requests := [GetAll(Categorias)];
      if routeId.Some? && routeId.value != "" {
        isEditing := true;
        loading := true;
        requests := requests + [GetById(Cursos, routeId.value)];
      }
    }

    /** `fetchCategorias` settles: the options are replaced; a failure is only logged. */
    method CategoriasLoaded(response: Response<seq<Categoria>>)
      modifies this
      ensures response.Ok? ==> categorias == response.data
      ensures response.Fail? ==> categorias == old(categorias)
      ensures formData == old(formData) && imagen == old(imagen) && imagenActual == old(imagenActual)
      ensures loading == old(loading) && error == old(error) && isEditing == old(isEditing)
      ensures navigatedTo == old(navigatedTo)
    {
      if response.Ok? {
        categorias := response.data;
      }
    }

    /**
     * `fetchCurso` settles: a loaded course becomes the defaulted draft and
     * clears the error, its truthy `imagen` becomes the current picture; a
     * failure keeps the draft and sets the load error.  Loading ends either way.
     */
    method CursoLoaded(response: Response<Obj>)
      requires Valid()
      modifies this
      ensures Valid()
      ensures !loading && !ShowsLoadingScreen()
      ensures response.Ok? ==> formData == DefaultedCurso(response.data) && error == None
      ensures response.Ok? && Truthy(Get(response.data, "imagen")) ==> imagenActual == Get(response.data, "imagen")
      ensures response.Ok? && !Truthy(Get(response.data, "imagen")) ==> imagenActual == old(imagenActual)
      ensures response.Fail? ==> formData == old(formData) && imagenActual == old(imagenActual) && error == Some(LOAD_ERROR)
      ensures imagen == old(imagen) && categorias == old(categorias) && isEditing == old(isEditing)
      ensures navigatedTo == old(navigatedTo)
    {
      match response {
        case Ok(curso) =>
          ApplyLoaded(curso);
        case Fail =>
          error := Some(LOAD_ERROR);
      }
      loading := false;
    }

    /** The `try` block after the fetch: the defaulted course becomes the draft, a truthy `imagen` the current picture, and the error is cleared. */
    method ApplyLoaded(curso: Obj)
      modifies this
      ensures formData == DefaultedCurso(curso) && error == None
      ensures Truthy(Get(curso, "imagen")) ==> imagenActual == Get(curso, "imagen")
      ensures !Truthy(Get(curso, "imagen")) ==> imagenActual == old(imagenActual)
      ensures imagen == old(imagen) && categorias == old(categorias) && isEditing == old(isEditing)
      ensures navigatedTo == old(navigatedTo) && loading == old(loading)
    {
      var picture := Get(curso, "imagen");
      if Truthy(picture) {
        imagenActual := picture;
      }
      formData := DefaultedCurso(curso);
      error := None;
    }

    /**
     * `handleChange` for the input named `name` (one of the draft's fields):
     * the draft becomes `{ ...prev, [name]: v }` with `v` the checkbox state
     * or the text, so that field reads `v` and the others keep theirs.
     */
    method HandleChange(name: string, value: string, isCheckbox: bool, checked: bool)
      requires Valid() && name in FIELDS
      modifies this
      ensures Valid()
      ensures formData == WithField(old(formData), name, if isCheckbox then Bool(checked) else Str(value))
      ensures imagen == old(imagen) && imagenActual == old(imagenActual) && categorias == old(categorias)
      ensures loading == old(loading) && error == old(error) && isEditing == old(isEditing)
      ensures navigatedTo == old(navigatedTo)
    {
      formData := WithField(formData, name, if isCheckbox then Bool(checked) else Str(value));
    }

    /** `handleImageChange`: a chosen file becomes the new picture; no file changes nothing. */
    method HandleImageChange(file: Option<FileRef>)
      modifies this
      ensures imagen == if file.Some? then file else old(imagen)
      ensures formData == old(formData) && imagenActual == old(imagenActual) && categorias == old(categorias)
      ensures loading == old(loading) && error == old(error) && isEditing == old(isEditing)
      ensures navigatedTo == old(navigatedTo)
    {
      if file.Some? {
        imagen := file;
      }
    }

    /**
     * `handleSubmit` up to the awaited call.  A rejected draft only sets the
     * first failing rule's message; a throwing `.trim()` changes nothing;
     * a valid draft sets `loading` and issues `update(id, payload)` in edit
     * mode or `create(payload)` otherwise.  The draft is never changed.
     */
    method HandleSubmit() returns (sent: Option<Request>)
      requires Valid()
      modifies this
      ensures Valid()
      ensures ValidateCurso(formData) != Passes ==> sent == None && loading == old(loading)
      ensures ValidateCurso(formData).Rejects? ==> error == Some(ValidateCurso(formData).message)
      ensures ValidateCurso(formData) == Throws ==> error == old(error)
      ensures ValidateCurso(formData) == Passes ==> loading && error == old(error)
      ensures ValidateCurso(formData) == Passes ==> sent == Some(SaveRequest(Cursos, isEditing, routeId, CursoPayload(formData, imagen)))
      ensures formData == old(formData) && imagen == old(imagen) && imagenActual == old(imagenActual)
      ensures categorias == old(categorias) && isEditing == old(isEditing) && navigatedTo == old(navigatedTo)
    {
      sent := None;
      match ValidateCurso(formData)
      case Throws =>
      case Rejects(message) =>
        error := Some(message);
      case Passes =>
        var request := SubmitDraft();
        sent := Some(request);
    }

    /** The rest of `handleSubmit` once the draft passed: set `loading` and issue the save of its payload. */
    method SubmitDraft() returns (request: Request)
      requires Valid()
      modifies this
      ensures Valid() && loading
      ensures request == SaveRequest(Cursos, isEditing, routeId, CursoPayload(formData, imagen))
      ensures formData == old(formData) && imagen == old(imagen) && imagenActual == old(imagenActual)
      ensures categorias == old(categorias) && isEditing == old(isEditing) && navigatedTo == old(navigatedTo)
      ensures error == old(error)
    {
      loading := true;
      request := Save(Cursos, isEditing, routeId, CursoPayload(formData, imagen));
    }

    /**
     * The submit's awaited call settles: success navigates to the course
     * list; failure keeps the draft and sets the error for the current mode.
     * Loading ends either way.
     */
    method SubmitSettled(outcome: Response<()>)
      requires Valid()
      modifies this
      ensures Valid()
      ensures !loading
      ensures outcome.Ok? ==> navigatedTo == Some(LIST_ROUTE) && error == old(error)
      ensures outcome.Fail? ==> navigatedTo == old(navigatedTo)
      ensures outcome.Fail? && isEditing ==> error == Some(UPDATE_ERROR)
      ensures outcome.Fail? && !isEditing ==> error == Some(CREATE_ERROR)
      ensures formData == old(formData) && imagen == old(imagen) && imagenActual == old(imagenActual)
      ensures categorias == old(categorias) && isEditing == old(isEditing)
    {
      match outcome {
        case Ok(_) =>
          navigatedTo := Some(LIST_ROUTE);
        case Fail =>
          error := Some(if isEditing then UPDATE_ERROR else CREATE_ERROR);
      }
      loading := false;
    }
  }
}
