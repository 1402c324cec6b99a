/**
 * What the two edit forms share: `.trim()` on a draft field, the rule that
 * attaches `imagen` only when a new file was chosen, and the outcome of a
 * client-side validation.
 */
module Forms {
  import opened Wrappers
  import opened JsStrings
  import opened JsValues
  import opened Api

  /**
   * The outcome of a submit handler's validation: the draft passes, or the
   * first failing rule's message is shown, or a `.trim()` call on a field
   * that is not a string throws before any rule decides.
   */
  datatype Check = Passes | Rejects(message: string) | Throws

  /** `v.trim()`: strings only; on any other value the call throws (`None`). */
  function TrimmedText(v: JsValue): (r: Option<string>)
    ensures r.Some? <==> v.Str?
  {
    match v
    case Str(s) => Some(Trim(s))
    case _ => None
  }

  /** One required-text rule: `!v.trim()` rejects blank text. */
  function RequiredText(v: JsValue): (r: Option<bool>)
    ensures r.Some? <==> v.Str?
    ensures r == Some(true) <==> v.Str? && !AllWhitespace(v.s)
  {
    match TrimmedText(v)
    case Some(t) => Some(t != "")
    case None => None
  }

  /** The route has an id: `if (id)` on the route parameter, true exactly for a present, truthy string. */
  predicate RouteHasId(routeId: Option<string>)
    ensures RouteHasId(routeId) <==> routeId.Some? && Truthy(Str(routeId.value))
  {
    routeId.Some? && routeId.value != ""
  }

  /**
   * `isEditing ? api.update(id, payload) : api.create(payload)`: both send
   * the payload's kept parts; an update is a PUT that the server reads back
   * as exactly the routed record, a create a POST to the collection, which
   * addresses no single record.
   */
  function SaveRequest(c: Collection, isEditing: bool, routeId: Option<string>, payload: Obj): (r: Request)
    requires isEditing ==> routeId.Some?
    ensures r.body == Multipart(KeptParts(payload))
    ensures isEditing ==> r.verb == PUT && r.path == EntityPath(c, routeId.value)
    ensures isEditing && IsSegment(routeId.value) ==> ParseEntityPath(r.path) == Some((c, routeId.value))
    ensures !isEditing ==> r.verb == POST && r.path == CollectionPath(c) && ParseEntityPath(r.path) == None
  {
    if isEditing then
      if IsSegment(routeId.value) then
        EntityPathRoundTrip(c, routeId.value);
        Request(PUT, EntityPath(c, routeId.value), Multipart(KeptParts(payload)))
      else
        Request(PUT, EntityPath(c, routeId.value), Multipart(KeptParts(payload)))
    else
      CollectionPathIsNoEntityPath(c);
      Request(POST, CollectionPath(c), Multipart(KeptParts(payload)))
  }

  /** The submit handler's awaited call: `update(id, payload)` in edit mode, else `create(payload)`. */
  method Save(c: Collection, isEditing: bool, routeId: Option<string>, payload: Obj) returns (request: Request)
    requires isEditing ==> routeId.Some?
    ensures request == SaveRequest(c, isEditing, routeId, payload)
  {
    if isEditing {
      request := Update(c, routeId.value, payload);
    } else {
      request := Create(c, payload);
    }
  }

  /** `if (imagen) { dataToSubmit.imagen = imagen; }` */
  function WithImagen(draft: Obj, imagen: Option<FileRef>): (r: Obj)
    ensures imagen.None? ==> r == draft
    ensures imagen.Some? ==> Get(r, "imagen") == File(imagen.value)
  {
    match imagen
    case None => draft
    case Some(f) =>
      SetGet(draft, "imagen", File(f), "imagen");
      Set(draft, "imagen", File(f))
  }

  /** Adding the picture leaves every other property as the draft has it. */
  lemma WithImagenGet(draft: Obj, imagen: Option<FileRef>, j: string)
    ensures j != "imagen" ==> Get(WithImagen(draft, imagen), j) == Get(draft, j)
  {
    if imagen.Some? {
      SetGet(draft, "imagen", File(imagen.value), j);
    }
  }

  /**
   * For a draft without an `imagen` field, the multipart body is the draft's
   * own parts, followed by the new file exactly when one was chosen.
   */
  lemma WithImagenParts(draft: Obj, imagen: Option<FileRef>)
    requires "imagen" !in KeysOf(draft)
    ensures KeptParts(WithImagen(draft, imagen))
         == KeptParts(draft) + (if imagen.Some? then [Part("imagen", File(imagen.value))] else [])
    ensures "imagen" in PartNames(KeptParts(WithImagen(draft, imagen))) <==> imagen.Some?
  {
    match imagen
    case None =>
      KeptPartsNames(draft, "imagen");
    case Some(f) =>
      AttachedFileParts(draft, f);
      AttachedFileNamed(KeptParts(draft), f);
  }

  lemma AttachedFileParts(draft: Obj, f: FileRef)
    requires "imagen" !in KeysOf(draft)
    ensures KeptParts(Set(draft, "imagen", File(f))) == KeptParts(draft) + [Part("imagen", File(f))]
  {
    SetNew(draft, "imagen", File(f));
    AppendedFileParts(draft, f);
  }

  lemma AppendedFileParts(draft: seq<Entry>, f: FileRef)
    ensures KeptParts(draft + [Entry("imagen", File(f))]) == KeptParts(draft) + [Part("imagen", File(f))]
  {
    var e := Entry("imagen", File(f));
    KeptPartsAppend(draft, [e]);
    assert [e][..0] == [];
    assert KeptParts([e]) == [Part("imagen", File(f))];
  }

  lemma AttachedFileNamed(parts: seq<Part>, f: FileRef)
    ensures "imagen" in PartNames(parts + [Part("imagen", File(f))])
  {
    PartNamesAppend(parts, [Part("imagen", File(f))]);
    assert PartNames([Part("imagen", File(f))]) == ["imagen"];
  }
}
