/**
 * The API service (`src/services/api.js`): one axios client on a base URL,
 * and for each collection (`categorias`, `cursos`) the calls getAll,
 * getById, create, update and delete, plus `cursos.getByCategoria`.
 * A call is modelled by the request it issues; the HTTP exchange itself is
 * an outcome the caller receives as a parameter (Response).
 */
module Api {
  import opened Wrappers
  import opened JsValues

  /** The endpoint used when `VITE_API_URL` is not configured. */
  const DEFAULT_BASE_URL := "https://backend-msn0.onrender.com/api"

  /** `import.meta.env.VITE_API_URL || DEFAULT_BASE_URL`; an unset variable is `None`. */
  function BaseUrl(configured: Option<string>): (url: string)
    ensures url != ""
    ensures url == DEFAULT_BASE_URL || Some(url) == configured
    ensures url == DEFAULT_BASE_URL <== configured == None || configured == Some("")
    ensures configured.Some? && configured.value != "" ==> url == configured.value
  {
    if configured.Some? && configured.value != "" then configured.value else DEFAULT_BASE_URL
  }

  /** The settled outcome of an awaited call: the response body, or a rejection. */
  datatype Response<+T> = Ok(data: T) | Fail

  datatype Collection = Categorias | Cursos

  function CollectionName(c: Collection): string {
    match c
    case Categorias => "categorias"
    case Cursos => "cursos"
  }

  /** `/categorias/` or `/cursos/`: one path segment, the collection's name, between slashes. */
  function CollectionPath(c: Collection): (p: string)
    ensures |p| >= 3 && p[0] == '/' && p[|p| - 1] == '/'
  {
    "/" + CollectionName(c) + "/"
  }

  /** `/<collection>/${id}/`: the collection path, then the id, then a closing slash. */
  function EntityPath(c: Collection, id: string): (p: string)
    ensures |p| == |CollectionPath(c)| + |id| + 1
    ensures p[..|CollectionPath(c)|] == CollectionPath(c)
    ensures p[|CollectionPath(c)|..|p| - 1] == id && p[|p| - 1] == '/'
  {
    CollectionPath(c) + id + "/"
  }

  /**
   * `/cursos/categoria/${categoriaId}/`: below the course collection's path,
   * the segment `categoria`, then the category id, then a closing slash.
   */
  function CategoriaFilterPath(categoriaId: string): (p: string)
    ensures |p| > |CollectionPath(Cursos)| && p[|p| - 1] == '/'
    ensures p[..|CollectionPath(Cursos)|] == CollectionPath(Cursos)
    ensures p[|CollectionPath(Cursos)|..|p| - 1] == "categoria/" + categoriaId
  {
    "/cursos/categoria/" + categoriaId + "/"
  }

  datatype Verb = GET | POST | PUT | DELETE

  /** One part of a multipart body: the field name and the value handed to `FormData.append`. */
  datatype Part = Part(name: string, value: JsValue)

  datatype Body = NoBody | Multipart(parts: seq<Part>)

  datatype Request = Request(verb: Verb, path: string, body: Body)

  /** `getAll`: a bodiless GET of the collection path, which addresses no single record. */
  function GetAll(c: Collection): (r: Request)
    ensures r.verb == GET && r.body == NoBody && r.path == CollectionPath(c)
    ensures ParseEntityPath(r.path) == None
  {
    CollectionPathIsNoEntityPath(c);
    Request(GET, CollectionPath(c), NoBody)
  }

  /** `getById(id)`: a bodiless GET of the entity path, which the server reads back as this collection and id. */
  function GetById(c: Collection, id: string): (r: Request)
    ensures r.verb == GET && r.body == NoBody && r.path == EntityPath(c, id)
    ensures IsSegment(id) ==> ParseEntityPath(r.path) == Some((c, id))
  {
    if IsSegment(id) then
      EntityPathRoundTrip(c, id);
      Request(GET, EntityPath(c, id), NoBody)
    else
      Request(GET, EntityPath(c, id), NoBody)
  }

  /** `delete(id)`: a bodiless DELETE of the entity path, which the server reads back as this collection and id. */
  function Remove(c: Collection, id: string): (r: Request)
    ensures r.verb == DELETE && r.body == NoBody && r.path == EntityPath(c, id)
    ensures IsSegment(id) ==> ParseEntityPath(r.path) == Some((c, id))
  {
    if IsSegment(id) then
      EntityPathRoundTrip(c, id);
      Request(DELETE, EntityPath(c, id), NoBody)
    else
      Request(DELETE, EntityPath(c, id), NoBody)
  }

  /**
   * `cursosAPI.getByCategoria(categoriaId)`: a bodiless GET below the course
   * collection that the server does not read as any single record.
   */
  function GetByCategoria(categoriaId: string): (r: Request)
    ensures r.verb == GET && r.body == NoBody && r.path == CategoriaFilterPath(categoriaId)
    ensures IsSegment(categoriaId) ==> ParseEntityPath(r.path) == None
  {
    if IsSegment(categoriaId) then
      FilterPathIsNoEntityPath(categoriaId);
      Request(GET, CategoriaFilterPath(categoriaId), NoBody)
    else
      Request(GET, CategoriaFilterPath(categoriaId), NoBody)
  }

  /**
   * The parts a payload turns into: one per property whose value is neither
   * null nor undefined, in property order, with the value as it is.
   */
  function KeptParts(entries: seq<Entry>): (parts: seq<Part>)
    ensures |parts| <= |entries|
    ensures forall p :: p in parts ==> Present(p.value) && Entry(p.name, p.value) in entries
  {
    if entries == [] then []
    else
      var last := entries[|entries| - 1];
      KeptParts(entries[..|entries| - 1]) + (if Present(last.value) then [Part(last.key, last.value)] else [])
  }

  function PartNames(parts: seq<Part>): (names: seq<string>)
    ensures |names| == |parts|
    ensures forall i :: 0 <= i < |parts| ==> names[i] == parts[i].name
  {
    if parts == [] then [] else [parts[0].name] + PartNames(parts[1..])
  }

  /** The parts of two runs of properties are the parts of each, in the same order. */
  lemma {:induction false} KeptPartsAppend(a: seq<Entry>, b: seq<Entry>)
    ensures KeptParts(a + b) == KeptParts(a) + KeptParts(b)
  {
    if b == [] {
      assert a + b == a;
    } else {
      var b' := b[..|b| - 1];
      assert (a + b)[..|a + b| - 1] == a + b';
      KeptPartsAppend(a, b');
    }
  }

  /** A property is sent exactly when its value is neither null nor undefined. */
  lemma {:induction false} KeptPartsNames(o: Obj, k: string)
    ensures k in PartNames(KeptParts(o)) <==> k in KeysOf(o) && Present(Get(o, k))
  {
    if o != [] {
      var rest: Obj := o[1..];
      assert o == [o[0]] + rest;
      KeptPartsAppend([o[0]], rest);
      assert KeptParts([o[0]]) == KeptParts([]) + (if Present(o[0].value) then [Part(o[0].key, o[0].value)] else []);
      assert KeysOf(o) == [o[0].key] + KeysOf(rest);
      KeptPartsNames(rest, k);
      if o[0].key == k {
        assert k !in KeysOf(rest);
      }
      PartNamesAppend(KeptParts([o[0]]), KeptParts(rest));
    }
  }

  lemma {:induction false} PartNamesAppend(p: seq<Part>, q: seq<Part>)
    ensures PartNames(p + q) == PartNames(p) + PartNames(q)
  {
    if p == [] {
      assert p + q == q;
    } else {
      assert (p + q)[1..] == p[1..] + q;
      PartNamesAppend(p[1..], q);
    }
  }

  /** The browser's `FormData` buffer: parts appended in order. */
  class FormData {
    var parts: seq<Part>

    constructor ()
      ensures parts == []
    {
      parts := [];
    }

    /** `formData.append(name, value)` */
    method Append(name: string, value: JsValue)
      modifies this
      ensures parts == old(parts) + [Part(name, value)]
    {
      parts := parts + [Part(name, value)];
    }
  }

  /**
   * The loop shared by the four mutating calls: for each key of the payload,
   * append it when its value is neither null nor undefined.
   */
  method Serialize(payload: Obj) returns (fd: FormData)
    ensures fresh(fd)
    ensures fd.parts == KeptParts(payload)
  {
    fd := new FormData();
    var keys := KeysOf(payload);
    var i := 0;
    while i < |keys|
      invariant 0 <= i <= |keys|
      invariant fd.parts == KeptParts(payload[..i])
    {
      var key := keys[i];
      var value := Get(payload, key);
      GetAt(payload, i);
      if value != Null && value != Undefined {
        fd.Append(key, value);
      }
      assert payload[..i + 1][..i] == payload[..i];
      i := i + 1;
    }
    assert payload[..|keys|] == payload;
  }

  /** `create(payload)`: a multipart POST of the payload to the collection path. */
  method Create(c: Collection, payload: Obj) returns (req: Request)
    ensures req == Request(POST, CollectionPath(c), Multipart(KeptParts(payload)))
  {
    var fd := Serialize(payload);
    req := Request(POST, CollectionPath(c), Multipart(fd.parts));
  }

  /** `update(id, payload)`: a multipart PUT of the payload to the entity path. */
  method Update(c: Collection, id: string, payload: Obj) returns (req: Request)
    ensures req == Request(PUT, EntityPath(c, id), Multipart(KeptParts(payload)))
  {
    var fd := Serialize(payload);
    req := Request(PUT, EntityPath(c, id), Multipart(fd.parts));
  }

  /** One path segment: non-empty and without `/`. */
  predicate IsSegment(s: string) {
    s != [] && '/' !in s
  }

  /** The id of an entity path of collection `c`, if `path` is one. */
  function ParseIn(c: Collection, path: string): (id: Option<string>)
    ensures id.Some? ==> IsSegment(id.value)
  {
    var prefix := CollectionPath(c);
    if |path| > |prefix| && path[..|prefix|] == prefix && path[|path| - 1] == '/' then
      var id := path[|prefix|..|path| - 1];
      if IsSegment(id) then Some(id) else None
    else
      None
  }

  /** How the server reads an entity path back: the collection and the id, when it is one. */
  function ParseEntityPath(path: string): Option<(Collection, string)> {
    match ParseIn(Categorias, path)
    case Some(id) => Some((Categorias, id))
    case None =>
      match ParseIn(Cursos, path)
      case Some(id) => Some((Cursos, id))
      case None => None
  }

  /** An entity path names its collection and its id, and nothing else. */
  lemma EntityPathRoundTrip(c: Collection, id: string)
    requires IsSegment(id)
    ensures ParseEntityPath(EntityPath(c, id)) == Some((c, id))
  {
    var path := EntityPath(c, id);
    assert path[..|CollectionPath(c)|] == CollectionPath(c);
    assert path[|CollectionPath(c)|..|path| - 1] == id;
    if c == Cursos {
      assert path[2] == 'u';
      assert ParseIn(Categorias, path) == None;
    }
  }

  /** Every path that parses is the entity path of what it parses to. */
  lemma EntityPathParsed(path: string, c: Collection, id: string)
    requires ParseEntityPath(path) == Some((c, id))
    ensures EntityPath(c, id) == path && IsSegment(id)
  {
    var prefix := CollectionPath(c);
    assert path == path[..|prefix|] + path[|prefix|..|path| - 1] + [path[|path| - 1]];
  }

  /** The filtered list path is not the entity path of any course or category. */
  lemma FilterPathIsNoEntityPath(categoriaId: string)
    requires IsSegment(categoriaId)
    ensures ParseEntityPath(CategoriaFilterPath(categoriaId)) == None
  {
    var path := CategoriaFilterPath(categoriaId);
    assert path[2] == 'u';
    assert path[|CollectionPath(Cursos)|..|path| - 1] == "categoria/" + categoriaId;
    assert ("categoria/" + categoriaId)[9] == '/';
  }

  /** The collection path is not an entity path either. */
  lemma CollectionPathIsNoEntityPath(c: Collection)
    ensures ParseEntityPath(CollectionPath(c)) == None
  {
    var path := CollectionPath(c);
    if c == Categorias {
      assert path[..|CollectionPath(Cursos)|][2] == 'a';
    }
  }
}
