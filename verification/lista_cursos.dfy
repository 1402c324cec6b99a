/**
 * The course list page (`ListaCursos`): the loaded courses and categories,
 * deletion, the category filter, and the helpers that turn a course's
 * fields into what its card shows.
 */
module ListaCursos {
  import opened Wrappers
  import opened JsNumbers
  import opened Api
  import opened Entities
  import opened Listing

  const LOAD_ERROR := "Error al cargar los cursos"
  const DELETE_ERROR := "Error al eliminar el curso"
  const FILTER_ERROR := "Error al filtrar cursos"
  const NO_CATEGORIA := "Sin categoría"
  const GRAY := "bg-gray-100 text-gray-700 border-2 border-gray-300"
  /** Descriptions longer than this many characters are cut on the card. */
  const DESCRIPCION_LIMIT := 100

  // ------------------------------------------------------------ card helpers

  /** The index of the first category with the id (`categorias.find`). */
  function FirstWithId(categorias: seq<Categoria>, id: nat): (r: Option<nat>)
    ensures r.None? <==> forall i :: 0 <= i < |categorias| ==> categorias[i].id != id
    ensures r.Some? ==> r.value < |categorias| && categorias[r.value].id == id
    ensures r.Some? ==> forall j :: 0 <= j < r.value ==> categorias[j].id != id
  {
    if categorias == [] then None
    else if categorias[0].id == id then Some(0)
    else
      match FirstWithId(categorias[1..], id)
      case None => None
      case Some(i) => Some(i + 1)
  }

  /** `getNombreCategoria`: the name of the first category with the id, or the placeholder when there is none. */
  function NombreCategoria(categorias: seq<Categoria>, id: nat): (r: string)
    ensures (forall i :: 0 <= i < |categorias| ==> categorias[i].id != id) ==> r == NO_CATEGORIA
    ensures forall i :: 0 <= i < |categorias| && categorias[i].id == id && (forall j :: 0 <= j < i ==> categorias[j].id != id)
              ==> r == categorias[i].nombre
  {
    match FirstWithId(categorias, id)
    case None => NO_CATEGORIA
    case Some(i) => categorias[i].nombre
  }

  /** No two categories share an id. */
  predicate UniqueIds(categorias: seq<Categoria>) {
    forall i, j :: 0 <= i < j < |categorias| ==> categorias[i].id != categorias[j].id
  }

  /** With unique ids, every listed category is found under its own id. */
  lemma NombreOfListed(categorias: seq<Categoria>, k: nat)
    requires UniqueIds(categorias) && k < |categorias|
    ensures NombreCategoria(categorias, categorias[k].id) == categorias[k].nombre
  {
    forall j | 0 <= j < k ensures categorias[j].id != categorias[k].id {
    }
  }

  /** `getNivelLabel`: the known levels get their display name; anything else is shown as it is. */
  function NivelLabel(nivel: string): (r: string)
    ensures nivel == "principiante" ==> r == "Principiante"
    ensures nivel == "intermedio" ==> r == "Intermedio"
    ensures nivel == "avanzado" ==> r == "Avanzado"
    ensures nivel !in {"principiante", "intermedio", "avanzado"} ==> r == nivel
  {
    if nivel == "principiante" then "Principiante"
    else if nivel == "intermedio" then "Intermedio"
    else if nivel == "avanzado" then "Avanzado"
    else nivel
  }

  /** A label is its own label: display names are not level keys. */
  lemma NivelLabelIdempotent(nivel: string)
    ensures NivelLabel(NivelLabel(nivel)) == NivelLabel(nivel)
  {
    var r := NivelLabel(nivel);
    if nivel == "principiante" {
      assert r[0] == 'P';
    } else if nivel == "intermedio" {
      assert r[0] == 'I';
    } else if nivel == "avanzado" {
      assert r[0] == 'A';
    }
  }

  /** `getNivelColor`: a colour class per known level, grey for anything else. */
  function NivelColor(nivel: string): (r: string)
    ensures r == GRAY <==> nivel !in {"principiante", "intermedio", "avanzado"}
  {
    if nivel == "principiante" then "bg-green-100 text-green-700 border-2 border-green-300"
    else if nivel == "intermedio" then "bg-yellow-100 text-yellow-700 border-2 border-yellow-300"
    else if nivel == "avanzado" then "bg-red-100 text-red-700 border-2 border-red-300"
    else GRAY
  }

  /** The three known levels are told apart by colour. */
  lemma NivelColorInjective(a: string, b: string)
    requires a in {"principiante", "intermedio", "avanzado"} && b in {"principiante", "intermedio", "avanzado"}
    requires a != b
    ensures NivelColor(a) != NivelColor(b)
  {
  }

  /**
   * The card's description: nothing for an empty one, the text itself up to
   * the limit, else its first 100 characters followed by `...`.
   */
  function Excerpt(descripcion: string): (r: Option<string>)
    ensures r.None? <==> descripcion == ""
    ensures r.Some? && |descripcion| <= DESCRIPCION_LIMIT ==> r.value == descripcion
    ensures r.Some? && |descripcion| > DESCRIPCION_LIMIT ==>
      |r.value| == DESCRIPCION_LIMIT + 3 && r.value[..DESCRIPCION_LIMIT] == descripcion[..DESCRIPCION_LIMIT]
      && r.value[DESCRIPCION_LIMIT..] == "..."
  {
    if descripcion == "" then None
    else if |descripcion| > DESCRIPCION_LIMIT then Some(descripcion[..DESCRIPCION_LIMIT] + "...")
    else Some(descripcion)
  }

  /** Cutting an excerpt again changes nothing. */
  lemma ExcerptStable(descripcion: string)
    requires descripcion != ""
    ensures Excerpt(Excerpt(descripcion).value) == Excerpt(descripcion)
  {
    var r := Excerpt(descripcion).value;
    if |descripcion| > DESCRIPCION_LIMIT {
      assert r[..DESCRIPCION_LIMIT] == descripcion[..DESCRIPCION_LIMIT];
      assert r[..DESCRIPCION_LIMIT] + "..." == r;
    }
  }

  // -------------------------------------------------------------- controller

  class Controller {
    var cursos: seq<Curso>
    var categorias: seq<Categoria>
    var loading: bool
    var error: Option<string>
    /** The selected category filter: `""` for all categories, else the category's id as text. */
    var filtroCategoria: string

    /** A fresh page starts loading, with empty lists and no filter. */
    constructor ()
      ensures cursos == [] && categorias == [] && loading && error == None && filtroCategoria == ""
      ensures View() == LoadingScreen
    {
      cursos := [];
      categorias := [];
      loading := true;
      error := None;
      filtroCategoria := "";
    }

    /** What the page shows for the current state. */
    function View(): ListView<Curso>
      reads this
    {
      Render(loading, error, cursos)
    }

    /** The mount effect: fetch all courses (setting `loading`) and all categories. */
    method Mount() returns (requests: seq<Request>)
      modifies this
      ensures requests == [GetAll(Cursos), GetAll(Categorias)]
      ensures loading && View() == LoadingScreen
      ensures cursos == old(cursos) && categorias == old(categorias) && error == old(error)
      ensures filtroCategoria == old(filtroCategoria)
    {
      loading := true;
      requests := [GetAll(Cursos), GetAll(Categorias)];
    }

    /** `fetchCursos` settles: the list is replaced and the error cleared, or the load error is set.  Loading ends either way. */
    method CursosLoaded(response: Response<seq<Curso>>)
      modifies this
      ensures !loading
      ensures response.Ok? ==> cursos == response.data && error == None && View() == Render(false, None, response.data)
      ensures response.Fail? ==> cursos == old(cursos) && error == Some(LOAD_ERROR) && View() == ErrorBanner(LOAD_ERROR)
      ensures categorias == old(categorias) && filtroCategoria == old(filtroCategoria)
    {
      match response {
        case Ok(data) =>
          cursos := data;
          error := None;
        case Fail =>
          error := Some(LOAD_ERROR);
      }
      loading := false;
    }

    /** `fetchCategorias` settles: the filter's options are replaced; a failure is only logged. */
    method CategoriasLoaded(response: Response<seq<Categoria>>)
      modifies this
      ensures categorias == if response.Ok? then response.data else old(categorias)
      ensures cursos == old(cursos) && loading == old(loading) && error == old(error)
      ensures filtroCategoria == old(filtroCategoria)
    {
      if response.Ok? {
        categorias := response.data;
      }
    }

    /** `handleDelete`: once the user confirms, the course's resource is deleted; nothing changes yet. */
    method HandleDelete(id: nat, confirmed: bool) returns (sent: Option<Request>)
      ensures sent == if confirmed then Some(Remove(Cursos, DecimalText(id))) else None
      ensures sent.Some? ==> ParseEntityPath(sent.value.path) == Some((Cursos, DecimalText(id)))
    {
      sent := None;
      if confirmed {
        sent := Some(Remove(Cursos, DecimalText(id)));
        EntityPathRoundTrip(Cursos, DecimalText(id));
      }
    }

    /**
     * The delete settles: on success exactly the courses with the id leave
     * the list, the rest in their order; on failure the error is set and
     * the page shows it in place of the list.
     */
    method DeleteSettled(id: nat, outcome: Response<()>)
      modifies this
      ensures outcome.Ok? ==> cursos == RemoveById(old(cursos), id, CursoId) && error == old(error)
      ensures outcome.Ok? ==> forall c :: c in cursos <==> c in old(cursos) && c.id != id
      ensures outcome.Fail? ==> cursos == old(cursos) && error == Some(DELETE_ERROR)
      ensures outcome.Fail? && !loading ==> View() == ErrorBanner(DELETE_ERROR)
      ensures categorias == old(categorias) && loading == old(loading) && filtroCategoria == old(filtroCategoria)
    {
      match outcome {
        case Ok(_) =>
          RemoveByIdMembers(cursos, id, CursoId);
          cursos := RemoveById(cursos, id, CursoId);
        case Fail =>
          error := Some(DELETE_ERROR);
      }
    }

    /** `handleFiltroCategoria`: sets `loading` and fetches all courses for `""`, else the category's courses. */
    method HandleFiltroCategoria(categoriaId: string) returns (request: Request)
      modifies this
      ensures loading && View() == LoadingScreen
      ensures categoriaId == "" ==> request == GetAll(Cursos)
      ensures categoriaId != "" ==> request == GetByCategoria(categoriaId)
      ensures cursos == old(cursos) && categorias == old(categorias) && error == old(error)
      ensures filtroCategoria == old(filtroCategoria)
    {
      loading := true;
      if categoriaId == "" {
        request := GetAll(Cursos);
      } else {
        request := GetByCategoria(categoriaId);
      }
    }

    /**
     * The filter's fetch settles: the list is replaced, the filter recorded
     * and the error cleared; on failure the list and the filter stay and
     * the filter error is set.  Loading ends either way.
     */
    method FiltroSettled(categoriaId: string, response: Response<seq<Curso>>)
      modifies this
      ensures !loading
      ensures response.Ok? ==> cursos == response.data && filtroCategoria == categoriaId && error == None
      ensures response.Fail? ==> cursos == old(cursos) && filtroCategoria == old(filtroCategoria)
      ensures response.Fail? ==> error == Some(FILTER_ERROR) && View() == ErrorBanner(FILTER_ERROR)
      ensures categorias == old(categorias)
    {
      match response {
        case Ok(data) =>
          cursos := data;
          filtroCategoria := categoriaId;
          error := None;
        case Fail =>
          error := Some(FILTER_ERROR);
      }
      loading := false;
    }
  }
}
