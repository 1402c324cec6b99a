/**
 * The category list page (`ListaCategorias`): the loaded categories and
 * deletion.
 */
module ListaCategorias {
  import opened Wrappers
  import opened JsNumbers
  import opened Api
  import opened Entities
  import opened Listing

  const LOAD_ERROR := "Error al cargar las categorías"
  const DELETE_ERROR := "Error al eliminar la categoría"

  class Controller {
    var categorias: seq<Categoria>
    var loading: bool
    var error: Option<string>

    /** A fresh page starts loading, with an empty list. */
    constructor ()
      ensures categorias == [] && loading && error == None
      ensures View() == LoadingScreen
    {
      categorias := [];
      loading := true;
      error := None;
    }

    /** What the page shows for the current state. */
    function View(): ListView<Categoria>
      reads this
    {
      Render(loading, error, categorias)
    }

    /** The mount effect: fetch all categories, setting `loading`. */
    method Mount() returns (requests: seq<Request>)
      modifies this
      ensures requests == [GetAll(Categorias)]
      ensures loading && View() == LoadingScreen
      ensures categorias == old(categorias) && error == old(error)
    {
      loading := true;
      requests := [GetAll(Categorias)];
    }

    /** `fetchCategorias` settles: the list is replaced and the error cleared, or the load error is set.  Loading ends either way. */
    method CategoriasLoaded(response: Response<seq<Categoria>>)
      modifies this
      ensures !loading
      ensures response.Ok? ==> categorias == response.data && error == None && View() == Render(false, None, response.data)
      ensures response.Fail? ==> categorias == old(categorias) && error == Some(LOAD_ERROR) && View() == ErrorBanner(LOAD_ERROR)
    {
      match response {
        case Ok(data) =>
          categorias := data;
          error := None;
        case Fail =>
          error := Some(LOAD_ERROR);
      }
      loading := false;
    }

    /** `handleDelete`: once the user confirms, the category's resource is deleted; nothing changes yet. */
    method HandleDelete(id: nat, confirmed: bool) returns (sent: Option<Request>)
      ensures sent == if confirmed then Some(Remove(Categorias, DecimalText(id))) else None
      ensures sent.Some? ==> ParseEntityPath(sent.value.path) == Some((Categorias, DecimalText(id)))
    {
      sent := None;
      if confirmed {
        sent := Some(Remove(Categorias, DecimalText(id)));
        EntityPathRoundTrip(Categorias, DecimalText(id));
      }
    }

    /**
     * The delete settles: on success exactly the categories with the id
     * leave the list, the rest in their order; on failure the error is set
     * and the page shows it in place of the list.
     */
    method DeleteSettled(id: nat, outcome: Response<()>)
      modifies this
      ensures outcome.Ok? ==> categorias == RemoveById(old(categorias), id, CategoriaId) && error == old(error)
      ensures outcome.Ok? ==> forall c :: c in categorias <==> c in old(categorias) && c.id != id
      ensures outcome.Fail? ==> categorias == old(categorias) && error == Some(DELETE_ERROR)
      ensures outcome.Fail? && !loading ==> View() == ErrorBanner(DELETE_ERROR)
      ensures loading == old(loading)
    {
      match outcome {
        case Ok(_) =>
          RemoveByIdMembers(categorias, id, CategoriaId);
          categorias := RemoveById(categorias, id, CategoriaId);
        case Fail =>
          error := Some(DELETE_ERROR);
      }
    }
  }
}
