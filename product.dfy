/** The product list page of src/pages/product.tsx: the server-paginated
    grid, the search box, the delete confirmation, the creation modal's
    open state, and the page wrapper's initial load. */
module ProductPage {
  import opened Js
  import opened Http
  import opened SnackbarContext
  import opened UseAxios
  import opened ProductTypes

  /** The `model` argument of `handlePagination`; `page` is 1-based. */
  datatype PaginationModel = PaginationModel(page: int, pageSize: int, uniqueName: Option<string>)

  /** The query of a products request: the page, and the `$containsi`
      filter on `uniqueName` (`None`: the query has no filter at all). */
  datatype ProductQuery = ProductQuery(page: int, pageSize: int, uniqueName: Option<string>)

  /** A request the page sent. */
  datatype Request = GetProducts(query: ProductQuery) | DeleteProduct(id: int)

  /** The grid's `paginationModel`; `page` is 0-based. */
  datatype GridPaginationModel = GridPaginationModel(page: int, pageSize: int)

  /** The `paginationModel` the grid is given. */
  function GridModel(p: Pagination): (g: GridPaginationModel)
    ensures FromGrid(g) == ModelOf(p)
  {
    GridPaginationModel(p.page - 1, p.pageSize)
  }

  /** The model a user-initiated grid change `e` asks for. */
  function FromGrid(e: GridPaginationModel): (m: PaginationModel)
    ensures m.uniqueName.None?
    ensures QueryOf(m) == ProductQuery(e.page + 1, e.pageSize, Some(""))
  {
    PaginationModel(e.page + 1, e.pageSize, None)
  }

  /** `handlePagination(pagination)`: the current page, no search text. */
  function ModelOf(p: Pagination): (m: PaginationModel)
    ensures QueryOf(m) == ProductQuery(p.page, p.pageSize, Some(""))
  {
    PaginationModel(p.page, p.pageSize, None)
  }

  /** `{...pagination, uniqueName: search}`. */
  function SearchModel(p: Pagination, search: string): (m: PaginationModel)
    ensures QueryOf(m) == ProductQuery(p.page, p.pageSize, Some(search))
  {
    PaginationModel(p.page, p.pageSize, Some(search))
  }

  /** The query `handlePagination(model)` sends. */
  function QueryOf(model: PaginationModel): (q: ProductQuery)
    ensures q.uniqueName.Some?
  {
    ProductQuery(model.page, model.pageSize, Some(OrEmpty(model.uniqueName)))
  }

  /** API page, to grid index, back to an API page through a grid change:
      the same page and page size. */
  lemma GridRoundTrip(p: Pagination)
    ensures FromGrid(GridModel(p)) == ModelOf(p)
    ensures QueryOf(FromGrid(GridModel(p))) == ProductQuery(p.page, p.pageSize, Some(""))
  {
  }

  /** A grid change to index `e.page` that the CMS answers with the page it
      was asked for puts the grid on index `e.page`. */
  lemma GridShowsChosenPage(e: GridPaginationModel, answered: Pagination)
    requires answered.page == QueryOf(FromGrid(e)).page && answered.pageSize == e.pageSize
    ensures GridModel(answered) == e
  {
  }

  /** Grid-driven and refresh fetches filter on the empty string; only the
      search triggers carry the typed text. */
  lemma OnlySearchCarriesText(p: Pagination, e: GridPaginationModel, search: string)
    ensures QueryOf(FromGrid(e)).uniqueName == Some("")
    ensures QueryOf(ModelOf(p)).uniqueName == Some("")
    ensures QueryOf(SearchModel(p, search)) == ProductQuery(p.page, p.pageSize, Some(search))
  {
  }

  /** What the delete dialog's title shows. */
  datatype DialogMessage = NoMessage | DeletePrompt(uniqueName: string)

  /** What the dialog's confirm button does. */
  datatype ConfirmAction = Noop | ConfirmDelete(id: int)

  /** `openConfirmDelete`. */
  datatype ConfirmDialog = ConfirmDialog(show: bool, message: DialogMessage, onConfirm: ConfirmAction)

  const DefaultConfirm := ConfirmDialog(false, NoMessage, Noop)

  /** The success message after deleting `uniqueName`. */
  function DeletedMessage(uniqueName: string): (r: string)
    ensures Includes(r, uniqueName)
  {
    assert Includes(uniqueName, uniqueName);
    IncludesExtend("Barang \"", uniqueName, "\" berhasil dihapus", uniqueName);
    "Barang \"" + uniqueName + "\" berhasil dihapus"
  }

  /** All of `Product`'s own state. */
  datatype PageState = PageState(
    rows: seq<Datum>, pagination: Pagination, loadingDelete: bool, loadingPaginate: bool,
    search: string, openCreation: bool, dataCreation: Option<Datum>, confirm: ConfirmDialog,
    requests: seq<Request>)

  /** The state `Product` starts from, given the wrapper's data. */
  function Initial(data: ResponseProduct): (s: PageState)
    ensures s.rows == data.data && s.pagination == data.pagination
    ensures !s.loadingDelete && !s.loadingPaginate && !s.openCreation && s.dataCreation.None?
    ensures s.search == "" && s.confirm == DefaultConfirm && s.requests == []
  {
    PageState(data.data, data.pagination, false, false, "", false, None, DefaultConfirm, [])
  }

  /** `handlePagination` up to the request: loading, and the query sent. */
  function PaginationStarted(s: PageState, model: PaginationModel): (t: PageState)
    ensures t.loadingPaginate && t.requests == s.requests + [GetProducts(QueryOf(model))]
    ensures t.(loadingPaginate := s.loadingPaginate, requests := s.requests) == s
  {
    s.(loadingPaginate := true, requests := s.requests + [GetProducts(QueryOf(model))])
  }

  /** `handlePagination` after the request settled. */
  function PaginationFinished(s: PageState, outcome: Outcome<ResponseProduct>): (t: PageState)
    ensures !t.loadingPaginate && t.requests == s.requests
    ensures outcome.Ok? ==> t.rows == outcome.body.data && t.pagination == outcome.body.pagination
    ensures outcome.Err? ==> t.rows == s.rows && t.pagination == s.pagination
    ensures t.(rows := s.rows, pagination := s.pagination, loadingPaginate := s.loadingPaginate) == s
  {
    match outcome
    case Ok(r) => s.(rows := r.data, pagination := r.pagination, loadingPaginate := false)
    case Err(_) => s.(loadingPaginate := false)
  }

  /** The whole of `handlePagination(model)`: one request, loading off at
      the end, and the rows and pagination taken from the response, or kept
      when it failed; nothing else changes. */
  function Paginated(s: PageState, model: PaginationModel, outcome: Outcome<ResponseProduct>): (t: PageState)
    ensures t.requests == s.requests + [GetProducts(QueryOf(model))]
    ensures !t.loadingPaginate
    ensures outcome.Ok? ==> t.rows == outcome.body.data && t.pagination == outcome.body.pagination
    ensures outcome.Err? ==> t.rows == s.rows && t.pagination == s.pagination
    ensures t.(rows := s.rows, pagination := s.pagination, loadingPaginate := s.loadingPaginate,
               requests := s.requests) == s
  {
    PaginationFinished(PaginationStarted(s, model), outcome)
  }

  /** `setOpenConfirmDelete(prev => ({...prev, show: false}))`. */
  function DialogClosed(s: PageState): (t: PageState)
    ensures !t.confirm.show
    ensures t.confirm.message == s.confirm.message && t.confirm.onConfirm == s.confirm.onConfirm
    ensures t.(confirm := s.confirm) == s
  {
    s.(confirm := s.confirm.(show := false))
  }

  /** `handleDelete({id, uniqueName})`. */
  function DeleteRequested(s: PageState, id: int, uniqueName: string): (t: PageState)
    ensures t.confirm.show && t.confirm.message == DeletePrompt(uniqueName)
    ensures t.confirm.onConfirm == ConfirmDelete(id)
    ensures t.(confirm := s.confirm) == s
  {
    s.(confirm := ConfirmDialog(true, DeletePrompt(uniqueName), ConfirmDelete(id)))
  }

  /** The state after `confirmedDelete(id)`, given how the delete and (after
      a successful delete) the refetch ended. Whatever happens, it ends idle
      with the dialog hidden and its message and action kept, the delete
      request sent first, and the search box and creation modal untouched. */
  function AfterDelete(s: PageState, id: int, deleted: Outcome<Option<string>>,
                       refetched: Outcome<ResponseProduct>): (t: PageState)
    ensures !t.loadingDelete && t.confirm == s.confirm.(show := false)
    ensures |s.requests| < |t.requests| && t.requests[..|s.requests| + 1] == s.requests + [DeleteProduct(id)]
    ensures t.search == s.search && t.openCreation == s.openCreation && t.dataCreation == s.dataCreation
  {
    var started := s.(loadingDelete := true, requests := s.requests + [DeleteProduct(id)]);
    var settled := if deleted.Ok? then Paginated(started, ModelOf(s.pagination), refetched) else started;
    DialogClosed(settled).(loadingDelete := false)
  }

  /** The snackbar after `confirmedDelete`: success names the deleted row;
      a failed refetch is reported over it; a failed delete is reported. */
  function DeleteSnackbar(prev: SnackbarState, deleted: Outcome<Option<string>>,
                          refetched: Outcome<ResponseProduct>): (r: SnackbarState)
    ensures deleted.Ok? ==> r.show
    ensures deleted.Err? && deleted.error.OtherError? ==> r == prev
  {
    match deleted
    case Ok(name) =>
      var shown := Next(prev, ShowArg(Some(DeletedMessage(OrEmpty(name))), Success));
      if refetched.Err? then Reported(shown, refetched.error) else shown
    case Err(e) => Reported(prev, e)
  }

  /** How many times `getAxios()` runs, hence interceptors registered. */
  function DeleteAxiosCalls(deleted: Outcome<Option<string>>): (n: nat)
    ensures forall s, id, refetched :: |AfterDelete(s, id, deleted, refetched).requests| == |s.requests| + n
  {
    if deleted.Ok? then 2 else 1
  }

  /** A successful delete refetches exactly once, the current page with the
      empty filter, and shows the refetched rows if that succeeded. */
  lemma DeleteRefetchesOnce(s: PageState, id: int, name: Option<string>, refetched: Outcome<ResponseProduct>)
    ensures var t := AfterDelete(s, id, Ok(name), refetched);
      && t.requests == s.requests + [DeleteProduct(id), GetProducts(ProductQuery(s.pagination.page, s.pagination.pageSize, Some("")))]
      && !t.loadingPaginate
      && (refetched.Ok? ==> t.rows == refetched.body.data && t.pagination == refetched.body.pagination)
      && (refetched.Err? ==> t.rows == s.rows && t.pagination == s.pagination)
  {
  }

  /** A failed delete sends no further request and keeps the rows. */
  lemma DeleteErrorNoRefetch(s: PageState, id: int, e: HttpError, refetched: Outcome<ResponseProduct>)
    ensures var t := AfterDelete(s, id, Err(e), refetched);
      t.requests == s.requests + [DeleteProduct(id)] && t.rows == s.rows && t.pagination == s.pagination
      && t.loadingPaginate == s.loadingPaginate
  {
  }

  /** The snackbar after a delete, case by case. */
  lemma DeleteSnackbarCases(prev: SnackbarState, deleted: Outcome<Option<string>>,
                            refetched: Outcome<ResponseProduct>)
    ensures deleted.Ok? && refetched.Ok? ==>
      DeleteSnackbar(prev, deleted, refetched) == SnackbarState(true, DeletedMessage(OrEmpty(deleted.body)), Success)
    ensures deleted.Ok? && refetched.Err? && refetched.error.AxiosError? ==>
      DeleteSnackbar(prev, deleted, refetched) == SnackbarState(true, OrEmpty(refetched.error.message), Error)
    ensures deleted.Ok? && refetched.Err? && refetched.error.OtherError? ==>
      DeleteSnackbar(prev, deleted, refetched) == SnackbarState(true, DeletedMessage(OrEmpty(deleted.body)), Success)
    ensures deleted.Err? ==> DeleteSnackbar(prev, deleted, refetched) == Reported(prev, deleted.error)
  {
  }

  /** Asking to delete a row arms the dialog with that row's id, and
      confirming it deletes exactly that id. */
  lemma ConfirmDeletesThatRow(s: PageState, id: int, uniqueName: string,
                              deleted: Outcome<Option<string>>, refetched: Outcome<ResponseProduct>)
    ensures var armed := DeleteRequested(s, id, uniqueName);
      && armed.confirm == ConfirmDialog(true, DeletePrompt(uniqueName), ConfirmDelete(id))
      && AfterDelete(armed, armed.confirm.onConfirm.id, deleted, refetched).requests[|s.requests|] == DeleteProduct(id)
  {
  }

  /** `Product`, with the shared snackbar and axios instance. */
  class Product {
    const snackbar: Snackbar
    const axios: Axios
    /** The `detailUser.jwt` of the render whose handlers run. */
    const jwt: Option<string>
    var rows: seq<Datum>
    var pagination: Pagination
    var loadingDelete: bool
    var loadingPaginate: bool
    var search: string
    var openCreation: bool
    var dataCreation: Option<Datum>
    var openConfirmDelete: ConfirmDialog
    /** The requests sent so far, oldest first. */
    var requests: seq<Request>

    function State(): PageState
      reads this
    {
      PageState(rows, pagination, loadingDelete, loadingPaginate, search, openCreation, dataCreation,
                openConfirmDelete, requests)
    }

    constructor (data: ResponseProduct, snackbar: Snackbar, axios: Axios, jwt: Option<string>)
      ensures State() == Initial(data)
      ensures this.snackbar == snackbar && this.axios == axios && this.jwt == jwt
    {
      this.snackbar := snackbar;
      this.axios := axios;
      this.jwt := jwt;
      rows := data.data;
      pagination := data.pagination;
      loadingDelete := false;
      loadingPaginate := false;
      search := "";
      openCreation := false;
      dataCreation := None;
      openConfirmDelete := DefaultConfirm;
      requests := [];
    }

    /** `handlePagination` up to its request. */
    method StartPagination(model: PaginationModel)
      modifies this, axios
      ensures State() == PaginationStarted(old(State()), model)
      ensures axios.interceptors == old(axios.interceptors) + [RequestInterceptor(jwt)]
    {
      var query := QueryOf(model);
      loadingPaginate := true;
      var client := GetAxios(axios, jwt);
      requests := requests + [GetProducts(query)];
    }

    /** `handlePagination` once its request settled. */
    method FinishPagination(outcome: Outcome<ResponseProduct>)
      modifies this
      ensures State() == PaginationFinished(old(State()), outcome)
    {
      match outcome {
        case Ok(resGetProduct) =>
          rows := resGetProduct.data;
          pagination := resGetProduct.pagination;
        case Err(_) =>
      }
      loadingPaginate := false;
    }

    /** `handlePagination(model)`: has no `catch`, so a failed request
        rejects the returned promise with that error. */
    method HandlePagination(model: PaginationModel, outcome: Outcome<ResponseProduct>)
      returns (rejected: Option<HttpError>)
      modifies this, axios
      ensures State() == Paginated(old(State()), model, outcome)
      ensures axios.interceptors == old(axios.interceptors) + [RequestInterceptor(jwt)]
      ensures rejected.Some? <==> outcome.Err?
      ensures outcome.Err? ==> rejected == Some(outcome.error)
    {
      StartPagination(model);
      FinishPagination(outcome);
      rejected := if outcome.Err? then Some(outcome.error) else None;
    }

    /** `confirmedDelete(id)`, given how the delete ended (its body's
        `uniqueName`, if any) and how the refetch after it ended. */
    method ConfirmedDelete(id: int, deleted: Outcome<Option<string>>, refetched: Outcome<ResponseProduct>)
      modifies this, axios, snackbar
      ensures State() == AfterDelete(old(State()), id, deleted, refetched)
      ensures snackbar.state == DeleteSnackbar(old(snackbar.state), deleted, refetched)
      ensures |axios.interceptors| == |old(axios.interceptors)| + DeleteAxiosCalls(deleted)
      ensures axios.interceptors[..|old(axios.interceptors)|] == old(axios.interceptors)
      ensures forall k :: |old(axios.interceptors)| <= k < |axios.interceptors| ==>
        axios.interceptors[k] == RequestInterceptor(jwt)
    {
      loadingDelete := true;
      var client := GetAxios(axios, jwt);
      requests := requests + [DeleteProduct(id)];
      match deleted {
        case Ok(name) =>
          var uniqueName := OrEmpty(name);
          snackbar.SetShowSnackbar(SetShowSnackbarArg(true, Some(DeletedMessage(uniqueName)), Some(Success)));
          var rejected := HandlePagination(ModelOf(pagination), refetched);
          if rejected.Some? {
            snackbar.Report(rejected.value);
          }
        case Err(err) =>
          snackbar.Report(err);
      }
      loadingDelete := false;
      openConfirmDelete := openConfirmDelete.(show := false);
    }

    /** `handleDelete({id, uniqueName})`: opens the confirmation for it. */
    method HandleDelete(id: int, uniqueName: string)
      modifies this
      ensures State() == DeleteRequested(old(State()), id, uniqueName)
    {
      openConfirmDelete := ConfirmDialog(true, DeletePrompt(uniqueName), ConfirmDelete(id));
    }

    /** The "Ya, Hapus" button: runs `onConfirm`. */
    method PressConfirm(deleted: Outcome<Option<string>>, refetched: Outcome<ResponseProduct>)
      modifies this, axios, snackbar
      ensures old(openConfirmDelete.onConfirm).Noop? ==>
        State() == old(State()) && snackbar.state == old(snackbar.state) && axios.interceptors == old(axios.interceptors)
      ensures old(openConfirmDelete.onConfirm).ConfirmDelete? ==>
        State() == AfterDelete(old(State()), old(openConfirmDelete.onConfirm.id), deleted, refetched)
        && snackbar.state == DeleteSnackbar(old(snackbar.state), deleted, refetched)
        && |axios.interceptors| == |old(axios.interceptors)| + DeleteAxiosCalls(deleted)
        && axios.interceptors[..|old(axios.interceptors)|] == old(axios.interceptors)
        && (forall k :: |old(axios.interceptors)| <= k < |axios.interceptors| ==>
              axios.interceptors[k] == RequestInterceptor(jwt))
    {
      match openConfirmDelete.onConfirm {
        case Noop =>
        case ConfirmDelete(id) => ConfirmedDelete(id, deleted, refetched);
      }
    }

    /** The dialog's `onClose` and the "Batalkan" button. */
    method CancelDelete()
      modifies this
      ensures State() == DialogClosed(old(State()))
    {
      openConfirmDelete := openConfirmDelete.(show := false);
    }

    /** `handleEdit(row)`: the modal opens on that row. */
    method HandleEdit(row: Datum)
      modifies this
      ensures State() == old(State()).(openCreation := true, dataCreation := Some(row))
    {
      openCreation := true;
      dataCreation := Some(row);
    }

    /** The "Tambah Barang" button: the modal opens empty. */
    method OpenCreate()
      modifies this
      ensures State() == old(State()).(openCreation := true, dataCreation := None)
    {
      openCreation := true;
      dataCreation := None;
    }

    /** The modal's `setOpen(false)`. */
    method CloseCreation()
      modifies this
      ensures State() == old(State()).(openCreation := false)
    {
      openCreation := false;
    }

    /** The `onSuccess` handed to the modal: refetch the current page. */
    method OnCreationSuccess(outcome: Outcome<ResponseProduct>)
      modifies this, axios
      ensures State() == Paginated(old(State()), ModelOf(old(pagination)), outcome)
      ensures axios.interceptors == old(axios.interceptors) + [RequestInterceptor(jwt)]
    {
      var _ := HandlePagination(ModelOf(pagination), outcome);
    }

    /** `handleSearch`: stores the typed text (`undefined` or empty: ""). */
    method HandleSearch(value: Option<string>)
      modifies this
      ensures State() == old(State()).(search := OrEmpty(value))
    {
      search := OrEmpty(value);
    }

    /** The search box's `onKeyDown`: Enter searches the current page. */
    method SearchKeyDown(code: string, outcome: Outcome<ResponseProduct>)
      modifies this, axios
      ensures code == "Enter" ==> State() == Paginated(old(State()), SearchModel(old(pagination), old(search)), outcome)
      ensures code == "Enter" ==> axios.interceptors == old(axios.interceptors) + [RequestInterceptor(jwt)]
      ensures code != "Enter" ==> State() == old(State()) && axios.interceptors == old(axios.interceptors)
    {
      if code == "Enter" {
        var _ := HandlePagination(SearchModel(pagination, search), outcome);
      }
    }

    /** The search icon's `onClick`. */
    method SearchIconClick(outcome: Outcome<ResponseProduct>)
      modifies this, axios
      ensures State() == Paginated(old(State()), SearchModel(old(pagination), old(search)), outcome)
      ensures axios.interceptors == old(axios.interceptors) + [RequestInterceptor(jwt)]
    {
      var _ := HandlePagination(SearchModel(pagination, search), outcome);
    }

    /** The grid's `onPaginationModelChange(e, detail)`: fetches only when
        the change carries a `reason`. */
    method OnPaginationModelChange(e: GridPaginationModel, reason: Option<string>, outcome: Outcome<ResponseProduct>)
      modifies this, axios
      ensures Truthy(reason) ==> State() == Paginated(old(State()), FromGrid(e), outcome)
      ensures Truthy(reason) ==> axios.interceptors == old(axios.interceptors) + [RequestInterceptor(jwt)]
      ensures !Truthy(reason) ==> State() == old(State()) && axios.interceptors == old(axios.interceptors)
    {
      if Truthy(reason) {
        var _ := HandlePagination(FromGrid(e), outcome);
      }
    }

    /** The `paginationModel` the grid is rendered with. */
    function Grid(): (g: GridPaginationModel)
      reads this
      ensures FromGrid(g) == ModelOf(pagination)
    {
      GridModel(pagination)
    }
  }

  /** The query of the wrapper's first load: page 1 of 20, no filter. */
  const InitialQuery := ProductQuery(1, 20, None)

  /** The data the page falls back to when the first load fails. */
  const FallbackProducts := ResponseProduct([], Pagination(1, 20, 1, 1))

  /** The first products request: with the cookie's token as bearer. */
  datatype InitialRequest = InitialRequest(query: ProductQuery, authorization: string)

  /** The products request the wrapper sends, if the cookie request
      succeeded. */
  function InitialRequestOf(jwtFetch: Outcome<Option<string>>): (r: Option<InitialRequest>)
    ensures r.Some? <==> jwtFetch.Ok?
    ensures jwtFetch.Ok? ==> r.value == InitialRequest(InitialQuery, "Bearer " + Template(jwtFetch.body))
  {
    if jwtFetch.Ok? then Some(InitialRequest(InitialQuery, "Bearer " + Template(jwtFetch.body))) else None
  }

  /** The data the wrapper hands to `Product`. */
  function LoadedProducts(jwtFetch: Outcome<Option<string>>, productsFetch: Outcome<ResponseProduct>)
    : (r: ResponseProduct)
    ensures jwtFetch.Ok? && productsFetch.Ok? ==> r == productsFetch.body
    ensures jwtFetch.Err? || productsFetch.Err? ==> r == FallbackProducts
  {
    match (jwtFetch, productsFetch)
    case (Ok(_), Ok(body)) => body
    case _ => FallbackProducts
  }

  /** On a failed first load the page starts empty on grid page 0 of 20,
      and a refresh from there asks for page 1 again. */
  lemma FallbackStartsOnFirstPage(jwtFetch: Outcome<Option<string>>, productsFetch: Outcome<ResponseProduct>)
    requires jwtFetch.Err? || productsFetch.Err?
    ensures var s := Initial(LoadedProducts(jwtFetch, productsFetch));
      && s.rows == []
      && GridModel(s.pagination) == GridPaginationModel(0, 20)
      && QueryOf(ModelOf(s.pagination)) == ProductQuery(1, 20, Some(""))
  {
  }

  /** `WrapperProduct`: nothing is shown until the first load finished. */
  class WrapperProduct {
    var products: Option<ResponseProduct>
    var isLoading: bool

    constructor ()
      ensures products.None? && isLoading
    {
      products := None;
      isLoading := true;
    }

    /** What is rendered: `None` for `null`, else `Product` on that data. */
    function Page(): (p: Option<ResponseProduct>)
      reads this
      ensures p.Some? <==> !isLoading && products.Some?
      ensures p.Some? ==> p == products
    {
      if isLoading || products.None? then None else products
    }

    /** The mount effect (named `handleShopDetail` in the page). */
    method HandleShopDetail(jwtFetch: Outcome<Option<string>>, productsFetch: Outcome<ResponseProduct>)
      returns (request: Option<InitialRequest>)
      modifies this
      ensures request == InitialRequestOf(jwtFetch)
      ensures products == Some(LoadedProducts(jwtFetch, productsFetch)) && !isLoading
    {
      isLoading := true;
      request := InitialRequestOf(jwtFetch);
      if jwtFetch.Err? {
        products := Some(FallbackProducts);
      } else {
        match productsFetch {
          case Ok(body) => products := Some(body);
          case Err(_) => products := Some(FallbackProducts);
        }
      }
      isLoading := false;
    }
  }

  /** After mounting, the product page is always shown, on the loaded data
      or on the fallback. */
  method MountedPageShowsProducts(jwtFetch: Outcome<Option<string>>, productsFetch: Outcome<ResponseProduct>)
    returns (page: Option<ResponseProduct>)
    ensures page == Some(LoadedProducts(jwtFetch, productsFetch))
  {
    var wrapper := new WrapperProduct();
    var _ := wrapper.HandleShopDetail(jwtFetch, productsFetch);
    page := wrapper.Page();
  }
}
