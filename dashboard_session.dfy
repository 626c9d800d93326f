/** The dashboard page's state and the handlers that replace it. A load or a refetch
    is one atomic replacement of the collections; the outcome of each server call is
    passed in. */
module DashboardSession {
  import opened Wrappers
  import opened Catalog
  import opened DashboardView

  /** What a load (both requests together) gives back. */
  datatype FetchOutcome = Fetched(produtos: seq<Product>, categorias: seq<Categoria>) | FetchFailed

  /** How a mutation request settled. */
  datatype Settled<T> = Resolved(value: T) | Rejected(error: RequestError)

  /** A notification shown to the user. */
  datatype Toast = SuccessToast(message: string) | ErrorToast(message: string)

  /** The notification a load adds: one error when it failed, none otherwise. */
  function LoadToasts(outcome: FetchOutcome): seq<Toast>
  {
    if outcome.FetchFailed? then [ErrorToast(LoadFailedMessage)] else []
  }

  class Session {
    var products: seq<Product>
    var categories: seq<Categoria>
    var loading: bool
    var searchTerm: string
    var selectedCategory: string
    var productDialogOpen: bool
    var categoryDialogOpen: bool
    var editingProduct: Option<Product>
    /** The notifications shown so far, oldest first. */
    var toasts: seq<Toast>

    /** Loaded products carry the status of their quantity, and a loaded category
        list starts with the all-categories option. */
    ghost predicate Valid()
      reads this
    {
      && StatusesCurrent(products)
      && (categories == [] || categories[0] == AllCategories)
    }

    /** The products the list shows. */
    function Filtered(): (r: seq<Product>)
      reads this
    {
      FilterProducts(products, searchTerm, selectedCategory)
    }

    /** The statistics cards. */
    function Stats(): (st: DashboardStats)
      reads this
    {
      ComputeStats(products)
    }

    /** The page before its first load completes. */
    constructor ()
      ensures Valid()
      ensures products == [] && categories == [] && loading
      ensures searchTerm == "" && selectedCategory == AllCategoriesName
      ensures !productDialogOpen && !categoryDialogOpen && editingProduct == None
      ensures toasts == []
      ensures Filtered() == [] && Stats() == DashboardStats(0, 0, 0, 0)
    {
      products, categories, loading := [], [], true;
      searchTerm, selectedCategory := "", AllCategoriesName;
      productDialogOpen, categoryDialogOpen, editingProduct := false, false, None;
      toasts := [];
    }

    /** `fetchData`: a successful load replaces both collections, with statuses
        derived and the sentinel in front; a failed one keeps them and reports the
        failure. Either way the loading indicator stops. */
    method FetchData(outcome: FetchOutcome)
      requires Valid()
      modifies this
      ensures Valid()
      ensures !loading
      ensures outcome.Fetched? ==>
                && products == AddStatus(outcome.produtos)
                && categories == WithSentinel(outcome.categorias)
                && toasts == old(toasts)
      ensures outcome.FetchFailed? ==>
                && products == old(products) && categories == old(categories)
                && toasts == old(toasts) + [ErrorToast(LoadFailedMessage)]
      ensures searchTerm == old(searchTerm) && selectedCategory == old(selectedCategory)
      ensures productDialogOpen == old(productDialogOpen) && categoryDialogOpen == old(categoryDialogOpen)
      ensures editingProduct == old(editingProduct)
    {
      loading := true;
      match outcome {
        case Fetched(ps, cs) =>
          AddStatusSpec(ps);
          products := AddStatus(ps);
          categories := WithSentinel(cs);
        case FetchFailed =>
          toasts := toasts + [ErrorToast(LoadFailedMessage)];
      }
      loading := false;
    }

    /** Typing in the search box changes what is listed, never the statistics. */
    method SetSearchTerm(term: string)
      requires Valid()
      modifies this`searchTerm
      ensures Valid()
      ensures searchTerm == term
      ensures Filtered() == FilterProducts(products, term, selectedCategory)
      ensures Stats() == old(Stats())
    {
      searchTerm := term;
    }

    /** Picking a category changes what is listed, never the statistics. */
    method SetSelectedCategory(name: string)
      requires Valid()
      modifies this`selectedCategory
      ensures Valid()
      ensures selectedCategory == name
      ensures Filtered() == FilterProducts(products, searchTerm, name)
      ensures Stats() == old(Stats())
    {
      selectedCategory := name;
    }

    /** `handleAddProduct`: open the product form with nothing to edit. */
    method AddProduct()
      requires Valid()
      modifies this`editingProduct, this`productDialogOpen
      ensures Valid()
      ensures editingProduct == None && productDialogOpen
    {
      editingProduct := None;
      productDialogOpen := true;
    }

    /** `handleEditProduct`: open the product form on `p`. */
    method EditProduct(p: Product)
      requires Valid()
      modifies this`editingProduct, this`productDialogOpen
      ensures Valid()
      ensures editingProduct == Some(p) && productDialogOpen
    {
      editingProduct := Some(p);
      productDialogOpen := true;
    }

    /** The product form's `onClose`. */
    method CloseProductDialog()
      requires Valid()
      modifies this`productDialogOpen
      ensures Valid() && !productDialogOpen
    {
      productDialogOpen := false;
    }

    /** The "Nova Categoria" button. */
    method OpenCategoryDialog()
      requires Valid()
      modifies this`categoryDialogOpen
      ensures Valid() && categoryDialogOpen
    {
      categoryDialogOpen := true;
    }

    /** The category form's `onClose`. */
    method CloseCategoryDialog()
      requires Valid()
      modifies this`categoryDialogOpen
      ensures Valid() && !categoryDialogOpen
    {
      categoryDialogOpen := false;
    }

    /** `handleDeleteProduct`, up to the request: asks for nothing and changes
        nothing unless the user confirmed, and then deletes exactly `productId`. */
    method DeleteProduct(productId: int, confirmed: bool) returns (request: Option<Request>)
      ensures request.Some? <==> confirmed
      ensures request.Some? ==> request.value == DeleteProduto(productId)
    {
      request := DeleteRequest(productId, confirmed);
    }

    /** `handleDeleteProduct` once the request settles: on success the collections
        are refetched; on failure nothing but the notifications changes. */
    method SettleDelete(outcome: Settled<()>, refetch: FetchOutcome)
      requires Valid()
      modifies this
      ensures Valid()
      ensures outcome.Resolved? ==>
                && !loading
                && (refetch.Fetched? ==>
                      products == AddStatus(refetch.produtos) && categories == WithSentinel(refetch.categorias))
                && (refetch.FetchFailed? ==> products == old(products) && categories == old(categories))
                && toasts == old(toasts) + [SuccessToast(DeletedMessage)] + LoadToasts(refetch)
      ensures outcome.Rejected? ==>
                && toasts == old(toasts) + [ErrorToast(DeleteFailedMessage(outcome.error))]
                && products == old(products) && categories == old(categories) && loading == old(loading)
      ensures searchTerm == old(searchTerm) && selectedCategory == old(selectedCategory)
      ensures productDialogOpen == old(productDialogOpen) && categoryDialogOpen == old(categoryDialogOpen)
      ensures editingProduct == old(editingProduct)
    {
      match outcome
      case Resolved(_) =>
        toasts := toasts + [SuccessToast(DeletedMessage)];
        FetchData(refetch);
      case Rejected(err) =>
        toasts := toasts + [ErrorToast(DeleteFailedMessage(err))];
    }

    /** `handleSaveProduct`, up to the request: an update of the product being
        edited, otherwise a create, carrying the form's payload. */
    method SaveProduct(payload: ProductPayload) returns (request: Request)
      ensures editingProduct.Some? ==> request == UpdateProduto(editingProduct.value.id, payload)
      ensures editingProduct.None? ==> request == CreateProduto(payload)
    {
      request := SaveProductRequest(editingProduct, payload);
    }

    /** `handleSaveProduct` once the request settles: on success the form closes
        and the collections are refetched; on failure only the error is shown,
        with the server's message when it sent one. */
    method SettleSaveProduct(outcome: Settled<Product>, refetch: FetchOutcome)
      requires Valid()
      modifies this
      ensures Valid()
      ensures outcome.Resolved? ==>
                && !productDialogOpen
                && !loading
                && (refetch.Fetched? ==>
                      products == AddStatus(refetch.produtos) && categories == WithSentinel(refetch.categorias))
                && (refetch.FetchFailed? ==> products == old(products) && categories == old(categories))
                && toasts == old(toasts) + [SuccessToast(ProductSavedMessage(outcome.value))] + LoadToasts(refetch)
      ensures outcome.Rejected? ==>
                && toasts == old(toasts) + [ErrorToast(SaveErrorMessage(outcome.error, SaveProductFallback))]
                && products == old(products) && categories == old(categories) && loading == old(loading)
                && productDialogOpen == old(productDialogOpen)
      ensures searchTerm == old(searchTerm) && selectedCategory == old(selectedCategory)
      ensures categoryDialogOpen == old(categoryDialogOpen) && editingProduct == old(editingProduct)
    {
      match outcome
      case Resolved(saved) =>
        productDialogOpen := false;
        toasts := toasts + [SuccessToast(ProductSavedMessage(saved))];
        FetchData(refetch);
      case Rejected(err) =>
        toasts := toasts + [ErrorToast(SaveErrorMessage(err, SaveProductFallback))];
    }

    /** `handleSaveCategory`, up to the request: create a category of that name. */
    method SaveCategory(name: string) returns (request: Request)
      ensures request == CreateCategoria(name)
    {
      request := CreateCategoria(name);
    }

    /** `handleSaveCategory` once the request settles: on success the category form
        closes and the collections are refetched, the sentinel staying first. */
    method SettleSaveCategory(outcome: Settled<Categoria>, refetch: FetchOutcome)
      requires Valid()
      modifies this
      ensures Valid()
      ensures outcome.Resolved? ==>
                && !categoryDialogOpen
                && !loading
                && (refetch.Fetched? ==>
                      products == AddStatus(refetch.produtos) && categories == WithSentinel(refetch.categorias))
                && (refetch.FetchFailed? ==> products == old(products) && categories == old(categories))
                && toasts == old(toasts) + [SuccessToast(CategorySavedMessage(outcome.value))] + LoadToasts(refetch)
      ensures outcome.Rejected? ==>
                && toasts == old(toasts) + [ErrorToast(SaveErrorMessage(outcome.error, SaveCategoryFallback))]
                && products == old(products) && categories == old(categories) && loading == old(loading)
                && categoryDialogOpen == old(categoryDialogOpen)
      ensures searchTerm == old(searchTerm) && selectedCategory == old(selectedCategory)
      ensures productDialogOpen == old(productDialogOpen) && editingProduct == old(editingProduct)
    {
      match outcome
      case Resolved(created) =>
        categoryDialogOpen := false;
        toasts := toasts + [SuccessToast(CategorySavedMessage(created))];
        FetchData(refetch);
      case Rejected(err) =>
        toasts := toasts + [ErrorToast(SaveErrorMessage(err, SaveCategoryFallback))];
    }
  }

  /** The statistics under a current load count the products by the status of
      their quantity, and every product falls under exactly one status. */
  lemma StatsOfLoad(s: Session)
    requires s.Valid()
    ensures s.Stats().estoqueBaixo + s.Stats().semEstoque <= s.Stats().totalProdutos
    ensures CountStatus(s.products, EmEstoque) + s.Stats().estoqueBaixo + s.Stats().semEstoque == s.Stats().totalProdutos
  {
    StatusCountsBounded(s.products);
    StatusCountsPartition(s.products);
  }
}
