/** What the dashboard derives from its state without changing it: the stock
    statuses of freshly loaded products, the category filter options, the filtered
    product list, the statistics cards, and the decisions its mutation handlers take. */
module DashboardView {
  import opened Wrappers
  import opened Strings
  import opened Catalog

  // ---------------------------------------------------------------- loading

  /** The same product with its stock status derived from its quantity. */
  function WithStatus(p: Product): (r: Product)
    ensures r.stockStatus == Some(Classify(p.quantidadeEmEstoque))
    ensures r.(stockStatus := p.stockStatus) == p
  {
    p.(stockStatus := Some(Classify(p.quantidadeEmEstoque)))
  }

  /** The products of a load, each with its stock status filled in. */
  function AddStatus(ps: seq<Product>): (r: seq<Product>)
    ensures |r| == |ps|
    ensures forall i :: 0 <= i < |ps| ==> r[i] == WithStatus(ps[i])
  {
    if ps == [] then [] else [WithStatus(ps[0])] + AddStatus(ps[1..])
  }

  /** Every product carries the status its quantity gives it. */
  ghost predicate StatusesCurrent(ps: seq<Product>)
  {
    forall i :: 0 <= i < |ps| ==> ps[i].stockStatus == Some(Classify(ps[i].quantidadeEmEstoque))
  }

  /** Adding statuses changes no other field of any product, keeps the order, and
      leaves each product with the status of its quantity. */
  lemma AddStatusSpec(ps: seq<Product>)
    ensures StatusesCurrent(AddStatus(ps))
    ensures forall i :: 0 <= i < |ps| ==> AddStatus(ps)[i].(stockStatus := ps[i].stockStatus) == ps[i]
  {
  }

  /** The category list after a load: the sentinel, then the fetched categories. */
  function WithSentinel(fetched: seq<Categoria>): (r: seq<Categoria>)
    ensures |r| == |fetched| + 1
    ensures r[0] == AllCategories
    ensures r[1..] == fetched
  {
    [AllCategories] + fetched
  }

  // ---------------------------------------------------------------- filtering

  /** The product's lower-cased name contains the lower-cased search term, and the
      selected category is the all-categories option or the product's category. */
  predicate Matches(p: Product, searchTerm: string, selectedCategory: string): (b: bool)
    ensures searchTerm == "" && selectedCategory == AllCategoriesName ==> b
    ensures selectedCategory != AllCategoriesName && p.categoria.nome != selectedCategory ==> !b
  {
    && Includes(Lower(p.nome), Lower(searchTerm))
    && (selectedCategory == AllCategoriesName || p.categoria.nome == selectedCategory)
  }

  /** `filteredProducts`: the products that match, in their original order. */
  function FilterProducts(ps: seq<Product>, searchTerm: string, selectedCategory: string): (r: seq<Product>)
    ensures |r| <= |ps|
    ensures forall i :: 0 <= i < |r| ==> Matches(r[i], searchTerm, selectedCategory)
  {
    if ps == [] then []
    else if Matches(ps[0], searchTerm, selectedCategory) then
      [ps[0]] + FilterProducts(ps[1..], searchTerm, selectedCategory)
    else FilterProducts(ps[1..], searchTerm, selectedCategory)
  }

  /** `a` is `b` with some elements left out, the others kept in order. */
  ghost predicate IsSubsequence<T>(a: seq<T>, b: seq<T>)
    decreases |b|
  {
    if a == [] then true
    else if b == [] then false
    else if a[0] == b[0] then IsSubsequence(a[1..], b[1..])
    else IsSubsequence(a, b[1..])
  }

  lemma {:induction false} FilterIsSubsequence(ps: seq<Product>, searchTerm: string, selectedCategory: string)
    ensures IsSubsequence(FilterProducts(ps, searchTerm, selectedCategory), ps)
  {
    if ps != [] {
      FilterIsSubsequence(ps[1..], searchTerm, selectedCategory);
    }
  }

  /** Each product occurs in the filtered list exactly as often as in the input
      when it matches, and not at all otherwise. */
  lemma {:induction false} FilterCounts(ps: seq<Product>, searchTerm: string, selectedCategory: string, p: Product)
    ensures multiset(FilterProducts(ps, searchTerm, selectedCategory))[p]
         == if Matches(p, searchTerm, selectedCategory) then multiset(ps)[p] else 0
  {
    if ps != [] {
      FilterCounts(ps[1..], searchTerm, selectedCategory, p);
      assert ps == [ps[0]] + ps[1..];
    }
  }

  /** A product is shown exactly when it is loaded and matches the filter. */
  lemma FilterMembership(ps: seq<Product>, searchTerm: string, selectedCategory: string, p: Product)
    ensures p in FilterProducts(ps, searchTerm, selectedCategory) <==> p in ps && Matches(p, searchTerm, selectedCategory)
  {
    FilterCounts(ps, searchTerm, selectedCategory, p);
  }

  /** With no search term and every category selected, all products are shown. */
  lemma {:induction false} FilterIdentity(ps: seq<Product>)
    ensures FilterProducts(ps, "", AllCategoriesName) == ps
  {
    if ps != [] {
      FilterIdentity(ps[1..]);
    }
  }

  /** The filter applies to each part of a list separately. */
  lemma {:induction false} FilterAppend(a: seq<Product>, b: seq<Product>, searchTerm: string, selectedCategory: string)
    ensures FilterProducts(a + b, searchTerm, selectedCategory)
         == FilterProducts(a, searchTerm, selectedCategory) + FilterProducts(b, searchTerm, selectedCategory)
  {
    if a != [] {
      assert (a + b)[1..] == a[1..] + b;
      FilterAppend(a[1..], b, searchTerm, selectedCategory);
    } else {
      assert a + b == b;
    }
  }

  /** Filtering the filtered list again changes nothing. */
  lemma {:induction false} FilterIdempotent(ps: seq<Product>, searchTerm: string, selectedCategory: string)
    ensures FilterProducts(FilterProducts(ps, searchTerm, selectedCategory), searchTerm, selectedCategory)
         == FilterProducts(ps, searchTerm, selectedCategory)
  {
    if ps != [] {
      FilterIdempotent(ps[1..], searchTerm, selectedCategory);
    }
  }

  /** The search ignores the case of ASCII letters in the search term. */
  lemma {:induction false} FilterIgnoresTermCase(ps: seq<Product>, searchTerm: string, selectedCategory: string)
    ensures FilterProducts(ps, Lower(searchTerm), selectedCategory) == FilterProducts(ps, searchTerm, selectedCategory)
  {
    LowerIdempotent(searchTerm);
    if ps != [] {
      FilterIgnoresTermCase(ps[1..], searchTerm, selectedCategory);
    }
  }

  // ---------------------------------------------------------------- statistics

  /** `DashboardStats`; `valorTotalEstoque` is in cents. */
  datatype DashboardStats = DashboardStats(totalProdutos: nat, estoqueBaixo: nat, semEstoque: nat, valorTotalEstoque: int)

  /** How many products carry status `s`. */
  function CountStatus(ps: seq<Product>, s: StockStatus): (n: nat)
    ensures n <= |ps|
  {
    if ps == [] then 0
    else (if ps[0].stockStatus == Some(s) then 1 else 0) + CountStatus(ps[1..], s)
  }

  /** The sum of price times quantity over the products. */
  function InventoryValue(ps: seq<Product>): (v: int)
    ensures (forall i :: 0 <= i < |ps| ==> ps[i].preco >= 0 && ps[i].quantidadeEmEstoque >= 0) ==> v >= 0
  {
    if ps == [] then 0 else ps[0].preco * ps[0].quantidadeEmEstoque + InventoryValue(ps[1..])
  }

  /** `stats`, computed from every loaded product, not from the filtered list. */
  function ComputeStats(ps: seq<Product>): (st: DashboardStats)
    ensures st.totalProdutos == |ps|
    ensures st.estoqueBaixo + st.semEstoque <= st.totalProdutos
  {
    StatusCountsBounded(ps);
    DashboardStats(|ps|, CountStatus(ps, EstoqueBaixo), CountStatus(ps, SemEstoque), InventoryValue(ps))
  }

  /** No product is counted both as low on stock and as out of stock. */
  lemma {:induction false} StatusCountsBounded(ps: seq<Product>)
    ensures CountStatus(ps, EstoqueBaixo) + CountStatus(ps, SemEstoque) <= |ps|
  {
    if ps != [] {
      StatusCountsBounded(ps[1..]);
    }
  }

  /** Once statuses are current, every product is counted under exactly one status. */
  lemma {:induction false} StatusCountsPartition(ps: seq<Product>)
    requires StatusesCurrent(ps)
    ensures CountStatus(ps, EmEstoque) + CountStatus(ps, EstoqueBaixo) + CountStatus(ps, SemEstoque) == |ps|
  {
    if ps != [] {
      StatusCountsPartition(ps[1..]);
    }
  }

  lemma {:induction false} CountStatusAppend(a: seq<Product>, b: seq<Product>, s: StockStatus)
    ensures CountStatus(a + b, s) == CountStatus(a, s) + CountStatus(b, s)
  {
    if a != [] {
      assert (a + b)[1..] == a[1..] + b;
      CountStatusAppend(a[1..], b, s);
    } else {
      assert a + b == b;
    }
  }

  lemma {:induction false} InventoryValueAppend(a: seq<Product>, b: seq<Product>)
    ensures InventoryValue(a + b) == InventoryValue(a) + InventoryValue(b)
  {
    if a != [] {
      assert (a + b)[1..] == a[1..] + b;
      InventoryValueAppend(a[1..], b);
    } else {
      assert a + b == b;
    }
  }

  /** Deriving statuses does not change the inventory value. */
  lemma {:induction false} InventoryValueAddStatus(ps: seq<Product>)
    ensures InventoryValue(AddStatus(ps)) == InventoryValue(ps)
  {
    if ps != [] {
      InventoryValueAddStatus(ps[1..]);
    }
  }

  /** Products with quantities 0, 5 and 20: three products, one low on stock,
      one out of stock. */
  lemma StatsExample(raw: seq<Product>)
    requires |raw| == 3
    requires raw[0].quantidadeEmEstoque == 0 && raw[1].quantidadeEmEstoque == 5 && raw[2].quantidadeEmEstoque == 20
    ensures ComputeStats(AddStatus(raw)).totalProdutos == 3
    ensures ComputeStats(AddStatus(raw)).estoqueBaixo == 1
    ensures ComputeStats(AddStatus(raw)).semEstoque == 1
  {
    var ps := AddStatus(raw);
    assert ps[1..][1..][1..] == [];
    assert ps[0].stockStatus == Some(SemEstoque);
    assert ps[1].stockStatus == Some(EstoqueBaixo);
    assert ps[2].stockStatus == Some(EmEstoque);
    assert ps[1..][0] == ps[1] && ps[1..][1..][0] == ps[2];
    assert CountStatus(ps[1..][1..], EstoqueBaixo) == 0 && CountStatus(ps[1..][1..], SemEstoque) == 0;
    assert CountStatus(ps[1..], EstoqueBaixo) == 1 && CountStatus(ps[1..], SemEstoque) == 0;
  }

  // ---------------------------------------------------------------- mutations

  /** The body of a product create or update request. */
  datatype ProductPayload = ProductPayload(
    nome: string,
    descricao: string,
    preco: Option<int>,
    quantidadeEmEstoque: Option<int>,
    dataDeValidade: string,
    categoriaId: Option<int>)

  /** The requests the handlers send to the server. */
  datatype Request =
    | DeleteProduto(id: int)
    | CreateProduto(payload: ProductPayload)
    | UpdateProduto(id: int, payload: ProductPayload)
    | CreateCategoria(nome: string)

  /** A failed request: its `toString()` text, whether it is an HTTP client error,
      and the `message` of the server's response body, if any. */
  datatype RequestError = RequestError(text: string, isHttpError: bool, serverMessage: Option<string>)

  /** `handleDeleteProduct`: a delete request goes out only when the user confirms. */
  function DeleteRequest(productId: int, confirmed: bool): (r: Option<Request>)
    ensures r.Some? <==> confirmed
    ensures r.Some? ==> r.value.DeleteProduto? && r.value.id == productId
  {
    if confirmed then Some(DeleteProduto(productId)) else None
  }

  /** `handleSaveProduct`: update the product being edited, or create a new one. */
  function SaveProductRequest(editing: Option<Product>, payload: ProductPayload): (r: Request)
    ensures r.UpdateProduto? <==> editing.Some?
    ensures r.CreateProduto? <==> editing.None?
    ensures r.UpdateProduto? ==> r.id == editing.value.id
    ensures r.payload == payload
  {
    match editing
    case Some(p) => UpdateProduto(p.id, payload)
    case None => CreateProduto(payload)
  }

  /** The server gave a non-empty `message` (a truthy `err.response.data.message`). */
  predicate HasServerMessage(err: RequestError)
  {
    err.isHttpError && err.serverMessage.Some? && err.serverMessage.value != ""
  }

  /** The error text of a failed save: the server's message when it gave one,
      otherwise the fixed fallback. */
  function SaveErrorMessage(err: RequestError, fallback: string): (m: string)
    ensures HasServerMessage(err) ==> m == err.serverMessage.value
    ensures !HasServerMessage(err) ==> m == fallback
    ensures m != "" <== fallback != ""
  {
    if HasServerMessage(err) then err.serverMessage.value else fallback
  }

  const LoadFailedMessage := "Não foi possível carregar os dados do servidor."
  const DeletedMessage := "Produto deletado com sucesso!"
  const SaveProductFallback := "Não foi possível salvar o produto."
  const SaveCategoryFallback := "Não foi possível criar a categoria."

  /** The text `prefix + middle + suffix` contains `middle`. */
  lemma MentionedBetween(prefix: string, middle: string, suffix: string)
    ensures Includes(prefix + middle + suffix, middle)
  {
    var m := prefix + middle + suffix;
    assert m[|prefix|..|prefix| + |middle|] == middle;
    assert OccursAt(m, middle, |prefix|);
    IncludesIff(m, middle);
  }

  /** A failed delete reports the error's own text. */
  function DeleteFailedMessage(err: RequestError): (m: string)
    ensures Includes(m, err.text)
  {
    MentionedBetween("Não foi possível deletar: ", err.text, "");
    "Não foi possível deletar: " + err.text + ""
  }

  /** A saved product is named in the success message. */
  function ProductSavedMessage(saved: Product): (m: string)
    ensures Includes(m, saved.nome)
  {
    MentionedBetween("Produto \"", saved.nome, "\" salvo com sucesso!");
    "Produto \"" + saved.nome + "\" salvo com sucesso!"
  }

  /** A created category is named in the success message. */
  function CategorySavedMessage(created: Categoria): (m: string)
    ensures Includes(m, created.nome)
  {
    MentionedBetween("Categoria \"", created.nome, "\" criada com sucesso!");
    "Categoria \"" + created.nome + "\" criada com sucesso!"
  }
}
