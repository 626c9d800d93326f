/** The two resources the dashboard reads from the server, and the stock status it
    derives for each product. */
module Catalog {
  import opened Wrappers

  /** A product category (`Categoria`), identified by `id`. */
  datatype Categoria = Categoria(id: int, nome: string)

  /** The status shown on a product card; never sent to or stored by the server. */
  datatype StockStatus = EmEstoque | EstoqueBaixo | SemEstoque

  /** A product as the server returns it, plus the optional derived `stockStatus`.
      `preco` is in cents. */
  datatype Product = Product(
    id: int,
    nome: string,
    descricao: string,
    preco: int,
    quantidadeEmEstoque: int,
    dataDeValidade: string,
    categoria: Categoria,
    stockStatus: Option<StockStatus>)

  /** `LIMITE_ESTOQUE_BAIXO`: below this quantity a product in stock is low on stock. */
  const LowStockLimit := 10

  /** The name of the filter option that stands for every category. */
  const AllCategoriesName := "Todas as categorias"

  /** The filter option put in front of the fetched categories. */
  const AllCategories := Categoria(0, AllCategoriesName)

  /** The status of a product with quantity `q`: the three cases are exclusive and
      cover every quantity; a negative quantity counts as low stock. */
  function Classify(q: int): (s: StockStatus)
    ensures s == SemEstoque <==> q == 0
    ensures s == EstoqueBaixo <==> q != 0 && q < LowStockLimit
    ensures s == EmEstoque <==> q >= LowStockLimit
  {
    if q == 0 then SemEstoque
    else if q < LowStockLimit then EstoqueBaixo
    else EmEstoque
  }
}
