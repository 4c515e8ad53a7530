/** `useProductStore`: the product list and the current selection. */
module ProductStore {
  import opened Wrappers
  import opened Catalog

  datatype ProductState = ProductState(productsList: seq<Product>, selectedDto: Option<Product>, selectedId: Option<int>)

  const Init := ProductState([], None, None)

  /** The selected record, when there is one, is the one the selected id names. */
  predicate SelectionAgrees(s: ProductState) {
    s.selectedDto.Some? ==> s.selectedId == Some(s.selectedDto.value.id)
  }

  function SetProductsList(s: ProductState, products: seq<Product>): (r: ProductState)
    ensures r.productsList == products
    ensures r.selectedDto == s.selectedDto && r.selectedId == s.selectedId
  {
    s.(productsList := products)
  }

  function SelectProduct(s: ProductState, p: Product): (r: ProductState)
    ensures r.selectedId == Some(p.id) && r.selectedDto == Some(p)
    ensures r.productsList == s.productsList
    ensures SelectionAgrees(r)
  {
    s.(selectedId := Some(p.id), selectedDto := Some(p))
  }

  function SelectProductById(s: ProductState, id: int): (r: ProductState)
    ensures r.selectedId == Some(id) && r.selectedDto.None?
    ensures r.productsList == s.productsList
  {
    s.(selectedId := Some(id), selectedDto := None)
  }

  /** The store starts agreeing, and every action keeps it so. */
  lemma ActionsKeepSelectionAgreement(s: ProductState, products: seq<Product>, p: Product, id: int)
    requires SelectionAgrees(s)
    ensures SelectionAgrees(Init)
    ensures SelectionAgrees(SetProductsList(s, products))
    ensures SelectionAgrees(SelectProduct(s, p))
    ensures SelectionAgrees(SelectProductById(s, id))
  {
  }

  /** Selecting by id after selecting a record keeps the id and drops the record. */
  lemma SelectByIdForgetsRecord(s: ProductState, p: Product)
    ensures SelectProductById(SelectProduct(s, p), p.id) == ProductState(s.productsList, None, Some(p.id))
  {
  }
}
