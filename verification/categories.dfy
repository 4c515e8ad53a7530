/** `useCategories`: the fetched categories and the main-category whitelist. */
module Categories {
  import opened Wrappers
  import opened JsText
  import opened Catalog
  import opened SeqFilter
  import opened ErrorHandler

  const MainCategorySlugs := ["clothes", "electronics", "furniture", "shoes", "miscellaneous"]
  const FetchFallbackMessage := "Error al cargar categorías"

  datatype CategoriesState = CategoriesState(categories: seq<Category>, loading: bool, error: Option<string>)

  const Init := CategoriesState([], false, None)

  predicate IsMain(c: Category) {
    Lower(c.name) in MainCategorySlugs
  }

  /** `filteredCategories`: exactly the categories whose lowercased name is a main slug. */
  function FilteredCategories(categories: seq<Category>): (r: seq<Category>)
    ensures forall i :: 0 <= i < |r| ==> r[i] in categories && IsMain(r[i])
    ensures forall i :: 0 <= i < |categories| && IsMain(categories[i]) ==> categories[i] in r
    ensures forall c :: multiset(r)[c] == if IsMain(c) then multiset(categories)[c] else 0
  {
    var r := Filter(categories, IsMain);
    assert forall c :: multiset(r)[c] == if IsMain(c) then multiset(categories)[c] else 0 by {
      forall c ensures multiset(r)[c] == if IsMain(c) then multiset(categories)[c] else 0 {
        FilterCounts(categories, IsMain, c);
      }
    }
    r
  }

  /** The whitelist keeps the fetched order and drops everything else. */
  lemma FilteredKeepsOrder(categories: seq<Category>)
    ensures IsSubsequence(FilteredCategories(categories), categories)
    ensures forall c :: c in categories && !IsMain(c) ==> c !in FilteredCategories(categories)
  {
    FilterIsSubsequence(categories, IsMain);
  }

  /** Capitalisation of the name does not matter. */
  lemma CapitalisedNameIsMain(id: int)
    ensures IsMain(Category(id, "Shoes"))
    ensures !IsMain(Category(id, "Toys"))
  {
    assert Lower("Shoes") == "shoes";
    assert Lower("Toys") == "toys";
  }

  datatype FetchOutcome = FetchOk(data: seq<Category>) | FetchFailed(err: JsError)

  /** The state while `getAll` is pending: loading, with the previous error cleared. */
  function FetchStart(s: CategoriesState): (r: CategoriesState)
    ensures r.loading && r.error.None? && r.categories == s.categories
  {
    s.(loading := true, error := None)
  }

  /** `err.message || 'Error al cargar categorías'`. */
  function FetchErrorMessage(err: JsError): (m: string)
    ensures m != ""
    ensures Truthy(err.message) ==> m == err.message.value
  {
    if Truthy(err.message) then err.message.value else FetchFallbackMessage
  }

  /**
   * `fetchCategories`: a response replaces the list; a failure keeps the
   * list and records a non-empty message. Loading is off either way.
   */
  function FetchCategories(s: CategoriesState, outcome: FetchOutcome): (r: CategoriesState)
    ensures !r.loading
    ensures outcome.FetchOk? ==> r.categories == outcome.data && r.error.None?
    ensures outcome.FetchFailed? ==> r.categories == s.categories && r.error == Some(FetchErrorMessage(outcome.err))
  {
    var pending := FetchStart(s);
    match outcome
    case FetchOk(data) => pending.(categories := data, loading := false)
    case FetchFailed(err) => pending.(error := Some(FetchErrorMessage(err)), loading := false)
  }

  /** A successful retry after a failure clears the error. */
  lemma RetryClearsError(s: CategoriesState, err: JsError, data: seq<Category>)
    ensures var failed := FetchCategories(s, FetchFailed(err));
      && failed.error.Some? && failed.error.value != ""
      && FetchCategories(failed, FetchOk(data)) == CategoriesState(data, false, None)
  {
  }
}
