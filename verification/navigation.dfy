/** `useNavStore`: the highlighted category, the current section and the category menu flag. */
module NavStore {
  datatype NavState = NavState(selectedCategory: int, currentSection: string, isNavCatOpen: bool)

  const Init := NavState(0, "", false)

  function SetCategory(s: NavState, categoryId: int): (r: NavState)
    ensures r.selectedCategory == categoryId
    ensures r.currentSection == s.currentSection && r.isNavCatOpen == s.isNavCatOpen
  {
    s.(selectedCategory := categoryId)
  }

  function SetCurrentSection(s: NavState, section: string): (r: NavState)
    ensures r.currentSection == section
    ensures r.selectedCategory == s.selectedCategory && r.isNavCatOpen == s.isNavCatOpen
  {
    s.(currentSection := section)
  }

  function ToggleNavCat(s: NavState): (r: NavState)
    ensures r.isNavCatOpen != s.isNavCatOpen
    ensures r.selectedCategory == s.selectedCategory && r.currentSection == s.currentSection
  {
    s.(isNavCatOpen := !s.isNavCatOpen)
  }

  /** Toggling twice changes nothing; the menu starts closed. */
  lemma ToggleTwice(s: NavState)
    ensures ToggleNavCat(ToggleNavCat(s)) == s
    ensures ToggleNavCat(Init).isNavCatOpen
  {
  }
}

/** `useNavigation`: category and section clicks turned into store updates and paths. */
module Navigation {
  import opened Wrappers
  import opened JsText
  import opened NavStore

  const ProductsPrefix := "/products/"

  const KnownSections := ["about", "stores", "payment", "cart", "search", "home"]

  datatype NavStep = NavStep(state: NavState, path: Option<string>)

  /** `handleCategory(id)`: the category is recorded, then `/products/<id>` is pushed. */
  function HandleCategory(s: NavState, categoryId: int): (st: NavStep)
    ensures st.state == SetCategory(s, categoryId)
    ensures st.path.Some? && |st.path.value| > |ProductsPrefix|
    ensures st.path.Some? ==> st.path.value[..|ProductsPrefix|] == ProductsPrefix
    ensures st.path.Some? ==> ToNumber(st.path.value[|ProductsPrefix|..]) == Finite(categoryId)
  {
    NumberOfIntToString(categoryId);
    var path := ProductsPrefix + IntToString(categoryId);
    assert path[|ProductsPrefix|..] == IntToString(categoryId);
    NavStep(SetCategory(s, categoryId), Some(path))
  }

  /** The path of a section, when it is one of the six the menu knows. */
  function SectionPath(section: string): (p: Option<string>)
    ensures p.Some? <==> section in KnownSections
    ensures section == "home" ==> p == Some("/")
    ensures section in KnownSections && section != "home" ==> p == Some("/" + section)
  {
    if section == "about" then assert "/about" == "/" + section; Some("/about")
    else if section == "stores" then assert "/stores" == "/" + section; Some("/stores")
    else if section == "payment" then assert "/payment" == "/" + section; Some("/payment")
    else if section == "cart" then assert "/cart" == "/" + section; Some("/cart")
    else if section == "search" then assert "/search" == "/" + section; Some("/search")
    else if section == "home" then Some("/")
    else None
  }

  /** `handleSection(section)`: the section is always recorded; only a known one navigates. */
  function HandleSection(s: NavState, section: string): (st: NavStep)
    ensures st.state == SetCurrentSection(s, section)
    ensures st.path.Some? <==> section in KnownSections
    ensures st.path.Some? ==> st.path.value != "" && st.path.value[0] == '/'
  {
    NavStep(SetCurrentSection(s, section), SectionPath(section))
  }

  /** Distinct known sections go to distinct paths. */
  lemma SectionPathsDistinct(a: string, b: string)
    requires a in KnownSections && b in KnownSections && a != b
    ensures SectionPath(a) != SectionPath(b)
  {
    if a != "home" && b != "home" {
      assert ("/" + a)[1..] == a;
      assert ("/" + b)[1..] == b;
    }
  }

  /** An unknown section is still recorded. */
  lemma UnknownSection(s: NavState)
    ensures HandleSection(s, "blog") == NavStep(s.(currentSection := "blog"), None)
  {
  }
}
