/** `useSearchStore`: the global search term. */
module SearchStore {
  datatype SearchState = SearchState(term: string)

  const Init := SearchState("")

  function SetSearchTerm(s: SearchState, t: string): (r: SearchState)
    ensures r.term == t
  {
    s.(term := t)
  }

  function ClearSearch(s: SearchState): (r: SearchState)
    ensures r.term == ""
  {
    s.(term := "")
  }

  /** The last write wins, clearing is idempotent and erases any earlier write. */
  lemma StoreLaws(s: SearchState, t: string, u: string)
    ensures SetSearchTerm(SetSearchTerm(s, t), u) == SetSearchTerm(s, u)
    ensures ClearSearch(ClearSearch(s)) == ClearSearch(s)
    ensures ClearSearch(SetSearchTerm(s, t)) == ClearSearch(s)
    ensures ClearSearch(s) == Init
  {
  }
}

/**
 * `useSearch`: the debounced copy of the store's term and the products
 * whose title contains it.
 */
module Search {
  import opened Wrappers
  import opened JsText
  import opened Catalog
  import opened SeqFilter
  import SearchStore

  /** The term the filter uses: the debounced term lowercased and then trimmed. */
  function QueryTerm(debounced: string): (t: string)
    ensures |t| <= |debounced|
  {
    Trim(Lower(debounced))
  }

  predicate TitleMatches(p: Product, term: string) {
    Contains(Lower(p.title), term)
  }

  /** Whether a search runs at all: a non-empty term of at least `minChars` characters and loaded data. */
  predicate Searching(term: string, minChars: int, data: Option<seq<Product>>) {
    term != [] && |term| >= minChars && data.Some?
  }

  /**
   * `results`: [] when the term is empty or too short or there is no data;
   * otherwise the products whose lowercased title contains the term, in
   * their original order.
   */
  function Results(debounced: string, minChars: int, data: Option<seq<Product>>): (r: seq<Product>)
    ensures !Searching(QueryTerm(debounced), minChars, data) ==> r == []
    ensures Searching(QueryTerm(debounced), minChars, data) ==>
      && (forall i :: 0 <= i < |r| ==> r[i] in data.value && TitleMatches(r[i], QueryTerm(debounced)))
      && (forall i :: 0 <= i < |data.value| && TitleMatches(data.value[i], QueryTerm(debounced)) ==> data.value[i] in r)
      && (forall p :: multiset(r)[p] == if TitleMatches(p, QueryTerm(debounced)) then multiset(data.value)[p] else 0)
  {
    var term := QueryTerm(debounced);
    if !Searching(term, minChars, data) then []
    else
      var keep := p => TitleMatches(p, term);
      var r := Filter(data.value, keep);
      assert forall p :: multiset(r)[p] == if TitleMatches(p, term) then multiset(data.value)[p] else 0 by {
        forall p ensures multiset(r)[p] == if keep(p) then multiset(data.value)[p] else 0 {
          FilterCounts(data.value, keep, p);
        }
      }
      r
  }

  /** The results keep the catalogue's order. */
  lemma ResultsKeepOrder(debounced: string, minChars: int, data: seq<Product>)
    ensures IsSubsequence(Results(debounced, minChars, Some(data)), data)
  {
    var term := QueryTerm(debounced);
    if Searching(term, minChars, Some(data)) {
      FilterIsSubsequence(data, p => TitleMatches(p, term));
    }
  }

  /** Case and surrounding blanks of the typed term do not matter. */
  lemma {:induction false} SurroundingBlanksIgnored(word: string, minChars: int, data: Option<seq<Product>>)
    requires NoSpaces(word)
    ensures Results(" " + word + " ", minChars, data) == Results(word, minChars, data)
  {
    var padded := " " + word + " ";
    var lw := Lower(word);
    assert Lower(padded) == " " + lw + " ";
    TrimOfSpaceFree(lw);
    TrimPadded(lw);
  }

  lemma {:induction false} TrimPadded(w: string)
    requires NoSpaces(w)
    ensures Trim(" " + w + " ") == Trim(w)
  {
    var p := " " + w + " ";
    var q := " " + w;
    TrimOfSpaceFree(w);
    assert p[..|p| - 1] == q;
    assert TrimEnd(p) == TrimEnd(q);
    if w == [] {
      assert q[..0] == [];
      assert TrimEnd(q) == [];
    } else {
      assert q[|q| - 1] == w[|w| - 1];
      assert TrimEnd(q) == q;
      assert q[1..] == w;
      assert TrimStart(q) == TrimStart(w);
      assert TrimStart(w) == w;
    }
  }

  /** The derived flags of the composable. */
  datatype SearchView = SearchView(results: seq<Product>, isLoading: bool, isError: bool)

  /**
   * `isLoading` holds only while the query loads and the untrimmed term is
   * longer than `minChars`; `isError` mirrors the query's error flag.
   */
  function View(debounced: string, minChars: int, data: Option<seq<Product>>, queryLoading: bool, queryError: bool): (v: SearchView)
    ensures v.results == Results(debounced, minChars, data)
    ensures v.isLoading <==> queryLoading && |debounced| > minChars
    ensures v.isError <==> queryError
  {
    SearchView(Results(debounced, minChars, data), queryLoading && |debounced| > minChars, queryError)
  }

  // ----- debounce of the store's term -----

  /**
   * `pending` is the term carried by the single timer, if one is set. The
   * watcher runs only when the store's term actually changes.
   */
  datatype Debounce = Debounce(store: SearchStore.SearchState, debounced: string, pending: Option<string>)

  datatype SearchEvent = SetTerm(t: string) | ClearTerm | TimerFires

  function InitDebounce(store: SearchStore.SearchState): (d: Debounce)
    ensures d.debounced == store.term && d.pending.None?
  {
    Debounce(store, store.term, None)
  }

  /** A change of the store's term replaces any pending timer by one carrying the new term. */
  function Watch(d: Debounce, next: SearchStore.SearchState): (r: Debounce)
    ensures r.store == next && r.debounced == d.debounced
    ensures next.term != d.store.term ==> r.pending == Some(next.term)
    ensures next.term == d.store.term ==> r.pending == d.pending
  {
    if next.term == d.store.term then d.(store := next)
    else Debounce(next, d.debounced, Some(next.term))
  }

  /**
   * One event: a store write goes through the watcher; the timer firing
   * publishes its term and leaves no timer. The sync invariant is kept.
   */
  function StepSearch(d: Debounce, e: SearchEvent): (r: Debounce)
    ensures e.SetTerm? ==> r.store.term == e.t && r.debounced == d.debounced
    ensures e.ClearTerm? ==> r.store.term == "" && r.debounced == d.debounced
    ensures e.TimerFires? ==> r.store == d.store && r.pending.None?
    ensures e.TimerFires? && d.pending.Some? ==> r.debounced == d.pending.value
    ensures InSync(d) ==> InSync(r)
  {
    match e
    case SetTerm(t) => Watch(d, SearchStore.SetSearchTerm(d.store, t))
    case ClearTerm => Watch(d, SearchStore.ClearSearch(d.store))
    case TimerFires =>
      if d.pending.Some? then Debounce(d.store, d.pending.value, None) else d
  }

  function RunSearch(d: Debounce, es: seq<SearchEvent>): Debounce
    decreases |es|
  {
    if es == [] then d else RunSearch(StepSearch(d, es[0]), es[1..])
  }

  /** With no timer the debounced term is the store's; a pending timer carries the store's term. */
  predicate InSync(d: Debounce) {
    && (d.pending.None? ==> d.debounced == d.store.term)
    && (d.pending.Some? ==> d.pending.value == d.store.term)
  }

  lemma StepKeepsSync(d: Debounce, e: SearchEvent)
    requires InSync(d)
    ensures InSync(StepSearch(d, e))
    ensures e.TimerFires? ==> StepSearch(d, e).debounced == d.store.term
  {
  }

  lemma {:induction false} RunKeepsSync(d: Debounce, es: seq<SearchEvent>)
    requires InSync(d)
    ensures InSync(RunSearch(d, es))
    ensures RunSearch(d, es).store.term == d.store.term || exists i :: 0 <= i < |es| && !es[i].TimerFires?
    decreases |es|
  {
    if es != [] {
      StepKeepsSync(d, es[0]);
      RunKeepsSync(StepSearch(d, es[0]), es[1..]);
      var rest := RunSearch(StepSearch(d, es[0]), es[1..]);
      if rest.store.term != StepSearch(d, es[0]).store.term {
        var i :| 0 <= i < |es[1..]| && !es[1..][i].TimerFires?;
        assert !es[i + 1].TimerFires?;
      }
    }
  }

  /**
   * Whatever terms were typed, once the timer fires the debounced term is
   * the store's latest term.
   */
  lemma LatestTermWins(store: SearchStore.SearchState, es: seq<SearchEvent>)
    ensures var d := RunSearch(InitDebounce(store), es + [TimerFires]);
      d.debounced == d.store.term && d.pending.None?
  {
    var d0 := InitDebounce(store);
    RunKeepsSync(d0, es);
    RunAppend(d0, es, [TimerFires]);
    StepKeepsSync(RunSearch(d0, es), TimerFires);
  }

  lemma {:induction false} RunAppend(d: Debounce, a: seq<SearchEvent>, b: seq<SearchEvent>)
    ensures RunSearch(d, a + b) == RunSearch(RunSearch(d, a), b)
    decreases |a|
  {
    if a == [] {
      assert a + b == b;
    } else {
      assert (a + b)[1..] == a[1..] + b;
      RunAppend(StepSearch(d, a[0]), a[1..], b);
    }
  }
}
