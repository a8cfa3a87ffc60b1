/** The ingredient-search screen's reducer: the query field, the quantity
    dialog for a clicked ingredient, and the search the debounced query
    stream triggers. */
module SearchIngredient {
  import opened Common
  import opened KotlinText
  import opened Remote

  datatype SearchIngredientUiState = SearchIngredientUiState(
    searchQuery: string,
    ingredients: seq<IngredientDetailsResponse>,
    ingredientForQuantityPrompt: Option<IngredientDetailsResponse>,
    quantityInput: string,
    isLoading: bool,
    error: Option<string>)

  const InitialUiState: SearchIngredientUiState := SearchIngredientUiState("", [], None, "", false, None)

  datatype SearchIngredientEvent =
    | QueryChanged(query: string)
    | IngredientClicked(ingredient: IngredientDetailsResponse)
    | QuantityChanged(quantity: string)
    | AddIngredientConfirmed
    | DismissDialog

  const SearchFailed := "Falha ao buscar ingredientes."

  /** The snapshots one event writes. Confirming is left to the screen, so it
      writes none. */
  function EventSteps(s: SearchIngredientUiState, e: SearchIngredientEvent): seq<SearchIngredientUiState>
  {
    match e
    case QueryChanged(q) => [s.(searchQuery := q)]
    case IngredientClicked(x) => [s.(ingredientForQuantityPrompt := Some(x))]
    case QuantityChanged(q) => [s.(quantityInput := q)]
    case DismissDialog => [s.(ingredientForQuantityPrompt := None, quantityInput := "")]
    case AddIngredientConfirmed => []
  }

  /** The state after an event. */
  function NextOnEvent(s: SearchIngredientUiState, e: SearchIngredientEvent): SearchIngredientUiState
  {
    var steps := EventSteps(s, e);
    if steps == [] then s else Last(steps)
  }

  /** The state once the repository call for a non-blank query has returned:
      a null list counts as no results; an exception keeps the old results. */
  function Searched(loading: SearchIngredientUiState, outcome: RepoResult<seq<IngredientDetailsResponse>>)
    : SearchIngredientUiState
  {
    match outcome
    case Success(list) => loading.(isLoading := false, ingredients := list)
    case Null => loading.(isLoading := false, ingredients := [])
    case Failure => loading.(isLoading := false, error := Some(SearchFailed))
  }

  /** The snapshots a search writes: a blank query clears the results without
      asking the repository; any other query shows loading, then the answer. */
  function SearchSteps(s: SearchIngredientUiState, query: string, outcome: RepoResult<seq<IngredientDetailsResponse>>)
    : seq<SearchIngredientUiState>
  {
    if IsBlank(query) then [s.(ingredients := [], isLoading := false)]
    else
      var loading := s.(isLoading := true, error := None);
      [loading, Searched(loading, outcome)]
  }

  /** What a search does, by case. */
  lemma SearchOutcomes(s: SearchIngredientUiState, query: string,
                       outcome: RepoResult<seq<IngredientDetailsResponse>>)
    ensures var steps := SearchSteps(s, query, outcome);
      var t := Last(steps);
      !t.isLoading
      && t.searchQuery == s.searchQuery && t.ingredientForQuantityPrompt == s.ingredientForQuantityPrompt
      && t.quantityInput == s.quantityInput
      && (IsBlank(query) ==> |steps| == 1 && t.ingredients == [] && t.error == s.error)
      && (!IsBlank(query) ==>
            |steps| == 2 && steps[0].isLoading && steps[0].error.None?
            && (outcome.Success? ==> t.ingredients == outcome.value && t.error.None?)
            && (outcome.Null? ==> t.ingredients == [] && t.error.None?)
            && (outcome.Failure? ==> t.ingredients == s.ingredients && t.error.Some?))
  {
  }

  /** Closing the dialog is idempotent and touches only the dialog fields. */
  lemma DismissDialogIsIdempotent(s: SearchIngredientUiState)
    ensures var t := NextOnEvent(s, DismissDialog);
      t.ingredientForQuantityPrompt.None? && t.quantityInput == ""
      && t == s.(ingredientForQuantityPrompt := None, quantityInput := "")
      && NextOnEvent(t, DismissDialog) == t
  {
  }

  class SearchIngredientViewModel {
    var uiState: SearchIngredientUiState
    /** The query cell the debounced collector reads. */
    var searchQuery: string
    /** The last query the collector let through (`distinctUntilChanged`);
        `None` before the first one. */
    var lastSearched: Option<string>
    /** Every value the state cell has held, oldest first. */
    ghost var updates: seq<SearchIngredientUiState>
    /** Every query handed to the ingredient repository, oldest first. */
    ghost var requests: seq<string>

    ghost predicate Valid()
      reads this
    {
      |updates| > 0 && Last(updates) == uiState && !uiState.isLoading
    }

    constructor ()
      ensures Valid() && uiState == InitialUiState && updates == [InitialUiState]
      ensures searchQuery == "" && lastSearched.None? && requests == []
    {
      uiState := InitialUiState;
      searchQuery := "";
      lastSearched := None;
      updates := [InitialUiState];
      requests := [];
    }

    /** `_uiState.update { ... }`: replace the snapshot and publish it. */
    method Update(next: SearchIngredientUiState)
      modifies this
      ensures uiState == next && updates == old(updates) + [next]
      ensures searchQuery == old(searchQuery) && lastSearched == old(lastSearched) && requests == old(requests)
    {
      uiState := next;
      updates := updates + [next];
    }

    method OnEvent(event: SearchIngredientEvent)
      requires Valid()
      modifies this
      ensures Valid()
      ensures updates == old(updates) + EventSteps(old(uiState), event)
      ensures uiState == NextOnEvent(old(uiState), event)
      ensures searchQuery == (if event.QueryChanged? then event.query else old(searchQuery))
      ensures lastSearched == old(lastSearched) && requests == old(requests)
    {
      match event
      case QueryChanged(q) => OnSearchQueryChanged(q);
      case IngredientClicked(x) => Update(uiState.(ingredientForQuantityPrompt := Some(x)));
      case QuantityChanged(q) => Update(uiState.(quantityInput := q));
      case DismissDialog => Update(uiState.(ingredientForQuantityPrompt := None, quantityInput := ""));
      case AddIngredientConfirmed =>
    }

    /** Set the query cell and the query shown; nothing is searched yet. */
    method OnSearchQueryChanged(query: string)
      requires Valid()
      modifies this
      ensures Valid()
      ensures searchQuery == query && uiState == old(uiState).(searchQuery := query)
      ensures updates == old(updates) + [uiState]
      ensures lastSearched == old(lastSearched) && requests == old(requests)
    {
      searchQuery := query;
      Update(uiState.(searchQuery := query));
    }

    /** `searchIngredients`, run to completion; `outcome` is what the
        repository answers if it is asked. */
    method SearchIngredients(query: string, outcome: RepoResult<seq<IngredientDetailsResponse>>)
      requires Valid()
      modifies this
      ensures Valid()
      ensures updates == old(updates) + SearchSteps(old(uiState), query, outcome)
      ensures uiState == Last(SearchSteps(old(uiState), query, outcome))
      ensures requests == old(requests) + (if IsBlank(query) then [] else [query])
      ensures searchQuery == old(searchQuery) && lastSearched == old(lastSearched)
    {
      if IsBlank(query) {
        Update(uiState.(ingredients := [], isLoading := false));
        return;
      }
      Update(uiState.(isLoading := true, error := None));
      requests := requests + [query];
      match outcome
      case Success(result) => Update(uiState.(isLoading := false, ingredients := result));
      case Null => Update(uiState.(isLoading := false, ingredients := []));
      case Failure => Update(uiState.(isLoading := false, error := Some(SearchFailed)));
    }

    /** The query cell has been quiet for the debounce period: its value goes
        through `distinctUntilChanged` and, when it differs from the last
        query let through, is searched. */
    method DebounceElapsed(outcome: RepoResult<seq<IngredientDetailsResponse>>) returns (collected: Option<string>)
      requires Valid()
      modifies this
      ensures Valid()
      ensures collected == (if old(lastSearched) == Some(old(searchQuery)) then None else Some(old(searchQuery)))
      ensures lastSearched == Some(searchQuery) && searchQuery == old(searchQuery)
      ensures old(lastSearched) == Some(old(searchQuery)) ==>
        uiState == old(uiState) && updates == old(updates) && requests == old(requests)
      ensures old(lastSearched) != Some(old(searchQuery)) ==>
        && updates == old(updates) + SearchSteps(old(uiState), old(searchQuery), outcome)
        && uiState == Last(SearchSteps(old(uiState), old(searchQuery), outcome))
        && requests == old(requests) + (if IsBlank(old(searchQuery)) then [] else [old(searchQuery)])
    {
      var query := searchQuery;
      if lastSearched == Some(query) {
        return None;
      }
      collected := Some(query);
      lastSearched := Some(query);
      SearchIngredients(query, outcome);
    }
  }

  /** Typing "a", "ap", "app" within one debounce period lets only "app"
      through to a search, which asks the repository once; a second quiet
      period with no typing lets nothing through. */
  method TypingBurstSearchesOnce(outcome: RepoResult<seq<IngredientDetailsResponse>>)
    returns (first: Option<string>, second: Option<string>, ghost sent: seq<string>)
    ensures first == Some("app") && second == None
    ensures sent == ["app"]
  {
    var vm := new SearchIngredientViewModel();
    vm.OnEvent(QueryChanged("a"));
    vm.OnEvent(QueryChanged("ap"));
    vm.OnEvent(QueryChanged("app"));
    assert !IsBlank("app") by { assert !IsWhitespace("app"[0]); }
    first := vm.DebounceElapsed(outcome);
    second := vm.DebounceElapsed(outcome);
    sent := vm.requests;
  }
}
