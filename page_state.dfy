/**
 * The page's state and the pure pieces of its logic: the `AppState`
 * record, the `prevState => ({...prevState, ...})` updaters its handlers
 * pass to `setState`, the name-to-id resolution and the lookup trigger.
 */
module PageState {
  import opened Options
  import opened Api

  const NO_MATCH := "没有找到匹配的菜谱"
  const LOOKUP_FAILED := "获取菜谱失败，请稍后再试"
  const LOAD_FAILED := "获取食材数据失败，请稍后再试"
  /** Prefix of the message shown when an ingredient request itself fails; axios's message follows. */
  const LOAD_FAILED_PREFIX := "获取食材数据失败: "

  datatype AppState = AppState(
    selectedVeg: string,
    selectedProtein: string,
    selectedFlavor: string,
    recipe: Option<RecipeJson>,
    isLoading: bool,
    error: Option<string>,
    isLikeLoading: bool,
    isDislikeLoading: bool)

  /** The state the component is created with. */
  const INITIAL := AppState("", "", "", None, true, None, false, false)

  /** The three selected names, which are also the lookup effect's dependencies. */
  datatype Selection = Selection(veg: string, protein: string, flavor: string)

  function SelectionOf(s: AppState): Selection
  {
    Selection(s.selectedVeg, s.selectedProtein, s.selectedFlavor)
  }

  /** The effect's guard: every selected name is a non-empty (truthy) string. */
  predicate AllSelected(sel: Selection)
  {
    sel.veg != "" && sel.protein != "" && sel.flavor != ""
  }

  /**
   * The lookup effect fetches a recipe when it runs, which React does when a
   * dependency differs from the last run's, and all three names are set.
   */
  predicate LookupDue(lastDeps: Selection, now: Selection)
  {
    lastDeps != now && AllSelected(now)
  }

  /** The first position of the option list holding `name`, or -1 when none does. */
  function FindIndex(options: seq<string>, name: string): (i: int)
    ensures -1 <= i < |options|
    ensures i == -1 <==> name !in options
    ensures 0 <= i ==> options[i] == name
    ensures forall j :: 0 <= j < i ==> options[j] != name
  {
    if options == [] then -1
    else if options[0] == name then 0
    else
      var i := FindIndex(options[1..], name);
      if i < 0 then -1 else i + 1
  }

  /**
   * The id the page sends for a selected name: its first position in the
   * option list plus one, and 0 when the name is not in the list, so always
   * within `[0, |options|]`.
   */
  function ResolveId(options: seq<string>, name: string): (id: nat)
    ensures id <= |options|
    ensures id == 0 <==> name !in options
    ensures id > 0 ==> options[id - 1] == name
    ensures forall j :: 0 <= j < id - 1 ==> options[j] != name
  {
    FindIndex(options, name) + 1
  }

  /** The query parameters of `/find_recipes`. */
  datatype LookupParams = LookupParams(veg_id: nat, protein_id: nat, flavor_id: nat)

  function LookupParamsFor(vegetables: seq<string>, proteins: seq<string>, flavors: seq<string>, sel: Selection): LookupParams
  {
    LookupParams(ResolveId(vegetables, sel.veg), ResolveId(proteins, sel.protein), ResolveId(flavors, sel.flavor))
  }

  /** The updater that opens an ingredient load or a lookup: loading on, no error, the rest kept. */
  function StartLoading(s: AppState): (t: AppState)
    ensures t.isLoading && t.error.None?
    ensures t.(isLoading := s.isLoading, error := s.error) == s
  {
    s.(isLoading := true, error := None)
  }

  /** The updater that closes an ingredient load, whatever its outcome: loading off. */
  function StopLoading(s: AppState): AppState
  {
    s.(isLoading := false)
  }

  /** The updater a failed ingredient load applies: the error becomes `message`. */
  function WithError(s: AppState, message: string): AppState
  {
    s.(error := Some(message))
  }

  /** What the awaited ingredient requests bring back. */
  datatype IngredientsOutcome =
      /** All three requests answered; an answer whose body has no `items` array is `None`. */
    | Fetched(vegItems: Option<seq<VegItem>>, proteinItems: Option<seq<ProteinItem>>, flavorItems: Option<seq<FlavorItem>>)
      /** One of the requests failed (an axios error), with axios's message. */
    | RequestFailed(message: string)

  /** The error the ingredient load leaves: axios's, the generic one for a malformed answer, or none. */
  function LoadError(outcome: IngredientsOutcome): Option<string>
  {
    match outcome
    case RequestFailed(message) => Some(LOAD_FAILED_PREFIX + message)
    case Fetched(v, p, f) => if v.Some? && p.Some? && f.Some? then None else Some(LOAD_FAILED)
  }

  /** The names of the listed items, in the answer's order; one function per ingredient kind. */
  function VegNames(items: seq<VegItem>): (names: seq<string>)
    ensures |names| == |items|
    ensures forall k :: 0 <= k < |items| ==> names[k] == items[k].veg_name
  {
    seq(|items|, k requires 0 <= k < |items| => items[k].veg_name)
  }

  function ProteinNames(items: seq<ProteinItem>): (names: seq<string>)
    ensures |names| == |items|
    ensures forall k :: 0 <= k < |items| ==> names[k] == items[k].protein_name
  {
    seq(|items|, k requires 0 <= k < |items| => items[k].protein_name)
  }

  function FlavorNames(items: seq<FlavorItem>): (names: seq<string>)
    ensures |names| == |items|
    ensures forall k :: 0 <= k < |items| ==> names[k] == items[k].flavor_type
  {
    seq(|items|, k requires 0 <= k < |items| => items[k].flavor_type)
  }

  /** What the awaited `/find_recipes` request brings back. */
  datatype LookupOutcome =
      /** A 2xx answer; `None` when its body has no `recipes` field. */
    | LookupOk(recipes: Option<seq<RecipeJson>>)
      /** The request threw: a network error or a non-2xx status. */
    | LookupFailed

  /** The recipe a successful lookup shows: the first one listed, or none for a missing or empty list. */
  function FirstRecipe(recipes: Option<seq<RecipeJson>>): Option<RecipeJson>
  {
    if recipes.Some? && |recipes.value| > 0 then Some(recipes.value[0]) else None
  }

  /**
   * The updater that ends a lookup. Whatever the state before, loading is
   * over and the recipe and error are decided by the outcome alone: the
   * first listed recipe with no error, or no recipe and the "no match"
   * message, or no recipe and the failure message.
   */
  function AfterLookup(s: AppState, outcome: LookupOutcome): (t: AppState)
    ensures !t.isLoading
    ensures t.error.None? <==> t.recipe.Some?
    ensures outcome.LookupOk? ==> t.recipe == FirstRecipe(outcome.recipes) && (t.recipe.None? ==> t.error == Some(NO_MATCH))
    ensures outcome.LookupFailed? ==> t.recipe.None? && t.error == Some(LOOKUP_FAILED)
    ensures SelectionOf(t) == SelectionOf(s)
    ensures t.isLikeLoading == s.isLikeLoading && t.isDislikeLoading == s.isDislikeLoading
  {
    match outcome
    case LookupOk(recipes) =>
      var newRecipe := FirstRecipe(recipes);
      s.(isLoading := false, recipe := newRecipe, error := if newRecipe.Some? then None else Some(NO_MATCH))
    case LookupFailed =>
      s.(isLoading := false, recipe := None, error := Some(LOOKUP_FAILED))
  }

  /**
   * Of two lookups that both complete, the one that completes last decides
   * the state, whichever was issued first and whatever the first brought.
   */
  lemma LastLookupWins(s: AppState, first: LookupOutcome, last: LookupOutcome)
    ensures AfterLookup(AfterLookup(s, first), last) == AfterLookup(s, last)
  {
  }

  /**
   * The dice button's pick from one option list. Past the end of the list
   * JavaScript yields `undefined`; the model writes "", which is falsy too.
   */
  function Pick(list: seq<string>, index: nat): (name: string)
    ensures |list| > 0 && index < |list| ==> name in list
  {
    if index < |list| then list[index] else ""
  }

  /** The updater that sets all three selected names at once. */
  function SelectAll(s: AppState, sel: Selection): AppState
  {
    s.(selectedVeg := sel.veg, selectedProtein := sel.protein, selectedFlavor := sel.flavor)
  }

  /** What an awaited like or dislike request brings back. */
  datatype VoteOutcome = VoteOk(count: int) | VoteFailed
}
