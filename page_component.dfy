/**
 * The page component as an object: its four state cells (`vegetables`,
 * `proteins`, `flavors` and the `AppState`) are fields, and each handler is
 * a method that applies its `setState` steps in order. The outcome of each
 * awaited request is an input of the handler.
 */
module PageComponent {
  import opened Options
  import opened Api
  import opened PageState

  class Component {
    var vegetables: seq<string>
    var proteins: seq<string>
    var flavors: seq<string>
    var state: AppState
    /** The selection the lookup effect last ran with (React keeps the effect's dependencies). */
    var lastDeps: Selection

    /** The component as first rendered: empty option lists, the initial state, the effect run once on mount. */
    constructor ()
      ensures vegetables == [] && proteins == [] && flavors == []
      ensures state == INITIAL && lastDeps == SelectionOf(INITIAL)
    {
      vegetables, proteins, flavors := [], [], [];
      state := INITIAL;
      lastDeps := SelectionOf(INITIAL);
    }

    /**
     * The first update of `fetchIngredients` and of `getRecipe`, made before
     * any request is awaited: the page is loading and shows no error, and
     * nothing else changes. This is the state the page renders while waiting.
     */
    method BeginLoading()
      modifies this`state
      ensures state.isLoading && state.error.None?
      ensures state == old(state).(isLoading := true, error := None)
    {
      state := StartLoading(state);
    }

    /**
     * `fetchIngredients` once its requests are settled: each option list that
     * arrives becomes the name projection of its `items`, in the answer's
     * order, until an answer lacks `items`; a failed request leaves every list
     * as it was and sets an error. Loading is over afterwards in every case.
     */
    method FinishIngredients(outcome: IngredientsOutcome)
      modifies this
      ensures !state.isLoading
      ensures state == old(state).(isLoading := false, error := if LoadError(outcome).Some? then LoadError(outcome) else old(state).error)
      ensures vegetables == (if outcome.Fetched? && outcome.vegItems.Some? then VegNames(outcome.vegItems.value) else old(vegetables))
      ensures proteins == (if outcome.Fetched? && outcome.vegItems.Some? && outcome.proteinItems.Some?
                           then ProteinNames(outcome.proteinItems.value) else old(proteins))
      ensures flavors == (if outcome.Fetched? && outcome.vegItems.Some? && outcome.proteinItems.Some? && outcome.flavorItems.Some?
                          then FlavorNames(outcome.flavorItems.value) else old(flavors))
      ensures lastDeps == old(lastDeps)
    {
      match outcome {
        case RequestFailed(message) =>
          state := WithError(state, LOAD_FAILED_PREFIX + message);
        case Fetched(vegItems, proteinItems, flavorItems) =>
          if vegItems.None? {
            state := WithError(state, LOAD_FAILED);
          } else {
            vegetables := VegNames(vegItems.value);
            if proteinItems.None? {
              state := WithError(state, LOAD_FAILED);
            } else {
              proteins := ProteinNames(proteinItems.value);
              if flavorItems.None? {
                state := WithError(state, LOAD_FAILED);
              } else {
                flavors := FlavorNames(flavorItems.value);
              }
            }
          }
      }
      state := StopLoading(state);
    }

    /**
     * `fetchIngredients` from start to end: loading starts with no error, then
     * the settled requests decide the lists and the error as
     * `FinishIngredients` says.
     */
    method FetchIngredients(outcome: IngredientsOutcome)
      modifies this
      ensures state == old(state).(isLoading := false, error := LoadError(outcome))
      ensures vegetables == (if outcome.Fetched? && outcome.vegItems.Some? then VegNames(outcome.vegItems.value) else old(vegetables))
      ensures proteins == (if outcome.Fetched? && outcome.vegItems.Some? && outcome.proteinItems.Some?
                           then ProteinNames(outcome.proteinItems.value) else old(proteins))
      ensures flavors == (if outcome.Fetched? && outcome.vegItems.Some? && outcome.proteinItems.Some? && outcome.flavorItems.Some?
                          then FlavorNames(outcome.flavorItems.value) else old(flavors))
      ensures lastDeps == old(lastDeps)
    {
      BeginLoading();
      FinishIngredients(outcome);
    }

    /**
     * The body of `getRecipe`, run with the selection its closure captured:
     * loading starts, the ids of that selection are sent, and the outcome
     * decides the recipe and the error.
     */
    method Lookup(captured: Selection, outcome: LookupOutcome) returns (params: LookupParams)
      modifies this`state
      ensures params == LookupParamsFor(vegetables, proteins, flavors, captured)
      ensures state == AfterLookup(StartLoading(old(state)), outcome)
    {
      BeginLoading();
      params := LookupParamsFor(vegetables, proteins, flavors, captured);
      FinishLookup(outcome);
    }

    /**
     * The last update of `getRecipe`, once its request is settled: loading is
     * over and the outcome alone decides the recipe and the error.
     */
    method FinishLookup(outcome: LookupOutcome)
      modifies this`state
      ensures !state.isLoading && (state.error.None? <==> state.recipe.Some?)
      ensures state == AfterLookup(old(state), outcome)
    {
      state := AfterLookup(state, outcome);
    }

    /** `getRecipe` as the lookup effect calls it, with the current selection. */
    method GetRecipe(outcome: LookupOutcome) returns (params: LookupParams)
      modifies this`state
      ensures params == LookupParamsFor(vegetables, proteins, flavors, SelectionOf(old(state)))
      ensures state == AfterLookup(StartLoading(old(state)), outcome)
    {
      params := Lookup(SelectionOf(state), outcome);
    }

    /**
     * The lookup effect, run after a render: when the selection differs from
     * the one it last ran with it records it, and it looks a recipe up exactly
     * when all three names are set.
     */
    method SelectionEffect(outcome: LookupOutcome) returns (sent: Option<LookupParams>)
      modifies this`state, this`lastDeps
      ensures lastDeps == SelectionOf(old(state))
      ensures sent.Some? <==> LookupDue(old(lastDeps), SelectionOf(old(state)))
      ensures sent.Some? ==>
        && sent.value == LookupParamsFor(vegetables, proteins, flavors, SelectionOf(old(state)))
        && state == AfterLookup(StartLoading(old(state)), outcome)
      ensures sent.None? ==> state == old(state)
    {
      sent := None;
      var now := SelectionOf(state);
      if now != lastDeps {
        lastDeps := now;
        if AllSelected(now) {
          var params := GetRecipe(outcome);
          sent := Some(params);
        }
      }
    }

    /** The vegetable buttons' handler: only `selectedVeg` changes. */
    method SelectVeg(veg: string)
      modifies this`state
      ensures state == old(state).(selectedVeg := veg)
    {
      state := state.(selectedVeg := veg);
    }

    /** The protein buttons' handler: only `selectedProtein` changes. */
    method SelectProtein(protein: string)
      modifies this`state
      ensures state == old(state).(selectedProtein := protein)
    {
      state := state.(selectedProtein := protein);
    }

    /** The flavor buttons' handler: only `selectedFlavor` changes. */
    method SelectFlavor(flavor: string)
      modifies this`state
      ensures state == old(state).(selectedFlavor := flavor)
    {
      state := state.(selectedFlavor := flavor);
    }

    /**
     * `randomSelect`, with `Math.floor(Math.random() * list.length)` given as
     * the three picks. All three names are set in one update, each drawn from
     * its list when the list is non-empty. The explicit `getRecipe()` that
     * follows runs the closure of the render before the update, so the ids it
     * sends are those of the selection as it was before the pick.
     */
    method RandomSelect(vegPick: nat, proteinPick: nat, flavorPick: nat, outcome: LookupOutcome) returns (params: LookupParams)
      requires vegPick < |vegetables| || vegPick == 0
      requires proteinPick < |proteins| || proteinPick == 0
      requires flavorPick < |flavors| || flavorPick == 0
      modifies this`state
      ensures SelectionOf(state) == Selection(Pick(vegetables, vegPick), Pick(proteins, proteinPick), Pick(flavors, flavorPick))
      ensures |vegetables| > 0 ==> state.selectedVeg in vegetables
      ensures |proteins| > 0 ==> state.selectedProtein in proteins
      ensures |flavors| > 0 ==> state.selectedFlavor in flavors
      ensures params == LookupParamsFor(vegetables, proteins, flavors, SelectionOf(old(state)))
      ensures state == AfterLookup(StartLoading(SelectAll(old(state), SelectionOf(state))), outcome)
    {
      var stale := SelectionOf(state);
      var picked := Selection(Pick(vegetables, vegPick), Pick(proteins, proteinPick), Pick(flavors, flavorPick));
      state := SelectAll(state, picked);
      params := Lookup(stale, outcome);
    }

    /**
     * `randomSelect` as its comment intends it ("fetch the new recipe at
     * once"): the explicit lookup sends the ids of the names just picked, so
     * with non-empty lists every id names a real option.
     */
    method RandomSelectIntended(vegPick: nat, proteinPick: nat, flavorPick: nat, outcome: LookupOutcome) returns (params: LookupParams)
      requires vegPick < |vegetables| || vegPick == 0
      requires proteinPick < |proteins| || proteinPick == 0
      requires flavorPick < |flavors| || flavorPick == 0
      modifies this`state
      ensures SelectionOf(state) == Selection(Pick(vegetables, vegPick), Pick(proteins, proteinPick), Pick(flavors, flavorPick))
      ensures params == LookupParamsFor(vegetables, proteins, flavors, SelectionOf(state))
      ensures |vegetables| > 0 ==> 1 <= params.veg_id <= |vegetables| && vegetables[params.veg_id - 1] == state.selectedVeg
      ensures |proteins| > 0 ==> 1 <= params.protein_id <= |proteins| && proteins[params.protein_id - 1] == state.selectedProtein
      ensures |flavors| > 0 ==> 1 <= params.flavor_id <= |flavors| && flavors[params.flavor_id - 1] == state.selectedFlavor
      ensures state == AfterLookup(StartLoading(SelectAll(old(state), SelectionOf(state))), outcome)
    {
      var picked := Selection(Pick(vegetables, vegPick), Pick(proteins, proteinPick), Pick(flavors, flavorPick));
      state := SelectAll(state, picked);
      params := Lookup(picked, outcome);
    }

    /**
     * `handleLike`: nothing happens without a recipe. Otherwise the like is
     * posted for the shown recipe; on success only its `likes` takes the
     * server's count, on failure the recipe stays, and the like button is not
     * busy afterwards either way.
     */
    method HandleLike(outcome: VoteOutcome) returns (posted: Option<string>)
      modifies this`state
      ensures old(state).recipe.None? ==> posted.None? && state == old(state)
      ensures old(state).recipe.Some? ==>
        var shown := old(state).recipe.value;
        && posted == Some(shown.recipe_id)
        && state == old(state).(recipe := Some(if outcome.VoteOk? then shown.(likes := outcome.count) else shown),
                                isLikeLoading := false)
    {
      if state.recipe.None? {
        return None;
      }
      posted := Some(state.recipe.value.recipe_id);
      BeginLike();
      FinishLike(outcome);
    }

    /**
     * The first update of `handleLike`, made before the vote is awaited: the
     * like button is busy, and nothing else changes.
     */
    method BeginLike()
      modifies this`state
      ensures state.isLikeLoading
      ensures state == old(state).(isLikeLoading := true)
    {
      state := state.(isLikeLoading := true);
    }

    /**
     * `handleLike` once the vote is settled: on success the shown recipe's
     * `likes` takes the server's count, on failure the recipe stays, and the
     * like button is no longer busy.
     */
    method FinishLike(outcome: VoteOutcome)
      requires state.recipe.Some?
      modifies this`state
      ensures !state.isLikeLoading
      ensures var shown := old(state).recipe.value;
        state == old(state).(recipe := Some(if outcome.VoteOk? then shown.(likes := outcome.count) else shown),
                             isLikeLoading := false)
    {
      if outcome.VoteOk? {
        state := state.(recipe := Some(state.recipe.value.(likes := outcome.count)));
      }
      state := state.(isLikeLoading := false);
    }

    /** `handleDislike`: the mirror image of `HandleLike` on `dislikes` and its own busy flag. */
    method HandleDislike(outcome: VoteOutcome) returns (posted: Option<string>)
      modifies this`state
      ensures old(state).recipe.None? ==> posted.None? && state == old(state)
      ensures old(state).recipe.Some? ==>
        var shown := old(state).recipe.value;
        && posted == Some(shown.recipe_id)
        && state == old(state).(recipe := Some(if outcome.VoteOk? then shown.(dislikes := outcome.count) else shown),
                                isDislikeLoading := false)
    {
      if state.recipe.None? {
        return None;
      }
      posted := Some(state.recipe.value.recipe_id);
      BeginDislike();
      FinishDislike(outcome);
    }

    /** The first update of `handleDislike`: the dislike button is busy, and nothing else changes. */
    method BeginDislike()
      modifies this`state
      ensures state.isDislikeLoading
      ensures state == old(state).(isDislikeLoading := true)
    {
      state := state.(isDislikeLoading := true);
    }

    /** `handleDislike` once the vote is settled: the mirror image of `FinishLike` on `dislikes`. */
    method FinishDislike(outcome: VoteOutcome)
      requires state.recipe.Some?
      modifies this`state
      ensures !state.isDislikeLoading
      ensures var shown := old(state).recipe.value;
        state == old(state).(recipe := Some(if outcome.VoteOk? then shown.(dislikes := outcome.count) else shown),
                             isDislikeLoading := false)
    {
      if outcome.VoteOk? {
        state := state.(recipe := Some(state.recipe.value.(dislikes := outcome.count)));
      }
      state := state.(isDislikeLoading := false);
    }
  }

  /**
   * The first dice roll on a page whose lists are ["a"], ["b"] and ["c"]:
   * the names become a, b and c, whose ids are 1, 1 and 1, yet the explicit
   * lookup sends 0, 0 and 0, the ids of the empty selection before the roll.
   */
  method RandomSelectSendsStaleIds() returns (sent: LookupParams, picked: LookupParams)
    ensures sent == LookupParams(0, 0, 0)
    ensures picked == LookupParams(1, 1, 1)
  {
    var page := new Component();
    page.FetchIngredients(Fetched(Some([VegItem(1, "a", "")]), Some([ProteinItem(1, "b", "")]), Some([FlavorItem(1, "c")])));
    assert page.vegetables == ["a"] && page.proteins == ["b"] && page.flavors == ["c"];
    sent := page.RandomSelect(0, 0, 0, LookupFailed);
    assert SelectionOf(page.state) == Selection("a", "b", "c");
    picked := LookupParamsFor(page.vegetables, page.proteins, page.flavors, SelectionOf(page.state));
  }
}
