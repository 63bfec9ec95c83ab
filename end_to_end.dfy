/**
 * What happens when the page's lookup meets the service's `find_recipes`:
 * the ids the page sends, the answers the service can give them, and the
 * state the page ends up in.
 */
module EndToEnd {
  import opened Options
  import opened Api
  import opened Models
  import opened PageState
  import Decimal
  import Service

  /** The query string of a lookup: axios writes each numeric id in decimal. */
  function QueryArg(id: nat): (arg: Option<string>)
    ensures !Service.Missing(arg)
  {
    Some(Decimal.Show(id))
  }

  /**
   * `find_recipes` answering the page's request. Every id the page sends,
   * 0 included, passes the presence checks, so the answer is a match or a 404.
   */
  function ServeLookup(recipes: seq<RecipeRow>, p: LookupParams): (resp: Response)
    ensures resp.status == OK || resp.status == NOT_FOUND
  {
    Service.FindRecipes(recipes, QueryArg(p.veg_id), QueryArg(p.protein_id), QueryArg(p.flavor_id))
  }

  /**
   * How the page's `await axios.get(...)` sees an answer: a status outside
   * 2xx throws, a 2xx answer hands over its `recipes` field when it has one.
   */
  function ClientLookupOutcome(resp: Response): (o: LookupOutcome)
    ensures o.LookupFailed? <==> !(200 <= resp.status < 300)
    ensures o.LookupOk? ==> (o.recipes.Some? <==> resp.body.RecipesBody?)
    ensures o.LookupOk? && o.recipes.Some? ==> o.recipes.value == resp.body.recipes
  {
    if 200 <= resp.status < 300 then
      if resp.body.RecipesBody? then LookupOk(Some(resp.body.recipes)) else LookupOk(None)
    else LookupFailed
  }

  /** The row a stored recipe must match to be found by the page's ids. */
  predicate FoundBy(r: RecipeRow, p: LookupParams)
  {
    Service.Matches(r, Decimal.Show(p.veg_id), Decimal.Show(p.protein_id), Decimal.Show(p.flavor_id))
  }

  /** A row is found by the page's ids exactly when its three stored ids are those numbers. */
  lemma FoundByIds(r: RecipeRow, p: LookupParams)
    ensures FoundBy(r, p) <==> r.veg_id == Some(p.veg_id) && r.protein_id == Some(p.protein_id) && r.flavor_id == Some(p.flavor_id)
  {
    Decimal.ParseShow(p.veg_id);
    Decimal.ParseShow(p.protein_id);
    Decimal.ParseShow(p.flavor_id);
  }

  /**
   * The page never shows "no matching recipe" for a service answer: the
   * service reports an empty match as a 404, which the page takes down its
   * failure branch, and its 200 answers are never empty.
   */
  lemma NoMatchMessageNeverShown(s: AppState, recipes: seq<RecipeRow>, p: LookupParams)
    ensures AfterLookup(s, ClientLookupOutcome(ServeLookup(recipes, p))).error != Some(NO_MATCH)
  {
    var resp := ServeLookup(recipes, p);
    if resp.status == OK {
      assert |resp.body.recipes| > 0;
    }
  }

  /** When no stored recipe has the three ids, the page ends with no recipe and the failure message. */
  lemma NothingFoundEndsInFailure(s: AppState, recipes: seq<RecipeRow>, p: LookupParams)
    requires forall r :: r in recipes ==> !FoundBy(r, p)
    ensures ServeLookup(recipes, p).status == NOT_FOUND
    ensures AfterLookup(s, ClientLookupOutcome(ServeLookup(recipes, p)))
         == s.(isLoading := false, recipe := None, error := Some(LOOKUP_FAILED))
  {
  }

  /**
   * A name missing from its option list is sent as id 0, which the service
   * accepts as given; unless some recipe is stored under that id 0, the page
   * ends in the failure state, not the "no matching recipe" one.
   */
  lemma UnknownNameEndsInFailure(s: AppState, vegetables: seq<string>, proteins: seq<string>, flavors: seq<string>,
                                 sel: Selection, recipes: seq<RecipeRow>)
    requires sel.veg !in vegetables
    requires forall r :: r in recipes ==> r.veg_id != Some(0)
    ensures LookupParamsFor(vegetables, proteins, flavors, sel).veg_id == 0
    ensures QueryArg(0) == Some("0")
    ensures ServeLookup(recipes, LookupParamsFor(vegetables, proteins, flavors, sel)).status == NOT_FOUND
    ensures AfterLookup(s, ClientLookupOutcome(ServeLookup(recipes, LookupParamsFor(vegetables, proteins, flavors, sel))))
         == s.(isLoading := false, recipe := None, error := Some(LOOKUP_FAILED))
  {
    var p := LookupParamsFor(vegetables, proteins, flavors, sel);
    forall r | r in recipes
      ensures !FoundBy(r, p)
    {
      FoundByIds(r, p);
    }
    NothingFoundEndsInFailure(s, recipes, p);
  }

  /** When some stored recipe has the three ids, the page shows the first such row, with no error. */
  lemma FirstFoundIsShown(s: AppState, recipes: seq<RecipeRow>, p: LookupParams, i: nat)
    requires i < |recipes| && FoundBy(recipes[i], p)
    requires forall j :: 0 <= j < i ==> !FoundBy(recipes[j], p)
    ensures AfterLookup(s, ClientLookupOutcome(ServeLookup(recipes, p)))
         == s.(isLoading := false, recipe := Some(Service.RecipeJsonOf(recipes[i])), error := None)
  {
    Service.MatchingFirst(recipes, Decimal.Show(p.veg_id), Decimal.Show(p.protein_id), Decimal.Show(p.flavor_id), i);
  }

  /**
   * The page's id-by-position is right exactly under the condition the
   * service's listing must meet: when the k-th item has id k + 1 and the names
   * are distinct, resolving an item's name gives back its id.
   */
  lemma PositionalIdsResolve(items: seq<VegItem>, k: nat)
    requires k < |items|
    requires forall j :: 0 <= j < |items| ==> items[j].veg_id == j + 1
    requires forall i, j :: 0 <= i < j < |items| ==> items[i].veg_name != items[j].veg_name
    ensures ResolveId(VegNames(items), items[k].veg_name) == items[k].veg_id
  {
    var names := VegNames(items);
    var id := ResolveId(names, items[k].veg_name);
    assert names[k] == items[k].veg_name;
  }
}
