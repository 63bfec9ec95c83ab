/**
 * The Flask endpoints of the recipe service, over the in-memory `Database`.
 * Like, dislike and add-comment change the database in place; finding
 * recipes and listing comments only read it. Every endpoint answers with a
 * `Response`, its HTTP status and JSON body.
 */
module Service {
  import opened Options
  import opened Api
  import opened Models
  import Decimal

  const RECIPE_NOT_FOUND := "菜谱不存在"
  const EMPTY_COMMENT := "评论内容不能为空"
  const MISSING_VEG_ID := "缺少蔬菜ID参数"
  const MISSING_PROTEIN_ID := "缺少蛋白质ID参数"
  const MISSING_FLAVOR_ID := "缺少口味ID参数"
  const NO_MATCHING_RECIPE := "未找到匹配的菜谱"

  /** Python's `not arg` for a query argument or JSON field that is absent or a string. */
  predicate Missing(arg: Option<string>)
  {
    arg.None? || arg.value == ""
  }

  /**
   * `Recipe.query.get(recipe_id)`: the position of the row whose primary key
   * is `id` (the first one, should the table ever hold two).
   */
  function FindRecipe(recipes: seq<RecipeRow>, id: string): (k: Option<nat>)
    ensures k.None? <==> forall i :: 0 <= i < |recipes| ==> recipes[i].recipe_id != id
    ensures k.Some? ==> k.value < |recipes| && recipes[k.value].recipe_id == id
    ensures k.Some? ==> forall i :: 0 <= i < k.value ==> recipes[i].recipe_id != id
  {
    if recipes == [] then None
    else if recipes[0].recipe_id == id then Some(0)
    else match FindRecipe(recipes[1..], id)
      case None => None
      case Some(k) => Some(k + 1)
  }

  /**
   * POST /like_recipe/<recipe_id>: 404 and no change for an unknown id;
   * otherwise that row's `likes` goes up by one, nothing else changes, and the
   * new count is returned.
   */
  method LikeRecipe(db: Database, recipeId: string) returns (resp: Response)
    modifies db
    ensures FindRecipe(old(db.recipes), recipeId).None? ==>
      && resp == Response(NOT_FOUND, ErrorBody(RECIPE_NOT_FOUND))
      && db.recipes == old(db.recipes) && db.commits == old(db.commits)
    ensures FindRecipe(old(db.recipes), recipeId).Some? ==>
      var k := FindRecipe(old(db.recipes), recipeId).value;
      && db.recipes == old(db.recipes)[k := old(db.recipes)[k].(likes := old(db.recipes)[k].likes + 1)]
      && resp == Response(OK, LikesBody(old(db.recipes)[k].likes + 1))
      && db.commits == old(db.commits) + 1
    ensures db.comments == old(db.comments)
    ensures db.vegRaw == old(db.vegRaw) && db.proteinRaw == old(db.proteinRaw) && db.flavorRaw == old(db.flavorRaw)
  {
    var found := FindRecipe(db.recipes, recipeId);
    if found.None? {
      return Response(NOT_FOUND, ErrorBody(RECIPE_NOT_FOUND));
    }
    var k := found.value;
    var recipe := db.recipes[k];
    recipe := recipe.(likes := recipe.likes + 1);
    db.recipes := db.recipes[k := recipe];
    db.commits := db.commits + 1;
    resp := Response(OK, LikesBody(recipe.likes));
  }

  /** POST /dislike_recipe/<recipe_id>: the mirror image of `LikeRecipe` on `dislikes`. */
  method DislikeRecipe(db: Database, recipeId: string) returns (resp: Response)
    modifies db
    ensures FindRecipe(old(db.recipes), recipeId).None? ==>
      && resp == Response(NOT_FOUND, ErrorBody(RECIPE_NOT_FOUND))
      && db.recipes == old(db.recipes) && db.commits == old(db.commits)
    ensures FindRecipe(old(db.recipes), recipeId).Some? ==>
      var k := FindRecipe(old(db.recipes), recipeId).value;
      && db.recipes == old(db.recipes)[k := old(db.recipes)[k].(dislikes := old(db.recipes)[k].dislikes + 1)]
      && resp == Response(OK, DislikesBody(old(db.recipes)[k].dislikes + 1))
      && db.commits == old(db.commits) + 1
    ensures db.comments == old(db.comments)
    ensures db.vegRaw == old(db.vegRaw) && db.proteinRaw == old(db.proteinRaw) && db.flavorRaw == old(db.flavorRaw)
  {
    var found := FindRecipe(db.recipes, recipeId);
    if found.None? {
      return Response(NOT_FOUND, ErrorBody(RECIPE_NOT_FOUND));
    }
    var k := found.value;
    var recipe := db.recipes[k];
    recipe := recipe.(dislikes := recipe.dislikes + 1);
    db.recipes := db.recipes[k := recipe];
    db.commits := db.commits + 1;
    resp := Response(OK, DislikesBody(recipe.dislikes));
  }

  /**
   * The id SQLite gives the next comment (an INTEGER PRIMARY KEY): one more
   * than the largest id in the table, or 1 for an empty table.
   */
  function NextCommentId(comments: seq<CommentRow>): (id: int)
    ensures forall c :: c in comments ==> c.comment_id < id
    ensures comments == [] ==> id == 1
    ensures comments != [] ==> exists c :: c in comments && c.comment_id + 1 == id
  {
    if comments == [] then 1
    else
      var rest := if |comments| == 1 then comments[0].comment_id + 1 else NextCommentId(comments[1..]);
      if comments[0].comment_id + 1 < rest then rest else comments[0].comment_id + 1
  }

  /**
   * POST /add_comment/<recipe_id> with JSON field `comment_text`: 400 and no
   * change when the text is missing or empty; otherwise exactly one comment is
   * appended under the given recipe id, whether or not such a recipe exists,
   * and its new id is returned.
   */
  method AddComment(db: Database, recipeId: string, commentText: Option<string>) returns (resp: Response)
    modifies db
    ensures Missing(commentText) ==>
      && resp == Response(BAD_REQUEST, ErrorBody(EMPTY_COMMENT))
      && db.comments == old(db.comments) && db.commits == old(db.commits)
    ensures !Missing(commentText) ==>
      var id := NextCommentId(old(db.comments));
      && db.comments == old(db.comments) + [CommentRow(id, recipeId, commentText.value)]
      && resp == Response(OK, CommentIdBody(id))
      && db.commits == old(db.commits) + 1
    ensures db.recipes == old(db.recipes)
    ensures db.vegRaw == old(db.vegRaw) && db.proteinRaw == old(db.proteinRaw) && db.flavorRaw == old(db.flavorRaw)
  {
    if Missing(commentText) {
      return Response(BAD_REQUEST, ErrorBody(EMPTY_COMMENT));
    }
    var newComment := CommentRow(NextCommentId(db.comments), recipeId, commentText.value);
    db.comments := db.comments + [newComment];
    db.commits := db.commits + 1;
    resp := Response(OK, CommentIdBody(newComment.comment_id));
  }

  /**
   * SQLite's comparison of a nullable INTEGER column with a text parameter:
   * a NULL or negative number never matches, and a matching text is a digit
   * string spelling the stored number.
   */
  predicate ColumnMatches(column: Option<int>, param: string)
    ensures column.None? ==> !ColumnMatches(column, param)
    ensures ColumnMatches(column, param) ==> param != [] && Decimal.IsDigits(param)
    ensures ColumnMatches(column, param) ==> column.value >= 0
  {
    var n := Decimal.Parse(param);
    column.Some? && n.Some? && n.value == column.value
  }

  /** A stored number always matches its own decimal spelling. */
  lemma {:induction false} ColumnMatchesShow(n: nat)
    ensures ColumnMatches(Some(n), Decimal.Show(n))
  {
    Decimal.ParseShow(n);
  }

  predicate Matches(r: RecipeRow, vegId: string, proteinId: string, flavorId: string)
  {
    ColumnMatches(r.veg_id, vegId) && ColumnMatches(r.protein_id, proteinId) && ColumnMatches(r.flavor_id, flavorId)
  }

  /** The conjunctive filter of `find_recipes`, in table order. */
  function Matching(recipes: seq<RecipeRow>, vegId: string, proteinId: string, flavorId: string): (m: seq<RecipeRow>)
    ensures |m| <= |recipes|
    ensures forall r :: r in m <==> r in recipes && Matches(r, vegId, proteinId, flavorId)
  {
    if recipes == [] then []
    else
      var rest := Matching(recipes[1..], vegId, proteinId, flavorId);
      if Matches(recipes[0], vegId, proteinId, flavorId) then [recipes[0]] + rest else rest
  }

  /** The filter keeps table order: filtering two runs of rows is filtering each. */
  lemma {:induction false} MatchingAppend(a: seq<RecipeRow>, b: seq<RecipeRow>, vegId: string, proteinId: string, flavorId: string)
    ensures Matching(a + b, vegId, proteinId, flavorId)
         == Matching(a, vegId, proteinId, flavorId) + Matching(b, vegId, proteinId, flavorId)
  {
    if a == [] {
      assert a + b == b;
    } else {
      assert (a + b)[1..] == a[1..] + b;
      MatchingAppend(a[1..], b, vegId, proteinId, flavorId);
    }
  }

  /** The first recipe the filter returns is the first matching row of the table. */
  lemma {:induction false} MatchingFirst(recipes: seq<RecipeRow>, vegId: string, proteinId: string, flavorId: string, i: nat)
    requires i < |recipes| && Matches(recipes[i], vegId, proteinId, flavorId)
    requires forall j :: 0 <= j < i ==> !Matches(recipes[j], vegId, proteinId, flavorId)
    ensures Matching(recipes, vegId, proteinId, flavorId) != []
    ensures Matching(recipes, vegId, proteinId, flavorId)[0] == recipes[i]
  {
    if i > 0 {
      MatchingFirst(recipes[1..], vegId, proteinId, flavorId, i - 1);
    }
  }

  /** The five fields of a recipe that `/find_recipes` puts in its answer. */
  function RecipeJsonOf(r: RecipeRow): RecipeJson
  {
    RecipeJson(r.recipe_id, r.recipe_name, r.recipe_context, r.likes, r.dislikes)
  }

  function RecipeJsonsOf(rows: seq<RecipeRow>): (js: seq<RecipeJson>)
    ensures |js| == |rows|
    ensures forall k :: 0 <= k < |rows| ==> js[k] == RecipeJsonOf(rows[k])
  {
    seq(|rows|, k requires 0 <= k < |rows| => RecipeJsonOf(rows[k]))
  }

  /**
   * GET /find_recipes?veg_id&protein_id&flavor_id: the arguments are checked
   * in that order and only the first missing or empty one is reported as
   * 400; "0" counts as given. Then every recipe whose three ids all match is
   * returned, projected to five fields; when none matches the answer is 404,
   * so a 200 answer never carries an empty list.
   */
  function FindRecipes(recipes: seq<RecipeRow>, vegId: Option<string>, proteinId: Option<string>, flavorId: Option<string>): (resp: Response)
    ensures Missing(vegId) ==> resp == Response(BAD_REQUEST, ErrorBody(MISSING_VEG_ID))
    ensures !Missing(vegId) && Missing(proteinId) ==> resp == Response(BAD_REQUEST, ErrorBody(MISSING_PROTEIN_ID))
    ensures !Missing(vegId) && !Missing(proteinId) && Missing(flavorId) ==>
      resp == Response(BAD_REQUEST, ErrorBody(MISSING_FLAVOR_ID))
    ensures !Missing(vegId) && !Missing(proteinId) && !Missing(flavorId) ==>
      var m := Matching(recipes, vegId.value, proteinId.value, flavorId.value);
      && (resp.status == NOT_FOUND <==> forall r :: r in recipes ==> !Matches(r, vegId.value, proteinId.value, flavorId.value))
      && (resp.status == NOT_FOUND ==> resp.body == MessageBody(NO_MATCHING_RECIPE))
      && (resp.status != NOT_FOUND ==> resp == Response(OK, RecipesBody(RecipeJsonsOf(m))))
    ensures resp.status == OK ==> resp.body.RecipesBody? && |resp.body.recipes| > 0
  {
    if Missing(vegId) then Response(BAD_REQUEST, ErrorBody(MISSING_VEG_ID))
    else if Missing(proteinId) then Response(BAD_REQUEST, ErrorBody(MISSING_PROTEIN_ID))
    else if Missing(flavorId) then Response(BAD_REQUEST, ErrorBody(MISSING_FLAVOR_ID))
    else
      var m := Matching(recipes, vegId.value, proteinId.value, flavorId.value);
      if m == [] then Response(NOT_FOUND, MessageBody(NO_MATCHING_RECIPE))
      else assert m[0] in m; Response(OK, RecipesBody(RecipeJsonsOf(m)))
  }

  /** The comments stored under one recipe id, in table order. */
  function CommentsOf(comments: seq<CommentRow>, recipeId: string): (m: seq<CommentRow>)
    ensures |m| <= |comments|
    ensures forall c :: c in m <==> c in comments && c.recipe_id == recipeId
  {
    if comments == [] then []
    else
      var rest := CommentsOf(comments[1..], recipeId);
      if comments[0].recipe_id == recipeId then [comments[0]] + rest else rest
  }

  /** The comment filter keeps table order: filtering two runs of rows is filtering each. */
  lemma {:induction false} CommentsOfAppend(a: seq<CommentRow>, b: seq<CommentRow>, recipeId: string)
    ensures CommentsOf(a + b, recipeId) == CommentsOf(a, recipeId) + CommentsOf(b, recipeId)
  {
    if a == [] {
      assert a + b == b;
    } else {
      assert (a + b)[1..] == a[1..] + b;
      CommentsOfAppend(a[1..], b, recipeId);
    }
  }

  /**
   * GET /get_comments/<recipe_id>: the id and text of each comment stored
   * under that recipe id, and of no other comment.
   */
  function GetComments(comments: seq<CommentRow>, recipeId: string): (resp: Response)
    ensures resp.status == OK && resp.body.CommentsBody?
    ensures |resp.body.comments| == |CommentsOf(comments, recipeId)|
    ensures forall k :: 0 <= k < |resp.body.comments| ==>
      CommentRow(resp.body.comments[k].comment_id, recipeId, resp.body.comments[k].comment_text) in comments
    ensures var m := CommentsOf(comments, recipeId);
      forall k :: 0 <= k < |m| ==> resp.body.comments[k] == CommentJson(m[k].comment_id, m[k].comment_text)
  {
    var m := CommentsOf(comments, recipeId);
    var js := seq(|m|, k requires 0 <= k < |m| => CommentJson(m[k].comment_id, m[k].comment_text));
    assert forall k :: 0 <= k < |m| ==> m[k] in m;
    Response(OK, CommentsBody(js))
  }
}
