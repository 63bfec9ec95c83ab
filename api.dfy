/**
 * The JSON shapes exchanged between the page and the Flask service, and the
 * `(status, body)` pair every endpoint answers with.
 */
module Api {

  /** One recipe as `/find_recipes` lists it and as the page holds it. */
  datatype RecipeJson = RecipeJson(
    recipe_id: string,
    recipe_name: string,
    recipe_context: string,
    likes: int,
    dislikes: int)

  /** One entry of `items` in the `/vegetables`, `/proteins` and `/flavors` answers. */
  datatype VegItem = VegItem(veg_id: int, veg_name: string, veg_type_name: string)
  datatype ProteinItem = ProteinItem(protein_id: int, protein_name: string, protein_type_name: string)
  datatype FlavorItem = FlavorItem(flavor_id: int, flavor_type: string)

  /** One entry of `comments` in the `/get_comments` answer. */
  datatype CommentJson = CommentJson(comment_id: int, comment_text: string)

  datatype Body =
    | ErrorBody(error: string)
    | MessageBody(message: string)
    | LikesBody(likes: int)
    | DislikesBody(dislikes: int)
    | CommentIdBody(comment_id: int)
    | RecipesBody(recipes: seq<RecipeJson>)
    | CommentsBody(comments: seq<CommentJson>)

  datatype Response = Response(status: nat, body: Body)

  /** Flask's default status for a view that returns only a body. */
  const OK := 200
  const BAD_REQUEST := 400
  const NOT_FOUND := 404
}
