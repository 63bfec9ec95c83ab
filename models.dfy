/**
 * The SQLite tables the service reads and `init_db` fills: one datatype per
 * row, and the database as an object whose tables the endpoints and the
 * seeding routine change in place. A nullable INTEGER column is an
 * `Option<int>`.
 */
module Models {
  import opened Options

  datatype RecipeRow = RecipeRow(
    recipe_id: string,
    recipe_name: string,
    recipe_context: string,
    likes: int,
    dislikes: int,
    social_media_links: string,
    veg_id: Option<int>,
    protein_id: Option<int>,
    flavor_id: Option<int>)

  datatype VegRaw = VegRaw(veg_id: int, veg_name: string, veg_type_id: int, veg_type_name: string)

  datatype ProteinRaw = ProteinRaw(protein_id: int, protein_name: string, protein_type_id: int, protein_type_name: string)

  datatype FlavorRaw = FlavorRaw(flavor_id: int, flavor_type: string)

  datatype CommentRow = CommentRow(comment_id: int, recipe_id: string, comment_text: string)

  /**
   * The database: each table is the sequence of its committed rows in
   * insertion order, and `commits` counts the session commits so far.
   */
  class Database {
    var vegRaw: seq<VegRaw>
    var proteinRaw: seq<ProteinRaw>
    var flavorRaw: seq<FlavorRaw>
    var recipes: seq<RecipeRow>
    var comments: seq<CommentRow>
    var commits: nat

    /** `db.create_all()` on a fresh file: every table exists and is empty. */
    constructor ()
      ensures vegRaw == [] && proteinRaw == [] && flavorRaw == []
      ensures recipes == [] && comments == [] && commits == 0
    {
      vegRaw, proteinRaw, flavorRaw := [], [], [];
      recipes, comments := [], [];
      commits := 0;
    }
  }
}
