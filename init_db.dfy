/**
 * The seeding routine `init_db`: each of the four tables is filled from its
 * data file only when it is empty, in batches of `batch_size` rows with one
 * commit per batch. The parsed file contents are inputs, and so are the
 * random draws behind each generated recipe id.
 */
module InitDb {
  import opened Options
  import opened Models

  /** `string.ascii_uppercase + string.digits`, the characters of a recipe id. */
  const ALPHABET := "ABCDEFGHIJKLMNOPQRSTUVWXYZ0123456789"
  const RECIPE_ID_LENGTH := 7
  const DEFAULT_BATCH_SIZE := 1000
  /** `json.dumps({})`, the links every seeded recipe starts with. */
  const NO_LINKS := "{}"

  predicate IsRecipeIdChar(c: char)
  {
    'A' <= c <= 'Z' || '0' <= c <= '9'
  }

  predicate IsRecipeId(id: string)
  {
    |id| == RECIPE_ID_LENGTH && forall i :: 0 <= i < |id| ==> IsRecipeIdChar(id[i])
  }

  /** The indices `random.choices` draws for one id: seven positions in `ALPHABET`. */
  predicate IsDraw(draw: seq<nat>)
  {
    |draw| == RECIPE_ID_LENGTH && forall i :: 0 <= i < |draw| ==> draw[i] < |ALPHABET|
  }

  lemma AlphabetChars()
    ensures |ALPHABET| == 36
    ensures forall k :: 0 <= k < |ALPHABET| ==> IsRecipeIdChar(ALPHABET[k])
  {
  }

  /** `generate_recipe_id()`, given the draw it makes: seven characters from A-Z and 0-9. */
  function GenerateRecipeId(draw: seq<nat>): (id: string)
    requires IsDraw(draw)
    ensures IsRecipeId(id)
  {
    AlphabetChars();
    seq(|draw|, i requires 0 <= i < |draw| => ALPHABET[draw[i]])
  }

  /** One row of the recipe spreadsheet; a column the sheet lacks reads as `None`. */
  datatype RecipeSheetRow = RecipeSheetRow(
    recipe_name: string,
    recipe_context: Option<string>,
    veg_id: Option<int>,
    protein_id: Option<int>,
    flavor_id: Option<int>)

  /** The `Recipe(...)` built for one spreadsheet row. */
  function SeedRecipe(row: RecipeSheetRow, id: string): RecipeRow
  {
    RecipeRow(id, row.recipe_name, row.recipe_context.GetOr(""), 0, 0, NO_LINKS,
              row.veg_id, row.protein_id, row.flavor_id)
  }

  /**
   * The recipes seeded from the sheet, one per row in row order: a generated
   * id, no likes, no dislikes, empty links, and the row's name and three ids.
   */
  function SeededRecipes(rows: seq<RecipeSheetRow>, draws: seq<seq<nat>>): (r: seq<RecipeRow>)
    requires |draws| == |rows| && forall k :: 0 <= k < |draws| ==> IsDraw(draws[k])
    ensures |r| == |rows|
    ensures forall k :: 0 <= k < |r| ==>
      && IsRecipeId(r[k].recipe_id)
      && r[k].likes == 0 && r[k].dislikes == 0 && r[k].social_media_links == NO_LINKS
      && r[k].recipe_name == rows[k].recipe_name
      && r[k].recipe_context == rows[k].recipe_context.GetOr("")
      && r[k].veg_id == rows[k].veg_id && r[k].protein_id == rows[k].protein_id && r[k].flavor_id == rows[k].flavor_id
  {
    seq(|rows|, k requires 0 <= k < |rows| => SeedRecipe(rows[k], GenerateRecipeId(draws[k])))
  }

  function Min(a: int, b: int): int
  {
    if a <= b then a else b
  }

  /** The slices `data[i:i+b]` for `i` in `range(start, len(data), b)`. */
  function BatchesFrom<T>(data: seq<T>, start: nat, b: nat): seq<seq<T>>
    requires b > 0
    decreases |data| - start
  {
    if start >= |data| then [] else [data[start..Min(start + b, |data|)]] + BatchesFrom(data, start + b, b)
  }

  function Concat<T>(parts: seq<seq<T>>): seq<T>
  {
    if parts == [] then [] else parts[0] + Concat(parts[1..])
  }

  /** The batches hold every record exactly once, in input order. */
  lemma {:induction false} BatchesCover<T>(data: seq<T>, start: nat, b: nat)
    requires b > 0 && start <= |data|
    ensures Concat(BatchesFrom(data, start, b)) == data[start..]
    decreases |data| - start
  {
    var parts := BatchesFrom(data, start, b);
    if start < |data| {
      var end := Min(start + b, |data|);
      assert parts[1..] == BatchesFrom(data, start + b, b);
      if start + b <= |data| {
        BatchesCover(data, start + b, b);
      } else {
        assert BatchesFrom(data, start + b, b) == [];
      }
      assert data[start..] == data[start..end] + data[end..];
    }
  }

  /** Every batch is non-empty and holds at most `b` records. */
  lemma {:induction false} BatchesBounded<T>(data: seq<T>, start: nat, b: nat)
    requires b > 0
    ensures forall k :: 0 <= k < |BatchesFrom(data, start, b)| ==>
      0 < |BatchesFrom(data, start, b)[k]| <= b
    decreases |data| - start
  {
    if start < |data| {
      BatchesBounded(data, start + b, b);
    }
  }

  /**
   * There are ceil(n / b) batches for the n records from `start` on: the
   * least count `k` with `n <= k * b`.
   */
  lemma {:induction false} BatchesCount<T>(data: seq<T>, start: nat, b: nat)
    requires b > 0 && start <= |data|
    ensures var k, n := |BatchesFrom(data, start, b)|, |data| - start;
      k * b >= n && (k - 1) * b < n
    decreases |data| - start
  {
    if start < |data| {
      var k' := |BatchesFrom(data, start + b, b)|;
      if start + b <= |data| {
        BatchesCount(data, start + b, b);
        assert (k' + 1) * b == k' * b + b;
      } else {
        assert k' == 0;
      }
    }
  }

  /** The batches of one table load, from the first record on. */
  function Batches<T>(data: seq<T>, b: nat): seq<seq<T>>
    requires b > 0
  {
    BatchesFrom(data, 0, b)
  }

  /** What a table holds after its load: left alone if it had rows, otherwise the data. */
  function Seeded<T>(table: seq<T>, data: seq<T>): seq<T>
  {
    if |table| == 0 then data else table
  }

  /** The commits one table's load makes. */
  function SeedCommits<T, U>(table: seq<T>, data: seq<U>, b: nat): nat
    requires b > 0
  {
    if |table| == 0 then |Batches(data, b)| else 0
  }

  method SeedVegRaw(db: Database, vegData: seq<VegRaw>, batchSize: nat)
    requires batchSize > 0
    modifies db
    ensures db.vegRaw == Seeded(old(db.vegRaw), vegData)
    ensures db.commits == old(db.commits) + SeedCommits(old(db.vegRaw), vegData, batchSize)
    ensures db.proteinRaw == old(db.proteinRaw) && db.flavorRaw == old(db.flavorRaw)
    ensures db.recipes == old(db.recipes) && db.comments == old(db.comments)
  {
    if |db.vegRaw| == 0 {
      var i := 0;
      while i < |vegData|
        invariant db.vegRaw == vegData[..Min(i, |vegData|)]
        invariant db.commits + |BatchesFrom(vegData, i, batchSize)| == old(db.commits) + |Batches(vegData, batchSize)|
        invariant db.proteinRaw == old(db.proteinRaw) && db.flavorRaw == old(db.flavorRaw)
        invariant db.recipes == old(db.recipes) && db.comments == old(db.comments)
      {
        var batch := vegData[i..Min(i + batchSize, |vegData|)];
        var pending: seq<VegRaw> := [];
        for j := 0 to |batch|
          invariant pending == batch[..j]
        {
          pending := pending + [batch[j]];
        }
        db.vegRaw := db.vegRaw + pending;
        db.commits := db.commits + 1;
        i := i + batchSize;
      }
    }
  }

  method SeedProteinRaw(db: Database, proteinData: seq<ProteinRaw>, batchSize: nat)
    requires batchSize > 0
    modifies db
    ensures db.proteinRaw == Seeded(old(db.proteinRaw), proteinData)
    ensures db.commits == old(db.commits) + SeedCommits(old(db.proteinRaw), proteinData, batchSize)
    ensures db.vegRaw == old(db.vegRaw) && db.flavorRaw == old(db.flavorRaw)
    ensures db.recipes == old(db.recipes) && db.comments == old(db.comments)
  {
    if |db.proteinRaw| == 0 {
      var i := 0;
      while i < |proteinData|
        invariant db.proteinRaw == proteinData[..Min(i, |proteinData|)]
        invariant db.commits + |BatchesFrom(proteinData, i, batchSize)| == old(db.commits) + |Batches(proteinData, batchSize)|
        invariant db.vegRaw == old(db.vegRaw) && db.flavorRaw == old(db.flavorRaw)
        invariant db.recipes == old(db.recipes) && db.comments == old(db.comments)
      {
        var batch := proteinData[i..Min(i + batchSize, |proteinData|)];
        var pending: seq<ProteinRaw> := [];
        for j := 0 to |batch|
          invariant pending == batch[..j]
        {
          pending := pending + [batch[j]];
        }
        db.proteinRaw := db.proteinRaw + pending;
        db.commits := db.commits + 1;
        i := i + batchSize;
      }
    }
  }

  method SeedFlavorRaw(db: Database, flavorData: seq<FlavorRaw>, batchSize: nat)
    requires batchSize > 0
    modifies db
    ensures db.flavorRaw == Seeded(old(db.flavorRaw), flavorData)
    ensures db.commits == old(db.commits) + SeedCommits(old(db.flavorRaw), flavorData, batchSize)
    ensures db.vegRaw == old(db.vegRaw) && db.proteinRaw == old(db.proteinRaw)
    ensures db.recipes == old(db.recipes) && db.comments == old(db.comments)
  {
    if |db.flavorRaw| == 0 {
      var i := 0;
      while i < |flavorData|
        invariant db.flavorRaw == flavorData[..Min(i, |flavorData|)]
        invariant db.commits + |BatchesFrom(flavorData, i, batchSize)| == old(db.commits) + |Batches(flavorData, batchSize)|
        invariant db.vegRaw == old(db.vegRaw) && db.proteinRaw == old(db.proteinRaw)
        invariant db.recipes == old(db.recipes) && db.comments == old(db.comments)
      {
        var batch := flavorData[i..Min(i + batchSize, |flavorData|)];
        var pending: seq<FlavorRaw> := [];
        for j := 0 to |batch|
          invariant pending == batch[..j]
        {
          pending := pending + [batch[j]];
        }
        db.flavorRaw := db.flavorRaw + pending;
        db.commits := db.commits + 1;
        i := i + batchSize;
      }
    }
  }

  /**
   * The recipe table's load: each row becomes a `Recipe` with a freshly
   * generated id (the `k`-th draw for the `k`-th row) and zero counts.
   */
  method SeedRecipes(db: Database, rows: seq<RecipeSheetRow>, draws: seq<seq<nat>>, batchSize: nat)
    requires batchSize > 0
    requires |draws| == |rows| && forall k :: 0 <= k < |draws| ==> IsDraw(draws[k])
    modifies db
    ensures db.recipes == Seeded(old(db.recipes), SeededRecipes(rows, draws))
    ensures db.commits == old(db.commits) + SeedCommits(old(db.recipes), rows, batchSize)
    ensures db.vegRaw == old(db.vegRaw) && db.proteinRaw == old(db.proteinRaw) && db.flavorRaw == old(db.flavorRaw)
    ensures db.comments == old(db.comments)
  {
    ghost var seeded := SeededRecipes(rows, draws);
    if |db.recipes| == 0 {
      var i := 0;
      while i < |rows|
        invariant db.recipes == seeded[..Min(i, |rows|)]
        invariant db.commits + |BatchesFrom(rows, i, batchSize)| == old(db.commits) + |Batches(rows, batchSize)|
        invariant db.vegRaw == old(db.vegRaw) && db.proteinRaw == old(db.proteinRaw) && db.flavorRaw == old(db.flavorRaw)
        invariant db.comments == old(db.comments)
      {
        var end := Min(i + batchSize, |rows|);
        var pending: seq<RecipeRow> := [];
        for j := i to end
          invariant pending == seeded[i..j]
        {
          var recipe := SeedRecipe(rows[j], GenerateRecipeId(draws[j]));
          pending := pending + [recipe];
        }
        db.recipes := db.recipes + pending;
        db.commits := db.commits + 1;
        i := i + batchSize;
      }
    }
  }

  /** `init_db(batch_size)`: the four table loads, in the source's order. */
  method InitDb(db: Database, vegData: seq<VegRaw>, proteinData: seq<ProteinRaw>, flavorData: seq<FlavorRaw>,
                rows: seq<RecipeSheetRow>, draws: seq<seq<nat>>, batchSize: nat)
    requires batchSize > 0
    requires |draws| == |rows| && forall k :: 0 <= k < |draws| ==> IsDraw(draws[k])
    modifies db
    ensures db.vegRaw == Seeded(old(db.vegRaw), vegData)
    ensures db.proteinRaw == Seeded(old(db.proteinRaw), proteinData)
    ensures db.flavorRaw == Seeded(old(db.flavorRaw), flavorData)
    ensures db.recipes == Seeded(old(db.recipes), SeededRecipes(rows, draws))
    ensures db.comments == old(db.comments)
    ensures db.commits == old(db.commits)
      + SeedCommits(old(db.vegRaw), vegData, batchSize) + SeedCommits(old(db.proteinRaw), proteinData, batchSize)
      + SeedCommits(old(db.flavorRaw), flavorData, batchSize) + SeedCommits(old(db.recipes), rows, batchSize)
  {
    SeedVegRaw(db, vegData, batchSize);
    SeedProteinRaw(db, proteinData, batchSize);
    SeedFlavorRaw(db, flavorData, batchSize);
    SeedRecipes(db, rows, draws, batchSize);
  }

  /** The script's own call `init_db()`, which takes the default batch size of 1000. */
  method InitDbDefault(db: Database, vegData: seq<VegRaw>, proteinData: seq<ProteinRaw>, flavorData: seq<FlavorRaw>,
                       rows: seq<RecipeSheetRow>, draws: seq<seq<nat>>)
    requires |draws| == |rows| && forall k :: 0 <= k < |draws| ==> IsDraw(draws[k])
    modifies db
    ensures db.vegRaw == Seeded(old(db.vegRaw), vegData)
    ensures db.proteinRaw == Seeded(old(db.proteinRaw), proteinData)
    ensures db.flavorRaw == Seeded(old(db.flavorRaw), flavorData)
    ensures db.recipes == Seeded(old(db.recipes), SeededRecipes(rows, draws))
    ensures db.comments == old(db.comments)
    ensures db.commits == old(db.commits)
      + SeedCommits(old(db.vegRaw), vegData, DEFAULT_BATCH_SIZE) + SeedCommits(old(db.proteinRaw), proteinData, DEFAULT_BATCH_SIZE)
      + SeedCommits(old(db.flavorRaw), flavorData, DEFAULT_BATCH_SIZE) + SeedCommits(old(db.recipes), rows, DEFAULT_BATCH_SIZE)
  {
    InitDb(db, vegData, proteinData, flavorData, rows, draws, DEFAULT_BATCH_SIZE);
  }

  /**
   * Running `init_db` a second time on the same files changes no table and
   * commits nothing, whatever ids the second run would have drawn.
   */
  method InitDbTwice(db: Database, vegData: seq<VegRaw>, proteinData: seq<ProteinRaw>, flavorData: seq<FlavorRaw>,
                     rows: seq<RecipeSheetRow>, draws: seq<seq<nat>>, redraws: seq<seq<nat>>, batchSize: nat)
    requires batchSize > 0
    requires |draws| == |rows| && forall k :: 0 <= k < |draws| ==> IsDraw(draws[k])
    requires |redraws| == |rows| && forall k :: 0 <= k < |redraws| ==> IsDraw(redraws[k])
    modifies db
    ensures db.vegRaw == Seeded(old(db.vegRaw), vegData)
    ensures db.proteinRaw == Seeded(old(db.proteinRaw), proteinData)
    ensures db.flavorRaw == Seeded(old(db.flavorRaw), flavorData)
    ensures db.recipes == Seeded(old(db.recipes), SeededRecipes(rows, draws))
    ensures db.comments == old(db.comments)
    ensures db.commits == old(db.commits)
      + SeedCommits(old(db.vegRaw), vegData, batchSize) + SeedCommits(old(db.proteinRaw), proteinData, batchSize)
      + SeedCommits(old(db.flavorRaw), flavorData, batchSize) + SeedCommits(old(db.recipes), rows, batchSize)
  {
    InitDb(db, vegData, proteinData, flavorData, rows, draws, batchSize);
    InitDb(db, vegData, proteinData, flavorData, rows, redraws, batchSize);
  }
}
