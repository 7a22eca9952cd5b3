/**
 * The tables of recipes/models.py and users/models.py as values, with the field bounds and
 * uniqueness constraints the models declare. The delete policies (CASCADE, SET_NULL) are
 * operations of the store and live in module Store.
 */
module Schema {
  import opened Wrappers
  import opened Http
  import Validators

  type TagId = int
  type IngredientId = int
  type RecipeId = int

  /** Recipe.cooking_time: MinValueValidator(1), MaxValueValidator(600). */
  const MinCookingTime: int := 1
  const MaxCookingTime: int := 600
  /** Recipe.text: max_length=500. */
  const MaxTextLength: nat := 500
  /** IngredientRecipe.amount: MinValueValidator(1). */
  const MinAmount: int := 1
  /** Tag.color: max_length=7. */
  const MaxColorLength: nat := 7
  /** User.username, first_name, last_name: max_length=150. */
  const MaxUserFieldLength: nat := 150

  datatype Tag = Tag(name: string, color: string, slug: string)

  /** An ingredient is identified by its (name, measurement_unit) pair. */
  datatype Ingredient = Ingredient(name: string, measurementUnit: string)

  /** A recipe; `author` becomes None when the author is deleted (on_delete=SET_NULL).
      The image and pub_date columns are not modelled (pub_date follows creation order). */
  datatype Recipe = Recipe(id: RecipeId, author: Option<UserId>, name: string, text: string, cookingTime: int)

  /** A row of IngredientRecipe: the amount of one ingredient in one recipe. */
  datatype IngredientRow = IngredientRow(recipe: RecipeId, ingredient: IngredientId, amount: int)

  datatype User = User(email: string, username: string, firstName: string, lastName: string)

  /** Ingredient.__str__: "{name}, {measurement_unit}." */
  function IngredientStr(i: Ingredient): (s: string)
    ensures |s| == |i.name| + |i.measurementUnit| + 3
    ensures s[..|i.name|] == i.name && s[|s| - 1] == '.'
  {
    i.name + ", " + i.measurementUnit + "."
  }

  /** The first comma of a valid ingredient's __str__ is the one right after its name. */
  lemma FirstComma(i: Ingredient)
    requires Validators.AllInClass(i.name, Validators.NameChars)
    ensures IngredientStr(i)[|i.name|] == ','
    ensures forall k :: 0 <= k < |i.name| ==> IngredientStr(i)[k] != ','
  {
    var s := IngredientStr(i);
    forall k | 0 <= k < |i.name| ensures s[k] != ',' {
      assert s[k] == i.name[k];
      assert Validators.InClass(i.name[k], Validators.NameChars);
    }
  }

  /** Ingredient names pass validate_name, so they hold no comma and the first ", " of
      __str__ ends the name: two ingredients with equal __str__ are equal. */
  lemma IngredientStrInjective(a: Ingredient, b: Ingredient)
    requires Validators.AllInClass(a.name, Validators.NameChars)
    requires Validators.AllInClass(b.name, Validators.NameChars)
    requires IngredientStr(a) == IngredientStr(b)
    ensures a == b
  {
    var s := IngredientStr(a);
    FirstComma(a);
    FirstComma(b);
    assert |a.name| == |b.name|;
    assert a.name == s[..|a.name|] == b.name;
    assert a.measurementUnit == s[|a.name| + 2..|s| - 1] == b.measurementUnit;
  }

  /** The declared bounds of a recipe row: cooking time in 1..600, a non-blank text of at
      most 500 characters, and a non-blank name that passes validate_name. */
  predicate ValidRecipe(r: Recipe) {
    && MinCookingTime <= r.cookingTime <= MaxCookingTime
    && r.text != [] && |r.text| <= MaxTextLength
    && r.name != []
    && Validators.ValidateName(r.name) == Validators.Accepted
  }

  predicate ValidAmount(row: IngredientRow) {
    row.amount >= MinAmount
  }

  /** UniqueConstraint(recipe, ingredient) on IngredientRecipe. */
  predicate RowsUnique(rows: seq<IngredientRow>) {
    forall i, j :: 0 <= i < j < |rows| ==>
      (rows[i].recipe, rows[i].ingredient) != (rows[j].recipe, rows[j].ingredient)
  }

  /** UniqueConstraint(name, measurement_unit) on Ingredient. */
  predicate IngredientsUnique(m: map<IngredientId, Ingredient>) {
    forall a, b :: a in m && b in m && a != b ==> m[a] != m[b]
  }

  /** Tag.name, Tag.color and Tag.slug are each unique=True; color has max_length=7. */
  predicate TagsUnique(m: map<TagId, Tag>) {
    && (forall a :: a in m ==> |m[a].color| <= MaxColorLength)
    && (forall a, b :: a in m && b in m && a != b ==>
          m[a].name != m[b].name && m[a].color != m[b].color && m[a].slug != m[b].slug)
  }

  /** User field bounds: username at most 150; first and last name non-blank and at most 150. */
  predicate ValidUser(u: User) {
    && |u.username| <= MaxUserFieldLength
    && 0 < |u.firstName| <= MaxUserFieldLength
    && 0 < |u.lastName| <= MaxUserFieldLength
  }

  /** User.username and User.email are each unique=True. */
  predicate UsersUnique(m: map<UserId, User>) {
    forall a, b :: a in m && b in m && a != b ==>
      m[a].username != m[b].username && m[a].email != m[b].email
  }

  /** A table of (user, target) pairs under a UniqueConstraint on the pair: a set. */
  type PairTable = set<(UserId, int)>
}
