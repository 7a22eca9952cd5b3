/**
 * The database behind the views, as one object whose fields are the tables of
 * recipes/models.py and users/models.py, and whose methods are the requests that change
 * them: the favorite, shopping_cart and subscribe toggles (api/views.py), recipe create and
 * update (RecipeWriteSerializer.create/update behind RecipeViewSet.create/update),
 * serializer_delete_method (api/utils.py), and the deletions with their on_delete policies.
 * Valid() is the set of constraints the models declare; every method keeps it.
 */
module Store {
  import opened Wrappers
  import opened Http
  import opened Schema
  import Serializers
  import Toggle
  import ShoppingList

  /** The ids of a list of recipes. */
  function IdsOf(rs: seq<Recipe>): set<RecipeId> {
    set r | r in rs :: r.id
  }

  /** Every pair of a (user, recipe) table refers to an existing user and recipe. */
  predicate PairsRefer(rel: PairTable, users: set<UserId>, recipes: set<RecipeId>) {
    forall p :: p in rel ==> p.0 in users && p.1 in recipes
  }

  /** The (recipe, tag) rows of `recipe.tags.set(tags)` on a recipe with no tags yet. */
  function TagPairs(recipe: RecipeId, tags: seq<TagId>): (r: set<(RecipeId, TagId)>)
    ensures forall t :: (recipe, t) in r <==> t in tags
    ensures forall p :: p in r ==> p.0 == recipe && p.1 in tags
  {
    set t | t in tags :: (recipe, t)
  }

  /** The rows of a two-column table whose first column is not `x`: what a CASCADE on the
      first foreign key leaves. */
  function PairsWithoutFirst(pairs: set<(int, int)>, x: int): (r: set<(int, int)>)
    ensures forall p :: p in r <==> p in pairs && p.0 != x
  {
    set p | p in pairs && p.0 != x
  }

  /** The rows whose second column is not `x`: what a CASCADE on the second foreign key
      leaves. */
  function PairsWithoutSecond(pairs: set<(int, int)>, x: int): (r: set<(int, int)>)
    ensures forall p :: p in r <==> p in pairs && p.1 != x
  {
    set p | p in pairs && p.1 != x
  }

  /** `queryset.filter(...)` on IngredientRecipe rows, keeping their order. */
  function KeepRows(rows: seq<IngredientRow>, keep: IngredientRow -> bool): (r: seq<IngredientRow>)
    ensures forall row :: row in r <==> row in rows && keep(row)
    ensures |r| <= |rows|
  {
    if rows == [] then []
    else
      var rest := KeepRows(rows[1..], keep);
      assert forall row :: row in rows <==> row == rows[0] || row in rows[1..];
      if keep(rows[0]) then [rows[0]] + rest else rest
  }

  /** Filtering keeps the (recipe, ingredient) pairs unique. */
  lemma {:induction false} KeepRowsUnique(rows: seq<IngredientRow>, keep: IngredientRow -> bool)
    ensures RowsUnique(rows) ==> RowsUnique(KeepRows(rows, keep))
  {
    if rows != [] && RowsUnique(rows) {
      var t := rows[1..];
      assert RowsUnique(t) by {
        forall i, j | 0 <= i < j < |t|
          ensures (t[i].recipe, t[i].ingredient) != (t[j].recipe, t[j].ingredient)
        {
          assert t[i] == rows[i + 1] && t[j] == rows[j + 1];
        }
      }
      KeepRowsUnique(t, keep);
      var rest := KeepRows(t, keep);
      if keep(rows[0]) {
        var r := [rows[0]] + rest;
        forall i, j | 0 <= i < j < |r|
          ensures (r[i].recipe, r[i].ingredient) != (r[j].recipe, r[j].ingredient)
        {
          assert r[j] == rest[j - 1];
          if i > 0 {
            assert r[i] == rest[i - 1];
          } else {
            assert rest[j - 1] in t;
            var m :| 0 <= m < |t| && t[m] == rest[j - 1];
            assert rows[m + 1] == r[j];
          }
        }
      }
    }
  }

  /** The rows of the other recipes: what remains after
      `instance.ingredientrecipes.all().delete()` or the recipe's deletion. */
  function RowsNotOfRecipe(rows: seq<IngredientRow>, id: RecipeId): (r: seq<IngredientRow>)
    ensures forall row :: row in r <==> row in rows && row.recipe != id
    ensures RowsUnique(rows) ==> RowsUnique(r)
  {
    KeepRowsUnique(rows, (row: IngredientRow) => row.recipe != id);
    KeepRows(rows, (row: IngredientRow) => row.recipe != id)
  }

  /** The rows that do not use ingredient `i`. */
  function RowsNotOfIngredient(rows: seq<IngredientRow>, i: IngredientId): (r: seq<IngredientRow>)
    ensures forall row :: row in r <==> row in rows && row.ingredient != i
    ensures RowsUnique(rows) ==> RowsUnique(r)
  {
    KeepRowsUnique(rows, (row: IngredientRow) => row.ingredient != i);
    KeepRows(rows, (row: IngredientRow) => row.ingredient != i)
  }

  /** Appending rows for a recipe that had none keeps the pairs unique. */
  lemma RowsUniqueAppend(a: seq<IngredientRow>, b: seq<IngredientRow>, recipe: RecipeId)
    requires RowsUnique(a) && RowsUnique(b)
    requires forall row :: row in a ==> row.recipe != recipe
    requires forall row :: row in b ==> row.recipe == recipe
    ensures RowsUnique(a + b)
  {
    var s := a + b;
    forall i, j | 0 <= i < j < |s|
      ensures (s[i].recipe, s[i].ingredient) != (s[j].recipe, s[j].ingredient)
    {
      if j < |a| {
        assert s[i] == a[i] && s[j] == a[j];
      } else if i >= |a| {
        assert s[i] == b[i - |a|] && s[j] == b[j - |a|];
      } else {
        assert s[i] == a[i] && s[j] == b[j - |a|];
        assert a[i] in a && b[j - |a|] in b;
      }
    }
  }

  /** The recipes other than `id`, in order. */
  function RecipesWithout(rs: seq<Recipe>, id: RecipeId): (r: seq<Recipe>)
    ensures forall x :: x in r <==> x in rs && x.id != id
  {
    if rs == [] then []
    else
      var rest := RecipesWithout(rs[1..], id);
      assert forall x :: x in rs <==> x == rs[0] || x in rs[1..];
      if rs[0].id != id then [rs[0]] + rest else rest
  }

  /** Removing recipes keeps creation order. */
  lemma {:induction false} RecipesWithoutOrdered(rs: seq<Recipe>, id: RecipeId)
    requires Serializers.IdsIncreasing(rs)
    ensures Serializers.IdsIncreasing(RecipesWithout(rs, id))
  {
    if rs != [] {
      var t := rs[1..];
      assert Serializers.IdsIncreasing(t) by {
        forall i, j | 0 <= i < j < |t| ensures t[i].id < t[j].id {
          assert t[i] == rs[i + 1] && t[j] == rs[j + 1];
        }
      }
      RecipesWithoutOrdered(t, id);
      if rs[0].id != id {
        var rest := RecipesWithout(t, id);
        var r := [rs[0]] + rest;
        forall i, j | 0 <= i < j < |r| ensures r[i].id < r[j].id {
          assert r[j] == rest[j - 1];
          if i > 0 {
            assert r[i] == rest[i - 1];
          } else {
            assert rest[j - 1] in t;
            var m :| 0 <= m < |t| && t[m] == rest[j - 1];
            assert rs[m + 1] == r[j];
          }
        }
      }
    }
  }

  /** The recipes after an update of recipe `id` with the validated draft: its name, text
      and cooking time are replaced, its id and author kept; the other recipes are unchanged. */
  function UpdatedRecipes(rs: seq<Recipe>, id: RecipeId, d: Serializers.RecipeDraft): (r: seq<Recipe>)
    ensures |r| == |rs|
    ensures forall i :: 0 <= i < |rs| ==> r[i].id == rs[i].id && r[i].author == rs[i].author
    ensures forall i :: 0 <= i < |rs| ==> r[i] == if rs[i].id == id then Serializers.DraftRecipe(d, id, rs[i].author) else rs[i]
  {
    seq(|rs|, i requires 0 <= i < |rs| => if rs[i].id == id then Serializers.DraftRecipe(d, id, rs[i].author) else rs[i])
  }

  /** The recipes after their author `u` is deleted: on_delete=SET_NULL. */
  function OrphanRecipes(rs: seq<Recipe>, u: UserId): (r: seq<Recipe>)
    ensures |r| == |rs|
    ensures forall i :: 0 <= i < |rs| ==> r[i].id == rs[i].id
    ensures forall i :: 0 <= i < |rs| ==>
              r[i] == if rs[i].author == Some(u) then rs[i].(author := None) else rs[i]
  {
    seq(|rs|, i requires 0 <= i < |rs| => if rs[i].author == Some(u) then rs[i].(author := None) else rs[i])
  }

  /** The result of a recipe write: its id, or the reason it was refused. */
  datatype WriteError = NotFound | Invalid(fields: set<Serializers.Field>)

  /** `user`'s cart as a condition on IngredientRecipe rows:
      `recipe__shopping_cart__user=request.user`. */
  function InCartOf(cart: PairTable, user: UserId): IngredientRow -> bool {
    (row: IngredientRow) => (user, row.recipe) in cart
  }

  /** The rows of download_shopping_cart before grouping: each IngredientRecipe row of a
      recipe in `user`'s cart, joined with its ingredient. Every such row contributes one
      item, in row order, so a (name, unit) shared by several cart recipes is summed over
      all of them. */
  function CartItems(rows: seq<IngredientRow>, cart: PairTable, user: UserId, ingredients: map<IngredientId, Ingredient>): (items: seq<ShoppingList.Item>)
    requires forall row :: row in rows ==> ValidAmount(row) && row.ingredient in ingredients
    ensures var kept := KeepRows(rows, InCartOf(cart, user));
            |items| == |kept| && forall i :: 0 <= i < |kept| ==> items[i] == CartItem(kept[i], ingredients)
    ensures forall it :: it in items <==>
              exists row :: row in rows && (user, row.recipe) in cart && it == CartItem(row, ingredients)
    ensures (forall p :: p in cart ==> p.0 != user) ==> items == []
  {
    if rows == [] then []
    else
      var rest := CartItems(rows[1..], cart, user, ingredients);
      assert forall row :: row in rows <==> row == rows[0] || row in rows[1..];
      if (user, rows[0].recipe) in cart then [CartItem(rows[0], ingredients)] + rest else rest
  }

  function CartItem(row: IngredientRow, ingredients: map<IngredientId, Ingredient>): ShoppingList.Item
    requires ValidAmount(row) && row.ingredient in ingredients
  {
    var i := ingredients[row.ingredient];
    ShoppingList.Item(ShoppingList.Key(i.name, i.measurementUnit), row.amount)
  }

  // ---------------------------------------------------------------------------------------
  // The constraints the models declare, over the tables' contents

  /** User: username and email unique, field bounds. */
  predicate UsersOk(users: map<UserId, User>) {
    UsersUnique(users) && forall u :: u in users ==> ValidUser(users[u])
  }

  /** Recipes: creation order, ids below the next id, bounds, authors that exist. */
  predicate RecipesOk(rs: seq<Recipe>, nextId: RecipeId, userIds: set<UserId>) {
    && Serializers.IdsIncreasing(rs)
    && (forall r :: r in rs ==> r.id < nextId && ValidRecipe(r))
    && (forall r :: r in rs && r.author.Some? ==> r.author.value in userIds)
  }

  /** IngredientRecipe and TagRecipe: amounts >= 1, one row per (recipe, ingredient), and
      references to existing recipes, ingredients and tags. */
  predicate RowsOk(rows: seq<IngredientRow>, recipeIds: set<RecipeId>, ingredientIds: set<IngredientId>,
                   recipeTags: set<(RecipeId, TagId)>, tagIds: set<TagId>) {
    && RowsUnique(rows)
    && (forall row :: row in rows ==>
          ValidAmount(row) && row.recipe in recipeIds && row.ingredient in ingredientIds)
    && (forall p :: p in recipeTags ==> p.0 in recipeIds && p.1 in tagIds)
  }

  /** Favorite, ShoppingСart and Subscribe refer to existing rows, and nobody follows
      themselves. Each table being a set, each pair occurs at most once. */
  predicate RelationsOk(favorites: PairTable, cart: PairTable, follows: PairTable,
                        userIds: set<UserId>, recipeIds: set<RecipeId>) {
    && PairsRefer(favorites, userIds, recipeIds)
    && PairsRefer(cart, userIds, recipeIds)
    && (forall p :: p in follows ==> p.0 in userIds && p.1 in userIds)
    && Toggle.NoSelfFollow(follows)
  }

  // Each write keeps the constraints.

  lemma AppendRecipeOk(rs: seq<Recipe>, nextId: RecipeId, userIds: set<UserId>, x: Recipe)
    requires RecipesOk(rs, nextId, userIds)
    requires x.id == nextId && ValidRecipe(x) && (x.author.Some? ==> x.author.value in userIds)
    ensures RecipesOk(rs + [x], nextId + 1, userIds)
    ensures IdsOf(rs + [x]) == IdsOf(rs) + {nextId} && nextId !in IdsOf(rs)
  {
    var s := rs + [x];
    assert forall r :: r in s <==> r in rs || r == x;
    forall i, j | 0 <= i < j < |s| ensures s[i].id < s[j].id {
      if j < |rs| {
        assert s[i] == rs[i] && s[j] == rs[j];
      } else {
        assert s[i] == rs[i] && rs[i] in rs;
      }
    }
  }

  lemma CreateRowsOk(rows: seq<IngredientRow>, recipeIds: set<RecipeId>, ingredientIds: set<IngredientId>,
                     recipeTags: set<(RecipeId, TagId)>, tagIds: set<TagId>,
                     id: RecipeId, newRows: seq<IngredientRow>, tags: seq<TagId>)
    requires RowsOk(rows, recipeIds, ingredientIds, recipeTags, tagIds) && id !in recipeIds
    requires RowsUnique(newRows)
    requires forall row :: row in newRows ==> row.recipe == id && ValidAmount(row) && row.ingredient in ingredientIds
    requires forall t :: t in tags ==> t in tagIds
    ensures RowsOk(rows + newRows, recipeIds + {id}, ingredientIds, recipeTags + TagPairs(id, tags), tagIds)
  {
    RowsUniqueAppend(rows, newRows, id);
    assert forall row :: row in rows + newRows <==> row in rows || row in newRows;
  }

  lemma UpdateAt(rs: seq<Recipe>, k: int, d: Serializers.RecipeDraft)
    requires Serializers.IdsIncreasing(rs) && 0 <= k < |rs|
    ensures rs[k := Serializers.DraftRecipe(d, rs[k].id, rs[k].author)] == UpdatedRecipes(rs, rs[k].id, d)
  {
  }

  /** Positionwise equal ids give the same id set. */
  lemma SameIds(a: seq<Recipe>, b: seq<Recipe>)
    requires |a| == |b| && forall i :: 0 <= i < |a| ==> a[i].id == b[i].id
    ensures IdsOf(a) == IdsOf(b)
  {
    forall x | x in a ensures x.id in IdsOf(b) {
      var i :| 0 <= i < |a| && a[i] == x;
      assert b[i] in b;
    }
    forall x | x in b ensures x.id in IdsOf(a) {
      var i :| 0 <= i < |b| && b[i] == x;
      assert a[i] in a;
    }
  }

  lemma UpdatedRecipesOk(rs: seq<Recipe>, nextId: RecipeId, userIds: set<UserId>, id: RecipeId, d: Serializers.RecipeDraft)
    requires RecipesOk(rs, nextId, userIds) && ValidRecipe(Serializers.DraftRecipe(d, id, None))
    ensures RecipesOk(UpdatedRecipes(rs, id, d), nextId, userIds)
    ensures IdsOf(UpdatedRecipes(rs, id, d)) == IdsOf(rs)
  {
    var u := UpdatedRecipes(rs, id, d);
    forall x | x in u ensures x.id < nextId && ValidRecipe(x) && (x.author.Some? ==> x.author.value in userIds) {
      var i :| 0 <= i < |u| && u[i] == x;
      assert rs[i] in rs;
    }
    SameIds(u, rs);
  }

  lemma UpdateRowsOk(rows: seq<IngredientRow>, recipeIds: set<RecipeId>, ingredientIds: set<IngredientId>,
                     recipeTags: set<(RecipeId, TagId)>, tagIds: set<TagId>,
                     id: RecipeId, newRows: seq<IngredientRow>, tags: seq<TagId>)
    requires RowsOk(rows, recipeIds, ingredientIds, recipeTags, tagIds) && id in recipeIds
    requires RowsUnique(newRows)
    requires forall row :: row in newRows ==> row.recipe == id && ValidAmount(row) && row.ingredient in ingredientIds
    requires forall t :: t in tags ==> t in tagIds
    ensures RowsOk(RowsNotOfRecipe(rows, id) + newRows, recipeIds, ingredientIds,
                   PairsWithoutFirst(recipeTags, id) + TagPairs(id, tags), tagIds)
  {
    var kept := RowsNotOfRecipe(rows, id);
    RowsUniqueAppend(kept, newRows, id);
    assert forall row :: row in kept + newRows <==> row in kept || row in newRows;
  }

  lemma DeleteRecipeOk(rs: seq<Recipe>, nextId: RecipeId, userIds: set<UserId>, id: RecipeId)
    requires RecipesOk(rs, nextId, userIds)
    ensures RecipesOk(RecipesWithout(rs, id), nextId, userIds)
    ensures IdsOf(RecipesWithout(rs, id)) == IdsOf(rs) - {id}
  {
    RecipesWithoutOrdered(rs, id);
  }

  lemma OrphanRecipesOk(rs: seq<Recipe>, nextId: RecipeId, userIds: set<UserId>, u: UserId)
    requires RecipesOk(rs, nextId, userIds)
    ensures RecipesOk(OrphanRecipes(rs, u), nextId, userIds - {u})
    ensures IdsOf(OrphanRecipes(rs, u)) == IdsOf(rs)
  {
    var o := OrphanRecipes(rs, u);
    forall x | x in o ensures x.id < nextId && ValidRecipe(x) && (x.author.Some? ==> x.author.value in userIds - {u}) {
      var i :| 0 <= i < |o| && o[i] == x;
      assert rs[i] in rs;
    }
    SameIds(o, rs);
  }

  lemma DeleteRecipeRowsOk(rows: seq<IngredientRow>, recipeIds: set<RecipeId>, ingredientIds: set<IngredientId>,
                           recipeTags: set<(RecipeId, TagId)>, tagIds: set<TagId>, id: RecipeId)
    requires RowsOk(rows, recipeIds, ingredientIds, recipeTags, tagIds)
    ensures RowsOk(RowsNotOfRecipe(rows, id), recipeIds - {id}, ingredientIds, PairsWithoutFirst(recipeTags, id), tagIds)
  {
  }

  lemma DeleteRecipeRelationsOk(favorites: PairTable, cart: PairTable, follows: PairTable,
                                userIds: set<UserId>, recipeIds: set<RecipeId>, id: RecipeId)
    requires RelationsOk(favorites, cart, follows, userIds, recipeIds)
    ensures RelationsOk(PairsWithoutSecond(favorites, id), PairsWithoutSecond(cart, id), follows,
                        userIds, recipeIds - {id})
  {
  }

  lemma DeleteUserRelationsOk(favorites: PairTable, cart: PairTable, follows: PairTable,
                              userIds: set<UserId>, recipeIds: set<RecipeId>, u: UserId)
    requires RelationsOk(favorites, cart, follows, userIds, recipeIds)
    ensures RelationsOk(PairsWithoutFirst(favorites, u), PairsWithoutFirst(cart, u),
                        PairsWithoutSecond(PairsWithoutFirst(follows, u), u), userIds - {u}, recipeIds)
  {
  }

  lemma UsersOkWithout(users: map<UserId, User>, u: UserId)
    requires UsersOk(users)
    ensures UsersOk(users - {u}) && (users - {u}).Keys == users.Keys - {u}
  {
  }

  /** All the constraints, over the contents of every table. */
  predicate StateOk(users: map<UserId, User>, tags: map<TagId, Tag>, ingredients: map<IngredientId, Ingredient>,
                    recipes: seq<Recipe>, nextId: RecipeId, rows: seq<IngredientRow>,
                    recipeTags: set<(RecipeId, TagId)>, favorites: PairTable, cart: PairTable, follows: PairTable) {
    && UsersOk(users)
    && TagsUnique(tags) && IngredientsUnique(ingredients)
    && RecipesOk(recipes, nextId, users.Keys)
    && RowsOk(rows, IdsOf(recipes), ingredients.Keys, recipeTags, tags.Keys)
    && RelationsOk(favorites, cart, follows, users.Keys, IdsOf(recipes))
  }

  /** Creating a recipe from an accepted draft keeps every constraint. */
  lemma CreateKeepsState(users: map<UserId, User>, tags: map<TagId, Tag>, ingredients: map<IngredientId, Ingredient>,
                         recipes: seq<Recipe>, nextId: RecipeId, rows: seq<IngredientRow>,
                         recipeTags: set<(RecipeId, TagId)>, favorites: PairTable, cart: PairTable, follows: PairTable,
                         user: UserId, d: Serializers.RecipeDraft)
    requires StateOk(users, tags, ingredients, recipes, nextId, rows, recipeTags, favorites, cart, follows)
    requires user in users && Serializers.DraftErrors(d, ingredients.Keys, tags.Keys) == {}
    ensures nextId !in IdsOf(recipes)
    ensures StateOk(users, tags, ingredients, recipes + [Serializers.DraftRecipe(d, nextId, Some(user))], nextId + 1,
                    rows + Serializers.RowsFor(nextId, d.ingredients), recipeTags + TagPairs(nextId, d.tags),
                    favorites, cart, follows)
  {
    Serializers.AcceptedDraftFitsSchema(d, ingredients.Keys, tags.Keys, nextId, Some(user));
    AppendRecipeOk(recipes, nextId, users.Keys, Serializers.DraftRecipe(d, nextId, Some(user)));
    CreateRowsOk(rows, IdsOf(recipes), ingredients.Keys, recipeTags, tags.Keys,
                 nextId, Serializers.RowsFor(nextId, d.ingredients), d.tags);
  }

  /** Updating an existing recipe with an accepted draft keeps every constraint. */
  lemma UpdateKeepsState(users: map<UserId, User>, tags: map<TagId, Tag>, ingredients: map<IngredientId, Ingredient>,
                         recipes: seq<Recipe>, nextId: RecipeId, rows: seq<IngredientRow>,
                         recipeTags: set<(RecipeId, TagId)>, favorites: PairTable, cart: PairTable, follows: PairTable,
                         id: RecipeId, d: Serializers.RecipeDraft)
    requires StateOk(users, tags, ingredients, recipes, nextId, rows, recipeTags, favorites, cart, follows)
    requires id in IdsOf(recipes) && Serializers.DraftErrors(d, ingredients.Keys, tags.Keys) == {}
    ensures StateOk(users, tags, ingredients, UpdatedRecipes(recipes, id, d), nextId,
                    RowsNotOfRecipe(rows, id) + Serializers.RowsFor(id, d.ingredients),
                    PairsWithoutFirst(recipeTags, id) + TagPairs(id, d.tags), favorites, cart, follows)
  {
    Serializers.AcceptedDraftFitsSchema(d, ingredients.Keys, tags.Keys, id, None);
    UpdatedRecipesOk(recipes, nextId, users.Keys, id, d);
    UpdateRowsOk(rows, IdsOf(recipes), ingredients.Keys, recipeTags, tags.Keys,
                 id, Serializers.RowsFor(id, d.ingredients), d.tags);
  }

  /** Deleting a recipe with its cascade keeps every constraint. */
  lemma DeleteRecipeKeepsState(users: map<UserId, User>, tags: map<TagId, Tag>, ingredients: map<IngredientId, Ingredient>,
                               recipes: seq<Recipe>, nextId: RecipeId, rows: seq<IngredientRow>,
                               recipeTags: set<(RecipeId, TagId)>, favorites: PairTable, cart: PairTable, follows: PairTable,
                               id: RecipeId)
    requires StateOk(users, tags, ingredients, recipes, nextId, rows, recipeTags, favorites, cart, follows)
    ensures id !in IdsOf(RecipesWithout(recipes, id))
    ensures StateOk(users, tags, ingredients, RecipesWithout(recipes, id), nextId, RowsNotOfRecipe(rows, id),
                    PairsWithoutFirst(recipeTags, id), PairsWithoutSecond(favorites, id), PairsWithoutSecond(cart, id), follows)
  {
    DeleteRecipeOk(recipes, nextId, users.Keys, id);
    DeleteRecipeRowsOk(rows, IdsOf(recipes), ingredients.Keys, recipeTags, tags.Keys, id);
    DeleteRecipeRelationsOk(favorites, cart, follows, users.Keys, IdsOf(recipes), id);
  }

  class Store {
    var users: map<UserId, User>
    var tags: map<TagId, Tag>
    var ingredients: map<IngredientId, Ingredient>
    /** Recipes in creation order; pub_date follows this order. */
    var recipes: seq<Recipe>
    var nextRecipeId: RecipeId
    var ingredientRows: seq<IngredientRow>
    var recipeTags: set<(RecipeId, TagId)>
    /** Favorite rows: (user, recipe). */
    var favorites: PairTable
    /** ShoppingСart rows: (user, recipe). */
    var cart: PairTable
    /** Subscribe rows: (subscriber, author). */
    var follows: PairTable

    /** The constraints the models declare, plus the no-self-subscription rule that the
        subscribe action enforces. */
    predicate Valid()
      reads this
    {
      StateOk(users, tags, ingredients, recipes, nextRecipeId, ingredientRows, recipeTags, favorites, cart, follows)
    }

    /** An empty database. */
    constructor()
      ensures Valid()
      ensures recipes == [] && ingredientRows == [] && favorites == {} && cart == {} && follows == {}
    {
      users := map[];
      tags := map[];
      ingredients := map[];
      recipes := [];
      nextRecipeId := 1;
      ingredientRows := [];
      recipeTags := {};
      favorites := {};
      cart := {};
      follows := {};
    }

    // -------------------------------------------------------------------------------------
    // The toggles

    /** RecipeViewSet.favorite for the authenticated `user`. */
    method Favorite(user: UserId, recipeId: RecipeId, verb: Method) returns (status: Status)
      requires Valid() && user in users && IsToggleMethod(verb)
      modifies this`favorites
      ensures Valid()
      ensures Toggle.Outcome(status, favorites)
           == Toggle.RecipeToggle(old(favorites), recipeId in IdsOf(recipes), user, recipeId, verb)
    {
      if recipeId !in IdsOf(recipes) {
        return NotFound404;
      }
      if verb == Delete {
        var affected := if (user, recipeId) in favorites then 1 else 0;
        favorites := favorites - {(user, recipeId)};
        if affected == 0 {
          return BadRequest400;
        }
        return NoContent204;
      }
      var created := (user, recipeId) !in favorites;
      favorites := favorites + {(user, recipeId)};
      if !created {
        return BadRequest400;
      }
      return Created201;
    }

    /** RecipeViewSet.shopping_cart for the authenticated `user`; it touches only the cart. */
    method ShoppingCart(user: UserId, recipeId: RecipeId, verb: Method) returns (status: Status)
      requires Valid() && user in users && IsToggleMethod(verb)
      modifies this`cart
      ensures Valid()
      ensures Toggle.Outcome(status, cart)
           == Toggle.RecipeToggle(old(cart), recipeId in IdsOf(recipes), user, recipeId, verb)
    {
      if recipeId !in IdsOf(recipes) {
        return NotFound404;
      }
      if verb == Delete {
        var affected := if (user, recipeId) in cart then 1 else 0;
        cart := cart - {(user, recipeId)};
        if affected == 0 {
          return BadRequest400;
        }
        return NoContent204;
      }
      var created := (user, recipeId) !in cart;
      cart := cart + {(user, recipeId)};
      if !created {
        return BadRequest400;
      }
      return Created201;
    }

    /** UserViewSet.subscribe for the authenticated `user` and the author `authorId`. */
    method Subscribe(user: UserId, authorId: UserId, verb: Method) returns (status: Status)
      requires Valid() && user in users && IsToggleMethod(verb)
      modifies this`follows
      ensures Valid()
      ensures Toggle.Outcome(status, follows)
           == Toggle.SubscribeToggle(old(follows), authorId in users, user, authorId, verb)
    {
      if authorId !in users {
        return NotFound404;
      }
      if verb == Delete {
        var affected := if (user, authorId) in follows then 1 else 0;
        follows := follows - {(user, authorId)};
        if affected == 0 {
          return BadRequest400;
        }
        return NoContent204;
      }
      if user == authorId {
        return BadRequest400;
      }
      if (user, authorId) in follows {
        return BadRequest400;
      }
      follows := follows + {(user, authorId)};
      return Created201;
    }

    /** serializer_delete_method on the favorites (`fromCart` false) or the cart (`fromCart`
        true): 404 when the recipe or the user's row is missing, otherwise that row is deleted. */
    method DeleteRelationRow(fromCart: bool, user: UserId, recipeId: RecipeId) returns (status: Status)
      requires Valid()
      modifies this`favorites, this`cart
      ensures Valid()
      ensures fromCart ==> favorites == old(favorites)
                           && Toggle.Outcome(status, cart) == Toggle.DeleteRow(old(cart), recipeId in IdsOf(recipes), user, recipeId)
      ensures !fromCart ==> cart == old(cart)
                            && Toggle.Outcome(status, favorites) == Toggle.DeleteRow(old(favorites), recipeId in IdsOf(recipes), user, recipeId)
    {
      if recipeId !in IdsOf(recipes) {
        return NotFound404;
      }
      if fromCart {
        if (user, recipeId) !in cart {
          return NotFound404;
        }
        cart := cart - {(user, recipeId)};
      } else {
        if (user, recipeId) !in favorites {
          return NotFound404;
        }
        favorites := favorites - {(user, recipeId)};
      }
      return NoContent204;
    }

    // -------------------------------------------------------------------------------------
    // Recipe writes

    /** RecipeViewSet.create: validate the draft (all field errors at once), then insert the
        recipe with the requesting user as author, one IngredientRecipe row per entry, and
        the tags. The validation is the corrected one, with cooking_time at most 600. */
    method CreateRecipe(user: UserId, d: Serializers.RecipeDraft) returns (r: Result<RecipeId, set<Serializers.Field>>)
      requires Valid() && user in users
      modifies this`recipes, this`nextRecipeId, this`ingredientRows, this`recipeTags
      ensures Valid()
      ensures var errors := Serializers.DraftErrors(d, ingredients.Keys, tags.Keys);
              errors != {} ==> r == Err(errors) && recipes == old(recipes) && nextRecipeId == old(nextRecipeId)
                               && ingredientRows == old(ingredientRows) && recipeTags == old(recipeTags)
      ensures Serializers.DraftErrors(d, ingredients.Keys, tags.Keys) == {} ==>
                && r.Ok? && r.value !in IdsOf(old(recipes))
                && recipes == old(recipes) + [Serializers.DraftRecipe(d, r.value, Some(user))]
                && ingredientRows == old(ingredientRows) + Serializers.RowsFor(r.value, d.ingredients)
                && recipeTags == old(recipeTags) + TagPairs(r.value, d.tags)
    {
      var errors := Serializers.DraftErrors(d, ingredients.Keys, tags.Keys);
      if errors != {} {
        return Err(errors);
      }
      var id := nextRecipeId;
      var rs, rows, rt := recipes, ingredientRows, recipeTags;
      recipes := recipes + [Serializers.DraftRecipe(d, id, Some(user))];
      nextRecipeId := nextRecipeId + 1;
      InsertRows(id, d.ingredients);
      recipeTags := recipeTags + TagPairs(id, d.tags);
      CreateKeepsState(users, tags, ingredients, rs, id, rows, rt, favorites, cart, follows, user, d);
      r := Ok(id);
    }

    /** The loop over the validated entries: `recipe.ingredientrecipes.create(...)` once per
        entry, appending its row. */
    method InsertRows(id: RecipeId, entries: seq<Serializers.IngredientEntry>)
      modifies this`ingredientRows
      ensures ingredientRows == old(ingredientRows) + Serializers.RowsFor(id, entries)
    {
      for i := 0 to |entries|
        invariant ingredientRows == old(ingredientRows) + Serializers.RowsFor(id, entries[..i])
      {
        assert Serializers.RowsFor(id, entries[..i + 1])
            == Serializers.RowsFor(id, entries[..i]) + [IngredientRow(id, entries[i].id, entries[i].amount)];
        ingredientRows := ingredientRows + [IngredientRow(id, entries[i].id, entries[i].amount)];
      }
      assert entries[..|entries|] == entries;
    }

    /** The position of recipe `id`, or -1 (get_object's lookup). */
    method FindRecipe(id: RecipeId) returns (k: int)
      ensures -1 <= k < |recipes|
      ensures k == -1 <==> id !in IdsOf(recipes)
      ensures k >= 0 ==> recipes[k].id == id
    {
      k := 0;
      while k < |recipes|
        invariant 0 <= k <= |recipes|
        invariant forall j :: 0 <= j < k ==> recipes[j].id != id
      {
        if recipes[k].id == id {
          return;
        }
        k := k + 1;
      }
      assert forall x :: x in recipes ==> x.id != id;
      k := -1;
    }

    /** RecipeViewSet.update: 404 for an unknown recipe; validate the draft; set the fields,
        set the tags to the submitted ones, delete all the recipe's ingredient rows and
        insert one per submitted entry. */
    method UpdateRecipe(id: RecipeId, d: Serializers.RecipeDraft) returns (r: Result<RecipeId, WriteError>)
      requires Valid()
      modifies this`recipes, this`ingredientRows, this`recipeTags
      ensures Valid()
      ensures r.Ok? <==> id in IdsOf(old(recipes)) && Serializers.DraftErrors(d, ingredients.Keys, tags.Keys) == {}
      ensures id !in IdsOf(old(recipes)) ==> r == Err(NotFound)
      ensures var errors := Serializers.DraftErrors(d, ingredients.Keys, tags.Keys);
              id in IdsOf(old(recipes)) && errors != {} ==> r == Err(Invalid(errors))
      ensures r.Err? ==> recipes == old(recipes) && ingredientRows == old(ingredientRows) && recipeTags == old(recipeTags)
      ensures r.Ok? ==>
                && r.value == id
                && recipes == UpdatedRecipes(old(recipes), id, d)
                && ingredientRows == RowsNotOfRecipe(old(ingredientRows), id) + Serializers.RowsFor(id, d.ingredients)
                && recipeTags == PairsWithoutFirst(old(recipeTags), id) + TagPairs(id, d.tags)
    {
      var k := FindRecipe(id);
      if k < 0 {
        return Err(NotFound);
      }
      var errors := Serializers.DraftErrors(d, ingredients.Keys, tags.Keys);
      if errors != {} {
        return Err(Invalid(errors));
      }
      WriteRecipe(k, d);
      r := Ok(id);
    }

    /** RecipeWriteSerializer.update on the recipe at position `k`, with a validated draft:
        replace its fields, set its tags to the submitted ones, delete all its ingredient
        rows and insert one per submitted entry. */
    method WriteRecipe(k: int, d: Serializers.RecipeDraft)
      requires Valid() && 0 <= k < |recipes|
      requires Serializers.DraftErrors(d, ingredients.Keys, tags.Keys) == {}
      modifies this`recipes, this`ingredientRows, this`recipeTags
      ensures Valid()
      ensures var id := old(recipes[k].id);
              && recipes == UpdatedRecipes(old(recipes), id, d)
              && ingredientRows == RowsNotOfRecipe(old(ingredientRows), id) + Serializers.RowsFor(id, d.ingredients)
              && recipeTags == PairsWithoutFirst(old(recipeTags), id) + TagPairs(id, d.tags)
    {
      var id := recipes[k].id;
      var rs, rows, rt := recipes, ingredientRows, recipeTags;
      UpdateAt(recipes, k, d);
      recipes := recipes[k := Serializers.DraftRecipe(d, id, recipes[k].author)];
      recipeTags := PairsWithoutFirst(recipeTags, id) + TagPairs(id, d.tags);
      ingredientRows := RowsNotOfRecipe(ingredientRows, id);
      InsertRows(id, d.ingredients);
      assert rs[k] in rs;
      UpdateKeepsState(users, tags, ingredients, rs, nextRecipeId, rows, rt, favorites, cart, follows, id, d);
    }

    // -------------------------------------------------------------------------------------
    // Deletions and their on_delete policies

    /** Deleting a recipe (RecipeViewSet.destroy): its TagRecipe, IngredientRecipe, Favorite and
        ShoppingСart rows go with it (CASCADE). */
    method DeleteRecipe(id: RecipeId) returns (status: Status)
      requires Valid()
      modifies this`recipes, this`ingredientRows, this`recipeTags, this`favorites, this`cart
      ensures Valid()
      ensures id !in IdsOf(recipes)
      ensures status == NotFound404 <==> id !in IdsOf(old(recipes))
      ensures status == NotFound404 ==> recipes == old(recipes) && ingredientRows == old(ingredientRows)
                                        && recipeTags == old(recipeTags) && favorites == old(favorites) && cart == old(cart)
      ensures status != NotFound404 ==>
                && status == NoContent204
                && recipes == RecipesWithout(old(recipes), id)
                && ingredientRows == RowsNotOfRecipe(old(ingredientRows), id)
                && recipeTags == PairsWithoutFirst(old(recipeTags), id)
                && favorites == PairsWithoutSecond(old(favorites), id)
                && cart == PairsWithoutSecond(old(cart), id)
    {
      if id !in IdsOf(recipes) {
        return NotFound404;
      }
      var rs, rows, rt, fav, ca := recipes, ingredientRows, recipeTags, favorites, cart;
      recipes := RecipesWithout(recipes, id);
      ingredientRows := RowsNotOfRecipe(ingredientRows, id);
      recipeTags := PairsWithoutFirst(recipeTags, id);
      favorites := PairsWithoutSecond(favorites, id);
      cart := PairsWithoutSecond(cart, id);
      DeleteRecipeKeepsState(users, tags, ingredients, rs, nextRecipeId, rows, rt, fav, ca, follows, id);
      return NoContent204;
    }

    /** Deleting a user: their Favorite, ShoppingСart and Subscribe rows go (CASCADE, on both
        sides of a subscription), and their recipes stay with no author (SET_NULL). */
    method DeleteUser(u: UserId)
      requires Valid() && u in users
      modifies this`users, this`recipes, this`favorites, this`cart, this`follows
      ensures Valid()
      ensures users == old(users) - {u}
      ensures recipes == OrphanRecipes(old(recipes), u)
      ensures favorites == PairsWithoutFirst(old(favorites), u)
      ensures cart == PairsWithoutFirst(old(cart), u)
      ensures follows == PairsWithoutSecond(PairsWithoutFirst(old(follows), u), u)
    {
      OrphanRecipesOk(recipes, nextRecipeId, users.Keys, u);
      DeleteUserRelationsOk(favorites, cart, follows, users.Keys, IdsOf(recipes), u);
      UsersOkWithout(users, u);
      users := users - {u};
      recipes := OrphanRecipes(recipes, u);
      favorites := PairsWithoutFirst(favorites, u);
      cart := PairsWithoutFirst(cart, u);
      follows := PairsWithoutSecond(PairsWithoutFirst(follows, u), u);
    }

    /** Deleting an ingredient removes the IngredientRecipe rows that use it (CASCADE). */
    method DeleteIngredient(i: IngredientId)
      requires Valid() && i in ingredients
      modifies this`ingredients, this`ingredientRows
      ensures Valid()
      ensures ingredients == old(ingredients) - {i}
      ensures ingredientRows == RowsNotOfIngredient(old(ingredientRows), i)
    {
      ingredients := ingredients - {i};
      ingredientRows := RowsNotOfIngredient(ingredientRows, i);
    }

    /** Deleting a tag removes the TagRecipe rows that use it (CASCADE). */
    method DeleteTag(t: TagId)
      requires Valid() && t in tags
      modifies this`tags, this`recipeTags
      ensures Valid()
      ensures tags == old(tags) - {t}
      ensures recipeTags == PairsWithoutSecond(old(recipeTags), t)
    {
      tags := tags - {t};
      recipeTags := PairsWithoutSecond(recipeTags, t);
    }

    // -------------------------------------------------------------------------------------
    // Reads

    /** RecipeViewSet.download_shopping_cart for the authenticated `user`. */
    function DownloadShoppingCart(user: UserId): (text: string)
      requires Valid()
      reads this
      ensures exists lines :: ShoppingList.IsShoppingList(CartItems(ingredientRows, cart, user, ingredients), lines)
                              && text == ShoppingList.Render(lines)
      ensures (forall p :: p in cart ==> p.0 != user) ==> text == ""
    {
      ShoppingList.DownloadText(CartItems(ingredientRows, cart, user, ingredients))
    }

    /** UserWithRecipesSerializer.get_recipes for `author`. */
    function SubscriptionRecipes(author: UserId, limit: Serializers.Limit): (r: Result<seq<Recipe>, Serializers.RecipesError>)
      requires Valid()
      reads this
      ensures r == Serializers.RecipesOf(recipes, author, limit)
      ensures limit.NotInteger? <==> r == Err(Serializers.BadRequest)
      ensures r.Ok? ==> forall x :: x in r.value ==> x in recipes && x.author == Some(author)
      ensures r.Ok? ==> Serializers.IdsDecreasing(r.value)
    {
      Serializers.RecipesOf(recipes, author, limit)
    }
  }
}
