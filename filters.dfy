/**
 * The filters of api/filters.py over query results, modelled as sequences of rows. Each
 * filter keeps a sub-multiset of its input; the relation lookups `favorites__user` and
 * `shopping_list__user` become membership of the (user, recipe) pair in the relation.
 */
module Filters {
  import opened Wrappers
  import opened Http
  import opened Schema
  import Text
  import Serializers

  /** `queryset.filter(...)`: keep the rows satisfying `p`, each as often as it occurred. */
  function Keep<T(==,!new)>(s: seq<T>, p: T -> bool): (r: seq<T>)
    ensures forall x :: multiset(r)[x] == if p(x) then multiset(s)[x] else 0
    ensures forall x :: x in r <==> x in s && p(x)
    ensures |r| <= |s|
  {
    if s == [] then []
    else
      var rest := Keep(s[1..], p);
      assert s == [s[0]] + s[1..];
      if p(s[0]) then [s[0]] + rest else rest
  }

  /** IngredientFilter.name with lookup_expr='startswith' (a case-sensitive prefix match). */
  function IngredientNameFilter(ingredients: seq<Ingredient>, query: string): (r: seq<Ingredient>)
    ensures forall i :: i in r <==> i in ingredients && Text.IsPrefix(query, i.name)
    ensures forall i :: multiset(r)[i] <= multiset(ingredients)[i]
    ensures query == "" ==> r == ingredients
  {
    var r := Keep(ingredients, (i: Ingredient) => Text.IsPrefix(query, i.name));
    if query == "" then
      KeepAll(ingredients, (i: Ingredient) => Text.IsPrefix(query, i.name));
      r
    else r
  }

  /** Keeping with a predicate that holds everywhere changes nothing. */
  lemma {:induction false} KeepAll<T(!new)>(s: seq<T>, p: T -> bool)
    requires forall x :: x in s ==> p(x)
    ensures Keep(s, p) == s
  {
    if s != [] {
      assert forall x :: x in s[1..] ==> x in s;
      KeepAll(s[1..], p);
    }
  }

  /** RecipeFilter.filter_is_favorited. */
  function FilterIsFavorited(recipes: seq<Recipe>, favorites: PairTable, user: Requester, value: bool): (r: seq<Recipe>)
    ensures !value || user.Anonymous? ==> r == recipes
    ensures value && user.Account? ==>
              forall x :: multiset(r)[x] == if (user.id, x.id) in favorites then multiset(recipes)[x] else 0
    ensures forall x :: x in r ==> x in recipes
  {
    if value && !user.Anonymous? then Keep(recipes, (x: Recipe) => (user.id, x.id) in favorites)
    else recipes
  }

  /** RecipeFilter.filter_is_in_shopping_cart. */
  function FilterIsInShoppingCart(recipes: seq<Recipe>, cart: PairTable, user: Requester, value: bool): (r: seq<Recipe>)
    ensures !value || user.Anonymous? ==> r == recipes
    ensures value && user.Account? ==>
              forall x :: multiset(r)[x] == if (user.id, x.id) in cart then multiset(recipes)[x] else 0
    ensures forall x :: x in r ==> x in recipes
  {
    if value && !user.Anonymous? then Keep(recipes, (x: Recipe) => (user.id, x.id) in cart)
    else recipes
  }

  /** The favorited filter and the is_favorited flag agree: with the flag requested, every
      recipe listed shows `is_favorited: true`, and every input recipe showing it is listed. */
  lemma FavoritedFilterMatchesFlag(recipes: seq<Recipe>, favorites: PairTable, user: Requester)
    requires user.Account?
    ensures forall x :: x in FilterIsFavorited(recipes, favorites, user, true) <==>
                          x in recipes && Serializers.PairFlag(user, favorites, x.id)
  {
    var r := FilterIsFavorited(recipes, favorites, user, true);
    forall x ensures x in r <==> x in recipes && Serializers.PairFlag(user, favorites, x.id) {
      assert x in r <==> multiset(r)[x] > 0;
      assert x in recipes <==> multiset(recipes)[x] > 0;
    }
  }

  /** RecipeFilter.author: an exact match on the author column; an empty value leaves the
      queryset unfiltered. */
  function FilterByAuthor(recipes: seq<Recipe>, author: Option<UserId>): (r: seq<Recipe>)
    ensures author.None? ==> r == recipes
    ensures author.Some? ==> forall x :: x in r <==> x in recipes && x.author == author
    ensures forall x :: multiset(r)[x] <= multiset(recipes)[x]
  {
    if author.None? then recipes else Keep(recipes, (x: Recipe) => x.author == author)
  }

  /** RecipeFilter.tags: recipes carrying ANY of the chosen tags (the slugs resolved to tag
      ids); no tags chosen leaves the queryset unfiltered. */
  function FilterByTags(recipes: seq<Recipe>, recipeTags: set<(RecipeId, TagId)>, tags: set<TagId>): (r: seq<Recipe>)
    ensures tags == {} ==> r == recipes
    ensures tags != {} ==> forall x :: x in r <==> x in recipes && exists t :: t in tags && (x.id, t) in recipeTags
    ensures forall x :: multiset(r)[x] <= multiset(recipes)[x]
  {
    if tags == {} then recipes
    else Keep(recipes, (x: Recipe) => exists t :: t in tags && (x.id, t) in recipeTags)
  }
}
