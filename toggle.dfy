/**
 * The relation toggles of api/views.py as pure steps over a table of (user, target) pairs:
 * RecipeViewSet.favorite and RecipeViewSet.shopping_cart on (user, recipe) pairs, and
 * UserViewSet.subscribe on (subscriber, author) pairs. Each step gives the response status
 * and the table after the request. The classes of modules Store and Mixins perform the same
 * steps in place and are specified by these functions.
 */
module Toggle {
  import opened Http
  import opened Schema

  datatype Outcome = Outcome(status: Status, rel: PairTable)

  /** favorite / shopping_cart: 404 for an unknown recipe; DELETE removes the pair (204) or
      answers 400 when no row was deleted; POST's get_or_create adds the pair (201) or answers
      400 when it already existed. */
  function RecipeToggle(rel: PairTable, recipeExists: bool, user: UserId, recipe: RecipeId, verb: Method): (r: Outcome)
    requires IsToggleMethod(verb)
    ensures r.status == NotFound404 <==> !recipeExists
    ensures r.status == Created201 <==> recipeExists && verb == Post && (user, recipe) !in rel
    ensures r.status == NoContent204 <==> recipeExists && verb == Delete && (user, recipe) in rel
    ensures r.status == BadRequest400 <==>
              recipeExists && (verb == Post <==> (user, recipe) in rel)
    ensures r.status == Created201 ==> r.rel == rel + {(user, recipe)} && |r.rel| == |rel| + 1
    ensures r.status == NoContent204 ==> r.rel == rel - {(user, recipe)} && |r.rel| == |rel| - 1
    ensures r.status == BadRequest400 || r.status == NotFound404 ==> r.rel == rel
    ensures forall p :: p != (user, recipe) ==> (p in r.rel <==> p in rel)
  {
    if !recipeExists then Outcome(NotFound404, rel)
    else if verb == Delete then
      if (user, recipe) in rel then Outcome(NoContent204, rel - {(user, recipe)})
      else Outcome(BadRequest400, rel)
    else
      if (user, recipe) in rel then Outcome(BadRequest400, rel)
      else Outcome(Created201, rel + {(user, recipe)})
  }

  /** subscribe: 404 for an unknown author; DELETE as for favorites; POST refuses a
      subscription to oneself and a repeated subscription with 400, and otherwise creates
      the (user, author) row. */
  function SubscribeToggle(follows: PairTable, authorExists: bool, user: UserId, author: UserId, verb: Method): (r: Outcome)
    requires IsToggleMethod(verb)
    ensures r.status == NotFound404 <==> !authorExists
    ensures r.status == Created201 <==>
              authorExists && verb == Post && user != author && (user, author) !in follows
    ensures r.status == NoContent204 <==> authorExists && verb == Delete && (user, author) in follows
    ensures r.status == BadRequest400 <==>
              authorExists && (if verb == Post then user == author || (user, author) in follows
                               else (user, author) !in follows)
    ensures authorExists && verb == Post && user == author ==> r == Outcome(BadRequest400, follows)
    ensures r.status == Created201 ==> r.rel == follows + {(user, author)} && |r.rel| == |follows| + 1
    ensures r.status == NoContent204 ==> r.rel == follows - {(user, author)} && |r.rel| == |follows| - 1
    ensures r.status == BadRequest400 || r.status == NotFound404 ==> r.rel == follows
  {
    if !authorExists then Outcome(NotFound404, follows)
    else if verb == Delete then
      if (user, author) in follows then Outcome(NoContent204, follows - {(user, author)})
      else Outcome(BadRequest400, follows)
    else if user == author then Outcome(BadRequest400, follows)
    else if (user, author) in follows then Outcome(BadRequest400, follows)
    else Outcome(Created201, follows + {(user, author)})
  }

  /** serializer_delete_method (api/utils.py): 404 when the recipe or the (user, recipe) row
      is missing; otherwise exactly that row is deleted (NoContent204 stands for "deleted",
      the answer being the caller's). */
  function DeleteRow(rel: PairTable, recipeExists: bool, user: UserId, recipe: RecipeId): (r: Outcome)
    ensures r.status == NoContent204 <==> recipeExists && (user, recipe) in rel
    ensures r.status != NoContent204 ==> r == Outcome(NotFound404, rel)
    ensures r.status == NoContent204 ==> r.rel == rel - {(user, recipe)} && |r.rel| == |rel| - 1
  {
    if !recipeExists then Outcome(NotFound404, rel)
    else if (user, recipe) !in rel then Outcome(NotFound404, rel)
    else Outcome(NoContent204, rel - {(user, recipe)})
  }

  /** serializer_delete_method deletes what a DELETE of the favorite action deletes; where the
      action answers 400 for a missing row, it answers 404. */
  lemma DeleteRowAgreesWithToggle(rel: PairTable, recipeExists: bool, user: UserId, recipe: RecipeId)
    ensures DeleteRow(rel, recipeExists, user, recipe).rel == RecipeToggle(rel, recipeExists, user, recipe, Delete).rel
    ensures RecipeToggle(rel, recipeExists, user, recipe, Delete).status == BadRequest400
            <==> recipeExists && DeleteRow(rel, recipeExists, user, recipe).status == NotFound404
  {
  }

  /** Nobody follows themselves. */
  predicate NoSelfFollow(follows: PairTable) {
    forall p :: p in follows ==> p.0 != p.1
  }

  // ---------------------------------------------------------------------------------------
  // Sequences of requests

  /** A second POST of the same pair answers 400 and leaves the single row the first one
      created. */
  lemma AddTwice(rel: PairTable, user: UserId, recipe: RecipeId)
    requires (user, recipe) !in rel
    ensures var first := RecipeToggle(rel, true, user, recipe, Post);
            var second := RecipeToggle(first.rel, true, user, recipe, Post);
            first.status == Created201 && second.status == BadRequest400
            && second.rel == rel + {(user, recipe)} && |second.rel| == |rel| + 1
  {
  }

  /** POST then DELETE of a new pair returns the table to what it was; DELETE then POST of an
      existing pair too. */
  lemma AddDeleteRoundTrip(rel: PairTable, user: UserId, recipe: RecipeId)
    ensures (user, recipe) !in rel ==>
              var added := RecipeToggle(rel, true, user, recipe, Post);
              RecipeToggle(added.rel, true, user, recipe, Delete) == Outcome(NoContent204, rel)
    ensures (user, recipe) in rel ==>
              var removed := RecipeToggle(rel, true, user, recipe, Delete);
              RecipeToggle(removed.rel, true, user, recipe, Post) == Outcome(Created201, rel)
  {
    if (user, recipe) !in rel {
      assert rel + {(user, recipe)} - {(user, recipe)} == rel;
    } else {
      assert rel - {(user, recipe)} + {(user, recipe)} == rel;
    }
  }

  /** The toggle of one relation is independent of the other pairs: requests for different
      pairs commute. */
  lemma TogglesCommute(rel: PairTable, u1: UserId, r1: RecipeId, v1: Method, u2: UserId, r2: RecipeId, v2: Method)
    requires IsToggleMethod(v1) && IsToggleMethod(v2)
    requires (u1, r1) != (u2, r2)
    ensures RecipeToggle(RecipeToggle(rel, true, u1, r1, v1).rel, true, u2, r2, v2).rel
         == RecipeToggle(RecipeToggle(rel, true, u2, r2, v2).rel, true, u1, r1, v1).rel
  {
    var a := RecipeToggle(RecipeToggle(rel, true, u1, r1, v1).rel, true, u2, r2, v2).rel;
    var b := RecipeToggle(RecipeToggle(rel, true, u2, r2, v2).rel, true, u1, r1, v1).rel;
    assert forall p :: p in a <==> p in b;
  }

  /** subscribe keeps the table free of self-subscriptions, and a POST to oneself never
      creates one. */
  lemma SubscribeKeepsNoSelfFollow(follows: PairTable, authorExists: bool, user: UserId, author: UserId, verb: Method)
    requires IsToggleMethod(verb) && NoSelfFollow(follows)
    ensures NoSelfFollow(SubscribeToggle(follows, authorExists, user, author, verb).rel)
  {
  }

  /** A repeated subscription answers 400 and leaves exactly the one row. */
  lemma SubscribeTwice(follows: PairTable, user: UserId, author: UserId)
    requires user != author && (user, author) !in follows
    ensures var first := SubscribeToggle(follows, true, user, author, Post);
            var second := SubscribeToggle(first.rel, true, user, author, Post);
            first.status == Created201 && second.status == BadRequest400
            && second.rel == follows + {(user, author)}
  {
  }

  /** Apart from the self-subscription check, subscribe is the favorite toggle. */
  lemma SubscribeIsRecipeToggleElsewhere(follows: PairTable, authorExists: bool, user: UserId, author: UserId, verb: Method)
    requires IsToggleMethod(verb)
    requires verb == Delete || user != author
    ensures SubscribeToggle(follows, authorExists, user, author, verb)
         == RecipeToggle(follows, authorExists, user, author, verb)
  {
  }
}
