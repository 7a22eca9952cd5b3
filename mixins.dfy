/**
 * AddDelViewMixin._add_del_obj (api/mixins.py): the generic add/remove of a many-to-many
 * row between the requesting user and an object of the view's queryset. The sets of
 * methods that add and that delete are parameters (their definition is not part of this
 * model), and the filter `q & Q(user=request.user)` is read as "the (user, object) row".
 *
 * The row is saved as `m2m_model(None, obj.id, request.user.id)`, which fills the model's
 * fields by position. Every pair model of the schema declares `user` before the object
 * (FavoriteShoppingCartModel, Subscribe), so as written the saved row is (obj, user).
 * AddDelStepAsWritten models that; AddDelStep is the evidently intended (user, object)
 * row, and the class uses it.
 */
module Mixins {
  import opened Http
  import opened Schema
  import Toggle

  /** What one call answers and the rows after it: 404 when the object is not in the
      queryset; an adding method with no row creates it (201); otherwise a deleting method
      with a row deletes it (204); anything else is 400. */
  function AddDelStep(rows: PairTable, objExists: bool, user: UserId, obj: int, verb: Method,
                      addMethods: set<Method>, delMethods: set<Method>): (r: Toggle.Outcome)
    ensures !objExists ==> r == Toggle.Outcome(NotFound404, rows)
    ensures r.status == Created201 <==> objExists && verb in addMethods && (user, obj) !in rows
    ensures r.status == NoContent204 <==> objExists && verb in delMethods && (user, obj) in rows
                                          && !(verb in addMethods && (user, obj) !in rows)
    ensures r.status == Created201 ==> r.rel == rows + {(user, obj)} && |r.rel| == |rows| + 1
    ensures r.status == NoContent204 ==> r.rel == rows - {(user, obj)} && |r.rel| == |rows| - 1
    ensures r.status == BadRequest400 || r.status == NotFound404 ==> r.rel == rows
    ensures r.status in {Created201, NoContent204, BadRequest400, NotFound404}
  {
    if !objExists then Toggle.Outcome(NotFound404, rows)
    else if verb in addMethods && (user, obj) !in rows then Toggle.Outcome(Created201, rows + {(user, obj)})
    else if verb in delMethods && (user, obj) in rows then Toggle.Outcome(NoContent204, rows - {(user, obj)})
    else Toggle.Outcome(BadRequest400, rows)
  }

  /** The step as written, for a model declaring `user` first: the filter looks for
      (user, obj), but the positional constructor saves (obj, user). When that swapped row
      is already there, the model's UniqueConstraint refuses the insert and the request
      fails with 500. */
  function AddDelStepAsWritten(rows: PairTable, objExists: bool, user: UserId, obj: int, verb: Method,
                               addMethods: set<Method>, delMethods: set<Method>): (r: Toggle.Outcome)
    ensures !objExists ==> r == Toggle.Outcome(NotFound404, rows)
    ensures r.status == Created201 <==>
              objExists && verb in addMethods && (user, obj) !in rows && (obj, user) !in rows
    ensures r.status == InternalServerError500 <==>
              objExists && verb in addMethods && (user, obj) !in rows && (obj, user) in rows
    ensures r.status == Created201 ==> r.rel == rows + {(obj, user)}
    ensures r.status == InternalServerError500 ==> r.rel == rows
    ensures r.status in {NotFound404, NoContent204, BadRequest400} ==>
              r == AddDelStep(rows, objExists, user, obj, verb, addMethods, delMethods)
  {
    if !objExists then Toggle.Outcome(NotFound404, rows)
    else if verb in addMethods && (user, obj) !in rows then
      if (obj, user) in rows then Toggle.Outcome(InternalServerError500, rows)
      else Toggle.Outcome(Created201, rows + {(obj, user)})
    else if verb in delMethods && (user, obj) in rows then Toggle.Outcome(NoContent204, rows - {(user, obj)})
    else Toggle.Outcome(BadRequest400, rows)
  }

  /** The two readings agree only when the user and the object have the same id. */
  lemma AsWrittenAgreesOnlyOnDiagonal(rows: PairTable, user: UserId, obj: int, verb: Method,
                                      addMethods: set<Method>, delMethods: set<Method>)
    ensures user == obj ==>
              AddDelStepAsWritten(rows, true, user, obj, verb, addMethods, delMethods)
              == AddDelStep(rows, true, user, obj, verb, addMethods, delMethods)
    ensures user != obj && verb in addMethods && (user, obj) !in rows ==>
              AddDelStepAsWritten(rows, true, user, obj, verb, addMethods, delMethods)
              != AddDelStep(rows, true, user, obj, verb, addMethods, delMethods)
  {
  }

  /** As written, a second POST for the same object does not see the row the first one
      saved: it tries the same insert again and fails with 500, where the intended step
      answers 400. */
  lemma AsWrittenRepeatedPostFails(rows: PairTable, user: UserId, obj: int)
    requires user != obj && (user, obj) !in rows && (obj, user) !in rows
    ensures var first := AddDelStepAsWritten(rows, true, user, obj, Post, {Post}, {Delete});
            var second := AddDelStepAsWritten(first.rel, true, user, obj, Post, {Post}, {Delete});
            && first.status == Created201 && (user, obj) !in first.rel
            && second.status == InternalServerError500
    ensures var first := AddDelStep(rows, true, user, obj, Post, {Post}, {Delete});
            AddDelStep(first.rel, true, user, obj, Post, {Post}, {Delete}).status == BadRequest400
  {
  }

  /** With POST as the only adding and DELETE as the only deleting method, the mixin answers
      every POST and DELETE exactly as the favorite and shopping_cart actions do. */
  lemma MixinAgreesWithRecipeToggle(rows: PairTable, objExists: bool, user: UserId, obj: int, verb: Method)
    requires IsToggleMethod(verb)
    ensures AddDelStep(rows, objExists, user, obj, verb, {Post}, {Delete})
         == Toggle.RecipeToggle(rows, objExists, user, obj, verb)
  {
  }

  /** A method in neither set can never change the rows. */
  lemma OtherMethodsChangeNothing(rows: PairTable, objExists: bool, user: UserId, obj: int, verb: Method,
                                  addMethods: set<Method>, delMethods: set<Method>)
    requires verb !in addMethods && verb !in delMethods
    ensures AddDelStep(rows, objExists, user, obj, verb, addMethods, delMethods).rel == rows
    ensures objExists ==> AddDelStep(rows, objExists, user, obj, verb, addMethods, delMethods).status == BadRequest400
  {
  }

  /** A view using the mixin: the ids of its queryset, the rows of its many-to-many model,
      and the methods that add and delete. */
  class AddDelRelation {
    var objects: set<int>
    var rows: PairTable
    const addMethods: set<Method>
    const delMethods: set<Method>

    constructor(objects: set<int>, rows: PairTable, addMethods: set<Method>, delMethods: set<Method>)
      ensures this.objects == objects && this.rows == rows
      ensures this.addMethods == addMethods && this.delMethods == delMethods
    {
      this.objects := objects;
      this.rows := rows;
      this.addMethods := addMethods;
      this.delMethods := delMethods;
    }

    /** _add_del_obj for the requesting user and `objId`. */
    method AddDelObj(user: UserId, objId: int, verb: Method) returns (status: Status)
      modifies this`rows
      ensures Toggle.Outcome(status, rows)
           == AddDelStep(old(rows), objId in objects, user, objId, verb, addMethods, delMethods)
    {
      if objId !in objects {
        return NotFound404;
      }
      var found := (user, objId) in rows;
      if verb in addMethods && !found {
        rows := rows + {(user, objId)};
        return Created201;
      }
      if verb in delMethods && found {
        rows := rows - {(user, objId)};
        return NoContent204;
      }
      return BadRequest400;
    }
  }
}
