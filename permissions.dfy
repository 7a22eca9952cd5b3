/**
 * The permission classes of ingredients/permissions.py and api/permissions.py as boolean
 * functions of the request method, the requesting user and the object's author.
 */
module Permissions {
  import opened Wrappers
  import opened Http

  /** `obj.author == request.user`: false for a recipe whose author was deleted (None) and
      for the anonymous user. */
  predicate IsAuthorOf(user: Requester, author: Option<UserId>) {
    author.Some? && user.Is(author.value)
  }

  // ingredients/permissions.py

  /** AdminOrReadOnly.has_permission. */
  function AdminOrReadOnly(verb: Method, user: Requester): (allowed: bool)
    ensures IsSafe(verb) ==> allowed
    ensures !IsSafe(verb) ==> (allowed <==> user.IsSuperuser())
  {
    IsSafe(verb) || user.IsSuperuser()
  }

  /** AuthorOrReadOnly.has_permission. */
  function AuthorOrReadOnly(verb: Method, user: Requester): (allowed: bool)
    ensures IsSafe(verb) ==> allowed
    ensures !IsSafe(verb) ==> (allowed <==> user.IsAuthenticated())
  {
    IsSafe(verb) || user.IsAuthenticated()
  }

  /** AuthorOrReadOnly.has_object_permission. */
  function AuthorOrReadOnlyObject(verb: Method, user: Requester, author: Option<UserId>): (allowed: bool)
    ensures IsSafe(verb) ==> allowed
    ensures !IsSafe(verb) ==> (allowed <==> IsAuthorOf(user, author) || user.IsSuperuser())
    ensures user.Anonymous? ==> (allowed <==> IsSafe(verb))
  {
    IsSafe(verb) || IsAuthorOf(user, author) || user.IsSuperuser()
  }

  /** AdminOrAuthor.has_object_permission (`request.user == obj.author`, the equality written
      the other way round). */
  function AdminOrAuthorObject(verb: Method, user: Requester, author: Option<UserId>): (allowed: bool)
    ensures allowed == AuthorOrReadOnlyObject(verb, user, author)
  {
    IsSafe(verb) || (author.Some? && user.Is(author.value)) || user.IsSuperuser()
  }

  // api/permissions.py

  /** IsOwnerOrReadOnly.has_object_permission: no staff or superuser override. */
  function IsOwnerOrReadOnly(verb: Method, user: Requester, author: Option<UserId>): (allowed: bool)
    ensures IsSafe(verb) ==> allowed
    ensures !IsSafe(verb) ==> (allowed <==> IsAuthorOf(user, author))
  {
    IsSafe(verb) || IsAuthorOf(user, author)
  }

  /** IsAdminOrReadOnly.has_permission: staff, not superuser, unlocks writes. */
  function IsAdminOrReadOnly(verb: Method, user: Requester): (allowed: bool)
    ensures IsSafe(verb) ==> allowed
    ensures !IsSafe(verb) ==> (allowed <==> user.IsStaff())
  {
    IsSafe(verb) || user.IsStaff()
  }

  /** The owner check is strictly narrower than AuthorOrReadOnly's: whatever it allows,
      AuthorOrReadOnly allows too, and a superuser who is not the author is refused a
      write by the owner check alone. */
  lemma OwnerCheckIsNarrower(verb: Method, user: Requester, author: Option<UserId>)
    ensures IsOwnerOrReadOnly(verb, user, author) ==> AuthorOrReadOnlyObject(verb, user, author)
    ensures !IsSafe(verb) && user.IsSuperuser() && !IsAuthorOf(user, author) ==>
              !IsOwnerOrReadOnly(verb, user, author) && AuthorOrReadOnlyObject(verb, user, author)
  {
  }
}
