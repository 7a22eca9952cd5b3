/** Request and response vocabulary shared by the views, permissions and filters. */
module Http {

  /** The response codes the modelled views can answer with; 500 is what an unhandled
      database IntegrityError becomes. */
  datatype Status = Ok200 | Created201 | NoContent204 | BadRequest400 | NotFound404 | InternalServerError500

  /** HTTP request methods. */
  datatype Method = Get | Head | Options | Post | Put | Patch | Delete

  /** The REST toolkit's SAFE_METHODS: GET, HEAD and OPTIONS. */
  predicate IsSafe(m: Method) {
    m == Get || m == Head || m == Options
  }

  /** The methods the favorite, shopping_cart and subscribe actions are routed for. */
  predicate IsToggleMethod(m: Method) {
    m == Post || m == Delete
  }

  type UserId = int

  /** `request.user`: the anonymous user, or an account with its staff and superuser flags. */
  datatype Requester =
    | Anonymous
    | Account(id: UserId, isStaff: bool, isSuperuser: bool)
  {
    predicate IsAuthenticated() { Account? }
    /** `request.user.is_staff`; false for the anonymous user. */
    predicate IsStaff() { Account? && isStaff }
    /** `request.user.is_superuser`; false for the anonymous user. */
    predicate IsSuperuser() { Account? && isSuperuser }
    /** `request.user == u` for a stored user id `u`; never true for the anonymous user. */
    predicate Is(u: UserId) { Account? && id == u }
  }
}
