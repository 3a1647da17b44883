/** The token gate and the admin check of src/middlewares/authenticate.js. */
module Authenticate {
  import opened Wrappers

  /** A user as the token strategy returns it. */
  datatype Principal = Principal(id: Option<string>, role: string)

  /** A middleware either answers with a status or passes the request on with `req.user`. */
  datatype Gate<T> = Respond(status: int) | Next(user: T)

  /** The callback of `passport.authenticate('jwt')`: `err` is a strategy error, `user` the user
      it resolved (absent when the token is missing, invalid or expired). */
  function Authenticate(err: Option<string>, user: Option<Principal>): (r: Gate<Principal>)
    ensures err.Some? ==> r == Respond(500)
    ensures err.None? && user.None? ==> r == Respond(401)
    ensures r.Next? <==> err.None? && user.Some?
    ensures r.Next? ==> r.user == user.value
  {
    if err.Some? then Respond(500)
    else if user.None? then Respond(401)
    else Next(user.value)
  }

  /** `authorizeAdmin`: only the exact role "admin" passes. */
  function AuthorizeAdmin(user: Principal): (r: Gate<Principal>)
    ensures r.Next? <==> user.role == "admin"
    ensures r.Respond? ==> r.status == 403
    ensures r.Next? ==> r.user == user
  {
    if user.role != "admin" then Respond(403) else Next(user)
  }

  /** The role the seed data gives its administrator, "ADMIN", does not pass the check. */
  lemma SeededAdminRejected(id: Option<string>)
    ensures AuthorizeAdmin(Principal(id, "ADMIN")) == Respond(403)
  {
  }
}
