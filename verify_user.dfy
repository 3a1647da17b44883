/** The account-verification guard of src/middlewares/verifyUser.js. */
module VerifyUser {
  import opened Wrappers
  import opened Authenticate

  /** A stored user with the fields the guard reads. */
  datatype StoredUser = StoredUser(id: string, email: string, role: string, isVerified: bool)

  /** The user lookup: a map from id to user, or a lookup that throws. */
  datatype UserLookup = Users(byId: map<string, StoredUser>) | LookupThrows

  /** `req.user?.id` is missing or empty, so falsy. */
  predicate MissingId(reqUser: Option<Principal>) {
    reqUser.None? || reqUser.value.id.None? || reqUser.value.id.value == ""
  }

  /** The guards in order: 400 without an id, 500 when the lookup throws, 404 for an unknown id,
      403 for an unverified account; otherwise `req.user` becomes the stored user. */
  function VerifyUser(reqUser: Option<Principal>, db: UserLookup): (r: Gate<StoredUser>)
    ensures MissingId(reqUser) ==> r == Respond(400)
    ensures !MissingId(reqUser) && db.LookupThrows? ==> r == Respond(500)
    ensures !MissingId(reqUser) && db.Users? && reqUser.value.id.value !in db.byId ==> r == Respond(404)
    ensures (!MissingId(reqUser) && db.Users? && reqUser.value.id.value in db.byId
             && !db.byId[reqUser.value.id.value].isVerified) ==> r == Respond(403)
    ensures r.Next? <==>
      !MissingId(reqUser) && db.Users? && reqUser.value.id.value in db.byId && db.byId[reqUser.value.id.value].isVerified
    ensures r.Next? ==> r.user == db.byId[reqUser.value.id.value]
  {
    if MissingId(reqUser) then Respond(400)
    else
      var id := reqUser.value.id.value;
      match db
      case LookupThrows => Respond(500)
      case Users(byId) =>
        if id !in byId then Respond(404)
        else if !byId[id].isVerified then Respond(403)
        else Next(byId[id])
  }

  /** The first failing guard decides: an unverified account is reported only once the id is
      present and known, and a missing id is reported whatever the store holds. */
  lemma GuardOrder(reqUser: Option<Principal>, db: UserLookup)
    ensures VerifyUser(reqUser, db) == Respond(403) ==> !MissingId(reqUser) && db.Users? && reqUser.value.id.value in db.byId
    ensures VerifyUser(reqUser, db) == Respond(404) ==> !MissingId(reqUser) && db.Users?
    ensures MissingId(reqUser) ==> VerifyUser(reqUser, db) == VerifyUser(reqUser, LookupThrows)
  {
  }
}
