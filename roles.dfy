/** What both authentication front ends share: the signed-in user as kept under
    the `userData` storage key, and the two role predicates. */
module Roles {
  import opened Common
  import opened AuthApi
  import opened Text

  /** The `userData` key's content: the JSON of a user, or text `JSON.parse` rejects. */
  datatype UserRecord = UserJson(user: User) | Malformed

  /** The message of the SyntaxError `JSON.parse` throws on a malformed record;
      its exact wording is the JavaScript engine's. */
  const MalformedUserData: string := "Unexpected token in JSON"

  /** isAdmin: a user is signed in and has role admin. */
  predicate IsAdmin(user: Option<User>)
    ensures IsAdmin(user) ==> IsStaff(user)
  {
    user.Some? && user.value.role == Admin
  }

  /** isStaff: role staff or admin; with only those two roles, that is any
      signed-in user. */
  predicate IsStaff(user: Option<User>)
    ensures IsStaff(user) <==> user.Some?
  {
    user.Some? && (user.value.role == Staff || user.value.role == Admin)
  }

  /** The role a login assigns decides both predicates: an email containing
      "admin" gives an administrator, any other a staff member who is not one. */
  lemma {:induction false} LoginRoleDecidesPredicates(email: string)
    ensures IsAdmin(Some(UserFor(email))) <==> Contains(email, "admin")
    ensures IsStaff(Some(UserFor(email)))
  {
  }
}
