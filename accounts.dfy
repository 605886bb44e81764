/** The user table behind `/create-account`, `/login` and `/get-user`.
    The `User` model file is not part of this model; its shape is the one
    the handlers construct: full name, email and the hashed password. */
module Accounts {
  import opened Collection

  type UserId = nat

  datatype User = User(id: UserId, fullName: string, email: string, password: string)

  /** What registration and login put in the response: name and email only. */
  datatype PublicUser = PublicUser(fullName: string, email: string)

  /** Stand-in for the signed JSON Web Token: the claim it carries and the
      instant it expires. The signature is not modelled. */
  datatype AccessToken = AccessToken(userId: UserId, expiresAt: int)

  datatype Session = Session(user: PublicUser, accessToken: AccessToken)

  /** `expiresIn: "72h"`, in milliseconds. */
  const TokenLifetimeMs: int := 72 * 60 * 60 * 1000

  function Public(u: User): PublicUser {
    PublicUser(u.fullName, u.email)
  }

  /** `jwt.sign({ userId }, secret, { expiresIn: "72h" })` at time `now`. */
  function Sign(userId: UserId, now: int): AccessToken {
    AccessToken(userId, now + TokenLifetimeMs)
  }

  predicate EmailsUnique(users: seq<User>) {
    forall i, j :: 0 <= i < j < |users| ==> users[i].email != users[j].email
  }

  predicate UserIdsUnique(users: seq<User>) {
    forall i, j :: 0 <= i < j < |users| ==> users[i].id != users[j].id
  }

  /** `User.findOne({ email })`. */
  function FindByEmail(users: seq<User>, email: string): (r: Option<nat>)
    ensures r.Some? ==> r.value < |users| && users[r.value].email == email
    ensures r.None? <==> forall k :: 0 <= k < |users| ==> users[k].email != email
  {
    FindOne(users, (u: User) => u.email == email)
  }

  /** `User.findOne({ _id: userId })`. */
  function FindUserById(users: seq<User>, id: UserId): (r: Option<nat>)
    ensures r.Some? ==> r.value < |users| && users[r.value].id == id
    ensures r.None? <==> forall k :: 0 <= k < |users| ==> users[k].id != id
  {
    FindOne(users, (u: User) => u.id == id)
  }

  /** With unique emails, the user `findOne({ email })` returns is the only
      one holding that email. */
  lemma FoundByEmailIsOnly(users: seq<User>, email: string, k: nat)
    requires EmailsUnique(users)
    requires k < |users| && users[k].email == email
    ensures FindByEmail(users, email) == Some(k)
  {
  }

  /** Appending a user whose email nobody holds keeps emails unique. */
  lemma AppendKeepsEmailsUnique(users: seq<User>, u: User)
    requires EmailsUnique(users)
    requires FindByEmail(users, u.email).None?
    ensures EmailsUnique(users + [u])
  {
  }
}
