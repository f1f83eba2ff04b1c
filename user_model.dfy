/**
  The user collection: a sequence of user documents in insertion order, so that
  `findOne` and `findById` return the first match. Emails are unique (a unique
  index) and so are ids. Passwords are stored as whatever the hashing function
  makes of them; hashing itself is a parameter.
 */
module UserModel {
  import opened Common

  datatype User = User(
    id: string,
    fullName: string,
    email: string,
    passwordHash: string,
    address: Option<string>,
    phone: Option<int>,
    balance: real)

  /** No two users share an id, and no two share an email. */
  predicate UniqueKeys(users: seq<User>) {
    forall i, j :: 0 <= i < j < |users| ==> users[i].id != users[j].id && users[i].email != users[j].email
  }

  /** `User.findById(id)` */
  function FindById(users: seq<User>, id: string): (k: int)
    ensures -1 <= k < |users|
    ensures k == -1 <==> forall i :: 0 <= i < |users| ==> users[i].id != id
    ensures k >= 0 ==> users[k].id == id && forall i :: 0 <= i < k ==> users[i].id != id
  {
    FirstIndex(users, (u: User) => u.id == id)
  }

  /** `User.findOne({ email })` */
  function FindByEmail(users: seq<User>, email: string): (k: int)
    ensures -1 <= k < |users|
    ensures k == -1 <==> forall i :: 0 <= i < |users| ==> users[i].email != email
    ensures k >= 0 ==> users[k].email == email && forall i :: 0 <= i < k ==> users[i].email != email
  {
    FirstIndex(users, (u: User) => u.email == email)
  }

  /** With unique ids, the user found is the only one with that id. */
  lemma FindByIdUnique(users: seq<User>, id: string, j: int)
    requires UniqueKeys(users)
    requires 0 <= j < |users| && users[j].id == id
    ensures FindById(users, id) == j
  {
  }

  /** Replacing one user by a record with the same id and an email no other user
      has keeps the keys unique. */
  lemma UpdateKeepsUniqueKeys(users: seq<User>, k: int, u: User)
    requires UniqueKeys(users) && 0 <= k < |users|
    requires u.id == users[k].id
    requires forall i :: 0 <= i < |users| && i != k ==> users[i].email != u.email
    ensures UniqueKeys(users[k := u])
  {
  }

  /** Appending a user whose id and email are both new keeps the keys unique. */
  lemma AppendKeepsUniqueKeys(users: seq<User>, u: User)
    requires UniqueKeys(users)
    requires FindById(users, u.id) == -1 && FindByEmail(users, u.email) == -1
    ensures UniqueKeys(users + [u])
  {
  }

  /** The pre-save hook as written. `this.modifiedPaths('password')` returns an
      array, and an array is truthy even when empty, so every save hashes the
      stored password again, whether or not the save changed it. */
  function PreSaveAsWritten(u: User, hash: string -> string): (r: User)
    ensures r.passwordHash == hash(u.passwordHash)
    ensures r.(passwordHash := u.passwordHash) == u
  {
    u.(passwordHash := hash(u.passwordHash))
  }

  /** The pre-save hook as evidently intended (`isModified('password')`): the
      password is hashed only when the save changed it, so a save that leaves the
      password alone stores the document as given. */
  function PreSave(u: User, passwordModified: bool, hash: string -> string): (r: User)
    ensures passwordModified ==> r.passwordHash == hash(u.passwordHash)
    ensures !passwordModified ==> r == u
    ensures r.(passwordHash := u.passwordHash) == u
  {
    if passwordModified then u.(passwordHash := hash(u.passwordHash)) else u
  }

  /** The `users` collection. */
  class UserStore {
    var users: seq<User>

    constructor ()
      ensures users == []
    {
      users := [];
    }

    /** Stores the balance of user `k` through `user.save()`, with the pre-save hook
        as intended: the password is not modified, so nothing else changes. */
    method SetBalance(k: int, balance: real)
      requires 0 <= k < |users|
      modifies this
      ensures users == old(users)[k := old(users)[k].(balance := balance)]
    {
      users := users[k := users[k].(balance := balance)];
    }
  }
}
