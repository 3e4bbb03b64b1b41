/**
 * The records the donation pages keep in the browser's local storage: the
 * signed-in user under `currentUser` and the list of registered users under
 * `users`, each user with an optional list of donations.
 *
 * Users created by registration carry no `id`; `u.id === user.id` is then
 * `undefined === undefined`, true, so an absent id matches the first user
 * that also lacks one. Registration refuses an email that is already stored,
 * so the email is what identifies a stored user; the write-back keyed by
 * email below is the one the pages' methods use. Dates are timestamps in
 * milliseconds.
 */
module BrowserData {
  import opened JsValues

  /** The provider's identifiers saved with a donation. */
  datatype PaymentInfo = PaymentInfo(paymentId: Option<string>, orderId: Option<string>, signature: Option<string>)

  datatype Donation = Donation(id: string, amount: Option<int>, date: int, payment: PaymentInfo)

  /**
   * A stored or signed-in user. Only the email is always present: a sign-in
   * whose email is not stored keeps `{ email }` alone as the current user.
   */
  datatype User = User(
    id: Option<string>,
    name: Option<string>,
    email: string,
    phone: Option<string>,
    address: Option<string>,
    donations: Option<seq<Donation>>)

  /** `user.donations || []`. */
  function DonationsOf(u: User): seq<Donation>
  {
    match u.donations
    case None => []
    case Some(ds) => ds
  }

  /** `users.findIndex((u) => u.id === id)`: the first index with that id, or -1. */
  function FindIndexById(users: seq<User>, id: Option<string>): (i: int)
    ensures -1 <= i < |users|
    ensures i == -1 <==> forall j :: 0 <= j < |users| ==> users[j].id != id
    ensures i >= 0 ==> users[i].id == id && forall j :: 0 <= j < i ==> users[j].id != id
  {
    if users == [] then -1
    else if users[0].id == id then 0
    else
      var rest := FindIndexById(users[1..], id);
      if rest == -1 then -1 else rest + 1
  }

  /**
   * `users[users.findIndex(...)] = user` when that index exists: only the
   * first user with the same id is replaced; with no match nothing changes.
   */
  function ReplaceFirstById(users: seq<User>, user: User): (r: seq<User>)
    ensures |r| == |users|
    ensures FindIndexById(users, user.id) == -1 ==> r == users
    ensures var i := FindIndexById(users, user.id);
      i >= 0 ==> r[i] == user && forall j :: 0 <= j < |users| && j != i ==> r[j] == users[j]
  {
    var i := FindIndexById(users, user.id);
    if i == -1 then users else users[i := user]
  }

  /** `users.findIndex((u) => u.email === email)`: the first index with that email, or -1. */
  function FindIndexByEmail(users: seq<User>, email: string): (i: int)
    ensures -1 <= i < |users|
    ensures i == -1 <==> forall j :: 0 <= j < |users| ==> users[j].email != email
    ensures i >= 0 ==> users[i].email == email && forall j :: 0 <= j < i ==> users[j].email != email
  {
    if users == [] then -1
    else if users[0].email == email then 0
    else
      var rest := FindIndexByEmail(users[1..], email);
      if rest == -1 then -1 else rest + 1
  }

  /**
   * The write-back keyed by email: the stored user with the same email is
   * replaced, and with no such user nothing changes. The replaced record
   * keeps its place, so the lookup finds the new record where it found the
   * old one.
   */
  function ReplaceFirstByEmail(users: seq<User>, user: User): (r: seq<User>)
    ensures |r| == |users|
    ensures FindIndexByEmail(users, user.email) == -1 ==> r == users
    ensures var i := FindIndexByEmail(users, user.email);
      i >= 0 ==> r[i] == user && forall j :: 0 <= j < |users| && j != i ==> r[j] == users[j]
    ensures FindIndexByEmail(r, user.email) == FindIndexByEmail(users, user.email)
  {
    var i := FindIndexByEmail(users, user.email);
    if i == -1 then users else users[i := user]
  }

  /** No two stored users share an email. */
  ghost predicate UniqueEmails(users: seq<User>)
  {
    forall p, q :: 0 <= p < q < |users| ==> users[p].email != users[q].email
  }

  /** The signed-in user is the stored record with its email, when one is stored. */
  ghost predicate InSync(currentUser: Option<User>, users: seq<User>)
  {
    currentUser.Some? ==>
      var i := FindIndexByEmail(users, currentUser.value.email);
      i >= 0 ==> users[i] == currentUser.value
  }

  /**
   * Registration (auth.js) refuses an email already stored, then appends the
   * new user and signs it in: emails stay unique and the new user is in sync.
   */
  lemma RegistrationKeepsSync(users: seq<User>, u: User)
    requires FindIndexByEmail(users, u.email) == -1
    ensures FindIndexByEmail(users + [u], u.email) == |users|
    ensures InSync(Some(u), users + [u])
    ensures UniqueEmails(users) ==> UniqueEmails(users + [u])
  {
    var r := users + [u];
    assert forall j :: 0 <= j < |users| ==> r[j] == users[j] && r[j].email != u.email;
    assert r[|users|] == u;
    var i := FindIndexByEmail(r, u.email);
    assert i != -1;
    assert i == |users|;
  }

  /** The write-back leaves the written user in sync and keeps emails unique. */
  lemma WriteBackKeepsSync(users: seq<User>, user: User)
    ensures InSync(Some(user), ReplaceFirstByEmail(users, user))
    ensures UniqueEmails(users) ==> UniqueEmails(ReplaceFirstByEmail(users, user))
  {
  }

  /** The two local-storage entries the pages read and write. */
  class BrowserStorage {
    var currentUser: Option<User>
    var users: seq<User>

    constructor (currentUser: Option<User>, users: seq<User>)
      ensures this.currentUser == currentUser && this.users == users
    {
      this.currentUser := currentUser;
      this.users := users;
    }
  }
}
