/**
 * The landing page's donation logic: the site-wide total over every user's
 * donations, the three impact counters derived from it, choosing and
 * validating the amount on submit, the `/create-order` request that submit
 * sends, and recording a verified payment on the signed-in user.
 */
module DonationPage {
  import opened JsValues
  import opened BrowserData
  import PaymentServer

  // ---------------------------------------------------------------------------
  // calculateTotalDonations
  // ---------------------------------------------------------------------------

  /** `donation.amount || 0` summed over `ds`. */
  function SumOrZero(ds: seq<Donation>): int
  {
    if ds == [] then 0 else SumOrZero(ds[..|ds| - 1]) + OrZero(ds[|ds| - 1].amount)
  }

  /** What one user adds to the total: nothing unless its `donations` is an array. */
  function Contribution(u: User): int
  {
    match u.donations
    case None => 0
    case Some(ds) => SumOrZero(ds)
  }

  /** The site-wide total the landing page shows. */
  function TotalDonations(users: seq<User>): int
  {
    if users == [] then 0 else TotalDonations(users[..|users| - 1]) + Contribution(users[|users| - 1])
  }

  /** `calculateTotalDonations` over the stored users: the nested `forEach` accumulation. */
  method CalculateTotalDonations(users: seq<User>) returns (total: int)
    ensures total == TotalDonations(users)
  {
    total := 0;
    var i := 0;
    while i < |users|
      invariant 0 <= i <= |users|
      invariant total == TotalDonations(users[..i])
    {
      var user := users[i];
      if user.donations.Some? {
        var ds := user.donations.value;
        var j := 0;
        while j < |ds|
          invariant 0 <= j <= |ds|
          invariant total == TotalDonations(users[..i]) + SumOrZero(ds[..j])
        {
          total := total + OrZero(ds[j].amount);
          assert ds[..j + 1][..j] == ds[..j];
          j := j + 1;
        }
        assert ds[..j] == ds;
      }
      assert users[..i + 1][..i] == users[..i];
      i := i + 1;
    }
    assert users[..i] == users;
  }

  /** No stored donation has a negative amount. */
  ghost predicate NoNegativeAmounts(users: seq<User>)
  {
    forall i, j :: 0 <= i < |users| && 0 <= j < |DonationsOf(users[i])| ==> OrZero(DonationsOf(users[i])[j].amount) >= 0
  }

  lemma {:induction false} SumOrZeroNonNegative(ds: seq<Donation>)
    requires forall j :: 0 <= j < |ds| ==> OrZero(ds[j].amount) >= 0
    ensures SumOrZero(ds) >= 0
  {
    if ds != [] {
      SumOrZeroNonNegative(ds[..|ds| - 1]);
    }
  }

  /** With no negative amounts stored, the total is never negative. */
  lemma {:induction false} TotalNonNegative(users: seq<User>)
    requires NoNegativeAmounts(users)
    ensures TotalDonations(users) >= 0
  {
    if users != [] {
      var n := |users| - 1;
      assert NoNegativeAmounts(users[..n]) by {
        forall i, j | 0 <= i < n && 0 <= j < |DonationsOf(users[..n][i])|
          ensures OrZero(DonationsOf(users[..n][i])[j].amount) >= 0
        {
          assert users[..n][i] == users[i];
        }
      }
      TotalNonNegative(users[..n]);
      SumOrZeroNonNegative(DonationsOf(users[n]));
    }
  }

  /** Replacing one user's record changes the total by the difference of the two contributions. */
  lemma {:induction false} TotalAfterReplace(users: seq<User>, i: nat, u: User)
    requires i < |users|
    ensures TotalDonations(users[i := u]) == TotalDonations(users) - Contribution(users[i]) + Contribution(u)
  {
    var n := |users| - 1;
    var r := users[i := u];
    if i == n {
      assert r[..n] == users[..n];
    } else {
      assert r[..n] == users[..n][i := u];
      TotalAfterReplace(users[..n], i, u);
    }
  }

  // ---------------------------------------------------------------------------
  // initStatsCounter
  // ---------------------------------------------------------------------------

  /** Rupees per meal served, per community reached and per volunteer. */
  const RupeesPerMeal: int := 50
  const RupeesPerCommunity: int := 100000
  const RupeesPerVolunteer: int := 15000

  datatype ImpactStats = ImpactStats(meals: int, communities: int, volunteers: int)

  /** The three counters, each `Math.floor(total / k)`. */
  function ImpactFor(total: int): (r: ImpactStats)
    ensures r.meals * 50 <= total < r.meals * 50 + 50
    ensures r.communities * 100000 <= total < r.communities * 100000 + 100000
    ensures r.volunteers * 15000 <= total < r.volunteers * 15000 + 15000
    ensures total >= 0 ==> 0 <= r.communities <= r.volunteers <= r.meals
  {
    ImpactStats(total / RupeesPerMeal, total / RupeesPerCommunity, total / RupeesPerVolunteer)
  }

  /** The value each of `slots` counters animates to: `targetValues[index] || 0`. */
  function CounterTargets(total: int, slots: nat): (r: seq<int>)
    ensures |r| == slots
    ensures slots > 0 ==> r[0] == ImpactFor(total).meals
    ensures slots > 1 ==> r[1] == ImpactFor(total).communities
    ensures slots > 2 ==> r[2] == ImpactFor(total).volunteers
    ensures forall i :: 3 <= i < slots ==> r[i] == 0
  {
    var stats := ImpactFor(total);
    var targets := [stats.meals, stats.communities, stats.volunteers];
    seq(slots, i requires 0 <= i < slots => if i < |targets| then targets[i] else 0)
  }

  // ---------------------------------------------------------------------------
  // The donation form's submit handler
  // ---------------------------------------------------------------------------

  const RupeeSign: char := '\U{20B9}'

  /**
   * The amount the form submits: the active preset button's label with the
   * rupee sign removed, or, when no button is active or the active one is
   * "Custom", the custom input; both read with `Number.parseInt`.
   */
  function ChosenAmount(activeLabel: Option<string>, customInput: string): Option<int>
  {
    if activeLabel.Some? && activeLabel.value != "Custom" then ParseInt(RemoveFirst(activeLabel.value, RupeeSign))
    else ParseInt(customInput)
  }

  /**
   * Where the amount comes from: with no active button, or with "Custom"
   * active, it is the custom input read by `parseInt`; with any other active
   * button it is read from the button's label and the custom input plays no
   * part.
   */
  lemma AmountSource(customInput: string, caption: string, otherInput: string)
    ensures ChosenAmount(None, customInput) == ParseInt(customInput)
    ensures ChosenAmount(Some("Custom"), customInput) == ParseInt(customInput)
    ensures caption != "Custom" ==> ChosenAmount(Some(caption), customInput) == ChosenAmount(Some(caption), otherInput)
  {
  }

  /** A preset button labelled with the rupee sign and a whole number submits that number. */
  lemma PresetButtonAmount(n: nat, customInput: string)
    ensures ChosenAmount(Some([RupeeSign] + DecimalString(n)), customInput) == Some(n)
  {
    var caption := [RupeeSign] + DecimalString(n);
    assert caption[0] != "Custom"[0];
    assert RemoveFirst(caption, RupeeSign) == DecimalString(n);
    ParseDecimalRoundTrip(n);
  }

  /** `!amount || amount <= 0` rejects; otherwise the amount goes ahead. */
  function ValidAmount(amount: Option<int>): (r: Option<int>)
    ensures r.Some? <==> amount.Some? && amount.value > 0
    ensures r.Some? ==> r == amount
  {
    if !NumberTruthy(amount) || amount.value <= 0 then None else amount
  }

  datatype SubmitOutcome =
    | LoginRequired
    | InvalidAmount
    | RequestOrder(request: PaymentServer.CreateOrderRequest)

  /** The notes sent with the order; `JSON.stringify` drops a `user_id` that is `undefined`. */
  function OrderNotes(user: User): PaymentServer.Notes
  {
    match user.id
    case None => map["user_email" := user.email]
    case Some(id) => map["user_id" := id, "user_email" := user.email]
  }

  /**
   * The submit handler up to the `/create-order` call: no signed-in user
   * means a redirect to login; an invalid amount is refused before any
   * order is requested; otherwise the request carries the amount and notes.
   */
  function SubmitDonation(currentUser: Option<User>, activeLabel: Option<string>, customInput: string): (r: SubmitOutcome)
    ensures r == LoginRequired <==> currentUser.None?
    ensures r == InvalidAmount <==> currentUser.Some? && ValidAmount(ChosenAmount(activeLabel, customInput)).None?
    ensures r.RequestOrder? ==>
      && r.request.amount == ChosenAmount(activeLabel, customInput)
      && r.request.notes == Some(OrderNotes(currentUser.value))
      && r.request.currency.None? && r.request.receipt.None?
    ensures r.RequestOrder? ==>
      var options := PaymentServer.OrderOptionsFor(r.request);
      && options.Some?
      && options.value.amount == 100 * r.request.amount.value > 0
      && options.value.currency == "INR" && options.value.receipt == "donation_receipt"
      && options.value.notes["user_email"] == currentUser.value.email
  {
    match currentUser
    case None => LoginRequired
    case Some(user) =>
      match ValidAmount(ChosenAmount(activeLabel, customInput))
      case None => InvalidAmount
      case Some(amount) => RequestOrder(PaymentServer.CreateOrderRequest(Some(amount), None, None, Some(OrderNotes(user))))
  }

  // ---------------------------------------------------------------------------
  // handlePaymentSuccess
  // ---------------------------------------------------------------------------

  /**
   * The donation recorded after a verified payment. The page reads the clock
   * twice: `idTime` for the id, written in decimal, and `date` for the
   * recorded date.
   */
  function NewDonation(idTime: nat, date: int, amount: int, payment: PaymentInfo): (d: Donation)
    ensures ParseInt(d.id) == Some(idTime) && d.date == date
    ensures d.amount == Some(amount) && d.payment == payment
  {
    ParseDecimalRoundTrip(idTime);
    Donation(DecimalString(idTime), Some(amount), date, payment)
  }

  /** The user after `user.donations.push(d)`, creating the array when it is missing. */
  function AddDonation(u: User, d: Donation): (r: User)
    ensures r.donations.Some?
    ensures |DonationsOf(r)| == |DonationsOf(u)| + 1
    ensures DonationsOf(r)[..|DonationsOf(u)|] == DonationsOf(u) && DonationsOf(r)[|DonationsOf(u)|] == d
    ensures r.id == u.id && r.name == u.name && r.email == u.email && r.phone == u.phone && r.address == u.address
  {
    u.(donations := Some(DonationsOf(u) + [d]))
  }

  /** The new donation adds exactly its `amount || 0` to what the user contributes. */
  lemma AddDonationContribution(u: User, d: Donation)
    ensures Contribution(AddDonation(u, d)) == Contribution(u) + OrZero(d.amount)
  {
    var ds := DonationsOf(u);
    assert Contribution(u) == SumOrZero(ds);
    assert (ds + [d])[..|ds|] == ds;
    assert Contribution(AddDonation(u, d)) == SumOrZero(ds + [d]);
  }

  /**
   * `handlePaymentSuccess`: append the donation to the user, store the user
   * as `currentUser`, and write it over the stored user with the same email
   * (the users list is left alone when there is none). Afterwards the
   * signed-in user and its stored record agree.
   */
  method HandlePaymentSuccess(storage: BrowserStorage, payment: PaymentInfo, amount: int, user: User, idTime: nat, date: int)
    modifies storage
    ensures storage.currentUser == Some(AddDonation(user, NewDonation(idTime, date, amount, payment)))
    ensures storage.users == ReplaceFirstByEmail(old(storage.users), AddDonation(user, NewDonation(idTime, date, amount, payment)))
    ensures InSync(storage.currentUser, storage.users)
  {
    var donation := NewDonation(idTime, date, amount, payment);
    var updated := AddDonation(user, donation);
    storage.currentUser := Some(updated);
    var users := storage.users;
    var userIndex := FindIndexByEmail(users, updated.email);
    if userIndex != -1 {
      users := users[userIndex := updated];
      storage.users := users;
    }
    WriteBackKeepsSync(old(storage.users), updated);
  }

  /**
   * A write-back to the stored user at index `i` changes the site-wide total
   * by the difference between the new record and the one it overwrites; with
   * no match the total stays. This holds for the lookup by id as written.
   */
  lemma WriteBackByIdTotal(users: seq<User>, updated: User)
    ensures var i := FindIndexById(users, updated.id);
      && (i >= 0 ==> TotalDonations(ReplaceFirstById(users, updated)) == TotalDonations(users) - Contribution(users[i]) + Contribution(updated))
      && (i == -1 ==> TotalDonations(ReplaceFirstById(users, updated)) == TotalDonations(users))
  {
    var i := FindIndexById(users, updated.id);
    if i >= 0 {
      TotalAfterReplace(users, i, updated);
    }
  }

  /**
   * The write-back by id as written, for two registered users, neither with
   * an id: A has given 100, B has given 50, and B gives 30 more. B's record
   * lands on A's slot, A's record and its donation are gone, and the total
   * goes from 150 to 130 instead of 180.
   */
  lemma PaymentWriteBackAsWritten(pay: PaymentInfo)
    ensures var a := User(None, Some("A"), "a@example.com", Some("1"), None, Some([Donation("1", Some(100), 1, pay)]));
      var b := User(None, Some("B"), "b@example.com", Some("2"), None, Some([Donation("2", Some(50), 2, pay)]));
      var b' := AddDonation(b, Donation("3", Some(30), 3, pay));
      var after := ReplaceFirstById([a, b], b');
      && after == [b', b]
      && FindIndexByEmail(after, a.email) == -1
      && TotalDonations([a, b]) == 150
      && TotalDonations(after) == 130
  {
    var a := User(None, Some("A"), "a@example.com", Some("1"), None, Some([Donation("1", Some(100), 1, pay)]));
    var b := User(None, Some("B"), "b@example.com", Some("2"), None, Some([Donation("2", Some(50), 2, pay)]));
    var b' := AddDonation(b, Donation("3", Some(30), 3, pay));
    assert FindIndexById([a, b], b'.id) == 0;
    assert [a, b][0 := b'] == [b', b];
    assert [a, b][..1] == [a];
    assert [b', b][..1] == [b'];
    var da, db := DonationsOf(a), DonationsOf(b);
    var db' := DonationsOf(b');
    assert db' == db + [Donation("3", Some(30), 3, pay)];
    assert da[..0] == [] && db[..0] == [] && db'[..1] == db;
    assert SumOrZero(da) == SumOrZero([]) + OrZero(Some(100)) == 100;
    assert SumOrZero(db) == SumOrZero([]) + OrZero(Some(50)) == 50;
    assert SumOrZero(db') == SumOrZero(db) + OrZero(Some(30)) == 80;
    assert [a][..0] == [] && [b'][..0] == [];
    assert TotalDonations([a]) == Contribution(a) == 100;
    assert TotalDonations([b']) == Contribution(b') == 80;
    assert TotalDonations([a, b]) == TotalDonations([a]) + Contribution(b);
    assert TotalDonations([b', b]) == TotalDonations([b']) + Contribution(b);
  }

  /**
   * With the write-back keyed by email, recording a payment changes the
   * site-wide total by the new record minus the one it overwrites. When the
   * stored record is the signed-in user (`InSync`, which registration and
   * every write-back keep), that is exactly the donation's `amount || 0`;
   * with no stored user of that email the total stays.
   */
  lemma PaymentRaisesTotal(users: seq<User>, user: User, d: Donation)
    ensures var i := FindIndexByEmail(users, user.email);
      i >= 0 ==> TotalDonations(ReplaceFirstByEmail(users, AddDonation(user, d)))
                 == TotalDonations(users) - Contribution(users[i]) + Contribution(user) + OrZero(d.amount)
    ensures InSync(Some(user), users) ==>
      var i := FindIndexByEmail(users, user.email);
      TotalDonations(ReplaceFirstByEmail(users, AddDonation(user, d)))
      == TotalDonations(users) + (if i >= 0 then OrZero(d.amount) else 0)
  {
    var i := FindIndexByEmail(users, user.email);
    if i >= 0 {
      TotalAfterReplace(users, i, AddDonation(user, d));
      AddDonationContribution(user, d);
    }
  }
}
