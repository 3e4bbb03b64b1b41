/**
 * The signed-in user's dashboard: the donation count, total and meals
 * figures, the five most recent donations, the full donation list newest
 * first, and the profile form that edits name, phone and address.
 */
module Dashboard {
  import opened JsValues
  import opened BrowserData
  import DonationPage

  // ---------------------------------------------------------------------------
  // loadDashboardData
  // ---------------------------------------------------------------------------

  /**
   * `donations.reduce((sum, d) => sum + d.amount, 0)`. Unlike the landing
   * page there is no `|| 0`: one missing amount makes the sum `NaN` (`None`),
   * and `NaN` stays `NaN`.
   */
  function ReduceAmounts(ds: seq<Donation>): (r: Option<int>)
    ensures r.Some? <==> forall i :: 0 <= i < |ds| ==> ds[i].amount.Some?
    ensures r.Some? ==> r.value == DonationPage.SumOrZero(ds)
  {
    if ds == [] then Some(0)
    else
      match ReduceAmounts(ds[..|ds| - 1])
      case None => None
      case Some(sum) =>
        match ds[|ds| - 1].amount
        case None => None
        case Some(amount) => Some(sum + amount)
  }

  datatype DashboardStats = DashboardStats(count: nat, total: Option<int>, meals: Option<int>)

  /** The three figures at the top of the dashboard. */
  function LoadDashboardStats(user: User): (s: DashboardStats)
    ensures s.count == |DonationsOf(user)|
    ensures s.total.Some? <==> forall i :: 0 <= i < |DonationsOf(user)| ==> DonationsOf(user)[i].amount.Some?
    ensures s.total.Some? ==> s.total.value == DonationPage.Contribution(user)
    ensures s.meals.Some? <==> s.total.Some?
    ensures s.meals.Some? ==> s.meals.value * 50 <= s.total.value < s.meals.value * 50 + 50
    ensures s.count == 0 ==> s.total == Some(0) && s.meals == Some(0)
  {
    var ds := DonationsOf(user);
    var total := ReduceAmounts(ds);
    var meals := match total case None => None case Some(t) => Some(DonationPage.ImpactFor(t).meals);
    DashboardStats(|ds|, total, meals)
  }

  // ---------------------------------------------------------------------------
  // Newest-first ordering: `donations.sort((a, b) => date(b) - date(a))`
  // ---------------------------------------------------------------------------

  ghost predicate NewestFirst(s: seq<Donation>)
  {
    forall p, q :: 0 <= p < q < |s| ==> s[p].date >= s[q].date
  }

  /** The first `n` entries of `a` are newest first. */
  ghost predicate NewestFirstUpTo(a: array<Donation>, n: int)
    reads a
  {
    forall p, q :: 0 <= p < q < n && q < a.Length ==> a[p].date >= a[q].date
  }

  /** Exchanges `a[j - 1]` and `a[j]`. */
  method SwapWithPrevious(a: array<Donation>, j: int)
    requires 0 < j < a.Length
    modifies a
    ensures a[j - 1] == old(a[j]) && a[j] == old(a[j - 1])
    ensures forall k :: 0 <= k < a.Length && k != j - 1 && k != j ==> a[k] == old(a[k])
    ensures multiset(a[..]) == multiset(old(a[..]))
  {
    a[j - 1], a[j] := a[j], a[j - 1];
  }

  /** Moves `a[i]` left past every older entry, so that the first `i + 1` entries are newest first. */
  method InsertNewest(a: array<Donation>, i: int)
    requires 0 <= i < a.Length && NewestFirstUpTo(a, i)
    modifies a
    ensures NewestFirstUpTo(a, i + 1)
    ensures multiset(a[..]) == multiset(old(a[..]))
  {
    var j := i;
    while j > 0 && a[j - 1].date < a[j].date
      invariant 0 <= j <= i
      invariant forall p, q :: 0 <= p < q <= i && p != j && q != j ==> a[p].date >= a[q].date
      invariant forall q :: j < q <= i ==> a[j].date > a[q].date
      invariant multiset(a[..]) == multiset(old(a[..]))
    {
      SwapWithPrevious(a, j);
      j := j - 1;
    }
  }

  /** Sorts the array in place, newest date first. */
  method SortNewestFirst(a: array<Donation>)
    modifies a
    ensures NewestFirst(a[..])
    ensures multiset(a[..]) == multiset(old(a[..]))
  {
    var i := 0;
    while i < a.Length
      invariant 0 <= i <= a.Length
      invariant NewestFirstUpTo(a, i)
      invariant multiset(a[..]) == multiset(old(a[..]))
    {
      InsertNewest(a, i);
      i := i + 1;
    }
  }

  /** The first `k` of a newest-first list are at least as recent as every entry left out. */
  lemma RecentAreNewest(sorted: seq<Donation>, k: nat, x: Donation)
    requires NewestFirst(sorted) && k <= |sorted|
    requires x in multiset(sorted) - multiset(sorted[..k])
    ensures forall i :: 0 <= i < k ==> sorted[i].date >= x.date
  {
    assert sorted == sorted[..k] + sorted[k..];
    assert multiset(sorted) == multiset(sorted[..k]) + multiset(sorted[k..]);
    assert x in sorted[k..];
    var j :| 0 <= j < |sorted[k..]| && sorted[k..][j] == x;
    assert sorted[k + j] == x;
  }

  // ---------------------------------------------------------------------------
  // loadRecentActivities and loadDonationsList
  // ---------------------------------------------------------------------------

  /** What a list panel shows: the empty-state message, or these donations in this order. */
  datatype ListView = EmptyState | Items(items: seq<Donation>)

  const RecentLimit: nat := 5

  /** Copies the stored donations into the array `sort` works on. */
  method ToArray(ds: seq<Donation>) returns (a: array<Donation>)
    ensures fresh(a) && a[..] == ds
  {
    a := new Donation[|ds|](i requires 0 <= i < |ds| => ds[i]);
  }

  /**
   * `loadRecentActivities`: sort newest first, then show at most five; no
   * donations gives the empty state. `sorted` is the donations array after
   * the in-place sort.
   */
  method LoadRecentActivities(user: User) returns (sorted: seq<Donation>, view: ListView)
    ensures multiset(sorted) == multiset(DonationsOf(user)) && NewestFirst(sorted)
    ensures view == EmptyState <==> |DonationsOf(user)| == 0
    ensures view.Items? ==> 1 <= |view.items| <= 5 && |view.items| <= |sorted|
    ensures view.Items? ==> view.items == sorted[..|view.items|]
    ensures view.Items? ==> |view.items| == 5 || |view.items| == |DonationsOf(user)|
  {
    var a := ToArray(DonationsOf(user));
    SortNewestFirst(a);
    sorted := a[..];
    assert |sorted| == |multiset(sorted)| == |DonationsOf(user)|;
    var recent := if |sorted| <= RecentLimit then sorted else sorted[..RecentLimit];
    if |recent| == 0 {
      view := EmptyState;
    } else {
      view := Items(recent);
    }
  }

  /** `loadDonationsList`: the empty state, or every donation newest first. */
  method LoadDonationsList(user: User) returns (sorted: seq<Donation>, view: ListView)
    ensures multiset(sorted) == multiset(DonationsOf(user)) && NewestFirst(sorted)
    ensures view == EmptyState <==> |DonationsOf(user)| == 0
    ensures view.Items? ==> view.items == sorted
  {
    var ds := DonationsOf(user);
    if |ds| == 0 {
      return ds, EmptyState;
    }
    var a := ToArray(ds);
    SortNewestFirst(a);
    sorted := a[..];
    view := Items(sorted);
  }

  // ---------------------------------------------------------------------------
  // initProfileForm
  // ---------------------------------------------------------------------------

  /** The user after the profile form: name, phone and address replaced, nothing else touched. */
  function EditProfile(u: User, name: string, phone: string, address: string): (r: User)
    ensures r.name == Some(name) && r.phone == Some(phone) && r.address == Some(address)
    ensures r.id == u.id && r.email == u.email && r.donations == u.donations
  {
    u.(name := Some(name), phone := Some(phone), address := Some(address))
  }

  /**
   * The profile form's submit handler. Without a signed-in user the handler
   * is never installed and nothing changes; otherwise the edited user is
   * stored as `currentUser` and written over the stored user with the same
   * email, after which the two agree.
   */
  method SubmitProfile(storage: BrowserStorage, name: string, phone: string, address: string)
    modifies storage
    ensures old(storage.currentUser).None? ==> storage.currentUser == old(storage.currentUser) && storage.users == old(storage.users)
    ensures old(storage.currentUser).Some? ==>
      var updated := EditProfile(old(storage.currentUser).value, name, phone, address);
      storage.currentUser == Some(updated) && storage.users == ReplaceFirstByEmail(old(storage.users), updated)
    ensures old(storage.currentUser).Some? ==> InSync(storage.currentUser, storage.users)
  {
    if storage.currentUser.None? {
      return;
    }
    var updated := EditProfile(storage.currentUser.value, name, phone, address);
    storage.currentUser := Some(updated);
    var users := storage.users;
    var userIndex := FindIndexByEmail(users, updated.email);
    if userIndex != -1 {
      users := users[userIndex := updated];
      storage.users := users;
    }
    WriteBackKeepsSync(old(storage.users), updated);
  }

  /**
   * The profile write-back by id as written, for two registered users with no
   * id: A has given 100, B has given 50, and B edits the profile. B's record
   * lands on A's slot, A's record is gone, and the total falls from 150 to 100.
   */
  lemma ProfileWriteBackAsWritten(pay: PaymentInfo, name: string, phone: string, address: string)
    ensures var a := User(None, Some("A"), "a@example.com", Some("1"), None, Some([Donation("1", Some(100), 1, pay)]));
      var b := User(None, Some("B"), "b@example.com", Some("2"), None, Some([Donation("2", Some(50), 2, pay)]));
      var b' := EditProfile(b, name, phone, address);
      var after := ReplaceFirstById([a, b], b');
      && after == [b', b]
      && FindIndexByEmail(after, a.email) == -1
      && DonationPage.TotalDonations([a, b]) == 150
      && DonationPage.TotalDonations(after) == 100
  {
    var a := User(None, Some("A"), "a@example.com", Some("1"), None, Some([Donation("1", Some(100), 1, pay)]));
    var b := User(None, Some("B"), "b@example.com", Some("2"), None, Some([Donation("2", Some(50), 2, pay)]));
    var b' := EditProfile(b, name, phone, address);
    assert FindIndexById([a, b], b'.id) == 0;
    assert [a, b][0 := b'] == [b', b];
    var da, db := DonationsOf(a), DonationsOf(b);
    assert da[..0] == [] && db[..0] == [];
    assert DonationPage.SumOrZero(da) == DonationPage.SumOrZero([]) + OrZero(Some(100)) == 100;
    assert DonationPage.SumOrZero(db) == DonationPage.SumOrZero([]) + OrZero(Some(50)) == 50;
    assert [a][..0] == [] && [b'][..0] == [] && [a, b][..1] == [a] && [b', b][..1] == [b'];
    assert DonationPage.TotalDonations([a]) == DonationPage.Contribution(a) == 100;
    assert DonationPage.TotalDonations([b']) == DonationPage.Contribution(b') == 50;
    assert DonationPage.TotalDonations([a, b]) == DonationPage.TotalDonations([a]) + DonationPage.Contribution(b);
    assert DonationPage.TotalDonations([b', b]) == DonationPage.TotalDonations([b']) + DonationPage.Contribution(b);
  }

  /**
   * A profile edit leaves the user's dashboard figures as they were. With the
   * write-back keyed by email it changes the site-wide total by the edited
   * user's contribution minus that of the record it overwrites, which is
   * nothing when the stored record is the signed-in user (`InSync`).
   */
  lemma ProfileEditKeepsTotals(users: seq<User>, u: User, name: string, phone: string, address: string)
    ensures LoadDashboardStats(EditProfile(u, name, phone, address)) == LoadDashboardStats(u)
    ensures var i := FindIndexByEmail(users, u.email);
      i >= 0 ==> DonationPage.TotalDonations(ReplaceFirstByEmail(users, EditProfile(u, name, phone, address)))
                 == DonationPage.TotalDonations(users) - DonationPage.Contribution(users[i]) + DonationPage.Contribution(u)
    ensures InSync(Some(u), users) ==>
      DonationPage.TotalDonations(ReplaceFirstByEmail(users, EditProfile(u, name, phone, address)))
      == DonationPage.TotalDonations(users)
  {
    var i := FindIndexByEmail(users, u.email);
    if i >= 0 {
      DonationPage.TotalAfterReplace(users, i, EditProfile(u, name, phone, address));
    }
  }
}
