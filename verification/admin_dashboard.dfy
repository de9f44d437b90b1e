/** The pure part of the admin dashboard: pagination arithmetic, the merge of
    the per-user aggregates into dashboard rows, and the overview widgets.
    The database answers (counts, fetched users, grouped sums, active
    subscriptions) are parameters, in the order the queries return them. */
module AdminDashboard {
  import opened Wrappers
  import opened JsMath
  import opened Collections

  // ---------------------------------------------------------------------------
  // Pagination

  /** `(page - 1) * limit`: the rows before the page. */
  function Skip(page: int, limit: int): int {
    (page - 1) * limit
  }

  /** `Math.max(1, Math.ceil(total / limit))`. */
  function TotalPages(total: int, limit: int): (n: int)
    requires limit > 0
    ensures n >= 1
  {
    Max(1, CeilDiv(total, limit))
  }

  /** The pages tile the rows: every page up to the last starts inside the
      total (or is the one empty page), the last page is not empty, and the
      page after it starts past the end. */
  lemma PagesCoverTotal(total: nat, limit: int)
    requires limit > 0
    ensures var n := TotalPages(total, limit);
      && Skip(n + 1, limit) >= total
      && (total > 0 ==> Skip(n, limit) < total)
      && (total == 0 ==> n == 1)
      && (forall page :: 1 <= page <= n && total > 0 ==> 0 <= Skip(page, limit) < total)
  {
    var n := TotalPages(total, limit);
    forall page | 1 <= page <= n && total > 0 ensures 0 <= Skip(page, limit) < total {
      assert (page - 1) * limit <= (n - 1) * limit;
    }
  }

  // ---------------------------------------------------------------------------
  // Maps built from query results

  /** One row of a grouped query: a user id and that user's aggregate. */
  datatype Group<A> = Group(userId: string, agg: A)

  /** `new Map(rows.map(r => [r.userId, r.agg]))`: a later row for a user
      replaces an earlier one. */
  function LastWins<A>(rows: seq<Group<A>>): map<string, A> {
    if rows == [] then map[]
    else LastWins(rows[..|rows| - 1])[rows[|rows| - 1].userId := rows[|rows| - 1].agg]
  }

  /** A key is in the map exactly when some entry has it, and its value is
      that of the last such entry. */
  lemma {:induction false} LastWinsSpec<A>(rows: seq<Group<A>>, k: string)
    ensures k in LastWins(rows) <==> exists i :: 0 <= i < |rows| && rows[i].userId == k
    ensures forall i :: 0 <= i < |rows| && rows[i].userId == k
                        && (forall j :: i < j < |rows| ==> rows[j].userId != k)
                        ==> k in LastWins(rows) && LastWins(rows)[k] == rows[i].agg
    decreases |rows|
  {
    if rows != [] {
      var init := rows[..|rows| - 1];
      LastWinsSpec(init, k);
      forall i | 0 <= i < |init| && init[i].userId == k ensures rows[i].userId == k {
      }
    }
  }

  /** The subscription loop: the first row for a user wins. */
  function FirstWins<A>(rows: seq<Group<A>>): map<string, A> {
    if rows == [] then map[]
    else
      var m := FirstWins(rows[..|rows| - 1]);
      var last := rows[|rows| - 1];
      if last.userId in m then m else m[last.userId := last.agg]
  }

  /** A user is in the map exactly when it has an active subscription row,
      and its end date is that of its first row. */
  lemma {:induction false} FirstWinsSpec<A>(subs: seq<Group<A>>, k: string)
    ensures k in FirstWins(subs) <==> exists j :: 0 <= j < |subs| && subs[j].userId == k
    ensures forall j :: 0 <= j < |subs| && subs[j].userId == k
                        && (forall i :: 0 <= i < j ==> subs[i].userId != k)
                        ==> k in FirstWins(subs) && FirstWins(subs)[k] == subs[j].agg
    decreases |subs|
  {
    if subs != [] {
      var init := subs[..|subs| - 1];
      FirstWinsSpec(init, k);
      forall j | 0 <= j < |init| && init[j].userId == k ensures subs[j].userId == k {
      }
    }
  }

  /** The loop of `listUsers` that fills the subscription map. */
  method FirstEndDates(subs: seq<Group<Option<int>>>) returns (m: map<string, Option<int>>)
    ensures m == FirstWins(subs)
    ensures forall k :: k in m <==> exists j :: 0 <= j < |subs| && subs[j].userId == k
  {
    m := map[];
    var i := 0;
    while i < |subs|
      invariant 0 <= i <= |subs|
      invariant m == FirstWins(subs[..i])
    {
      assert subs[..i + 1][..i] == subs[..i];
      var s := subs[i];
      if s.userId !in m {
        m := m[s.userId := s.agg];
      }
      i := i + 1;
    }
    assert subs[..i] == subs;
    forall k ensures k in m <==> exists j :: 0 <= j < |subs| && subs[j].userId == k {
      FirstWinsSpec(subs, k);
    }
  }

  // ---------------------------------------------------------------------------
  // Dashboard rows

  datatype UserRow = UserRow(id: string, email: Option<string>, isGuest: bool, credits: int, createdAt: int)

  /** A user's usage group: the number of usage records and their amount
      sum (`null` when every amount is). The other groups carry the purchase
      sum, the latest activity time, and an active subscription's end date,
      each of which may be `null`. */
  datatype UsageAgg = UsageAgg(count: nat, amountSum: Option<int>)

  datatype Plan = Free | Premium

  datatype DashboardItem = DashboardItem(
    id: string, email: Option<string>, isGuest: bool, credits: int, plan: Plan, createdAt: int,
    subscriptionEndsAt: Option<int>, lastActivityAt: Option<int>,
    generations: nat, consumedCredits: int, purchasedCredits: int)

  datatype Listing = Listing(page: int, limit: int, total: int, totalPages: int, users: seq<DashboardItem>)

  /** One dashboard row: the user's own fields, the plan and end date from
      the subscription map, and the aggregates with their defaults. */
  function Item(u: UserRow, usage: map<string, UsageAgg>, purchases: map<string, Option<int>>,
                activity: map<string, Option<int>>, ends: map<string, Option<int>>): DashboardItem
  {
    DashboardItem(u.id, u.email, u.isGuest, u.credits, if u.id in ends then Premium else Free, u.createdAt,
                  if u.id in ends then ends[u.id] else None,
                  if u.id in activity then activity[u.id] else None,
                  if u.id in usage then usage[u.id].count else 0,
                  if u.id in usage then Abs(usage[u.id].amountSum.GetOr(0)) else 0,
                  if u.id in purchases then purchases[u.id].GetOr(0) else 0)
  }

  /** The usage figures of a row: zero for a user no usage group mentions,
      otherwise the count of the user's last group and the magnitude of its
      amount sum. */
  lemma ItemUsage(u: UserRow, usage: seq<Group<UsageAgg>>, purchases: map<string, Option<int>>,
                  activity: map<string, Option<int>>, ends: map<string, Option<int>>)
    ensures var it := Item(u, LastWins(usage), purchases, activity, ends);
      && it.consumedCredits >= 0
      && ((forall j :: 0 <= j < |usage| ==> usage[j].userId != u.id) ==> it.generations == 0 && it.consumedCredits == 0)
      && (forall j :: 0 <= j < |usage| && usage[j].userId == u.id && (forall k :: j < k < |usage| ==> usage[k].userId != u.id)
            ==> (it.generations == usage[j].agg.count && it.consumedCredits == Abs(usage[j].agg.amountSum.GetOr(0))))
  {
    LastWinsSpec(usage, u.id);
  }

  /** The purchased credits of a row: zero for a user no purchase group
      mentions or whose sum is `null`, otherwise the sum of its last group. */
  lemma ItemPurchases(u: UserRow, usage: map<string, UsageAgg>, purchases: seq<Group<Option<int>>>,
                      activity: map<string, Option<int>>, ends: map<string, Option<int>>)
    ensures var it := Item(u, usage, LastWins(purchases), activity, ends);
      && ((forall j :: 0 <= j < |purchases| ==> purchases[j].userId != u.id) ==> it.purchasedCredits == 0)
      && (forall j :: 0 <= j < |purchases| && purchases[j].userId == u.id && (forall k :: j < k < |purchases| ==> purchases[k].userId != u.id)
            ==> it.purchasedCredits == purchases[j].agg.GetOr(0))
  {
    LastWinsSpec(purchases, u.id);
  }

  /** The last activity of a row: `null` for a user no activity group
      mentions, otherwise the time of its last group. */
  lemma ItemActivity(u: UserRow, usage: map<string, UsageAgg>, purchases: map<string, Option<int>>,
                     activity: seq<Group<Option<int>>>, ends: map<string, Option<int>>)
    ensures var it := Item(u, usage, purchases, LastWins(activity), ends);
      && ((forall j :: 0 <= j < |activity| ==> activity[j].userId != u.id) ==> it.lastActivityAt == None)
      && (forall j :: 0 <= j < |activity| && activity[j].userId == u.id && (forall k :: j < k < |activity| ==> activity[k].userId != u.id)
            ==> it.lastActivityAt == activity[j].agg)
  {
    LastWinsSpec(activity, u.id);
  }

  /** `listUsers` after its two queries: `total` rows match, `users` is the
      fetched page in order; the remaining sequences are the grouped
      aggregates and the active subscriptions of those users. */
  method ListUsers(page: int, limit: int, total: nat, users: seq<UserRow>, usage: seq<Group<UsageAgg>>,
                   purchases: seq<Group<Option<int>>>, activity: seq<Group<Option<int>>>, subs: seq<Group<Option<int>>>)
    returns (r: Listing)
    requires limit >= 1
    ensures r.page == page && r.limit == limit && r.total == total && r.totalPages == TotalPages(total, limit)
    ensures |r.users| == |users|
    ensures forall i :: 0 <= i < |users| ==>
      var it := r.users[i]; var u := users[i];
      it.id == u.id && it.email == u.email && it.isGuest == u.isGuest && it.credits == u.credits && it.createdAt == u.createdAt
    ensures forall i :: 0 <= i < |users| ==>
      (r.users[i].plan == Premium <==> exists j :: 0 <= j < |subs| && subs[j].userId == users[i].id)
    ensures forall i, j :: 0 <= i < |users| && 0 <= j < |subs| && subs[j].userId == users[i].id
                           && (forall k :: 0 <= k < j ==> subs[k].userId != users[i].id)
                           ==> r.users[i].subscriptionEndsAt == subs[j].agg
    ensures forall i :: 0 <= i < |users| && r.users[i].plan == Free ==> r.users[i].subscriptionEndsAt == None
    ensures forall i :: 0 <= i < |users| ==>
      r.users[i] == Item(users[i], LastWins(usage), LastWins(purchases), LastWins(activity), FirstWins(subs))
  {
    if |users| == 0 {
      return Listing(page, limit, total, TotalPages(total, limit), []);
    }
    var ends := FirstEndDates(subs);
    var um, pm, am := LastWins(usage), LastWins(purchases), LastWins(activity);
    var items := seq(|users|, i requires 0 <= i < |users| => Item(users[i], um, pm, am, ends));
    forall i, j | 0 <= i < |users| && 0 <= j < |subs| && subs[j].userId == users[i].id
                  && (forall k :: 0 <= k < j ==> subs[k].userId != users[i].id)
      ensures items[i].subscriptionEndsAt == subs[j].agg
    {
      FirstWinsSpec(subs, users[i].id);
    }
    r := Listing(page, limit, total, TotalPages(total, limit), items);
  }

  // ---------------------------------------------------------------------------
  // Overview widgets

  /** The overview's query results: counts, the two sums (`null` over no
      rows), the user ids of active subscriptions (one row per user as the
      query asks, possibly repeated here) and the users active in 30 days. */
  datatype OverviewCounts = OverviewCounts(
    totalUsers: nat, registeredUsers: nat, guestUsers: nat,
    creditsSum: Option<int>, usageSum: Option<int>,
    newUsersToday: nat, generationsToday: nat, purchasesThisMonth: nat,
    activeSubscriptionUserIds: seq<string>, activeUsers30d: seq<string>)

  datatype Widgets = Widgets(
    totalUsers: nat, totalRegisteredUsers: nat, totalGuestUsers: nat,
    totalFreeUsers: int, totalPremiumUsers: nat,
    newUsersToday: nat, generationsToday: nat, activeUsers30d: nat,
    creditsInWallets: int, consumedCredits: int, purchasesThisMonth: nat, estimatedRevenueMonthBRL: int)

  /** The price of one credit purchase, in reais. */
  const PurchasePrice: int := 30

  function Overview(c: OverviewCounts): Widgets {
    var premium := |Dedup(c.activeSubscriptionUserIds)|;
    Widgets(c.totalUsers, c.registeredUsers, c.guestUsers,
            Max(0, c.registeredUsers - premium), premium,
            c.newUsersToday, c.generationsToday, |c.activeUsers30d|,
            c.creditsSum.GetOr(0), Abs(c.usageSum.GetOr(0)),
            c.purchasesThisMonth, c.purchasesThisMonth * PurchasePrice)
  }

  lemma {:induction false} DistinctCardinality<T>(xs: seq<T>)
    requires Distinct(xs)
    ensures |set x | x in xs| == |xs|
    decreases |xs|
  {
    if xs != [] {
      DistinctCardinality(xs[1..]);
      assert (set x | x in xs) == {xs[0]} + (set x | x in xs[1..]);
      assert xs[0] !in (set x | x in xs[1..]);
    }
  }

  /** Premium users are the distinct subscribed ids; free users are the
      registered count minus the premium count, or zero when that is negative; the revenue
      estimate is 30 per purchase; the consumed credits are the magnitude of
      the usage sum and both sums default to zero. */
  lemma OverviewSpec(c: OverviewCounts)
    ensures var w := Overview(c);
      && w.totalPremiumUsers == |set x | x in c.activeSubscriptionUserIds|
      && w.totalPremiumUsers <= |c.activeSubscriptionUserIds|
      && w.totalFreeUsers >= 0 && w.totalFreeUsers + w.totalPremiumUsers >= c.registeredUsers
      && w.totalFreeUsers <= c.registeredUsers
      && w.totalFreeUsers == (if c.registeredUsers >= w.totalPremiumUsers then c.registeredUsers - w.totalPremiumUsers else 0)
      && (c.creditsSum.Some? ==> w.creditsInWallets == c.creditsSum.value)
      && w.estimatedRevenueMonthBRL == 30 * c.purchasesThisMonth
      && w.consumedCredits >= 0
      && (c.usageSum.Some? ==> w.consumedCredits == Abs(c.usageSum.value))
      && (c.creditsSum.None? ==> w.creditsInWallets == 0)
      && (c.usageSum.None? ==> w.consumedCredits == 0)
  {
    var ids := c.activeSubscriptionUserIds;
    DedupSpec(ids);
    DistinctCardinality(Dedup(ids));
    assert (set x | x in Dedup(ids)) == (set x | x in ids);
    AddAllLength([], ids);
  }
}
