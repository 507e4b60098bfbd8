/** Coupon counters (services/promo/promo/promo.go). */
module Coupons {
  import opened Wrappers
  import opened Ledger

  type CampaignId = nat
  type BookingId = nat
  type UserKey = nat

  /** Whom a campaign is restricted to; provider names are compared without regard to case. */
  datatype Scope = Scope(operator: Option<nat>, route: Option<nat>, channel: Option<nat>, provider: Option<nat>, newUsersOnly: bool)

  datatype Campaign = Campaign(pct: int, flat: int, maxDiscount: int, minAmount: int, scope: Scope, cap: Option<int>, perUser: int,
                               active: bool, starts: int, ends: Option<int>, redeemed: int)

  /** The checkout that presents a code. */
  datatype Context = Context(user: UserKey, amount: int, operator: nat, route: nat, channel: nat, provider: nat, newUser: bool)

  /** The unique keys of user_usage and redemptions. */
  datatype UseKey = UseKey(campaign: CampaignId, user: UserKey)
  datatype ClaimKey = ClaimKey(campaign: CampaignId, booking: BookingId)

  datatype Promo = Promo(campaigns: map<CampaignId, Campaign>, used: map<UseKey, int>, claims: map<ClaimKey, UserKey>)

  datatype Verdict = Claimed(discount: int) | ErrNoSuchCode | ErrExpired | ErrTooSmall | ErrNotEligible | ErrExhausted | ErrPerUserLimit

  function DiscountFor(c: Campaign, amount: int): int {
    var d := c.flat + if c.pct > 0 then Quo(amount * c.pct, 100) else 0;
    var capped := if c.maxDiscount > 0 && d > c.maxDiscount then c.maxDiscount else d;
    if capped > amount then amount else capped
  }

  /** A discount never exceeds the amount nor the cap, and is no surcharge unless the flat part is negative. */
  lemma DiscountBounds(c: Campaign, amount: int)
    ensures DiscountFor(c, amount) <= amount && (c.maxDiscount > 0 ==> DiscountFor(c, amount) <= c.maxDiscount)
    ensures amount >= 0 && 0 <= c.pct <= 100 ==>
      (DiscountFor(c, amount) >= 0 <==> c.flat + (if c.pct > 0 then amount * c.pct / 100 else 0) >= 0)
  {
    if amount >= 0 && 0 <= c.pct <= 100 { Scale(0, amount, c.pct); }
  }

  /** The discount is the flat part and the percentage, rounded down, unless the cap or the amount itself is less. */
  lemma DiscountIs(c: Campaign, amount: int, raw: int)
    requires amount >= 0 && c.pct >= 0
    requires 100 * (raw - c.flat) <= amount * c.pct < 100 * (raw - c.flat) + 100
    ensures DiscountFor(c, amount) ==
      if c.maxDiscount > 0 && c.maxDiscount < raw && c.maxDiscount <= amount then c.maxDiscount else if raw <= amount then raw else amount
  {
    Scale(0, amount, c.pct);
    assert amount * c.pct / 100 == raw - c.flat;
  }

  // ---- the meaning of the two transactions ------------------------------------------------------

  function UsedBy(p: Promo, u: UseKey): int { if u in p.used then p.used[u] else 0 }

  predicate InWindow(c: Campaign, now: int) { c.starts <= now && (c.ends.Some? ==> now <= c.ends.value) }

  predicate Restricts(wanted: Option<nat>, got: nat) { wanted.Some? && wanted.value != got }

  predicate InScope(s: Scope, cx: Context) {
    && !Restricts(s.operator, cx.operator) && !Restricts(s.route, cx.route) && !Restricts(s.channel, cx.channel)
    && !Restricts(s.provider, cx.provider) && (s.newUsersOnly ==> cx.newUser)
  }

  /** The checks before the transaction, with the campaign row as it was loaded. */
  function Refusal(c: Campaign, cx: Context, now: int): Option<Verdict> {
    if !c.active then Some(ErrNoSuchCode)
    else if !InWindow(c, now) then Some(ErrExpired)
    else if cx.amount < c.minAmount then Some(ErrTooSmall)
    else if !InScope(c.scope, cx) then Some(ErrNotEligible)
    else if c.cap.Some? && c.redeemed >= c.cap.value then Some(ErrExhausted)
    else None
  }

  /** The verdict before the transaction, check by check and in the columns of the campaign. */
  lemma RefusalIs(c: Campaign, cx: Context, now: int)
    ensures var early := now < c.starts || (c.ends.Some? && now > c.ends.value);
      var elsewhere :=
        || (c.scope.operator.Some? && c.scope.operator.value != cx.operator) || (c.scope.route.Some? && c.scope.route.value != cx.route)
        || (c.scope.channel.Some? && c.scope.channel.value != cx.channel) || (c.scope.provider.Some? && c.scope.provider.value != cx.provider)
        || (c.scope.newUsersOnly && !cx.newUser);
      && (Refusal(c, cx, now) == Some(ErrNoSuchCode) <==> !c.active)
      && (Refusal(c, cx, now) == Some(ErrExpired) <==> c.active && early)
      && (Refusal(c, cx, now) == Some(ErrTooSmall) <==> c.active && !early && cx.amount < c.minAmount)
      && (Refusal(c, cx, now) == Some(ErrNotEligible) <==> c.active && !early && cx.amount >= c.minAmount && elsewhere)
      && (Refusal(c, cx, now) == None <==>
            c.active && !early && cx.amount >= c.minAmount && !elsewhere && (c.cap.Some? ==> c.redeemed < c.cap.value))
  {
  }

  /** The upsert inserts 1 for a first use; its guard looks only at a row that exists. */
  predicate MayUse(p: Promo, u: UseKey, limit: int) { u in p.used ==> p.used[u] < limit }

  /** The WHERE clause of the campaign's UPDATE. */
  predicate Open(c: Campaign, now: int) { c.active && InWindow(c, now) && (c.cap.Some? ==> c.redeemed < c.cap.value) }

  /** The transaction of Claim, for a campaign that was loaded before it. */
  function Claim(p: Promo, id: CampaignId, b: BookingId, user: UserKey, limit: int, discount: int, now: int): (Promo,
          Verdict) {
    var u := UseKey(id, user);
    if !MayUse(p, u, limit) then (p, ErrPerUserLimit)
    else if id !in p.campaigns || !Open(p.campaigns[id], now) then (p, ErrExhausted)
    else
      (Promo(p.campaigns[id := p.campaigns[id].(redeemed := p.campaigns[id].redeemed + 1)],
             p.used[u := UsedBy(p, u) + 1],
             if ClaimKey(id, b) in p.claims then p.claims else p.claims[ClaimKey(id, b) := user]), Claimed(discount))
  }

  /** GREATEST(n - 1, 0). */
  function Drop(n: int): int { if n - 1 > 0 then n - 1 else 0 }

  /** Release: every redemption of the booking is deleted and its two counters go down. */
  function Release(p: Promo, b: BookingId): Promo {
    Lower(p, map k | k in p.claims && k.booking == b :: p.claims[k], b)
  }

  function Lower(p: Promo, freed: map<ClaimKey, UserKey>, b: BookingId): Promo {
    Promo(LowerCampaigns(p.campaigns, freed, b), LowerUses(p.used, freed, b), map k | k in p.claims && k.booking != b :: p.claims[k])
  }

  function LowerCampaigns(campaigns: map<CampaignId, Campaign>, freed: map<ClaimKey, UserKey>,
          b: BookingId): map<CampaignId, Campaign> {
    map id | id in campaigns :: if ClaimKey(id, b) in freed then LowerCampaign(campaigns[id]) else campaigns[id]
  }

  function LowerUses(used: map<UseKey, int>, freed: map<ClaimKey, UserKey>, b: BookingId): map<UseKey, int> {
    map u | u in used :: if ClaimKey(u.campaign, b) in freed && freed[ClaimKey(u.campaign, b)] == u.user then Drop(used[u]) else used[u]
  }

  function LowerCampaign(c: Campaign): Campaign { c.(redeemed := Drop(c.redeemed)) }

  // ---- the invariant --------------------------------------------------------------------------

  function ClaimsOf(p: Promo, id: CampaignId): set<ClaimKey> { set k | k in p.claims && k.campaign == id }
  function ClaimsBy(p: Promo, u: UseKey): set<ClaimKey> {
    set k | k in p.claims && k.campaign == u.campaign && p.claims[k] == u.user
  }

  /** Every counter counts its redemption rows. */
  ghost predicate Counts(p: Promo) {
    && (forall id :: id in p.campaigns ==> p.campaigns[id].redeemed == |ClaimsOf(p, id)|)
    && (forall u :: UsedBy(p, u) == |ClaimsBy(p, u)|)
    && (forall k :: k in p.claims ==> k.campaign in p.campaigns)
  }

  /** Caps and allowances are kept; `perUser` is at least one. */
  ghost predicate Limited(p: Promo) {
    && (forall id :: id in p.campaigns && p.campaigns[id].cap.Some? ==> p.campaigns[id].redeemed <= p.campaigns[id].cap.value)
    && (forall u :: u in p.used && u.campaign in p.campaigns ==> p.used[u] <= p.campaigns[u.campaign].perUser)
  }

  ghost function TotalUsed(p: Promo, us: set<UseKey>): int {
    if us == {} then 0 else var u :| u in us; UsedBy(p, u) + TotalUsed(p, us - {u})
  }

  function ClaimsAmong(p: Promo, id: CampaignId, users: set<UseKey>): set<ClaimKey> {
    set k | k in p.claims && k.campaign == id && UseKey(id, p.claims[k]) in users
  }

  lemma OneUserLess(p: Promo, id: CampaignId, users: set<UseKey>, u: UseKey)
    requires u in users && u.campaign == id
    ensures |ClaimsAmong(p, id, users)| == |ClaimsBy(p, u)| + |ClaimsAmong(p, id, users - {u})|
  {
    assert ClaimsAmong(p, id, users) == ClaimsBy(p, u) + ClaimsAmong(p, id, users - {u});
    assert ClaimsBy(p, u) !! ClaimsAmong(p, id, users - {u});
  }

  /** The per-user counters of a campaign add up to its redemptions. */
  lemma {:induction false} UsageAddsUp(p: Promo, id: CampaignId, users: set<UseKey>)
    requires Counts(p) && forall u :: u in users ==> u.campaign == id
    ensures TotalUsed(p, users) == |ClaimsAmong(p, id, users)|
    decreases users
  {
    if users == {} {
      assert ClaimsAmong(p, id, users) == {};
    } else {
      var u :| u in users && TotalUsed(p, users) == UsedBy(p, u) + TotalUsed(p, users - {u});
      UsageAddsUp(p, id, users - {u});
      OneUserLess(p, id, users, u);
      hide ClaimsAmong;
    }
  }

  function UsersOf(p: Promo, id: CampaignId): set<UseKey> { set k | k in ClaimsOf(p, id) :: UseKey(id, p.claims[k]) }

  lemma CampaignAddsUp(p: Promo, id: CampaignId)
    requires Counts(p) && id in p.campaigns
    ensures TotalUsed(p, UsersOf(p, id)) == p.campaigns[id].redeemed
  {
    UsageAddsUp(p, id, UsersOf(p, id));
    assert ClaimsAmong(p, id, UsersOf(p, id)) == ClaimsOf(p, id);
  }

  // ---- what the two transactions keep --------------------------------------------------------------

  lemma AddedClaim(p: Promo, p2: Promo, key: ClaimKey, user: UserKey)
    requires key !in p.claims && p2.claims == p.claims[key := user]
    ensures forall id :: |ClaimsOf(p2, id)| == |ClaimsOf(p, id)| + if id == key.campaign then 1 else 0
    ensures forall u :: |ClaimsBy(p2, u)| == |ClaimsBy(p, u)| + if u == UseKey(key.campaign, user) then 1 else 0
  {
    forall id ensures ClaimsOf(p2, id) == if id == key.campaign then ClaimsOf(p, id) + {key} else ClaimsOf(p, id) {}
    forall u ensures ClaimsBy(p2, u) == if u == UseKey(key.campaign, user) then ClaimsBy(p, u) + {key} else ClaimsBy(p, u) {}
  }

  /** A claim keeps every counter equal to its rows exactly when the booking had not redeemed the
      campaign before: otherwise both counters move and no row is added. */
  lemma ClaimCountsIff(p: Promo, id: CampaignId, b: BookingId, user: UserKey, limit: int, discount: int, now: int)
    requires Counts(p)
    ensures var r := Claim(p, id, b, user, limit, discount, now);
      && (!r.1.Claimed? ==> r.0 == p)
      && (r.1.Claimed? ==> (Counts(r.0) <==> ClaimKey(id, b) !in p.claims))
  {
    var r := Claim(p, id, b, user, limit, discount, now);
    if r.1.Claimed? {
      if ClaimKey(id, b) !in p.claims {
        AddedClaim(p, r.0, ClaimKey(id, b), user);
      } else {
        assert ClaimsOf(r.0, id) == ClaimsOf(p, id) && r.0.campaigns[id].redeemed != |ClaimsOf(r.0, id)|;
      }
    }
  }

  /** A claim keeps the cap, and it keeps the allowance unless it is a first use of an open campaign that
      allows none: the first use of a user is not checked. */
  lemma ClaimLimitedIff(p: Promo, id: CampaignId, b: BookingId, user: UserKey, discount: int, now: int)
    requires Limited(p) && id in p.campaigns
    ensures Limited(Claim(p, id, b, user, p.campaigns[id].perUser, discount, now).0) <==>
            !(UseKey(id, user) !in p.used && Open(p.campaigns[id], now) && p.campaigns[id].perUser < 1)
  {
    var r := Claim(p, id, b, user, p.campaigns[id].perUser, discount, now);
    if r.1.Claimed? { assert r.0.used[UseKey(id, user)] == UsedBy(p, UseKey(id, user)) + 1; }
  }

  /** If nothing changed since the campaign was loaded, an eligible claim is refused only when the
      user's allowance is spent. */
  lemma EligibleClaimIff(p: Promo, id: CampaignId, b: BookingId, cx: Context, now: int)
    requires id in p.campaigns && Refusal(p.campaigns[id], cx, now) == None
    ensures var c := p.campaigns[id];
      Claim(p, id, b, cx.user, c.perUser, DiscountFor(c, cx.amount), now).1
        == if UsedBy(p, UseKey(id, cx.user)) < c.perUser || UseKey(id, cx.user) !in p.used then Claimed(DiscountFor(c, cx.amount)) else ErrPerUserLimit
  {
  }

  predicate Frees(p: Promo, b: BookingId, u: UseKey) {
    ClaimKey(u.campaign, b) in p.claims && p.claims[ClaimKey(u.campaign, b)] == u.user
  }

  lemma RemovedOf(p: Promo, b: BookingId, id: CampaignId)
    ensures |ClaimsOf(Release(p, b), id)| == |ClaimsOf(p, id)| - if ClaimKey(id, b) in p.claims then 1 else 0
  {
    assert ClaimsOf(Release(p, b), id) == ClaimsOf(p, id) - {ClaimKey(id, b)};
  }

  lemma RemovedBy(p: Promo, b: BookingId, u: UseKey)
    ensures |ClaimsBy(Release(p, b), u)| == |ClaimsBy(p, u)| - if Frees(p, b, u) then 1 else 0
  {
    assert ClaimsBy(Release(p, b), u) == ClaimsBy(p, u) - {ClaimKey(u.campaign, b)};
  }

  /** The floors never bind. */
  lemma FloorsNeverBind(p: Promo, k: ClaimKey)
    requires Counts(p) && k in p.claims
    ensures p.campaigns[k.campaign].redeemed >= 1 && UsedBy(p, UseKey(k.campaign, p.claims[k])) >= 1
  {
    assert k in ClaimsOf(p, k.campaign) && k in ClaimsBy(p, UseKey(k.campaign, p.claims[k]));
  }

  lemma ReleaseTwice(p: Promo, b: BookingId)
    ensures Release(Release(p, b), b) == Release(p, b)
  {
    var once, again := Release(p, b), Release(Release(p, b), b);
    assert again.campaigns == once.campaigns && again.used == once.used && again.claims == once.claims;
  }

  lemma LoweredOf(p: Promo, b: BookingId, id: CampaignId)
    requires Counts(p) && id in p.campaigns
    ensures id in Release(p, b).campaigns
    ensures Release(p, b).campaigns[id] == p.campaigns[id].(redeemed := p.campaigns[id].redeemed - if ClaimKey(id, b) in p.claims then 1 else 0)
  {
    if ClaimKey(id, b) in p.claims { FloorsNeverBind(p, ClaimKey(id, b)); }
    hide Counts;
  }

  lemma LoweredBy(p: Promo, b: BookingId, u: UseKey)
    requires Counts(p)
    ensures UsedBy(Release(p, b), u) == UsedBy(p, u) - if Frees(p, b, u) then 1 else 0
  {
    if Frees(p, b, u) { FloorsNeverBind(p, ClaimKey(u.campaign, b)); }
    hide Counts;
  }

  /** A release keeps every counter equal to its rows, and repeating it changes nothing. */
  lemma ReleaseCounts(p: Promo, b: BookingId)
    requires Counts(p)
    ensures Counts(Release(p, b)) && Release(Release(p, b), b) == Release(p, b)
    ensures forall k :: k in Release(p, b).claims <==> k in p.claims && k.booking != b
    ensures forall k :: k in Release(p, b).claims ==> Release(p, b).claims[k] == p.claims[k]
  {
    var p2 := Release(p, b);
    ReleaseTwice(p, b);
    assert p2.campaigns.Keys == p.campaigns.Keys && forall k :: k in p2.claims ==> k in p.claims;
    hide Release, ClaimsOf, ClaimsBy, UsedBy, Frees;
    forall id | id in p2.campaigns ensures p2.campaigns[id].redeemed == |ClaimsOf(p2, id)| { LoweredOf(p, b, id); RemovedOf(p, b, id); }
    forall u ensures UsedBy(p2, u) == |ClaimsBy(p2, u)| { LoweredBy(p, b, u); RemovedBy(p, b, u); }
  }

  lemma ReleaseLimited(p: Promo, b: BookingId)
    requires Counts(p) && Limited(p)
    ensures Limited(Release(p, b))
  {
    var p2 := Release(p, b);
    assert p2.campaigns.Keys == p.campaigns.Keys && p2.used.Keys == p.used.Keys;
    hide Release, Counts;
    forall id | id in p2.campaigns ensures p2.campaigns[id].cap.Some? ==> p2.campaigns[id].redeemed <= p2.campaigns[id].cap.value { LoweredOf(p, b, id); }
    forall u | u in p2.used && u.campaign in p2.campaigns ensures p2.used[u] <= p2.campaigns[u.campaign].perUser {
      LoweredBy(p, b, u);
      LoweredOf(p, b, u.campaign);
    }
  }

  // ---- any run ----------------------------------------------------------------------------------

  datatype Call = DoClaim(id: CampaignId, b: BookingId, user: UserKey, discount: int, now: int) | DoRelease(b: BookingId)

  function Do(p: Promo, call: Call): Promo {
    match call
    case DoClaim(id, b, user, discount, now) => if id in p.campaigns then Claim(p, id, b, user, p.campaigns[id].perUser, discount, now).0 else p
    case DoRelease(b) => Release(p, b)
  }

  function Run(p: Promo, calls: seq<Call>): Promo {
    if calls == [] then p else Do(Run(p, calls[..|calls| - 1]), calls[|calls| - 1])
  }

  /** No claim names a booking that holds a redemption of the campaign already. */
  predicate FreshRun(p: Promo, calls: seq<Call>) {
    calls == [] ||
    var before, last := Run(p, calls[..|calls| - 1]), calls[|calls| - 1];
    FreshRun(p, calls[..|calls| - 1]) && (last.DoClaim? ==> ClaimKey(last.id, last.b) !in before.claims)
  }

  lemma ClaimReleased(p: Promo, id: CampaignId, b: BookingId, user: UserKey, limit: int, discount: int, now: int)
    requires (forall i :: i in p.campaigns ==> p.campaigns[i].redeemed >= 0) && (forall k :: k in p.claims ==> k.booking != b)
    ensures var p2 := Release(Claim(p, id, b, user, limit, discount, now).0, b); p2.campaigns == p.campaigns && p2.claims == p.claims
  {
    hide MayUse, Open, UsedBy, LowerUses;
  }

  lemma NothingToRelease(p: Promo, b: BookingId)
    requires forall k :: k in p.claims ==> k.booking != b
    ensures Release(p, b) == p
  {
    var p2 := Release(p, b);
    assert p2.campaigns == p.campaigns && p2.used == p.used && p2.claims == p.claims;
  }

  lemma UseReleased(p: Promo, id: CampaignId, b: BookingId, user: UserKey, limit: int, discount: int, now: int,
          u: UseKey)
    requires UsedBy(p, u) >= 0 && forall k :: k in p.claims ==> k.booking != b
    ensures UsedBy(Release(Claim(p, id, b, user, limit, discount, now).0, b), u) == UsedBy(p, u)
  {
    hide MayUse, Open, LowerCampaigns;
  }

  /** A release undoes the claim of its booking: the campaign, every counter and every redemption are as before. */
  lemma ReleaseUndoesClaim(p: Promo, id: CampaignId, b: BookingId, user: UserKey, discount: int, now: int)
    requires Counts(p) && forall k :: k in p.claims ==> k.booking != b
    ensures var p2 := Run(p, [DoClaim(id, b, user, discount, now), DoRelease(b)]);
      p2.campaigns == p.campaigns && p2.claims == p.claims && forall u :: UsedBy(p2, u) == UsedBy(p, u)
  {
    var claim, both := DoClaim(id, b, user, discount, now), [DoClaim(id, b, user, discount, now), DoRelease(b)];
    assert both[..1] == [claim] && [claim][..0] == [] && Run(p, [claim]) == Do(Run(p, []), claim);
    var p1 := Do(p, claim);
    assert Run(p, both) == Release(p1, b);
    assert forall i :: i in p.campaigns ==> p.campaigns[i].redeemed >= 0;
    hide Run, Release, Claim;
    if id in p.campaigns {
      var limit := p.campaigns[id].perUser;
      ClaimReleased(p, id, b, user, limit, discount, now);
      forall u ensures UsedBy(Release(p1, b), u) == UsedBy(p, u) { UseReleased(p, id, b, user, limit, discount, now, u); }
    } else {
      NothingToRelease(p, b);
    }
  }

  ghost predicate AllowOne(p: Promo) { forall id :: id in p.campaigns ==> p.campaigns[id].perUser >= 1 }

  lemma {:induction false} CouponsAreConserved(p: Promo, calls: seq<Call>)
    requires Counts(p) && Limited(p) && AllowOne(p) && FreshRun(p, calls)
    ensures Counts(Run(p, calls)) && Limited(Run(p, calls)) && AllowOne(Run(p, calls))
  {
    if calls != [] {
      var before, last := Run(p, calls[..|calls| - 1]), calls[|calls| - 1];
      CouponsAreConserved(p, calls[..|calls| - 1]);
      match last
      case DoClaim(id, b, user, discount, now) =>
        if id in before.campaigns {
          ClaimCountsIff(before, id, b, user, before.campaigns[id].perUser, discount, now);
          ClaimLimitedIff(before, id, b, user, discount, now);
        }
      case DoRelease(b) =>
        ReleaseCounts(before, b);
        ReleaseLimited(before, b);
    }
  }

  /** Checkouts that present one open code, each by another user who may still use it. */
  predicate Checkouts(p: Promo, id: CampaignId, calls: seq<Call>) {
    && id in p.campaigns && p.campaigns[id].active && p.campaigns[id].cap.Some?
    && (forall call :: call in calls ==> call.DoClaim? && call.id == id && InWindow(p.campaigns[id], call.now))
    && (forall i, j :: 0 <= i < j < |calls| ==> calls[i].user != calls[j].user)
    && (forall call :: call in calls ==> MayUse(p, UseKey(id, call.user), p.campaigns[id].perUser))
  }

  function Least(a: int, b: int): int { if a < b then a else b }

  lemma {:induction false} CapFills(p: Promo, id: CampaignId, calls: seq<Call>, other: UserKey)
    requires Checkouts(p, id, calls) && p.campaigns[id].redeemed <= p.campaigns[id].cap.value
    ensures var c, r := p.campaigns[id], Run(p, calls);
      id in r.campaigns && r.campaigns[id] == c.(redeemed := Least(c.redeemed + |calls|, c.cap.value))
    ensures (forall call :: call in calls ==> call.user != other) ==>
      (MayUse(p, UseKey(id, other), p.campaigns[id].perUser) ==> MayUse(Run(p, calls), UseKey(id, other), p.campaigns[id].perUser))
  {
    if calls != [] {
      var init, last := calls[..|calls| - 1], calls[|calls| - 1];
      assert calls == init + [last] && last in calls;
      CapFills(p, id, init, other);
      CapFills(p, id, init, last.user);
      hide DiscountFor, Run;
      assert Run(p, calls) == Do(Run(p, init), last);
    }
  }

  /** However many checkouts race for a capped code, in whatever order, exactly as many redemptions
      are recorded as the cap has left. */
  lemma ExactlyTheCap(p: Promo, id: CampaignId, calls: seq<Call>)
    requires Counts(p) && Limited(p) && AllowOne(p) && Checkouts(p, id, calls) && FreshRun(p, calls)
    ensures |ClaimsOf(Run(p, calls), id)| == Least(|ClaimsOf(p, id)| + |calls|, p.campaigns[id].cap.value)
  {
    CapFills(p, id, calls, 0);
    CouponsAreConserved(p, calls);
  }
}

module PromoStore {
  import opened Wrappers
  import opened Coupons

  class Store {
    var campaigns: map<CampaignId, Campaign>
    var used: map<UseKey, int>
    var claims: map<ClaimKey, UserKey>

    function Now(): Promo
      reads this
    {
      Promo(campaigns, used, claims)
    }

    constructor (campaigns: map<CampaignId, Campaign>)
      ensures Now() == Promo(campaigns, map[], map[])
    {
      this.campaigns, used, claims := campaigns, map[], map[];
    }

    /** eligible, on the campaign row `c` as it was loaded at `loaded`; then, at `now`, user_usage first,
        the campaign second, the redemption last. */
    method Claim(c: Campaign, id: CampaignId, b: BookingId, cx: Context, loaded: int, now: int) returns (v: Verdict)
      modifies this
      ensures Refusal(c, cx, loaded).Some? ==> v == Refusal(c, cx, loaded).value && Now() == old(Now())
      ensures Refusal(c, cx, loaded) == None ==>
        (Now(), v) == Coupons.Claim(old(Now()), id, b, cx.user, c.perUser, DiscountFor(c, cx.amount), now)
      ensures v.Claimed? <==>
        && Refusal(c, cx, loaded) == None && id in old(campaigns)
        && (UseKey(id, cx.user) in old(used) ==> old(used)[UseKey(id, cx.user)] < c.perUser)
        && var row := old(campaigns)[id];
        row.active && row.starts <= now && (row.ends.Some? ==> now <= row.ends.value) && (row.cap.Some? ==> row.redeemed < row.cap.value)
      ensures v.Claimed? ==>
        && v.discount == DiscountFor(c, cx.amount)
        && campaigns == old(campaigns)[id := old(campaigns)[id].(redeemed := old(campaigns)[id].redeemed + 1)]
        && used == old(used)[UseKey(id, cx.user) := if UseKey(id, cx.user) in old(used) then old(used)[UseKey(id, cx.user)] + 1 else 1]
        && claims == if ClaimKey(id, b) in old(claims) then old(claims) else old(claims)[ClaimKey(id, b) := cx.user]
      ensures !v.Claimed? ==> Now() == old(Now())
    {
      var refusal := CheckEligible(c, cx, loaded);
      if refusal.Some? { return refusal.value; }
      var discount, saved, u := DiscountFor(c, cx.amount), used, UseKey(id, cx.user);
      if u !in used { used := used[u := 1]; }
      else if used[u] < c.perUser { used := used[u := used[u] + 1]; }
      else { return ErrPerUserLimit; }
      if id !in campaigns || !Open(campaigns[id], now) { used := saved; return ErrExhausted; }
      campaigns := campaigns[id := campaigns[id].(redeemed := campaigns[id].redeemed + 1)];
      if ClaimKey(id, b) !in claims { claims := claims[ClaimKey(id, b) := cx.user]; }
      return Claimed(discount);
    }

    /** The checks of eligible, one after the other. */
    method CheckEligible(c: Campaign, cx: Context, now: int) returns (r: Option<Verdict>)
      ensures r == Refusal(c, cx, now)
    {
      if !c.active { return Some(ErrNoSuchCode); }
      if now < c.starts || (c.ends.Some? && now > c.ends.value) { return Some(ErrExpired); }
      if cx.amount < c.minAmount { return Some(ErrTooSmall); }
      if c.scope.operator.Some? && c.scope.operator.value != cx.operator { return Some(ErrNotEligible); }
      if c.scope.route.Some? && c.scope.route.value != cx.route { return Some(ErrNotEligible); }
      if c.scope.channel.Some? && c.scope.channel.value != cx.channel { return Some(ErrNotEligible); }
      if c.scope.provider.Some? && c.scope.provider.value != cx.provider { return Some(ErrNotEligible); }
      if c.scope.newUsersOnly && !cx.newUser { return Some(ErrNotEligible); }
      if c.cap.Some? && c.redeemed >= c.cap.value { return Some(ErrExhausted); }
      return None;
    }

    /** DELETE ... RETURNING, then two UPDATEs per deleted row. */
    method Release(b: BookingId)
      modifies this
      ensures Now() == Coupons.Release(old(Now()), b)
    {
      ghost var before := Now();
      var freed := map k | k in claims && k.booking == b :: claims[k];
      claims := map k | k in claims && k.booking != b :: claims[k];
      var rest := freed.Keys;
      ghost var gone: map<ClaimKey, UserKey> := map[];
      LowerNone(before, b);
      hide Lower, LowerCampaign, Drop;
      while rest != {}
        invariant rest <= freed.Keys && forall k :: k in freed ==> k.booking == b
        invariant forall k :: k in gone <==> k in freed && k !in rest
        invariant forall k :: k in gone ==> gone[k] == freed[k]
        invariant Now() == Lower(before, gone, b)
        decreases rest
      {
        var k :| k in rest;
        LowerNext(before, gone, b, k, freed[k]);
        LowerRow(k.campaign, UseKey(k.campaign, freed[k]));
        gone, rest := gone[k := freed[k]], rest - {k};
      }
      assert gone == freed;
    }

    /** The two UPDATEs for one deleted redemption. */
    method LowerRow(id: CampaignId, u: UseKey)
      modifies this`campaigns, this`used
      ensures Now() == Lowered(old(Now()), id, u)
    {
      if id in campaigns { campaigns := campaigns[id := LowerCampaign(campaigns[id])]; }
      if u in used { used := used[u := Drop(used[u])]; }
    }
  }

  function Lowered(p: Promo, id: CampaignId, u: UseKey): Promo {
    Promo(if id in p.campaigns then p.campaigns[id := LowerCampaign(p.campaigns[id])] else p.campaigns,
          if u in p.used then p.used[u := Drop(p.used[u])] else p.used, p.claims)
  }

  lemma LowerNone(p: Promo, b: BookingId)
    ensures Lower(p, map[], b) == p.(claims := map k | k in p.claims && k.booking != b :: p.claims[k])
  {
    assert Lower(p, map[], b).campaigns == p.campaigns && Lower(p, map[], b).used == p.used;
  }

  lemma NextCampaign(campaigns: map<CampaignId, Campaign>, gone: map<ClaimKey, UserKey>, b: BookingId, k: ClaimKey,
          user: UserKey)
    requires k !in gone && k.booking == b
    ensures var q := LowerCampaigns(campaigns, gone, b);
      LowerCampaigns(campaigns, gone[k := user], b) == if k.campaign in q then q[k.campaign := LowerCampaign(q[k.campaign])] else q
  {
    hide LowerCampaign;
  }

  lemma NextUse(used: map<UseKey, int>, gone: map<ClaimKey, UserKey>, b: BookingId, k: ClaimKey, user: UserKey)
    requires k !in gone && k.booking == b
    ensures var q, u := LowerUses(used, gone, b), UseKey(k.campaign, user);
      LowerUses(used, gone[k := user], b) == if u in q then q[u := Drop(q[u])] else q
  {
    hide Drop;
  }

  lemma LowerNext(p: Promo, gone: map<ClaimKey, UserKey>, b: BookingId, k: ClaimKey, user: UserKey)
    requires k !in gone && k.booking == b
    ensures Lower(p, gone[k := user], b) == Lowered(Lower(p, gone, b), k.campaign, UseKey(k.campaign, user))
  {
    NextCampaign(p.campaigns, gone, b, k, user);
    NextUse(p.used, gone, b, k, user);
    hide LowerCampaigns, LowerUses;
  }
}
