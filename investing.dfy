/** The investor dashboard of dashboard.js: the plan tables, the investment
    flow (the balance guard of the plan modal, the debit, the new position
    and journal entry, the write-back to the account store) and the
    referral and investment figures. */
module Investing {
  import opened Collections
  import opened Records
  import opened Text
  import opened Accounts

  /** Milliseconds in a day. */
  const DayMillis: int := 86_400_000

  /** The plans with a fixed payout and maturity. */
  const PaidPlans: set<string> := {"bronze", "silver", "gold", "platinum"}

  /** calculateExpectedReturn, in pesewas: the fixed payout of a paid plan;
      any other plan returns the amount itself. */
  function ExpectedReturn(plan: string, amount: int): (r: int)
    ensures plan !in PaidPlans ==> r == amount
    ensures plan in PaidPlans ==> r >= 232523
  {
    match plan
    case "bronze" => 232523
    case "silver" => 418541
    case "gold" => 790578
    case "platinum" => 1395138
    case _ => amount
  }

  /** The maturity offset of calculateMaturityDate, in days. */
  function MaturityDays(plan: string): (d: nat)
    ensures d > 0 <==> plan in PaidPlans
    ensures d % 7 == 0
  {
    match plan
    case "bronze" => 21
    case "silver" => 21
    case "gold" => 35
    case "platinum" => 42
    case _ => 0
  }

  /** getMaturityPeriod: the label the plan modal shows. */
  function MaturityPeriod(plan: string): string
  {
    match plan
    case "bronze" => "3 Weeks"
    case "silver" => "3 Weeks"
    case "gold" => "5 Weeks"
    case "platinum" => "6 Weeks"
    case _ => "N/A"
  }

  /** The label a maturity offset deserves: whole weeks, or N/A for none. */
  function WeeksLabel(days: nat): string
  {
    if days == 0 then "N/A" else NatText(days / 7) + " Weeks"
  }

  /** The label the modal shows always names the offset the investment gets. */
  lemma MaturityPeriodAgrees(plan: string)
    ensures MaturityPeriod(plan) == WeeksLabel(MaturityDays(plan))
  {
    assert NatText(3) == "3" && NatText(5) == "5" && NatText(6) == "6";
  }

  /** calculateMaturityDate as an offset from the current time `now`. */
  function MaturityDate(plan: string, now: int): (t: int)
    ensures t >= now
    ensures plan in PaidPlans ==> t >= now + 21 * DayMillis
    ensures plan !in PaidPlans ==> t == now
    ensures (t - now) % (7 * DayMillis) == 0
  {
    now + MaturityDays(plan) * DayMillis
  }

  /** The plan and amount the modal holds between opening and confirming. */
  datatype PlanChoice = PlanChoice(plan: string, amount: int)

  /** The position processInvestment opens. */
  function NewInvestment(c: PlanChoice, invId: string, now: int): Investment
  {
    Investment(invId, c.plan, c.amount, ExpectedReturn(c.plan, c.amount), now, MaturityDate(c.plan, now), "active")
  }

  /** The journal entry processInvestment records: a completed debit. */
  function InvestmentTransaction(c: PlanChoice, txId: string, now: int): Transaction
  {
    Transaction(txId, "investment", -c.amount, None, "Investment in " + c.plan + " plan", now, "completed")
  }

  /** The record after a successful investment. */
  function Invested(u: User, c: PlanChoice, invId: string, txId: string, now: int): User
  {
    u.(balance := u.balance - c.amount,
       investments := u.investments + [NewInvestment(c, invId, now)],
       transactions := u.transactions + [InvestmentTransaction(c, txId, now)],
       plan := c.plan)
  }

  predicate IsReferralCredit(t: Transaction) { t.txType == "referral_bonus" || t.txType == "referral_commission" }

  predicate IsProfit(t: Transaction) { t.txType == "profit" }

  function Amount(t: Transaction): int { t.amount }

  /** Referral earnings: the referral bonus and commission entries summed. */
  function ReferralEarnings(u: User): int
  {
    SumOf(Filter(u.transactions, IsReferralCredit), Amount)
  }

  /** Total profit: the profit entries summed. */
  function TotalProfit(u: User): int
  {
    SumOf(Filter(u.transactions, IsProfit), Amount)
  }

  /** An investment debits exactly the amount, never overdraws a funded
      account, keeps a reconciled record reconciled, adds one active position
      and leaves the profit and referral figures as they were. */
  lemma InvestedEffects(u: User, c: PlanChoice, invId: string, txId: string, now: int)
    ensures var v := Invested(u, c, invId, txId, now);
      && v.balance == u.balance - c.amount
      && (u.balance >= c.amount ==> v.balance >= 0)
      && v.plan == c.plan
      && v.id == u.id && v.email == u.email && v.role == u.role && v.referralCode == u.referralCode
      && |v.investments| == |u.investments| + 1 && |v.transactions| == |u.transactions| + 1
      && v.investments[|u.investments|].status == "active"
      && v.transactions[|u.transactions|].txType == "investment"
      && v.transactions[|u.transactions|].status == "completed"
      && v.transactions[|u.transactions|].amount == -c.amount
      && (Reconciled(u) ==> Reconciled(v))
      && ActiveInvestmentCount(v) == ActiveInvestmentCount(u) + 1
      && TotalProfit(v) == TotalProfit(u)
      && ReferralEarnings(v) == ReferralEarnings(u)
  {
    var inv := NewInvestment(c, invId, now);
    var tx := InvestmentTransaction(c, txId, now);
    SumAppend(u.transactions, [tx], CompletedAmount);
    CountAppend(u.investments, [inv], IsActive);
    FilterAppend(u.transactions, [tx], IsProfit);
    FilterAppend(u.transactions, [tx], IsReferralCredit);
    assert Filter([tx], IsProfit) == [] && Filter([tx], IsReferralCredit) == [];
    assert Filter(u.transactions, IsProfit) + [] == Filter(u.transactions, IsProfit);
    assert Filter(u.transactions, IsReferralCredit) + [] == Filter(u.transactions, IsReferralCredit);
  }

  /** The fields processInvestment hands to updateUser. */
  function InvestmentUpdate(v: User): UserUpdate
  {
    UserUpdate(None, None, None, Some(v.balance), Some(v.plan), None, None, Some(v.investments), Some(v.transactions))
  }

  /** When the store holds the same record the dashboard started from, the
      write-back leaves the store with exactly the dashboard's new record. */
  lemma WriteBackMatches(u: User, c: PlanChoice, invId: string, txId: string, now: int)
    ensures Merge(u, InvestmentUpdate(Invested(u, c, invId, txId, now))) == Invested(u, c, invId, txId, now)
  {
  }

  /** users.filter(u => u.referredBy === code).length */
  function ReferralCount(users: seq<User>, code: string): (n: nat)
    ensures n <= |users|
  {
    if users == [] then 0
    else ReferralCount(users[..|users| - 1], code) + (if users[|users| - 1].referredBy == Some(code) then 1 else 0)
  }

  /** The referrals that are still on the free plan. */
  function FreeReferralCount(users: seq<User>, code: string): (n: nat)
    ensures n <= ReferralCount(users, code)
  {
    if users == [] then 0
    else
      var last := users[|users| - 1];
      FreeReferralCount(users[..|users| - 1], code) + (if last.referredBy == Some(code) && last.plan == "free" then 1 else 0)
  }

  lemma {:induction false} ReferralCountAppend(a: seq<User>, b: seq<User>, code: string)
    ensures ReferralCount(a + b, code) == ReferralCount(a, code) + ReferralCount(b, code)
  {
    if b == [] {
      assert a + b == a;
    } else {
      assert (a + b)[..|a + b| - 1] == a + b[..|b| - 1];
      ReferralCountAppend(a, b[..|b| - 1], code);
    }
  }

  /** The counts depend only on each record's referredBy (and plan). */
  lemma {:induction false} ReferralCountPointwise(a: seq<User>, b: seq<User>, code: string)
    requires |a| == |b|
    requires forall j :: 0 <= j < |a| ==> a[j].referredBy == b[j].referredBy
    ensures ReferralCount(a, code) == ReferralCount(b, code)
  {
    if a != [] {
      ReferralCountPointwise(a[..|a| - 1], b[..|b| - 1], code);
    }
  }

  /** Registering with a referral code adds exactly one to that code's
      referral count; the bonus credit to the referrer does not disturb it. */
  lemma RegistrationAddsReferral(users: seq<User>, data: Registration, id: string, code: string, txId: string, now: int)
    requires data.referralCode != ""
    ensures ReferralCount(Registered(users, data, id, code, txId, now), data.referralCode)
            == ReferralCount(users, data.referralCode) + 1
  {
    var appended := users + [NewAccount(data, id, code, now)];
    var r := ApplyReferralBonus(appended, data.referralCode, txId, id, now);
    ReferralBonusEffect(appended, data.referralCode, txId, id, now);
    ReferralCountPointwise(r, appended, data.referralCode);
    ReferralCountAppend(users, [NewAccount(data, id, code, now)], data.referralCode);
    assert ReferralCount([NewAccount(data, id, code, now)], data.referralCode) == 1 by {
      assert [NewAccount(data, id, code, now)][..0] == [];
    }
  }

  /** The referral bonus raises the referrer's referral earnings by exactly
      GHS 24 and nobody else's. */
  lemma ReferralBonusEarns(users: seq<User>, code: string, txId: string, newUserId: string, now: int, j: nat)
    requires j < |users|
    ensures ReferralEarnings(ApplyReferralBonus(users, code, txId, newUserId, now)[j])
            == ReferralEarnings(users[j]) + (if ReferrerIndex(users, code) == Some(j) then ReferralBonus else 0)
  {
    ReferralBonusEffect(users, code, txId, newUserId, now);
    if ReferrerIndex(users, code) == Some(j) {
      var tx := BonusTransaction(txId, newUserId, now);
      FilterAppend(users[j].transactions, [tx], IsReferralCredit);
      assert Filter([tx], IsReferralCredit) == [tx] by {
        assert [tx][..0] == [];
      }
      SumAppend(Filter(users[j].transactions, IsReferralCredit), [tx], Amount);
      assert SumOf([tx], Amount) == ReferralBonus by {
        assert [tx][..0] == [];
      }
    }
  }

  /** The figures of updateReferralStats. */
  datatype ReferralFigures = ReferralFigures(earnings: int, totalReferrals: nat, pendingBonus: int)

  /** updateReferralStats over the stored list, for a record whose referral
      code is `code`; the pending bonus is GHS 24 per referral still on the
      free plan, so it never exceeds GHS 24 per referral. */
  function ReferralStats(u: User, users: seq<User>, code: string): (r: ReferralFigures)
    ensures r.totalReferrals <= |users|
    ensures 0 <= r.pendingBonus <= ReferralBonus * r.totalReferrals
  {
    ReferralFigures(ReferralEarnings(u), ReferralCount(users, code), ReferralBonus * FreeReferralCount(users, code))
  }

  /** The figures of updateInvestmentStats. */
  datatype InvestmentFigures = InvestmentFigures(activeInvestments: nat, totalProfit: int)

  function InvestmentStats(u: User): (r: InvestmentFigures)
    ensures r.activeInvestments <= |u.investments|
    ensures r.activeInvestments == |Filter(u.investments, IsActive)|
  {
    InvestmentFigures(CountOf(u.investments, IsActive), TotalProfit(u))
  }

  /** The signed-in record as checkAuthentication and openInvestmentModal see
      it: the stored record with the same id when there is one. */
  function Refreshed(users: seq<User>, u: User): (r: User)
    ensures r.id == u.id
    ensures UserById(users, u.id).Some? ==> r in users
    ensures UserById(users, u.id).None? ==> r == u
  {
    match UserById(users, u.id)
    case None => u
    case Some(v) => v
  }

  /** The investor dashboard over the account store. */
  class Dashboard {
    const auth: AuthSystem
    var currentUser: User
    var selectedPlan: Option<PlanChoice>

    /** checkAuthentication for a signed-in visitor. */
    constructor (auth: AuthSystem)
      requires auth.currentUser.Some?
      ensures this.auth == auth && selectedPlan == None
      ensures currentUser == Refreshed(auth.users, auth.currentUser.value)
    {
      this.auth := auth;
      currentUser := Refreshed(auth.users, auth.currentUser.value);
      selectedPlan := None;
    }

    /** openInvestmentModal: refreshes the record, then selects the plan only
        when the balance covers the amount. */
    method OpenInvestmentModal(plan: string, amount: int) returns (shown: bool)
      requires auth.currentUser.Some?
      modifies this`currentUser, this`selectedPlan
      ensures currentUser == Refreshed(auth.users, auth.currentUser.value)
      ensures shown <==> currentUser.balance >= amount
      ensures shown ==> selectedPlan == Some(PlanChoice(plan, amount))
      ensures !shown ==> selectedPlan == old(selectedPlan)
    {
      currentUser := Refreshed(auth.users, auth.currentUser.value);
      if currentUser.balance < amount {
        return false;
      }
      selectedPlan := Some(PlanChoice(plan, amount));
      shown := true;
    }

    method CloseModal()
      modifies this`selectedPlan
      ensures selectedPlan == None
    {
      selectedPlan := None;
    }

    /** processInvestment with fresh ids and the current time as parameters. */
    method ProcessInvestment(invId: string, txId: string, now: int) returns (invested: bool)
      modifies this`currentUser, this`selectedPlan, auth
      ensures invested <==> old(selectedPlan).Some? && old(currentUser).balance >= old(selectedPlan).value.amount
      ensures old(selectedPlan).None? ==> selectedPlan == None && currentUser == old(currentUser)
      ensures old(selectedPlan).Some? ==> selectedPlan == None
      ensures !invested ==> currentUser == old(currentUser) && unchanged(auth)
      ensures invested ==> currentUser == Invested(old(currentUser), old(selectedPlan).value, invId, txId, now)
      ensures invested ==> auth.users == Updated(old(auth.users), currentUser.id, InvestmentUpdate(currentUser))
      ensures invested ==>
        auth.currentUser == SessionAfterUpdate(old(auth.currentUser), old(auth.users), currentUser.id, InvestmentUpdate(currentUser))
    {
      if selectedPlan.None? {
        return false;
      }
      var choice := selectedPlan.value;
      if currentUser.balance < choice.amount {
        CloseModal();
        return false;
      }
      currentUser := Invested(currentUser, choice, invId, txId, now);
      var _ := auth.UpdateUser(currentUser.id, InvestmentUpdate(currentUser));
      CloseModal();
      invested := true;
    }
  }
}
