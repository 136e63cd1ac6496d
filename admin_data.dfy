/** The administrator's data store of admin-data.js: site settings and the
    plan table with their merges, whole-system and per-user statistics,
    backup and restore, and the CSV exports. */
module AdminData {
  import opened Collections
  import opened Records
  import opened Text
  import opened Accounts
  import opened AdminConsole
  import opened Investing

  /** A setting value: the settings object mixes text, numbers and flags. */
  datatype SettingValue = TextSetting(text: string) | NumberSetting(number: real) | FlagSetting(flag: bool)

  /** One investment plan; amounts in pesewas, period in weeks. */
  datatype Plan = Plan(name: string, investment: int, returnAmount: int, period: int, limit: int, active: bool)

  /** The statistics block stored next to the settings. */
  datatype Statistics = Statistics(
    totalUsers: int,
    totalDeposits: int,
    totalWithdrawals: int,
    totalInvestments: int,
    systemBalance: int,
    createdAt: int)

  datatype SystemData = SystemData(settings: map<string, SettingValue>, plans: map<string, Plan>, statistics: Statistics)

  const DefaultSettings: map<string, SettingValue> := map[
    "siteName" := TextSetting("MoneyPilot"),
    "adminEmail" := TextSetting("admin@moneypilot.site"),
    "exchangeRate" := NumberSetting(12.5),
    "maintenanceMode" := FlagSetting(false),
    "registrationEnabled" := FlagSetting(true),
    "withdrawalsEnabled" := FlagSetting(true)]

  const DefaultPlans: map<string, Plan> := map[
    "free" := Plan("Starter", 0, 2000, 0, 2000, true),
    "bronze" := Plan("Bronze", 50000, 232523, 3, 500000, true),
    "silver" := Plan("Silver", 90000, 418541, 3, 1000000, true),
    "gold" := Plan("Gold", 170000, 790578, 5, 1500000, true),
    "platinum" := Plan("Platinum", 300000, 1395138, 6, 2000000, true)]

  /** The system data used when none is stored; `now` is the creation time. */
  function DefaultSystemData(now: int): SystemData
  {
    SystemData(DefaultSettings, DefaultPlans, Statistics(0, 0, 0, 0, 0, now))
  }

  /** The default plan table agrees with the dashboard: each paid plan's
      return is the payout the dashboard promises, its period in weeks is
      the maturity offset, and every paid plan's payout exceeds its price. */
  lemma DefaultPlansAgreeWithDashboard(plan: string, amount: int)
    requires plan in PaidPlans
    ensures plan in DefaultPlans
    ensures DefaultPlans[plan].returnAmount == ExpectedReturn(plan, amount)
    ensures MaturityDays(plan) == 7 * DefaultPlans[plan].period
    ensures DefaultPlans[plan].returnAmount > DefaultPlans[plan].investment
  {
  }

  /** {...settings, ...newSettings}: the given keys overwrite, the others stay. */
  function MergeSettings(settings: map<string, SettingValue>, newSettings: map<string, SettingValue>): (r: map<string, SettingValue>)
    ensures r.Keys == settings.Keys + newSettings.Keys
    ensures forall k :: k in newSettings ==> r[k] == newSettings[k]
    ensures forall k :: k in settings && k !in newSettings ==> r[k] == settings[k]
  {
    settings + newSettings
  }

  /** The fields a plan update may carry; absent fields keep their value. */
  datatype PlanChanges = PlanChanges(
    name: Option<string>,
    investment: Option<int>,
    returnAmount: Option<int>,
    period: Option<int>,
    limit: Option<int>,
    active: Option<bool>)

  /** {...plan, ...changes} */
  function ApplyPlanChanges(p: Plan, c: PlanChanges): Plan
  {
    Plan(GetOr(c.name, p.name), GetOr(c.investment, p.investment), GetOr(c.returnAmount, p.returnAmount),
         GetOr(c.period, p.period), GetOr(c.limit, p.limit), GetOr(c.active, p.active))
  }

  /** Applying changes overwrites exactly the fields they carry, and applying
      the same changes twice is applying them once. */
  lemma PlanChangesLaws(p: Plan, c: PlanChanges)
    ensures var q := ApplyPlanChanges(p, c);
      && (c.investment.Some? ==> q.investment == c.investment.value)
      && (c.investment.None? ==> q.investment == p.investment)
      && (c.returnAmount.Some? ==> q.returnAmount == c.returnAmount.value)
      && (c.returnAmount.None? ==> q.returnAmount == p.returnAmount)
      && (c.period.Some? ==> q.period == c.period.value)
      && (c.period.None? ==> q.period == p.period)
      && (c.limit.Some? ==> q.limit == c.limit.value)
      && (c.limit.None? ==> q.limit == p.limit)
      && (c.active.Some? ==> q.active == c.active.value)
      && (c.active.None? ==> q.active == p.active)
      && (c.name.Some? ==> q.name == c.name.value)
      && (c.name.None? ==> q.name == p.name)
    ensures ApplyPlanChanges(ApplyPlanChanges(p, c), c) == ApplyPlanChanges(p, c)
    ensures ApplyPlanChanges(p, PlanChanges(None, None, None, None, None, None)) == p
  {
  }

  // ------------------------------------------------------------ statistics

  /** The amount getSystemStats and getUserStats add for an investment entry. */
  function InvestmentDebit(t: Transaction): int
  {
    if t.txType == "investment" then Abs(t.amount) else 0
  }

  /** The amount getUserStats adds for a withdrawal, whatever its status. */
  function AnyWithdrawalAmount(t: Transaction): int
  {
    if t.txType == "withdrawal" then Abs(t.amount) else 0
  }

  /** The amount getUserStats adds for a referral bonus or commission. */
  function ReferralAmount(t: Transaction): int
  {
    if IsReferralCredit(t) then t.amount else 0
  }

  datatype SystemStats = SystemStats(
    totalUsers: nat,
    totalDeposits: int,
    totalWithdrawals: int,
    totalInvestments: int,
    systemBalance: int,
    activeInvestments: int,
    pendingKyc: nat)

  /** getSystemStats: the figures over every record that is not an
      administrator; deposits and withdrawals only when completed,
      investment debits whatever their status. */
  function SystemStatsOf(users: seq<User>): (r: SystemStats)
    ensures r.totalUsers == CountOf(users, IsRegular)
    ensures r.totalDeposits == SumOf(AllTransactions(Filter(users, IsRegular)), CompletedDepositAmount)
    ensures r.totalWithdrawals == SumOf(AllTransactions(Filter(users, IsRegular)), CompletedWithdrawalAmount)
    ensures r.totalInvestments == SumOf(AllTransactions(Filter(users, IsRegular)), InvestmentDebit)
    ensures r.totalWithdrawals >= 0 && r.totalInvestments >= 0 && r.activeInvestments >= 0
    ensures r.pendingKyc <= r.totalUsers
  {
    var regular := Filter(users, IsRegular);
    var all := AllTransactions(regular);
    SumNonNegative(all, CompletedWithdrawalAmount);
    SumNonNegative(all, InvestmentDebit);
    SumNonNegative(regular, ActiveInvestmentCount);
    SystemStats(|regular|, SumOf(all, CompletedDepositAmount), SumOf(all, CompletedWithdrawalAmount),
                SumOf(all, InvestmentDebit), SumOf(regular, Balance), SumOf(regular, ActiveInvestmentCount),
                CountOf(regular, KycPending))
  }

  /** When every record is either a user or an administrator, the system
      figures coincide with the overview figures of the console. */
  lemma SystemStatsMatchOverview(users: seq<User>)
    requires forall i :: 0 <= i < |users| ==> users[i].role == "user" || users[i].role == "admin"
    ensures var s := SystemStatsOf(users);
      var o := Overview(AllUsers(users));
      && s.totalUsers == o.totalUsers && s.totalDeposits == o.totalDeposits
      && s.totalWithdrawals == o.totalWithdrawals && s.activeInvestments == o.totalInvestments
      && s.pendingKyc == o.pendingKyc && s.systemBalance == o.systemBalance
  {
    FilterEquivalent(users, IsRegular, HasUserRole);
  }

  /** The system deposit total is the sum of the per-user deposit totals. */
  lemma SystemDepositsPerUser(users: seq<User>)
    ensures SystemStatsOf(users).totalDeposits == SumOf(Filter(users, IsRegular), UserCompletedDeposits)
    ensures SystemStatsOf(users).totalWithdrawals == SumOf(Filter(users, IsRegular), UserCompletedWithdrawals)
  {
    SumOverAllTransactions(Filter(users, IsRegular), CompletedDepositAmount, UserCompletedDeposits);
    SumOverAllTransactions(Filter(users, IsRegular), CompletedWithdrawalAmount, UserCompletedWithdrawals);
  }

  datatype UserStats = UserStats(
    totalDeposits: int,
    totalWithdrawals: int,
    totalInvested: int,
    referralEarnings: int,
    currentBalance: int,
    activeInvestments: nat,
    totalReferrals: nat)

  /** The number of records referred by a code; a record without a code
      is credited with none. */
  function ReferralsOf(users: seq<User>, code: Option<string>): (n: nat)
    ensures n <= |users|
  {
    if code.Some? then ReferralCount(users, code.value) else 0
  }

  /** getUserStats: null for an unknown id; otherwise completed deposits,
      withdrawals whatever their status, investment debits, referral
      earnings, balance, active positions and referrals. */
  function UserStatsOf(users: seq<User>, userId: string): (r: Option<UserStats>)
    ensures r.None? <==> forall i :: 0 <= i < |users| ==> users[i].id != userId
    ensures r.Some? ==> r.value.totalWithdrawals >= 0 && r.value.totalInvested >= 0
    ensures r.Some? ==> r.value.totalReferrals <= |users|
  {
    match UserById(users, userId)
    case None => None
    case Some(u) =>
      SumNonNegative(u.transactions, AnyWithdrawalAmount);
      SumNonNegative(u.transactions, InvestmentDebit);
      Some(UserStats(UserCompletedDeposits(u), SumOf(u.transactions, AnyWithdrawalAmount),
                     SumOf(u.transactions, InvestmentDebit), SumOf(u.transactions, ReferralAmount),
                     u.balance, CountOf(u.investments, IsActive), ReferralsOf(users, u.referralCode)))
  }

  lemma {:induction false} ReferralAmountMatches(txs: seq<Transaction>)
    ensures SumOf(txs, ReferralAmount) == SumOf(Filter(txs, IsReferralCredit), Amount)
  {
    if txs != [] {
      var init, last := txs[..|txs| - 1], txs[|txs| - 1];
      ReferralAmountMatches(init);
      SumAppend(Filter(init, IsReferralCredit), if IsReferralCredit(last) then [last] else [], Amount);
      if IsReferralCredit(last) {
        assert [last][..0] == [];
      }
    }
  }

  /** The referral earnings of getUserStats are those the dashboard shows. */
  lemma UserStatsReferralEarnings(users: seq<User>, userId: string)
    requires UserById(users, userId).Some?
    ensures UserStatsOf(users, userId).value.referralEarnings == ReferralEarnings(UserById(users, userId).value)
  {
    ReferralAmountMatches(UserById(users, userId).value.transactions);
  }

  lemma {:induction false} AnyWithdrawalsCoverCompleted(txs: seq<Transaction>)
    ensures SumOf(txs, AnyWithdrawalAmount) >= SumOf(txs, CompletedWithdrawalAmount)
  {
    if txs != [] {
      AnyWithdrawalsCoverCompleted(txs[..|txs| - 1]);
    }
  }

  /** getUserStats counts completed deposits, like getSystemStats, but counts
      withdrawals of every status, so its figure is never below the completed
      one the system statistics use. */
  lemma UserStatsVersusSystem(users: seq<User>, userId: string)
    requires UserById(users, userId).Some?
    ensures var u := UserById(users, userId).value;
      && UserStatsOf(users, userId).value.totalDeposits == UserCompletedDeposits(u)
      && UserStatsOf(users, userId).value.totalWithdrawals >= UserCompletedWithdrawals(u)
  {
    AnyWithdrawalsCoverCompleted(UserById(users, userId).value.transactions);
  }

  /** The inner forEach of getSystemStats over one journal. */
  method TallyJournal(txs: seq<Transaction>) returns (deposits: int, withdrawals: int, investments: int)
    ensures deposits == SumOf(txs, CompletedDepositAmount)
    ensures withdrawals == SumOf(txs, CompletedWithdrawalAmount)
    ensures investments == SumOf(txs, InvestmentDebit)
  {
    deposits, withdrawals, investments := 0, 0, 0;
    var j := 0;
    while j < |txs|
      invariant 0 <= j <= |txs|
      invariant deposits == SumOf(txs[..j], CompletedDepositAmount)
      invariant withdrawals == SumOf(txs[..j], CompletedWithdrawalAmount)
      invariant investments == SumOf(txs[..j], InvestmentDebit)
    {
      var t := txs[j];
      assert txs[..j + 1][..j] == txs[..j];
      if t.txType == "deposit" && t.status == "completed" {
        deposits := deposits + t.amount;
      } else if t.txType == "withdrawal" && t.status == "completed" {
        withdrawals := withdrawals + Abs(t.amount);
      } else if t.txType == "investment" {
        investments := investments + Abs(t.amount);
      }
      j := j + 1;
    }
    assert txs[..j] == txs;
  }

  /** The switch of getUserStats over one journal. */
  method TallyUserJournal(txs: seq<Transaction>) returns (deposits: int, withdrawals: int, invested: int, referral: int)
    ensures deposits == SumOf(txs, CompletedDepositAmount)
    ensures withdrawals == SumOf(txs, AnyWithdrawalAmount)
    ensures invested == SumOf(txs, InvestmentDebit)
    ensures referral == SumOf(txs, ReferralAmount)
  {
    deposits, withdrawals, invested, referral := 0, 0, 0, 0;
    var j := 0;
    while j < |txs|
      invariant 0 <= j <= |txs|
      invariant deposits == SumOf(txs[..j], CompletedDepositAmount)
      invariant withdrawals == SumOf(txs[..j], AnyWithdrawalAmount)
      invariant invested == SumOf(txs[..j], InvestmentDebit)
      invariant referral == SumOf(txs[..j], ReferralAmount)
    {
      var t := txs[j];
      assert txs[..j + 1][..j] == txs[..j];
      match t.txType {
      case "deposit" =>
        if t.status == "completed" {
          deposits := deposits + t.amount;
        }
      case "withdrawal" =>
        withdrawals := withdrawals + Abs(t.amount);
      case "investment" =>
        invested := invested + Abs(t.amount);
      case "referral_bonus" =>
        referral := referral + t.amount;
      case "referral_commission" =>
        referral := referral + t.amount;
      case _ =>
      }
      j := j + 1;
    }
    assert txs[..j] == txs;
  }

  // ------------------------------------------------------------------ CSV

  const UserColumns: seq<string> := ["User ID", "Name", "Email", "Phone", "Plan", "Balance", "KYC Verified",
                                     "Joined Date", "Total Deposits", "Total Withdrawals", "Referral Code"]

  const TransactionColumns: seq<string> := ["Transaction ID", "User ID", "Type", "Amount", "Method", "Status",
                                            "Date", "Description"]

  function Line(fields: seq<string>): string
  {
    Join(fields, ',') + "\n"
  }

  /** The eleven fields of a user row; dates are written as their timestamp. */
  function UserFields(u: User, users: seq<User>): (f: seq<string>)
    ensures |f| == |UserColumns|
  {
    var stats := UserStatsOf(users, u.id);
    [u.id, "\"" + u.fullName + "\"", u.email, u.phone, u.plan, MoneyText(u.balance),
     if u.kycVerified then "Yes" else "No", IntText(u.joinedDate),
     MoneyText(if stats.Some? then stats.value.totalDeposits else 0),
     MoneyText(if stats.Some? then stats.value.totalWithdrawals else 0),
     GetOr(u.referralCode, "")]
  }

  /** transaction.method || 'N/A' */
  function MethodText(m: Option<string>): string
  {
    if m.Some? && m.value != "" then m.value else "N/A"
  }

  /** The eight fields of a transaction row. */
  function TransactionFields(t: Transaction, userId: string): (f: seq<string>)
    ensures |f| == |TransactionColumns|
  {
    [t.id, userId, t.txType, MoneyText(t.amount), MethodText(t.payMethod), t.status, IntText(t.date),
     "\"" + t.description + "\""]
  }

  /** One row per listed user, in list order. */
  function UserRows(listed: seq<User>, users: seq<User>): string
  {
    if listed == [] then "" else UserRows(listed[..|listed| - 1], users) + Line(UserFields(listed[|listed| - 1], users))
  }

  /** exportUserDataCSV: the header, then one row per record that is not an administrator. */
  function UserCsv(users: seq<User>): string
  {
    Line(UserColumns) + UserRows(Filter(users, IsRegular), users)
  }

  /** One row per entry of one journal, in journal order. */
  function JournalRows(txs: seq<Transaction>, userId: string): string
  {
    if txs == [] then "" else JournalRows(txs[..|txs| - 1], userId) + Line(TransactionFields(txs[|txs| - 1], userId))
  }

  /** One row per entry of every user, user by user. */
  function TransactionRows(users: seq<User>): string
  {
    if users == [] then "" else TransactionRows(users[..|users| - 1]) + JournalRows(users[|users| - 1].transactions, users[|users| - 1].id)
  }

  /** exportTransactionDataCSV: the header, then one row per transaction. */
  function TransactionCsv(users: seq<User>): string
  {
    Line(TransactionColumns) + TransactionRows(users)
  }

  /** A line built from newline-free fields holds exactly one newline. */
  lemma LineHasOneNewline(fields: seq<string>)
    requires forall i :: 0 <= i < |fields| ==> '\n' !in fields[i]
    ensures CountChar(Line(fields), '\n') == 1
  {
    JoinAvoids(fields, ',', '\n');
    CountCharAbsent(Join(fields, ','), '\n');
    CountCharAppend(Join(fields, ','), "\n", '\n');
  }

  /** A line built from comma-free fields has one comma between neighbours. */
  lemma LineColumns(fields: seq<string>)
    requires fields != []
    requires forall i :: 0 <= i < |fields| ==> ',' !in fields[i]
    ensures CountChar(Line(fields), ',') == |fields| - 1
  {
    JoinSeparatorCount(fields, ',');
    CountCharAppend(Join(fields, ','), "\n", ',');
  }

  /** A record whose own text fields hold no newline. */
  ghost predicate UserTextOneLine(u: User)
  {
    '\n' !in u.id && '\n' !in u.fullName && '\n' !in u.email && '\n' !in u.phone && '\n' !in u.plan &&
    '\n' !in GetOr(u.referralCode, "")
  }

  /** A record whose own text fields hold no comma. */
  ghost predicate UserTextNoComma(u: User)
  {
    ',' !in u.id && ',' !in u.fullName && ',' !in u.email && ',' !in u.phone && ',' !in u.plan &&
    ',' !in GetOr(u.referralCode, "")
  }

  /** The three number columns of a user row hold neither a newline nor a comma. */
  lemma UserNumbersAvoid(u: User, users: seq<User>, c: char)
    requires c == '\n' || c == ','
    ensures var f := UserFields(u, users); c !in f[5] && c !in f[7] && c !in f[8] && c !in f[9]
  {
    var stats := UserStatsOf(users, u.id);
    var deposits := if stats.Some? then stats.value.totalDeposits else 0;
    var withdrawals := if stats.Some? then stats.value.totalWithdrawals else 0;
    var f := UserFields(u, users);
    assert f[5] == MoneyText(u.balance) && f[7] == IntText(u.joinedDate);
    assert f[8] == MoneyText(deposits) && f[9] == MoneyText(withdrawals);
    NumberTextAvoids(u.balance, c);
    NumberTextAvoids(u.joinedDate, c);
    NumberTextAvoids(deposits, c);
    NumberTextAvoids(withdrawals, c);
  }

  lemma UserFieldsAvoid(u: User, users: seq<User>, c: char)
    requires c == '\n' || c == ','
    requires c == '\n' ==> UserTextOneLine(u)
    requires c == ',' ==> UserTextNoComma(u)
    ensures forall i :: 0 <= i < |UserFields(u, users)| ==> c !in UserFields(u, users)[i]
  {
    var f := UserFields(u, users);
    UserNumbersAvoid(u, users, c);
    assert f[1] == "\"" + u.fullName + "\"";
    assert c !in f[1];
    assert c !in f[6];
    assert forall i | i in {0, 2, 3, 4, 10} :: c !in f[i];
  }

  lemma UserHeaderLine()
    ensures CountChar(Line(UserColumns), '\n') == 1 && CountChar(Line(UserColumns), ',') == 10
  {
    assert forall i :: 0 <= i < |UserColumns| ==> '\n' !in UserColumns[i] && ',' !in UserColumns[i];
    LineHasOneNewline(UserColumns);
    LineColumns(UserColumns);
  }

  lemma TransactionHeaderLine()
    ensures CountChar(Line(TransactionColumns), '\n') == 1 && CountChar(Line(TransactionColumns), ',') == 7
  {
    assert forall i :: 0 <= i < |TransactionColumns| ==> '\n' !in TransactionColumns[i] && ',' !in TransactionColumns[i];
    LineHasOneNewline(TransactionColumns);
    LineColumns(TransactionColumns);
  }

  /** The header lines hold one newline and one comma between columns. */
  lemma HeaderLines()
    ensures CountChar(Line(UserColumns), '\n') == 1 && CountChar(Line(UserColumns), ',') == 10
    ensures CountChar(Line(TransactionColumns), '\n') == 1 && CountChar(Line(TransactionColumns), ',') == 7
  {
    UserHeaderLine();
    TransactionHeaderLine();
  }

  lemma {:induction false} UserRowsLines(listed: seq<User>, users: seq<User>)
    requires forall i :: 0 <= i < |listed| ==> UserTextOneLine(listed[i])
    ensures CountChar(UserRows(listed, users), '\n') == |listed|
  {
    if listed != [] {
      var last := listed[|listed| - 1];
      UserRowsLines(listed[..|listed| - 1], users);
      UserFieldsAvoid(last, users, '\n');
      LineHasOneNewline(UserFields(last, users));
      CountCharAppend(UserRows(listed[..|listed| - 1], users), Line(UserFields(last, users)), '\n');
    }
  }

  /** The user export has the header line and exactly one line per record
      that is not an administrator, provided no text field holds a newline. */
  lemma UserCsvLines(users: seq<User>)
    requires forall i :: 0 <= i < |users| && IsRegular(users[i]) ==> UserTextOneLine(users[i])
    ensures CountChar(UserCsv(users), '\n') == CountOf(users, IsRegular) + 1
  {
    var listed := Filter(users, IsRegular);
    forall i | 0 <= i < |listed| ensures UserTextOneLine(listed[i]) {
      var j :| 0 <= j < |users| && users[j] == listed[i];
    }
    UserRowsLines(listed, users);
    HeaderLines();
    CountCharAppend(Line(UserColumns), UserRows(listed, users), '\n');
  }

  /** Each user row has the header's eleven columns, provided its text fields
      hold no comma. */
  lemma UserRowColumns(u: User, users: seq<User>)
    requires UserTextNoComma(u)
    ensures CountChar(Line(UserFields(u, users)), ',') == CountChar(Line(UserColumns), ',') == 10
  {
    UserFieldsAvoid(u, users, ',');
    LineColumns(UserFields(u, users));
    HeaderLines();
  }

  /** An entry whose text fields, and its owner's id, hold no character c. */
  ghost predicate TransactionTextAvoids(t: Transaction, userId: string, c: char)
  {
    c !in t.id && c !in userId && c !in t.txType && c !in MethodText(t.payMethod) && c !in t.status &&
    c !in t.description
  }

  lemma TransactionFieldsAvoid(t: Transaction, userId: string, c: char)
    requires c == '\n' || c == ','
    requires TransactionTextAvoids(t, userId, c)
    ensures forall i :: 0 <= i < |TransactionFields(t, userId)| ==> c !in TransactionFields(t, userId)[i]
  {
    NumberTextAvoids(t.amount, c);
    NumberTextAvoids(t.date, c);
  }

  lemma {:induction false} JournalRowsLines(txs: seq<Transaction>, userId: string)
    requires forall k :: 0 <= k < |txs| ==> TransactionTextAvoids(txs[k], userId, '\n')
    ensures CountChar(JournalRows(txs, userId), '\n') == |txs|
  {
    if txs != [] {
      var last := txs[|txs| - 1];
      JournalRowsLines(txs[..|txs| - 1], userId);
      TransactionFieldsAvoid(last, userId, '\n');
      LineHasOneNewline(TransactionFields(last, userId));
      CountCharAppend(JournalRows(txs[..|txs| - 1], userId), Line(TransactionFields(last, userId)), '\n');
    }
  }

  lemma {:induction false} TransactionRowsLines(users: seq<User>)
    requires forall i, k :: 0 <= i < |users| && 0 <= k < |users[i].transactions| ==>
      TransactionTextAvoids(users[i].transactions[k], users[i].id, '\n')
    ensures CountChar(TransactionRows(users), '\n') == |AllTransactions(users)|
  {
    if users != [] {
      var last := users[|users| - 1];
      TransactionRowsLines(users[..|users| - 1]);
      JournalRowsLines(last.transactions, last.id);
      CountCharAppend(TransactionRows(users[..|users| - 1]), JournalRows(last.transactions, last.id), '\n');
    }
  }

  /** The transaction export has the header line and exactly one line per
      transaction of every user, provided no text field holds a newline. */
  lemma TransactionCsvLines(users: seq<User>)
    requires forall i, k :: 0 <= i < |users| && 0 <= k < |users[i].transactions| ==>
      TransactionTextAvoids(users[i].transactions[k], users[i].id, '\n')
    ensures CountChar(TransactionCsv(users), '\n') == |AllTransactions(users)| + 1
    ensures CountChar(TransactionCsv(users), '\n') == SumOf(users, TransactionCount) + 1
  {
    TransactionRowsLines(users);
    HeaderLines();
    CountCharAppend(Line(TransactionColumns), TransactionRows(users), '\n');
  }

  /** Each transaction row has the header's eight columns, provided its text
      fields hold no comma. */
  lemma TransactionRowColumns(t: Transaction, userId: string)
    requires TransactionTextAvoids(t, userId, ',')
    ensures CountChar(Line(TransactionFields(t, userId)), ',') == CountChar(Line(TransactionColumns), ',') == 7
  {
    TransactionFieldsAvoid(t, userId, ',');
    LineColumns(TransactionFields(t, userId));
    HeaderLines();
  }

  /** The forEach of exportUserDataCSV: one row per listed user, appended in order. */
  method BuildUserRows(listed: seq<User>, users: seq<User>) returns (rows: string)
    ensures rows == UserRows(listed, users)
  {
    rows := "";
    var i := 0;
    while i < |listed|
      invariant 0 <= i <= |listed|
      invariant rows == UserRows(listed[..i], users)
    {
      assert listed[..i + 1][..i] == listed[..i];
      rows := rows + Line(UserFields(listed[i], users));
      i := i + 1;
    }
    assert listed[..i] == listed;
  }

  /** The inner forEach of exportTransactionDataCSV: one row per entry of one journal. */
  method BuildJournalRows(txs: seq<Transaction>, userId: string) returns (rows: string)
    ensures rows == JournalRows(txs, userId)
  {
    rows := "";
    var j := 0;
    while j < |txs|
      invariant 0 <= j <= |txs|
      invariant rows == JournalRows(txs[..j], userId)
    {
      assert txs[..j + 1][..j] == txs[..j];
      rows := rows + Line(TransactionFields(txs[j], userId));
      j := j + 1;
    }
    assert txs[..j] == txs;
  }

  /** The outer forEach of exportTransactionDataCSV: the rows of every journal, user by user. */
  method BuildTransactionRows(users: seq<User>) returns (rows: string)
    ensures rows == TransactionRows(users)
  {
    rows := "";
    var i := 0;
    while i < |users|
      invariant 0 <= i <= |users|
      invariant rows == TransactionRows(users[..i])
    {
      assert users[..i + 1][..i] == users[..i];
      var journal := BuildJournalRows(users[i].transactions, users[i].id);
      rows := rows + journal;
      i := i + 1;
    }
    assert users[..i] == users;
  }

  // --------------------------------------------------------------- backup

  /** A backup as restoreBackup reads it; either part may be missing. */
  datatype Backup = Backup(users: Option<seq<User>>, systemData: Option<SystemData>, timestamp: int)

  /** The administrator's data store over the account store. */
  class AdminDataSystem {
    const auth: AuthSystem
    var systemData: SystemData

    /** loadSystemData: the stored data, or the defaults when none is stored. */
    constructor (auth: AuthSystem, stored: Option<SystemData>, now: int)
      ensures this.auth == auth
      ensures systemData == GetOr(stored, DefaultSystemData(now))
    {
      this.auth := auth;
      systemData := GetOr(stored, DefaultSystemData(now));
    }

    method UpdateSettings(newSettings: map<string, SettingValue>) returns (ok: bool)
      modifies this`systemData
      ensures ok
      ensures systemData == old(systemData).(settings := MergeSettings(old(systemData).settings, newSettings))
    {
      systemData := systemData.(settings := MergeSettings(systemData.settings, newSettings));
      ok := true;
    }

    /** updatePlan: an unknown plan id is refused and nothing changes; a known
        one has the changes merged into that plan only. */
    method UpdatePlan(planId: string, changes: PlanChanges) returns (ok: bool)
      modifies this`systemData
      ensures ok <==> planId in old(systemData).plans
      ensures !ok ==> systemData == old(systemData)
      ensures ok ==> systemData == old(systemData).(plans := old(systemData).plans[planId := ApplyPlanChanges(old(systemData).plans[planId], changes)])
    {
      if planId !in systemData.plans {
        return false;
      }
      var plans := systemData.plans;
      systemData := systemData.(plans := plans[planId := ApplyPlanChanges(plans[planId], changes)]);
      ok := true;
    }

    method GetSystemStats() returns (r: SystemStats)
      ensures r == SystemStatsOf(auth.users)
    {
      var regular := Filter(auth.users, IsRegular);
      var deposits, withdrawals, investments, balance := 0, 0, 0, 0;
      var i := 0;
      while i < |regular|
        invariant 0 <= i <= |regular|
        invariant deposits == SumOf(AllTransactions(regular[..i]), CompletedDepositAmount)
        invariant withdrawals == SumOf(AllTransactions(regular[..i]), CompletedWithdrawalAmount)
        invariant investments == SumOf(AllTransactions(regular[..i]), InvestmentDebit)
        invariant balance == SumOf(regular[..i], Balance)
      {
        var u := regular[i];
        assert regular[..i + 1][..i] == regular[..i];
        assert AllTransactions(regular[..i + 1]) == AllTransactions(regular[..i]) + u.transactions;
        balance := balance + u.balance;
        var d, w, v := TallyJournal(u.transactions);
        SumAppend(AllTransactions(regular[..i]), u.transactions, CompletedDepositAmount);
        SumAppend(AllTransactions(regular[..i]), u.transactions, CompletedWithdrawalAmount);
        SumAppend(AllTransactions(regular[..i]), u.transactions, InvestmentDebit);
        deposits, withdrawals, investments := deposits + d, withdrawals + w, investments + v;
        i := i + 1;
      }
      assert regular[..i] == regular;
      r := SystemStats(|regular|, deposits, withdrawals, investments, balance,
                       SumOf(regular, ActiveInvestmentCount), CountOf(regular, KycPending));
    }

    method GetUserStats(userId: string) returns (r: Option<UserStats>)
      ensures r == UserStatsOf(auth.users, userId)
    {
      var found := UserById(auth.users, userId);
      if found.None? {
        return None;
      }
      var u := found.value;
      var d, w, v, e := TallyUserJournal(u.transactions);
      r := Some(UserStats(d, w, v, e, u.balance, CountOf(u.investments, IsActive), ReferralsOf(auth.users, u.referralCode)));
    }

    method CreateBackup(now: int) returns (b: Backup)
      ensures b == Backup(Some(auth.users), Some(systemData), now)
    {
      b := Backup(Some(auth.users), Some(systemData), now);
    }

    /** restoreBackup: each part present in the backup replaces the stored
        one, a missing part is kept; a missing backup fails and changes nothing. */
    method RestoreBackup(backup: Option<Backup>) returns (ok: bool)
      modifies this`systemData, auth`users
      ensures ok <==> backup.Some?
      ensures backup.None? ==> auth.users == old(auth.users) && systemData == old(systemData)
      ensures backup.Some? ==> auth.users == GetOr(backup.value.users, old(auth.users))
      ensures backup.Some? ==> systemData == GetOr(backup.value.systemData, old(systemData))
    {
      if backup.None? {
        return false;
      }
      var b := backup.value;
      if b.users.Some? {
        auth.users := b.users.value;
      }
      if b.systemData.Some? {
        systemData := b.systemData.value;
      }
      ok := true;
    }

    method ExportUserDataCsv() returns (csv: string)
      ensures csv == UserCsv(auth.users)
    {
      var rows := BuildUserRows(Filter(auth.users, IsRegular), auth.users);
      csv := Line(UserColumns) + rows;
    }

    method ExportTransactionDataCsv() returns (csv: string)
      ensures csv == TransactionCsv(auth.users)
    {
      var rows := BuildTransactionRows(auth.users);
      csv := Line(TransactionColumns) + rows;
    }
  }
}
