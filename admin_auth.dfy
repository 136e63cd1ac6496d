/** The administrator guard of admin-auth.js: the admin-action validators,
    the bounded admin log, the admin password policy, and the pending-work
    and recent-registration summaries of the admin dashboard. */
module AdminAuth {
  import opened Collections
  import opened Records
  import opened Accounts
  import opened AdminConsole

  /** A validator's outcome: it returns true, or throws an Error with a message. */
  datatype Verdict = Accepted | Rejected(message: string)

  /** The JavaScript value of data.amount as the balance check sees it. */
  datatype AmountValue =
    | Number(pesewas: int)   // a finite number
    | NotANumber             // NaN: typeof says 'number'
    | NotNumeric             // a string, undefined or any other non-number

  /** The upper bound of a balance edit, GHS 1,000,000. */
  const MaxBalanceEdit: int := 100_000_000

  /** The data object handed to validateAdminAction. An empty string stands
      for a missing or empty field; `changes` is None when it is not an
      object, and a null object behaves as one without fields. */
  datatype ActionData = ActionData(
    userId: string,
    amount: AmountValue,
    transactionId: string,
    action: string,
    planId: string,
    changes: Option<seq<string>>)

  /** isAdminAuthenticated: someone is signed in and has the admin role. */
  predicate IsAdminAuthenticated(current: Option<User>)
  {
    current.Some? && current.value.role == "admin"
  }

  /** validateBalanceEdit exactly as written: NaN passes both guards. */
  function ValidateBalanceEditAsWritten(data: ActionData): (v: Verdict)
    ensures v == Accepted <==> data.userId != "" && !data.amount.NotNumeric? &&
                               (data.amount.Number? ==> 0 <= data.amount.pesewas <= MaxBalanceEdit)
  {
    if data.userId == "" || data.amount.NotNumeric? then Rejected("Invalid balance edit data")
    else if data.amount.Number? && (data.amount.pesewas < 0 || data.amount.pesewas > MaxBalanceEdit) then
      Rejected("Balance amount out of acceptable range")
    else Accepted
  }

  /** The guard lets a NaN amount through. */
  lemma BalanceEditAcceptsNaN()
    ensures ValidateBalanceEditAsWritten(ActionData("u1", NotANumber, "", "", "", None)) == Accepted
  {
  }

  /** validateBalanceEdit with NaN treated as invalid data: accepted exactly
      when the user id is present and the amount is a number within range. */
  function ValidateBalanceEdit(data: ActionData): (v: Verdict)
    ensures v == Accepted <==> data.userId != "" && data.amount.Number? && 0 <= data.amount.pesewas <= MaxBalanceEdit
    ensures v.Rejected? && data.amount.Number? && data.userId != "" ==> v.message == "Balance amount out of acceptable range"
    ensures v.Rejected? && (!data.amount.Number? || data.userId == "") ==> v.message == "Invalid balance edit data"
  {
    if data.userId == "" || !data.amount.Number? then Rejected("Invalid balance edit data")
    else if data.amount.pesewas < 0 || data.amount.pesewas > MaxBalanceEdit then Rejected("Balance amount out of acceptable range")
    else Accepted
  }

  /** The corrected check agrees with the written one on every amount that is not NaN. */
  lemma BalanceEditAgreesOffNaN(data: ActionData)
    requires !data.amount.NotANumber?
    ensures ValidateBalanceEdit(data) == ValidateBalanceEditAsWritten(data)
  {
  }

  const TransactionActions: seq<string> := ["approve", "reject"]

  function ValidateTransactionApproval(data: ActionData): (v: Verdict)
    ensures v == Accepted <==> data.transactionId != "" && data.action in TransactionActions
    ensures data.transactionId == "" || data.action == "" ==> v == Rejected("Invalid transaction approval data")
  {
    if data.transactionId == "" || data.action == "" then Rejected("Invalid transaction approval data")
    else if data.action !in TransactionActions then Rejected("Invalid transaction action")
    else Accepted
  }

  const ValidPlans: seq<string> := ["free", "bronze", "silver", "gold", "platinum"]

  const AllowedPlanFields: seq<string> := ["investment", "return", "period", "limit", "active"]

  /** The first changed field that may not be changed, in key order. */
  function FirstBadField(fields: seq<string>): (r: Option<string>)
    ensures r.None? <==> forall i :: 0 <= i < |fields| ==> fields[i] in AllowedPlanFields
    ensures r.Some? ==> r.value in fields && r.value !in AllowedPlanFields
    ensures r.Some? ==> exists k :: 0 <= k < |fields| && fields[k] == r.value && forall j :: 0 <= j < k ==> fields[j] in AllowedPlanFields
  {
    if fields == [] then None
    else if fields[0] !in AllowedPlanFields then Some(fields[0])
    else
      var r := FirstBadField(fields[1..]);
      assert forall i :: 1 <= i < |fields| ==> fields[i] == fields[1..][i - 1];
      r
  }

  /** validatePlanManagement: accepted exactly when the plan is one of the
      five plans, the changes are an object, and every changed field is
      allowed; otherwise the error names the first offending field. */
  function ValidatePlanManagement(data: ActionData): (v: Verdict)
    ensures v == Accepted <==> data.planId in ValidPlans && data.changes.Some? &&
                               forall i :: 0 <= i < |data.changes.value| ==> data.changes.value[i] in AllowedPlanFields
    ensures data.planId in ValidPlans && data.changes.Some? && FirstBadField(data.changes.value).Some? ==>
              v == Rejected("Invalid field in plan changes: " + FirstBadField(data.changes.value).value)
  {
    if data.planId == "" || data.changes.None? then Rejected("Invalid plan management data")
    else if data.planId !in ValidPlans then Rejected("Invalid plan ID")
    else match FirstBadField(data.changes.value)
      case Some(field) => Rejected("Invalid field in plan changes: " + field)
      case None => Accepted
  }

  /** validateAdminAction: the error it throws for a caller who is not a
      signed-in administrator, or the verdict of the action's validator;
      actions without a validator are accepted. */
  function ValidateAdminAction(current: Option<User>, action: string, data: ActionData): (v: Option<Verdict>)
    ensures v.None? <==> !IsAdminAuthenticated(current)
    ensures v.Some? && action !in {"edit_user_balance", "approve_transaction", "manage_plans"} ==> v.value == Accepted
    ensures v.Some? && action == "edit_user_balance" ==> v.value == ValidateBalanceEditAsWritten(data)
    ensures v.Some? && action == "approve_transaction" ==> v.value == ValidateTransactionApproval(data)
    ensures v.Some? && action == "manage_plans" ==> v.value == ValidatePlanManagement(data)
  {
    if !IsAdminAuthenticated(current) then None
    else match action
      case "edit_user_balance" => Some(ValidateBalanceEditAsWritten(data))
      case "approve_transaction" => Some(ValidateTransactionApproval(data))
      case "manage_plans" => Some(ValidatePlanManagement(data))
      case _ => Some(Accepted)
  }

  /** An administrator's balance edit with a NaN amount passes as written. */
  lemma AdminActionAcceptsNaN(admin: User)
    requires admin.role == "admin"
    ensures ValidateAdminAction(Some(admin), "edit_user_balance", ActionData("u1", NotANumber, "", "", "", None)) == Some(Accepted)
  {
    BalanceEditAcceptsNaN();
  }

  /** validateAdminAction with the corrected balance check. */
  function ValidateAdminActionCorrected(current: Option<User>, action: string, data: ActionData): (v: Option<Verdict>)
    ensures v.None? <==> !IsAdminAuthenticated(current)
    ensures v.Some? && action == "edit_user_balance" ==>
      (v.value == Accepted <==> data.userId != "" && data.amount.Number? && 0 <= data.amount.pesewas <= MaxBalanceEdit)
    ensures action != "edit_user_balance" ==> v == ValidateAdminAction(current, action, data)
  {
    if action == "edit_user_balance" && IsAdminAuthenticated(current) then Some(ValidateBalanceEdit(data))
    else ValidateAdminAction(current, action, data)
  }

  /** The corrected dispatch differs from the written one only on NaN amounts. */
  lemma AdminActionCorrectionAgreesOffNaN(current: Option<User>, action: string, data: ActionData)
    requires !data.amount.NotANumber?
    ensures ValidateAdminActionCorrected(current, action, data) == ValidateAdminAction(current, action, data)
  {
    BalanceEditAgreesOffNaN(data);
  }

  // ------------------------------------------------------------ admin log

  const MaxLogs: nat := 1000

  datatype LogEntry = LogEntry(adminId: string, adminEmail: string, action: string, details: string, timestamp: int, ipAddress: string)

  /** The log after pushing and trimming: only the newest MaxLogs entries. */
  function KeepLast<T>(s: seq<T>, n: nat): (r: seq<T>)
    ensures |r| == if |s| > n then n else |s|
    ensures forall i :: 0 <= i < |r| ==> r[i] == s[|s| - |r| + i]
  {
    if |s| > n then s[|s| - n..] else s
  }

  /** storeAdminLog keeps at most a thousand entries, the newest last, and
      drops only the oldest ones. */
  lemma StoreAdminLogBounded(logs: seq<LogEntry>, entry: LogEntry)
    ensures var r := KeepLast(logs + [entry], MaxLogs);
      && |r| <= MaxLogs && r != [] && r[|r| - 1] == entry
      && (|logs| < MaxLogs ==> r == logs + [entry])
      && exists k :: 0 <= k <= |logs| && r == logs[k..] + [entry]
  {
    var s := logs + [entry];
    var r := KeepLast(s, MaxLogs);
    var k := |s| - |r|;
    assert r == logs[k..] + [entry];
  }

  /** Array.prototype.slice(-limit): the suffix a negative, zero or positive
      start selects. */
  function SliceFromEnd<T>(s: seq<T>, limit: int): (r: seq<T>)
    ensures limit > 0 ==> |r| == (if limit < |s| then limit else |s|)
    ensures limit == 0 ==> r == s
    ensures |r| <= |s|
    ensures forall i :: 0 <= i < |r| ==> r[i] == s[|s| - |r| + i]
  {
    var start := -limit;
    var from := if start < 0 then (if |s| + start < 0 then 0 else |s| + start)
                else (if start > |s| then |s| else start);
    s[from..]
  }

  function Reversed<T>(s: seq<T>): (r: seq<T>)
    ensures |r| == |s|
    ensures forall i :: 0 <= i < |s| ==> r[i] == s[|s| - 1 - i]
  {
    if s == [] then [] else [s[|s| - 1]] + Reversed(s[..|s| - 1])
  }

  /** getAdminLogs(limit) for a positive limit: the newest min(limit, n)
      entries, newest first. */
  lemma AdminLogsNewestFirst(logs: seq<LogEntry>, limit: int)
    requires limit > 0
    ensures var r := Reversed(SliceFromEnd(logs, limit));
      && |r| == (if limit < |logs| then limit else |logs|)
      && forall i :: 0 <= i < |r| ==> r[i] == logs[|logs| - 1 - i]
  {
    var t := SliceFromEnd(logs, limit);
    var r := Reversed(t);
    forall i | 0 <= i < |r| ensures r[i] == logs[|logs| - 1 - i] {
      assert r[i] == t[|t| - 1 - i];
      assert t[|t| - 1 - i] == logs[|logs| - |t| + (|t| - 1 - i)];
    }
  }

  // ---------------------------------------------------------- password

  predicate IsUpper(c: char) { 'A' <= c <= 'Z' }

  predicate IsLower(c: char) { 'a' <= c <= 'z' }

  predicate IsDigit(c: char) { '0' <= c <= '9' }

  const SpecialChars: string := "!@#$%^&*(),.?\":{}|<>"

  predicate IsSpecial(c: char) { c in SpecialChars }

  /** /[class]/.test(s): some character of s belongs to the class. */
  predicate HasAny(s: string, p: char -> bool)
  {
    exists i :: 0 <= i < |s| && p(s[i])
  }

  datatype PasswordVerdict = PasswordVerdict(valid: bool, message: string)

  /** Every one of the four character classes occurs in s. */
  predicate HasAllClasses(s: string)
  {
    HasAny(s, IsUpper) && HasAny(s, IsLower) && HasAny(s, IsDigit) && HasAny(s, IsSpecial)
  }

  function ValidateAdminPassword(password: string): (r: PasswordVerdict)
    ensures r.valid <==> |password| >= 8 && HasAny(password, IsUpper) && HasAny(password, IsLower) &&
                         HasAny(password, IsDigit) && HasAny(password, IsSpecial)
    ensures |password| < 8 ==> r.message == "Password must be at least 8 characters long"
  {
    if |password| < 8 then PasswordVerdict(false, "Password must be at least 8 characters long")
    else if !HasAllClasses(password) then
      PasswordVerdict(false, "Password must contain uppercase, lowercase, numbers, and special characters")
    else PasswordVerdict(true, "Password is strong")
  }

  /** Adding characters never weakens a strong password. */
  lemma PasswordStrengthMonotone(p: string, q: string)
    requires ValidateAdminPassword(p).valid
    ensures ValidateAdminPassword(p + q).valid
  {
    HasAnyAppend(p, q, IsUpper);
    HasAnyAppend(p, q, IsLower);
    HasAnyAppend(p, q, IsDigit);
    HasAnyAppend(p, q, IsSpecial);
  }

  lemma HasAnyAppend(p: string, q: string, pred: char -> bool)
    requires HasAny(p, pred)
    ensures HasAny(p + q, pred)
  {
    var i :| 0 <= i < |p| && pred(p[i]);
    assert (p + q)[i] == p[i];
  }

  /** The password of the seeded administrator fails the administrator policy. */
  lemma DefaultAdminPasswordIsWeak()
    ensures !ValidateAdminPassword("admin123").valid
  {
    assert !HasAny("admin123", IsUpper) by {
      forall i | 0 <= i < |"admin123"| ensures !IsUpper("admin123"[i]) {
      }
    }
  }

  // ---------------------------------------------------- dashboard summaries

  datatype PendingActions = PendingActions(pendingDeposits: nat, pendingWithdrawals: nat, pendingKyc: nat, totalPending: nat)

  /** getPendingActions over every stored record. */
  function PendingActionsOf(users: seq<User>): (r: PendingActions)
    ensures r.totalPending == r.pendingDeposits + r.pendingWithdrawals + r.pendingKyc
    ensures r.pendingDeposits == CountOf(AllTransactions(users), IsPendingDeposit)
    ensures r.pendingWithdrawals == CountOf(AllTransactions(users), IsPendingWithdrawal)
    ensures r.pendingKyc <= |users|
  {
    CountOverAllTransactions(users, IsPendingDeposit, PendingDepositCount);
    CountOverAllTransactions(users, IsPendingWithdrawal, PendingWithdrawalCount);
    var d := CountOf(AllTransactions(users), IsPendingDeposit);
    var w := CountOf(AllTransactions(users), IsPendingWithdrawal);
    var k := CountOf(users, KycPending);
    PendingActions(d, w, k, d + w + k)
  }

  /** A review to a non-pending status never raises the pending deposit or
      withdrawal counts: nothing becomes pending, and KYC flags are untouched. */
  lemma ReviewReducesPending(users: seq<User>, r: Review)
    requires r.status != "pending"
    ensures PendingActionsOf(ReviewAll(users, r)).pendingDeposits <= PendingActionsOf(users).pendingDeposits
    ensures PendingActionsOf(ReviewAll(users, r)).pendingWithdrawals <= PendingActionsOf(users).pendingWithdrawals
    ensures PendingActionsOf(ReviewAll(users, r)).pendingKyc == PendingActionsOf(users).pendingKyc
  {
    ReviewCountsDrop(users, r);
    KycUntouched(users, r);
  }

  lemma {:induction false} JournalPendingDrop(txs: seq<Transaction>, r: Review)
    requires r.status != "pending"
    ensures CountOf(ReviewTxs(txs, r), IsPendingDeposit) <= CountOf(txs, IsPendingDeposit)
    ensures CountOf(ReviewTxs(txs, r), IsPendingWithdrawal) <= CountOf(txs, IsPendingWithdrawal)
  {
    if txs != [] {
      var init := txs[..|txs| - 1];
      JournalPendingDrop(init, r);
      assert ReviewTxs(txs, r)[..|txs| - 1] == ReviewTxs(init, r);
    }
  }

  lemma {:induction false} ReviewCountsDrop(users: seq<User>, r: Review)
    requires r.status != "pending"
    ensures CountOf(AllTransactions(ReviewAll(users, r)), IsPendingDeposit) <= CountOf(AllTransactions(users), IsPendingDeposit)
    ensures CountOf(AllTransactions(ReviewAll(users, r)), IsPendingWithdrawal) <= CountOf(AllTransactions(users), IsPendingWithdrawal)
  {
    if users != [] {
      var init := users[..|users| - 1];
      var last := users[|users| - 1];
      var after := ReviewAll(users, r);
      ReviewCountsDrop(init, r);
      assert after[..|users| - 1] == ReviewAll(init, r);
      JournalPendingDrop(last.transactions, r);
      CountAppend(AllTransactions(ReviewAll(init, r)), ReviewTxs(last.transactions, r), IsPendingDeposit);
      CountAppend(AllTransactions(init), last.transactions, IsPendingDeposit);
      CountAppend(AllTransactions(ReviewAll(init, r)), ReviewTxs(last.transactions, r), IsPendingWithdrawal);
      CountAppend(AllTransactions(init), last.transactions, IsPendingWithdrawal);
    }
  }

  lemma {:induction false} KycUntouched(users: seq<User>, r: Review)
    ensures CountOf(ReviewAll(users, r), KycPending) == CountOf(users, KycPending)
  {
    if users != [] {
      KycUntouched(users[..|users| - 1], r);
      assert ReviewAll(users, r)[..|users| - 1] == ReviewAll(users[..|users| - 1], r);
    }
  }

  /** The inner forEach of getPendingActions over one journal. */
  method CountPendingJournal(txs: seq<Transaction>) returns (deposits: nat, withdrawals: nat)
    ensures deposits == CountOf(txs, IsPendingDeposit)
    ensures withdrawals == CountOf(txs, IsPendingWithdrawal)
  {
    deposits, withdrawals := 0, 0;
    var j := 0;
    while j < |txs|
      invariant 0 <= j <= |txs|
      invariant deposits == CountOf(txs[..j], IsPendingDeposit)
      invariant withdrawals == CountOf(txs[..j], IsPendingWithdrawal)
    {
      var t := txs[j];
      assert txs[..j + 1][..j] == txs[..j];
      if t.status == "pending" {
        if t.txType == "deposit" {
          deposits := deposits + 1;
        }
        if t.txType == "withdrawal" {
          withdrawals := withdrawals + 1;
        }
      }
      j := j + 1;
    }
    assert txs[..j] == txs;
  }

  /** One line of getRecentRegistrations. */
  datatype RegistrationSummary = RegistrationSummary(id: string, name: string, email: string, plan: string, joinedDate: int, kycStatus: string)

  function Summary(u: User): RegistrationSummary
  {
    RegistrationSummary(u.id, u.fullName, u.email, u.plan, u.joinedDate, if u.kycVerified then "verified" else "pending")
  }

  function SummaryDate(s: RegistrationSummary): int { s.joinedDate }

  function Summaries(us: seq<User>): (r: seq<RegistrationSummary>)
    ensures |r| == |us|
    ensures forall i :: 0 <= i < |us| ==> r[i] == Summary(us[i])
  {
    if us == [] then [] else Summaries(us[..|us| - 1]) + [Summary(us[|us| - 1])]
  }

  /** Array.prototype.slice(0, limit) */
  function SliceToLimit<T>(s: seq<T>, limit: int): (r: seq<T>)
    ensures r <= s
    ensures limit >= 0 ==> |r| == (if limit < |s| then limit else |s|)
  {
    var to := if limit < 0 then (if |s| + limit < 0 then 0 else |s| + limit)
              else (if limit > |s| then |s| else limit);
    s[..to]
  }

  /** The records getRecentRegistrations lists: the non-administrators,
      newest joinedDate first, cut at the limit. */
  function RecentUsers(users: seq<User>, limit: int): (r: seq<User>)
    ensures limit >= 0 ==> |r| <= limit
    ensures |r| <= CountOf(users, IsRegular)
    ensures SortedDesc(r, JoinedDate)
    ensures forall i :: 0 <= i < |r| ==> r[i] in users && IsRegular(r[i])
    ensures limit >= 0 ==> |r| == if limit < CountOf(users, IsRegular) then limit else CountOf(users, IsRegular)
    ensures NewestOf(r, Filter(users, IsRegular), JoinedDate)
  {
    var listed := Filter(users, IsRegular);
    var sorted := SortDesc(listed, JoinedDate);
    var r := SliceToLimit(sorted, limit);
    assert |sorted| == |listed| == CountOf(users, IsRegular);
    assert forall i :: 0 <= i < |r| ==> r[i] in users && IsRegular(r[i]) by {
      SortedMembers(users, listed, sorted);
      assert forall i :: 0 <= i < |r| ==> r[i] == sorted[i];
    }
    assert SortedDesc(r, JoinedDate) && NewestOf(r, listed, JoinedDate) by {
      SlicedNewest(listed, limit, JoinedDate);
    }
    r
  }

  /** A cut of the newest-first reordering is sorted and holds the newest elements. */
  lemma SlicedNewest<T>(s: seq<T>, limit: int, key: T -> int)
    ensures var r := SliceToLimit(SortDesc(s, key), limit); SortedDesc(r, key) && NewestOf(r, s, key)
  {
    var sorted := SortDesc(s, key);
    var r := SliceToLimit(sorted, limit);
    SortedPrefix(sorted, r, key);
    SortedPrefixNewest(sorted, |r|, key);
    assert r == sorted[..|r|];
  }

  /** A reordering of the filtered records holds only non-administrators of the list. */
  lemma SortedMembers(users: seq<User>, listed: seq<User>, sorted: seq<User>)
    requires forall i :: 0 <= i < |listed| ==> listed[i] in users && IsRegular(listed[i])
    requires multiset(sorted) == multiset(listed)
    ensures forall i :: 0 <= i < |sorted| ==> sorted[i] in users && IsRegular(sorted[i])
  {
    forall i | 0 <= i < |sorted| ensures sorted[i] in users && IsRegular(sorted[i]) {
      assert sorted[i] in multiset(listed);
      var k :| 0 <= k < |listed| && listed[k] == sorted[i];
    }
  }

  lemma SortedPrefix<T>(s: seq<T>, p: seq<T>, key: T -> int)
    requires SortedDesc(s, key) && p <= s
    ensures SortedDesc(p, key)
  {
    forall i, j | 0 <= i < j < |p| ensures key(p[i]) >= key(p[j]) {
      assert p[i] == s[i] && p[j] == s[j];
    }
  }

  /** getRecentRegistrations: one summary per listed record, newest first. */
  function RecentRegistrations(users: seq<User>, limit: int): (r: seq<RegistrationSummary>)
    ensures limit >= 0 ==> |r| <= limit
    ensures SortedDesc(r, SummaryDate)
    ensures forall i :: 0 <= i < |r| ==> exists u :: u in users && IsRegular(u) && r[i] == Summary(u)
    ensures limit >= 0 ==> |r| == if limit < CountOf(users, IsRegular) then limit else CountOf(users, IsRegular)
    ensures forall u | u in users && IsRegular(u) && Summary(u) !in r ::
      forall i | 0 <= i < |r| :: u.joinedDate <= r[i].joinedDate
  {
    var us := RecentUsers(users, limit);
    var r := Summaries(us);
    SummariesOfListed(users, us);
    UnlistedAreOlder(users, us, r);
    r
  }

  /** Summaries keep the order of the records and come from listed records. */
  lemma SummariesOfListed(users: seq<User>, us: seq<User>)
    requires SortedDesc(us, JoinedDate)
    requires forall i :: 0 <= i < |us| ==> us[i] in users && IsRegular(us[i])
    ensures SortedDesc(Summaries(us), SummaryDate)
    ensures forall i :: 0 <= i < |us| ==> exists u :: u in users && IsRegular(u) && Summaries(us)[i] == Summary(u)
  {
    var r := Summaries(us);
    forall i, j | 0 <= i < j < |r| ensures SummaryDate(r[i]) >= SummaryDate(r[j]) {
      assert SummaryDate(r[i]) == JoinedDate(us[i]) && SummaryDate(r[j]) == JoinedDate(us[j]);
    }
    forall i | 0 <= i < |us| ensures exists u :: u in users && IsRegular(u) && r[i] == Summary(u) {
      assert r[i] == Summary(us[i]);
    }
  }

  /** A stored non-administrator without a summary in the list is no newer
      than any listed one. */
  lemma UnlistedAreOlder(users: seq<User>, us: seq<User>, r: seq<RegistrationSummary>)
    requires NewestOf(us, Filter(users, IsRegular), JoinedDate)
    requires |r| == |us| && forall i :: 0 <= i < |us| ==> r[i] == Summary(us[i])
    ensures forall u | u in users && IsRegular(u) && Summary(u) !in r ::
      forall i | 0 <= i < |r| :: u.joinedDate <= r[i].joinedDate
  {
    forall u | u in users && IsRegular(u) && Summary(u) !in r
      ensures forall i | 0 <= i < |r| :: u.joinedDate <= r[i].joinedDate
    {
      FilterMultiset(users, IsRegular, u);
      assert u in multiset(Filter(users, IsRegular)) - multiset(us);
      forall i | 0 <= i < |r| ensures u.joinedDate <= r[i].joinedDate {
        assert JoinedDate(u) <= JoinedDate(us[i]);
      }
    }
  }

  /** The admin guard over the account store, with the stored admin log. */
  class AdminAuthSystem {
    const auth: AuthSystem
    var logs: seq<LogEntry>

    constructor (auth: AuthSystem, storedLogs: seq<LogEntry>)
      ensures this.auth == auth && logs == storedLogs
    {
      this.auth := auth;
      logs := storedLogs;
    }

    method StoreAdminLog(entry: LogEntry)
      modifies this`logs
      ensures logs == KeepLast(old(logs) + [entry], MaxLogs)
    {
      var all := logs + [entry];
      if |all| > MaxLogs {
        all := all[|all| - MaxLogs..];
      }
      logs := all;
    }

    /** logAdminAction: ignored unless an administrator is signed in;
        otherwise one entry from the signed-in administrator is stored. */
    method LogAdminAction(action: string, details: string, now: int)
      modifies this`logs
      ensures !IsAdminAuthenticated(auth.currentUser) ==> logs == old(logs)
      ensures IsAdminAuthenticated(auth.currentUser) ==>
        logs == KeepLast(old(logs) + [LogEntry(auth.currentUser.value.id, auth.currentUser.value.email, action, details, now, "demo-ip-address")], MaxLogs)
    {
      if !IsAdminAuthenticated(auth.currentUser) {
        return;
      }
      var admin := auth.currentUser.value;
      StoreAdminLog(LogEntry(admin.id, admin.email, action, details, now, "demo-ip-address"));
    }

    method GetAdminLogs(limit: int) returns (r: seq<LogEntry>)
      ensures r == Reversed(SliceFromEnd(logs, limit))
    {
      r := Reversed(SliceFromEnd(logs, limit));
    }

    method GetPendingActions() returns (r: PendingActions)
      ensures r == PendingActionsOf(auth.users)
    {
      var users := auth.users;
      var deposits, withdrawals, kyc := 0, 0, 0;
      var i := 0;
      while i < |users|
        invariant 0 <= i <= |users|
        invariant deposits == SumOf(users[..i], PendingDepositCount)
        invariant withdrawals == SumOf(users[..i], PendingWithdrawalCount)
        invariant kyc == CountOf(users[..i], KycPending)
      {
        var u := users[i];
        assert users[..i + 1][..i] == users[..i];
        var d, w := CountPendingJournal(u.transactions);
        deposits, withdrawals := deposits + d, withdrawals + w;
        if u.kycSubmission.Some? && u.kycSubmission.value.status == "pending" {
          kyc := kyc + 1;
        }
        i := i + 1;
      }
      assert users[..i] == users;
      CountOverAllTransactions(users, IsPendingDeposit, PendingDepositCount);
      CountOverAllTransactions(users, IsPendingWithdrawal, PendingWithdrawalCount);
      r := PendingActions(deposits, withdrawals, kyc, deposits + withdrawals + kyc);
    }

    method GetRecentRegistrations(limit: int) returns (r: seq<RegistrationSummary>)
      ensures r == RecentRegistrations(auth.users, limit)
      ensures limit >= 0 ==> |r| == if limit < CountOf(auth.users, IsRegular) then limit else CountOf(auth.users, IsRegular)
      ensures forall u | u in auth.users && IsRegular(u) && Summary(u) !in r ::
        forall i | 0 <= i < |r| :: u.joinedDate <= r[i].joinedDate
    {
      r := RecentRegistrations(auth.users, limit);
    }
  }
}
