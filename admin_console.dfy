/** The admin console of admin-script.js: the pending-transaction review,
    admin credit and delete, the flattened newest-first journal, the
    transaction and user filters, and the overview figures. */
module AdminConsole {
  import opened Collections
  import opened Records
  import opened Text
  import opened Accounts

  /** {...transaction, userId}: a journal entry tagged with its owner. */
  datatype TaggedTransaction = TaggedTransaction(tx: Transaction, userId: string)

  function TaggedDate(t: TaggedTransaction): int { t.tx.date }

  /** One user's entries, tagged, in journal order. */
  function TagAll(txs: seq<Transaction>, userId: string): (r: seq<TaggedTransaction>)
    ensures |r| == |txs|
    ensures forall k :: 0 <= k < |txs| ==> r[k] == TaggedTransaction(txs[k], userId)
  {
    if txs == [] then [] else TagAll(txs[..|txs| - 1], userId) + [TaggedTransaction(txs[|txs| - 1], userId)]
  }

  /** Every entry of every user, tagged, user by user. */
  function Tagged(users: seq<User>): (r: seq<TaggedTransaction>)
    ensures |r| == SumOf(users, TransactionCount)
  {
    if users == [] then [] else Tagged(users[..|users| - 1]) + TagAll(users[|users| - 1].transactions, users[|users| - 1].id)
  }

  lemma {:induction false} TagAllCount(txs: seq<Transaction>, userId: string, p: Transaction -> bool, q: TaggedTransaction -> bool)
    requires forall t :: q(TaggedTransaction(t, userId)) == p(t)
    ensures CountOf(TagAll(txs, userId), q) == CountOf(txs, p)
  {
    if txs != [] {
      TagAllCount(txs[..|txs| - 1], userId, p, q);
    }
  }

  /** Counting tagged entries equals summing the per-user counts. */
  lemma {:induction false} TaggedCount(users: seq<User>, p: Transaction -> bool, q: TaggedTransaction -> bool, perUser: User -> int)
    requires forall t, id :: q(TaggedTransaction(t, id)) == p(t)
    requires forall u :: perUser(u) == CountOf(u.transactions, p)
    ensures CountOf(Tagged(users), q) == SumOf(users, perUser)
  {
    if users != [] {
      var init, last := users[..|users| - 1], users[|users| - 1];
      TaggedCount(init, p, q, perUser);
      TagAllCount(last.transactions, last.id, p, q);
      CountAppend(Tagged(init), TagAll(last.transactions, last.id), q);
    }
  }

  predicate IsPendingDepositTagged(t: TaggedTransaction) { IsPendingDeposit(t.tx) }

  predicate IsPendingWithdrawalTagged(t: TaggedTransaction) { IsPendingWithdrawal(t.tx) }

  function PendingDepositCount(u: User): int { CountOf(u.transactions, IsPendingDeposit) }

  function PendingWithdrawalCount(u: User): int { CountOf(u.transactions, IsPendingWithdrawal) }

  // ---------------------------------------------------------------- review

  /** A review request: approve is ("completed", true), reject ("rejected", false). */
  datatype Review = Review(txId: string, status: string, shouldUpdateBalance: bool)

  predicate Hits(t: Transaction, r: Review) { t.id == r.txId && t.status == "pending" }

  function ReviewTx(t: Transaction, r: Review): Transaction
  {
    if Hits(t, r) then t.(status := r.status) else t
  }

  /** The balance change one entry causes: only an approved pending deposit. */
  function ReviewCredit(t: Transaction, r: Review): int
  {
    if Hits(t, r) && r.shouldUpdateBalance && t.txType == "deposit" && r.status == "completed" then t.amount else 0
  }

  function ReviewTxs(txs: seq<Transaction>, r: Review): (res: seq<Transaction>)
    ensures |res| == |txs|
    ensures forall k :: 0 <= k < |txs| ==> res[k] == ReviewTx(txs[k], r)
  {
    if txs == [] then [] else ReviewTxs(txs[..|txs| - 1], r) + [ReviewTx(txs[|txs| - 1], r)]
  }

  function CreditTotal(txs: seq<Transaction>, r: Review): int
  {
    if txs == [] then 0 else CreditTotal(txs[..|txs| - 1], r) + ReviewCredit(txs[|txs| - 1], r)
  }

  predicate HasPending(txs: seq<Transaction>, r: Review)
  {
    exists k :: 0 <= k < |txs| && Hits(txs[k], r)
  }

  function ReviewUser(u: User, r: Review): User
  {
    u.(transactions := ReviewTxs(u.transactions, r), balance := u.balance + CreditTotal(u.transactions, r))
  }

  /** The stored list after updateTransactionStatus walked every user. */
  function ReviewAll(users: seq<User>, r: Review): (res: seq<User>)
    ensures |res| == |users|
    ensures forall i :: 0 <= i < |users| ==> res[i] == ReviewUser(users[i], r)
  {
    if users == [] then [] else ReviewAll(users[..|users| - 1], r) + [ReviewUser(users[|users| - 1], r)]
  }

  predicate AnyPending(users: seq<User>, r: Review)
  {
    exists i :: 0 <= i < |users| && HasPending(users[i].transactions, r)
  }

  lemma {:induction false} NoHitNoCredit(txs: seq<Transaction>, r: Review)
    requires !HasPending(txs, r)
    ensures CreditTotal(txs, r) == 0 && ReviewTxs(txs, r) == txs
  {
    if txs != [] {
      var init := txs[..|txs| - 1];
      assert !HasPending(init, r) by {
        forall k | 0 <= k < |init| ensures !Hits(init[k], r) {
          assert init[k] == txs[k];
        }
      }
      NoHitNoCredit(init, r);
    }
  }

  /** Reviewing an unknown or already processed id changes no record. */
  lemma ReviewMissIsNoOp(users: seq<User>, r: Review)
    requires !AnyPending(users, r)
    ensures ReviewAll(users, r) == users
  {
    var res := ReviewAll(users, r);
    forall i | 0 <= i < |users| ensures res[i] == users[i] {
      assert !HasPending(users[i].transactions, r);
      UserMissIsNoOp(users[i], r);
    }
  }

  lemma UserMissIsNoOp(u: User, r: Review)
    requires !HasPending(u.transactions, r)
    ensures ReviewUser(u, r) == u
  {
    NoHitNoCredit(u.transactions, r);
  }

  /** After a review to a non-pending status no entry with that id is pending,
      so a second approval finds nothing and credits nothing. */
  lemma ReviewIsFinal(users: seq<User>, r: Review, again: Review)
    requires r.status != "pending" && again.txId == r.txId
    ensures !AnyPending(ReviewAll(users, r), again)
    ensures ReviewAll(ReviewAll(users, r), again) == ReviewAll(users, r)
  {
    var after := ReviewAll(users, r);
    forall i, k | 0 <= i < |after| && 0 <= k < |after[i].transactions|
      ensures !Hits(after[i].transactions[k], again)
    {
      assert after[i].transactions[k] == ReviewTx(users[i].transactions[k], r);
    }
    ReviewMissIsNoOp(after, again);
  }

  lemma {:induction false} CreditTotalNoDeposit(txs: seq<Transaction>, r: Review)
    requires !r.shouldUpdateBalance || r.status != "completed" ||
             forall k :: 0 <= k < |txs| && Hits(txs[k], r) ==> txs[k].txType != "deposit"
    ensures CreditTotal(txs, r) == 0
  {
    if txs != [] {
      CreditTotalNoDeposit(txs[..|txs| - 1], r);
    }
  }

  /** Rejection, and approval of an entry that is not a deposit, leave every
      balance unchanged. */
  lemma ReviewWithoutDepositKeepsBalances(users: seq<User>, r: Review)
    requires !r.shouldUpdateBalance || r.status != "completed" ||
             forall i, k :: 0 <= i < |users| && 0 <= k < |users[i].transactions| && Hits(users[i].transactions[k], r)
               ==> users[i].transactions[k].txType != "deposit"
    ensures forall i :: 0 <= i < |users| ==> ReviewAll(users, r)[i].balance == users[i].balance
  {
    forall i | 0 <= i < |users| ensures ReviewUser(users[i], r).balance == users[i].balance {
      CreditTotalNoDeposit(users[i].transactions, r);
    }
  }

  lemma {:induction false} CreditTotalSingle(txs: seq<Transaction>, r: Review, k: nat)
    requires k < |txs|
    requires forall m :: 0 <= m < |txs| && m != k ==> txs[m].id != r.txId
    ensures CreditTotal(txs, r) == ReviewCredit(txs[k], r)
  {
    var n := |txs| - 1;
    if k < n {
      CreditTotalSingle(txs[..n], r, k);
    } else {
      assert !HasPending(txs[..n], r);
      NoHitNoCredit(txs[..n], r);
    }
  }

  /** Approving the one pending deposit with a given id credits exactly its
      owner by exactly its amount, marks it completed and changes no other record. */
  lemma ApproveSingleDeposit(users: seq<User>, i: nat, k: nat, r: Review)
    requires r.status == "completed" && r.shouldUpdateBalance
    requires i < |users| && k < |users[i].transactions|
    requires users[i].transactions[k].id == r.txId
    requires users[i].transactions[k].status == "pending" && users[i].transactions[k].txType == "deposit"
    requires forall j, m :: 0 <= j < |users| && 0 <= m < |users[j].transactions| && (j, m) != (i, k)
               ==> users[j].transactions[m].id != r.txId
    ensures var res := ReviewAll(users, r);
      && res[i].balance == users[i].balance + users[i].transactions[k].amount
      && res[i].transactions[k].status == "completed"
      && (forall j :: 0 <= j < |users| && j != i ==> res[j] == users[j])
  {
    CreditTotalSingle(users[i].transactions, r, k);
    forall j | 0 <= j < |users| && j != i ensures ReviewUser(users[j], r) == users[j] {
      NoHitNoCredit(users[j].transactions, r);
    }
  }

  /** The completed total moves by the credit exactly when every hit entry
      that the review completes is a deposit that it credits. */
  lemma {:induction false} ReviewCompletedTotal(txs: seq<Transaction>, r: Review)
    requires r.status == "rejected" ||
             (r.status == "completed" && r.shouldUpdateBalance &&
              forall k :: 0 <= k < |txs| && Hits(txs[k], r) ==> txs[k].txType == "deposit")
    ensures SumOf(ReviewTxs(txs, r), CompletedAmount) == SumOf(txs, CompletedAmount) + CreditTotal(txs, r)
  {
    if txs != [] {
      var n := |txs| - 1;
      ReviewCompletedTotal(txs[..n], r);
      assert ReviewTxs(txs, r)[..n] == ReviewTxs(txs[..n], r);
    }
  }

  /** Approving a pending deposit or rejecting anything keeps a reconciled
      account reconciled (its balance equals its completed entries). */
  lemma ReviewKeepsReconciled(u: User, r: Review)
    requires Reconciled(u)
    requires r.status == "rejected" ||
             (r.status == "completed" && r.shouldUpdateBalance &&
              forall k :: 0 <= k < |u.transactions| && Hits(u.transactions[k], r) ==> u.transactions[k].txType == "deposit")
    ensures Reconciled(ReviewUser(u, r))
  {
    ReviewCompletedTotal(u.transactions, r);
  }

  /** Approving a pending withdrawal completes it without touching the
      balance, so a reconciled account stops being reconciled. */
  lemma WithdrawalApprovalUnbalances()
    ensures var w := Transaction("w1", "withdrawal", -1000, Some("bank"), "", 0, "pending");
      var u := User("u1", "a@b.c", "", "", "", "user", 0, "free", false, None, Some("C"), None, 0, [], [w]);
      var after := ReviewUser(u, Review("w1", "completed", true));
      Reconciled(u) && after.balance == u.balance && !Reconciled(after)
  {
    var w := Transaction("w1", "withdrawal", -1000, Some("bank"), "", 0, "pending");
    var r := Review("w1", "completed", true);
    assert [w][..0] == [];
    assert ReviewTxs([w], r) == [w.(status := "completed")];
    assert [w.(status := "completed")][..0] == [];
  }

  // ------------------------------------------------------------- credit

  function AdminCreditTx(amount: int, txId: string, now: int): Transaction
  {
    Transaction(txId, "deposit", amount, Some("admin_credit"), "Admin credit", now, "completed")
  }

  /** The update creditUser sends for the record it found. */
  function CreditUpdate(found: User, amount: int, txId: string, now: int): UserUpdate
  {
    NoChanges.(balance := Some(found.balance + amount),
               transactions := Some(found.transactions + [AdminCreditTx(amount, txId, now)]))
  }

  /** An admin credit raises the balance by exactly the amount, appends one
      completed admin_credit deposit of that amount, changes no other field,
      and keeps a reconciled account reconciled. */
  lemma AdminCreditEffect(u: User, amount: int, txId: string, now: int)
    ensures var c := Merge(u, CreditUpdate(u, amount, txId, now));
      && c.balance == u.balance + amount
      && c.transactions == u.transactions + [AdminCreditTx(amount, txId, now)]
      && c == u.(balance := u.balance + amount, transactions := u.transactions + [AdminCreditTx(amount, txId, now)])
      && (Reconciled(u) ==> Reconciled(c))
  {
    SumAppend(u.transactions, [AdminCreditTx(amount, txId, now)], CompletedAmount);
  }

  // ------------------------------------------------------------- delete

  /** The list deleteUser stores: every record whose id differs. */
  function WithoutId(users: seq<User>, id: string): (r: seq<User>)
    ensures forall i :: 0 <= i < |r| ==> r[i].id != id && r[i] in users
  {
    if users == [] then []
    else WithoutId(users[..|users| - 1], id) + (if users[|users| - 1].id != id then [users[|users| - 1]] else [])
  }

  /** deleteUser removes every record with the id and keeps each other record
      as often as it occurred. */
  lemma {:induction false} WithoutIdExact(users: seq<User>, id: string, u: User)
    ensures multiset(WithoutId(users, id))[u] == if u.id == id then 0 else multiset(users)[u]
  {
    if users != [] {
      WithoutIdExact(users[..|users| - 1], id, u);
      assert users == users[..|users| - 1] + [users[|users| - 1]];
    }
  }

  /** deleteUser keeps the store order of the remaining records. */
  lemma {:induction false} WithoutIdAppend(users: seq<User>, more: seq<User>, id: string)
    ensures WithoutId(users + more, id) == WithoutId(users, id) + WithoutId(more, id)
  {
    if more == [] {
      assert users + more == users;
    } else {
      assert (users + more)[..|users + more| - 1] == users + more[..|more| - 1];
      WithoutIdAppend(users, more[..|more| - 1], id);
    }
  }

  // ------------------------------------------------------------- filters

  /** The filter of loadTransactions. */
  function FilterTransactions(txs: seq<TaggedTransaction>, filter: string): (r: seq<TaggedTransaction>)
    ensures filter in ["deposit", "withdrawal", "investment"] ==>
      forall i :: 0 <= i < |r| ==> r[i].tx.txType == filter && r[i] in txs
    ensures filter in ["pending", "completed"] ==>
      forall i :: 0 <= i < |r| ==> r[i].tx.status == filter && r[i] in txs
    ensures filter !in ["deposit", "withdrawal", "investment", "pending", "completed"] ==> r == txs
  {
    if filter == "all" then txs
    else if filter in ["deposit", "withdrawal", "investment"] then Filter(txs, (t: TaggedTransaction) => t.tx.txType == filter)
    else if filter in ["pending", "completed"] then Filter(txs, (t: TaggedTransaction) => t.tx.status == filter)
    else txs
  }

  /** The type and status filters keep every matching entry as often as it
      occurs, so nothing that matches is lost. */
  lemma TransactionFilterKeepsMatches(txs: seq<TaggedTransaction>, filter: string, t: TaggedTransaction)
    ensures filter in ["deposit", "withdrawal", "investment"] ==>
      multiset(FilterTransactions(txs, filter))[t] == if t.tx.txType == filter then multiset(txs)[t] else 0
    ensures filter in ["pending", "completed"] ==>
      multiset(FilterTransactions(txs, filter))[t] == if t.tx.status == filter then multiset(txs)[t] else 0
  {
    if filter in ["deposit", "withdrawal", "investment"] {
      FilterMultiset(txs, (t: TaggedTransaction) => t.tx.txType == filter, t);
    } else if filter in ["pending", "completed"] {
      FilterMultiset(txs, (t: TaggedTransaction) => t.tx.status == filter, t);
    }
  }

  /** The search predicate of searchUsers: the lower-cased query in the
      lower-cased name or e-mail, or in the phone number as stored. */
  predicate MatchesQuery(u: User, query: string)
  {
    var q := ToLower(query);
    Includes(ToLower(u.fullName), q) || Includes(ToLower(u.email), q) || Includes(u.phone, q)
  }

  function SearchUsers(users: seq<User>, query: string): (r: seq<User>)
    ensures forall i :: 0 <= i < |r| ==> r[i] in users && MatchesQuery(r[i], query)
  {
    Filter(users, (u: User) => MatchesQuery(u, query))
  }

  /** An empty search lists every user; otherwise each matching user is kept. */
  lemma SearchUsersExact(users: seq<User>, query: string, u: User)
    ensures SearchUsers(users, "") == users
    ensures multiset(SearchUsers(users, query))[u] == if MatchesQuery(u, query) then multiset(users)[u] else 0
  {
    forall i | 0 <= i < |users| ensures MatchesQuery(users[i], "") {
      IncludesAt(ToLower(users[i].fullName), ToLower(""), 0);
    }
    FilterAll(users, (u: User) => MatchesQuery(u, ""));
    FilterMultiset(users, (u: User) => MatchesQuery(u, query), u);
  }

  const TransactionTypes: seq<string> :=
    ["deposit", "withdrawal", "investment", "profit", "referral_bonus", "referral_commission"]

  /** formatTransactionType: the label of a known type, an unknown type as given. */
  function FormatTransactionType(t: string): (r: string)
    ensures (r == t) <==> t !in TransactionTypes
    ensures t in TransactionTypes ==> r != [] && 'A' <= r[0] <= 'Z'
  {
    match t
    case "deposit" => "Deposit"
    case "withdrawal" => "Withdrawal"
    case "investment" => "Investment"
    case "profit" => "Profit"
    case "referral_bonus" => "Referral Bonus"
    case "referral_commission" => "Referral Commission"
    case _ => t
  }

  /** Distinct known types get distinct labels. */
  lemma FormatTransactionTypeInjective(a: string, b: string)
    requires a in TransactionTypes && b in TransactionTypes && a != b
    ensures FormatTransactionType(a) != FormatTransactionType(b)
  {
  }

  // ------------------------------------------------------------- overview

  datatype OverviewFigures = OverviewFigures(
    totalUsers: nat,
    totalInvestments: int,
    totalDeposits: int,
    totalWithdrawals: int,
    pendingKyc: nat,
    systemBalance: int)

  /** The figures of updateOverview over the listed users. */
  function Overview(users: seq<User>): (r: OverviewFigures)
    ensures r.totalUsers == |users|
    ensures r.totalDeposits == SumOf(AllTransactions(users), CompletedDepositAmount)
    ensures r.totalWithdrawals == SumOf(AllTransactions(users), CompletedWithdrawalAmount)
    ensures r.totalWithdrawals >= 0 && r.totalInvestments >= 0
    ensures r.pendingKyc <= r.totalUsers
  {
    SumOverAllTransactions(users, CompletedDepositAmount, UserCompletedDeposits);
    SumOverAllTransactions(users, CompletedWithdrawalAmount, UserCompletedWithdrawals);
    SumNonNegative(AllTransactions(users), CompletedWithdrawalAmount);
    SumNonNegative(users, ActiveInvestmentCount);
    OverviewFigures(
      |users|,
      SumOf(users, ActiveInvestmentCount),
      SumOf(users, UserCompletedDeposits),
      SumOf(users, UserCompletedWithdrawals),
      CountOf(users, KycPending),
      SumOf(users, Balance))
  }

  function JoinedDate(u: User): int { u.joinedDate }

  /** The five newest users (slice(0, 5) of the newest-first sort). */
  function NewestFive(users: seq<User>): (r: seq<User>)
    ensures |r| <= 5 && SortedDesc(r, JoinedDate)
    ensures |r| == if |users| < 5 then |users| else 5
    ensures forall i :: 0 <= i < |r| ==> r[i] in users
    ensures NewestOf(r, users, JoinedDate)
  {
    var sorted := SortDesc(users, JoinedDate);
    var n := if |sorted| < 5 then |sorted| else 5;
    NewestPrefix(users, sorted, n);
    sorted[..n]
  }

  /** The first n of a newest-first reordering of the users are sorted,
      drawn from the users, and their newest. */
  lemma NewestPrefix(users: seq<User>, sorted: seq<User>, n: nat)
    requires SortedDesc(sorted, JoinedDate) && multiset(sorted) == multiset(users) && n <= |sorted|
    ensures SortedDesc(sorted[..n], JoinedDate)
    ensures forall i :: 0 <= i < n ==> sorted[..n][i] in users
    ensures NewestOf(sorted[..n], users, JoinedDate)
  {
    SortedPrefixNewest(sorted, n, JoinedDate);
    forall i | 0 <= i < n ensures sorted[..n][i] in users {
      assert sorted[..n][i] == sorted[i];
      assert sorted[i] in multiset(users);
    }
  }

  /** Counting pending deposits and withdrawals in any reordering of the
      flattened journal gives the per-user totals. */
  lemma PendingCountsFromJournal(all: seq<TaggedTransaction>, users: seq<User>)
    requires multiset(all) == multiset(Tagged(users))
    ensures CountOf(all, IsPendingDepositTagged) == SumOf(users, PendingDepositCount)
    ensures CountOf(all, IsPendingWithdrawalTagged) == SumOf(users, PendingWithdrawalCount)
  {
    CountPermutation(all, Tagged(users), IsPendingDepositTagged);
    CountPermutation(all, Tagged(users), IsPendingWithdrawalTagged);
    TaggedCount(users, IsPendingDeposit, IsPendingDepositTagged, PendingDepositCount);
    TaggedCount(users, IsPendingWithdrawal, IsPendingWithdrawalTagged, PendingWithdrawalCount);
  }

  /** One step of the journal walk: reviewing entry j extends the reviewed prefix. */
  lemma ReviewJournalStep(orig: seq<Transaction>, txs: seq<Transaction>, j: nat, r: Review)
    requires j < |orig| == |txs|
    requires forall k :: 0 <= k < j ==> txs[k] == ReviewTx(orig[k], r)
    requires forall k :: j <= k < |txs| ==> txs[k] == orig[k]
    ensures var next := txs[j := ReviewTx(orig[j], r)];
      && (forall k :: 0 <= k < j + 1 ==> next[k] == ReviewTx(orig[k], r))
      && (forall k :: j + 1 <= k < |next| ==> next[k] == orig[k])
  {
  }

  lemma ReviewedJournal(orig: seq<Transaction>, txs: seq<Transaction>, r: Review)
    requires |txs| == |orig|
    requires forall k :: 0 <= k < |orig| ==> txs[k] == ReviewTx(orig[k], r)
    ensures txs == ReviewTxs(orig, r)
  {
  }

  lemma CreditTotalPrefix(txs: seq<Transaction>, j: nat, r: Review)
    requires j < |txs|
    ensures CreditTotal(txs[..j + 1], r) == CreditTotal(txs[..j], r) + ReviewCredit(txs[j], r)
  {
    assert txs[..j + 1][..j] == txs[..j];
  }

  lemma HasPendingPrefix(txs: seq<Transaction>, j: nat, r: Review)
    requires j < |txs|
    ensures HasPending(txs[..j + 1], r) == (HasPending(txs[..j], r) || Hits(txs[j], r))
  {
    if Hits(txs[j], r) {
      assert txs[..j + 1][j] == txs[j];
    }
    if HasPending(txs[..j + 1], r) {
      var k :| 0 <= k < j + 1 && Hits(txs[..j + 1][k], r);
      if k < j { assert txs[..j][k] == txs[k]; }
    }
    if HasPending(txs[..j], r) {
      var k :| 0 <= k < j && Hits(txs[..j][k], r);
      assert txs[..j + 1][k] == txs[..j][k];
    }
  }

  lemma AnyPendingPrefix(users: seq<User>, i: nat, r: Review)
    requires i < |users|
    ensures AnyPending(users[..i + 1], r) == (AnyPending(users[..i], r) || HasPending(users[i].transactions, r))
  {
    if AnyPending(users[..i + 1], r) {
      var m :| 0 <= m < i + 1 && HasPending(users[..i + 1][m].transactions, r);
      if m < i { assert users[..i][m] == users[m]; }
    }
    if HasPending(users[i].transactions, r) {
      assert users[..i + 1][i] == users[i];
    }
    if AnyPending(users[..i], r) {
      var m :| 0 <= m < i && HasPending(users[..i][m].transactions, r);
      assert users[..i + 1][m] == users[..i][m];
    }
  }

  /** The inner walk of updateTransactionStatus over one user's journal. */
  method ReviewJournal(u: User, r: Review) returns (reviewed: User, hit: bool)
    ensures reviewed == ReviewUser(u, r)
    ensures hit == HasPending(u.transactions, r)
  {
    var txs := u.transactions;
    var balance := u.balance;
    hit := false;
    var j := 0;
    while j < |txs|
      invariant 0 <= j <= |txs| == |u.transactions|
      invariant forall k :: 0 <= k < j ==> txs[k] == ReviewTx(u.transactions[k], r)
      invariant forall k :: j <= k < |txs| ==> txs[k] == u.transactions[k]
      invariant balance == u.balance + CreditTotal(u.transactions[..j], r)
      invariant hit == HasPending(u.transactions[..j], r)
    {
      var t := txs[j];
      assert t == u.transactions[j];
      CreditTotalPrefix(u.transactions, j, r);
      HasPendingPrefix(u.transactions, j, r);
      ReviewJournalStep(u.transactions, txs, j, r);
      ghost var before := txs;
      if t.id == r.txId && t.status == "pending" {
        txs := txs[j := t.(status := r.status)];
        if r.shouldUpdateBalance && t.txType == "deposit" && r.status == "completed" {
          balance := balance + t.amount;
        }
        hit := true;
      }
      assert txs == before[j := ReviewTx(t, r)];
      j := j + 1;
    }
    assert u.transactions[..j] == u.transactions;
    ReviewedJournal(u.transactions, txs, r);
    reviewed := u.(transactions := txs, balance := balance);
  }

  /** The console over the account store; its user list is getAllUsers(). */
  class AdminSystem {
    const auth: AuthSystem

    constructor (auth: AuthSystem)
      ensures this.auth == auth
    {
      this.auth := auth;
    }

    /** getAllTransactions: every entry of every listed user, tagged with its
        owner, newest first. */
    method GetAllTransactions() returns (r: seq<TaggedTransaction>)
      ensures multiset(r) == multiset(Tagged(AllUsers(auth.users)))
      ensures SortedDesc(r, TaggedDate)
      ensures |r| == SumOf(AllUsers(auth.users), TransactionCount)
    {
      var users := AllUsers(auth.users);
      var all: seq<TaggedTransaction> := [];
      var i := 0;
      while i < |users|
        invariant 0 <= i <= |users|
        invariant all == Tagged(users[..i])
      {
        var u := users[i];
        var j := 0;
        while j < |u.transactions|
          invariant 0 <= j <= |u.transactions|
          invariant all == Tagged(users[..i]) + TagAll(u.transactions[..j], u.id)
        {
          assert u.transactions[..j + 1][..j] == u.transactions[..j];
          all := all + [TaggedTransaction(u.transactions[j], u.id)];
          j := j + 1;
        }
        assert u.transactions[..j] == u.transactions;
        assert users[..i + 1][..i] == users[..i];
        i := i + 1;
      }
      assert users[..i] == users;
      r := SortDesc(all, TaggedDate);
    }

    /** updateRecentActivities: the five newest users and the pending counts
        taken from the flattened journal. */
    method RecentActivities() returns (recent: seq<User>, pendingDeposits: nat, pendingWithdrawals: nat, pendingKyc: nat)
      ensures |recent| <= 5 && SortedDesc(recent, JoinedDate)
      ensures forall i :: 0 <= i < |recent| ==> recent[i] in AllUsers(auth.users)
      ensures |recent| == if |AllUsers(auth.users)| < 5 then |AllUsers(auth.users)| else 5
      ensures NewestOf(recent, AllUsers(auth.users), JoinedDate)
      ensures pendingDeposits == SumOf(AllUsers(auth.users), PendingDepositCount)
      ensures pendingWithdrawals == SumOf(AllUsers(auth.users), PendingWithdrawalCount)
      ensures pendingKyc == CountOf(AllUsers(auth.users), KycPending)
    {
      var users := AllUsers(auth.users);
      recent := NewestFive(users);
      var all := GetAllTransactions();
      pendingDeposits := CountOf(all, IsPendingDepositTagged);
      pendingWithdrawals := CountOf(all, IsPendingWithdrawalTagged);
      PendingCountsFromJournal(all, users);
      pendingKyc := CountOf(users, KycPending);
    }

    /** updateTransactionStatus: walks every user and every entry; an entry with
        the id that is still pending takes the new status, and an approved
        deposit credits its owner. The list is written back only when one was found. */
    method UpdateTransactionStatus(txId: string, status: string, shouldUpdateBalance: bool) returns (found: bool)
      modifies auth`users
      ensures found == AnyPending(old(auth.users), Review(txId, status, shouldUpdateBalance))
      ensures auth.users == ReviewAll(old(auth.users), Review(txId, status, shouldUpdateBalance))
    {
      var r := Review(txId, status, shouldUpdateBalance);
      var users := auth.users;
      ghost var orig := users;
      found := false;
      var i := 0;
      while i < |users|
        invariant 0 <= i <= |users| == |orig| && auth.users == orig
        invariant forall k :: 0 <= k < i ==> users[k] == ReviewUser(orig[k], r)
        invariant forall k :: i <= k < |users| ==> users[k] == orig[k]
        invariant found == AnyPending(orig[..i], r)
      {
        AnyPendingPrefix(orig, i, r);
        var reviewed, hit := ReviewJournal(users[i], r);
        users := users[i := reviewed];
        found := found || hit;
        i := i + 1;
      }
      assert orig[..i] == orig;
      assert users == ReviewAll(orig, r);
      if found {
        auth.users := users;
      } else {
        ReviewMissIsNoOp(orig, r);
      }
    }

    method ApproveTransaction(txId: string) returns (found: bool)
      modifies auth`users
      ensures found == AnyPending(old(auth.users), Review(txId, "completed", true))
      ensures auth.users == ReviewAll(old(auth.users), Review(txId, "completed", true))
    {
      found := UpdateTransactionStatus(txId, "completed", true);
    }

    method RejectTransaction(txId: string) returns (found: bool)
      modifies auth`users
      ensures found == AnyPending(old(auth.users), Review(txId, "rejected", false))
      ensures auth.users == ReviewAll(old(auth.users), Review(txId, "rejected", false))
    {
      found := UpdateTransactionStatus(txId, "rejected", false);
    }

    /** creditUser: a missing, non-numeric or non-positive amount and a user
        not among the listed users are ignored; otherwise the found record's
        balance plus the amount and its journal plus one admin_credit deposit
        are merged into the store. */
    method CreditUser(userId: string, amount: Option<int>, txId: string, now: int) returns (credited: bool)
      modifies auth
      ensures var target := UserById(AllUsers(old(auth.users)), userId);
        credited <==> amount.Some? && amount.value > 0 && target.Some? && IdIndex(old(auth.users), userId).Some?
      ensures !credited ==> auth.users == old(auth.users) && auth.currentUser == old(auth.currentUser)
      ensures credited ==>
        var i := IdIndex(old(auth.users), userId).value;
        var target := UserById(AllUsers(old(auth.users)), userId).value;
        auth.users == old(auth.users)[i := Merge(old(auth.users)[i], CreditUpdate(target, amount.value, txId, now))]
      ensures credited ==>
        auth.currentUser == SessionAfterUpdate(old(auth.currentUser), old(auth.users), userId,
          CreditUpdate(UserById(AllUsers(old(auth.users)), userId).value, amount.value, txId, now))
    {
      if amount.None? || amount.value <= 0 {
        return false;
      }
      var target := UserById(AllUsers(auth.users), userId);
      if target.None? {
        return false;
      }
      credited := auth.UpdateUser(userId, CreditUpdate(target.value, amount.value, txId, now));
    }

    /** deleteUser after confirmation. */
    method DeleteUser(userId: string)
      modifies auth`users
      ensures auth.users == WithoutId(old(auth.users), userId)
    {
      auth.users := WithoutId(auth.users, userId);
    }
  }
}
