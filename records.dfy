/** The stored records of the ledger (one user list, each user carrying its
    own transactions and investments) and the aggregate views that several
    pages compute over them. Amounts are whole pesewas (GHS 1 = 100 pesewas);
    timestamps are milliseconds since the epoch. */
module Records {
  import opened Collections

  /** The referral bonus, GHS 24. */
  const ReferralBonus: int := 2400

  /** A KYC submission; only its review status takes part in the ledger logic. */
  datatype KycSubmission = KycSubmission(status: string, idType: string, idNumber: string, submittedAt: int)

  /** One journal entry. `amount` is signed: credits positive, debits negative. */
  datatype Transaction = Transaction(
    id: string,
    txType: string,
    amount: int,
    payMethod: Option<string>,
    description: string,
    date: int,
    status: string)

  /** One investment position. */
  datatype Investment = Investment(
    id: string,
    plan: string,
    amount: int,
    expectedReturn: int,
    startDate: int,
    maturityDate: int,
    status: string)

  /** One account record. A field the source leaves undefined on the seeded
      administrator (referral code, transactions, investments) is None or empty. */
  datatype User = User(
    id: string,
    email: string,
    phone: string,
    password: string,
    fullName: string,
    role: string,
    balance: int,
    plan: string,
    kycVerified: bool,
    kycSubmission: Option<KycSubmission>,
    referralCode: Option<string>,
    referredBy: Option<string>,
    joinedDate: int,
    investments: seq<Investment>,
    transactions: seq<Transaction>)

  function Abs(x: int): (r: nat)
    ensures r == x || r == -x
  {
    if x < 0 then -x else x
  }

  predicate IsRegular(u: User) { u.role != "admin" }

  predicate HasUserRole(u: User) { u.role == "user" }

  predicate KycPending(u: User)
  {
    u.kycSubmission.Some? && u.kycSubmission.value.status == "pending"
  }

  predicate IsActive(inv: Investment) { inv.status == "active" }

  /** Amount contributed by a completed transaction, 0 otherwise. */
  function CompletedAmount(t: Transaction): int
  {
    if t.status == "completed" then t.amount else 0
  }

  function CompletedDepositAmount(t: Transaction): int
  {
    if t.txType == "deposit" && t.status == "completed" then t.amount else 0
  }

  function CompletedWithdrawalAmount(t: Transaction): int
  {
    if t.txType == "withdrawal" && t.status == "completed" then Abs(t.amount) else 0
  }

  predicate IsPendingDeposit(t: Transaction) { t.txType == "deposit" && t.status == "pending" }

  predicate IsPendingWithdrawal(t: Transaction) { t.txType == "withdrawal" && t.status == "pending" }

  /** The user's balance is the sum of its completed journal entries. */
  predicate Reconciled(u: User)
  {
    u.balance == SumOf(u.transactions, CompletedAmount)
  }

  /** Every transaction of every user, user by user, each in journal order. */
  function AllTransactions(users: seq<User>): (r: seq<Transaction>)
    ensures |r| == SumOf(users, TransactionCount)
  {
    if users == [] then []
    else AllTransactions(users[..|users| - 1]) + users[|users| - 1].transactions
  }

  function TransactionCount(u: User): int { |u.transactions| }

  function ActiveInvestmentCount(u: User): int { CountOf(u.investments, IsActive) }

  function UserCompletedDeposits(u: User): int { SumOf(u.transactions, CompletedDepositAmount) }

  function UserCompletedWithdrawals(u: User): int { SumOf(u.transactions, CompletedWithdrawalAmount) }

  function Balance(u: User): int { u.balance }

  lemma {:induction false} AllTransactionsAppend(a: seq<User>, b: seq<User>)
    ensures AllTransactions(a + b) == AllTransactions(a) + AllTransactions(b)
  {
    if b == [] {
      assert a + b == a;
    } else {
      assert (a + b)[..|a + b| - 1] == a + b[..|b| - 1];
      AllTransactionsAppend(a, b[..|b| - 1]);
    }
  }

  /** Summing per user and then over users equals summing over the flattened journal. */
  lemma {:induction false} SumOverAllTransactions(users: seq<User>, f: Transaction -> int, perUser: User -> int)
    requires forall u :: perUser(u) == SumOf(u.transactions, f)
    ensures SumOf(AllTransactions(users), f) == SumOf(users, perUser)
  {
    if users != [] {
      var init := users[..|users| - 1];
      SumOverAllTransactions(init, f, perUser);
      SumAppend(AllTransactions(init), users[|users| - 1].transactions, f);
    }
  }

  /** Counting per user and then over users equals counting over the flattened journal. */
  lemma {:induction false} CountOverAllTransactions(users: seq<User>, p: Transaction -> bool, perUser: User -> int)
    requires forall u :: perUser(u) == CountOf(u.transactions, p)
    ensures CountOf(AllTransactions(users), p) == SumOf(users, perUser)
  {
    if users != [] {
      var init := users[..|users| - 1];
      CountOverAllTransactions(init, p, perUser);
      CountAppend(AllTransactions(init), users[|users| - 1].transactions, p);
    }
  }
}
