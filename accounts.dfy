/** The account store of auth.js: registration, the referral bonus, login,
    the merge-style record update and the role filter, over one user list. */
module Accounts {
  import opened Collections
  import opened Records

  const AdminEmail: string := "admin@moneypilot.site"

  /** Stand-in for the browser's base64 encoder `btoa`: an injective
      encoding of the password (each character written twice). Only its
      injectivity matters to the ledger. */
  function HashPassword(password: string): (h: string)
    ensures |h| == 2 * |password|
  {
    if password == [] then [] else [password[0], password[0]] + HashPassword(password[1..])
  }

  lemma {:induction false} HashPasswordInjective(p: string, q: string)
    requires HashPassword(p) == HashPassword(q)
    ensures p == q
  {
    if p != [] {
      var hp, hq := HashPassword(p), HashPassword(q);
      assert hp[0] == p[0] && hq[0] == q[0];
      assert hp[2..] == HashPassword(p[1..]);
      assert hq[2..] == HashPassword(q[1..]);
      HashPasswordInjective(p[1..], q[1..]);
      assert p == [p[0]] + p[1..] && q == [q[0]] + q[1..];
    }
  }

  predicate VerifyPassword(password: string, hash: string)
  {
    HashPassword(password) == hash
  }

  /** A stored hash accepts exactly the password it was made from. */
  lemma VerifyPasswordExact(password: string, stored: string)
    ensures VerifyPassword(password, HashPassword(stored)) <==> password == stored
  {
    if VerifyPassword(password, HashPassword(stored)) {
      HashPasswordInjective(password, stored);
    }
  }

  function EmailIndex(users: seq<User>, email: string): Option<nat>
  {
    FindIndex(users, (u: User) => u.email == email)
  }

  function IdIndex(users: seq<User>, id: string): Option<nat>
  {
    FindIndex(users, (u: User) => u.id == id)
  }

  function ReferrerIndex(users: seq<User>, code: string): Option<nat>
  {
    FindIndex(users, (u: User) => u.referralCode == Some(code))
  }

  /** getUserById: the first record with that id. */
  function UserById(users: seq<User>, id: string): (r: Option<User>)
    ensures r.Some? <==> exists i :: 0 <= i < |users| && users[i].id == id
    ensures r.Some? ==> r.value in users && r.value.id == id
    ensures r.Some? ==> exists i :: 0 <= i < |users| && users[i] == r.value && forall j :: 0 <= j < i ==> users[j].id != id
  {
    match IdIndex(users, id)
    case None => None
    case Some(i) => Some(users[i])
  }

  /** The administrator record seeded when its e-mail address is missing. */
  function DefaultAdmin(id: string, now: int): User
  {
    User(id, AdminEmail, "+233000000000", HashPassword("admin123"), "System Administrator",
         "admin", 0, "admin", true, None, None, None, now, [], [])
  }

  /** The user list after init(): the default administrator is appended only
      when no record carries its e-mail address. */
  function WithDefaultAdmin(users: seq<User>, id: string, now: int): (r: seq<User>)
    ensures EmailIndex(r, AdminEmail).Some?
    ensures users <= r && |r| <= |users| + 1
    ensures EmailIndex(users, AdminEmail).Some? ==> r == users
  {
    if EmailIndex(users, AdminEmail).Some? then users
    else
      var r := users + [DefaultAdmin(id, now)];
      assert r[|users|].email == AdminEmail;
      r
  }

  /** Seeding twice seeds once. */
  lemma WithDefaultAdminIdempotent(users: seq<User>, id: string, id': string, now: int, now': int)
    ensures WithDefaultAdmin(WithDefaultAdmin(users, id, now), id', now') == WithDefaultAdmin(users, id, now)
  {
  }

  /** The form data of a registration; an empty referral code means none. */
  datatype Registration = Registration(email: string, phone: string, password: string, fullName: string, referralCode: string)

  datatype Outcome = Outcome(success: bool, message: string)

  /** The record register() creates. */
  function NewAccount(data: Registration, id: string, code: string, now: int): User
  {
    User(id, data.email, data.phone, HashPassword(data.password), data.fullName,
         "user", 0, "free", false, None, Some(code),
         if data.referralCode == "" then None else Some(data.referralCode),
         now, [], [])
  }

  function BonusTransaction(txId: string, newUserId: string, now: int): Transaction
  {
    Transaction(txId, "referral_bonus", ReferralBonus, None,
                "Referral bonus for new user " + newUserId, now, "completed")
  }

  /** processReferralBonus: the first record owning the code gains the bonus
      and a completed referral_bonus entry; an unknown code changes nothing. */
  function ApplyReferralBonus(users: seq<User>, code: string, txId: string, newUserId: string, now: int): (r: seq<User>)
    ensures |r| == |users|
    ensures forall j :: 0 <= j < |users| ==>
      r[j].id == users[j].id && r[j].email == users[j].email && r[j].role == users[j].role
  {
    match ReferrerIndex(users, code)
    case None => users
    case Some(i) =>
      users[i := users[i].(balance := users[i].balance + ReferralBonus,
                           transactions := users[i].transactions + [BonusTransaction(txId, newUserId, now)])]
  }

  /** The bonus credits exactly the referrer, by exactly GHS 24, with one
      matching journal entry; with an unknown code no record changes. */
  lemma ReferralBonusEffect(users: seq<User>, code: string, txId: string, newUserId: string, now: int)
    ensures var r := ApplyReferralBonus(users, code, txId, newUserId, now);
      match ReferrerIndex(users, code)
      case None => r == users
      case Some(i) =>
        && users[i].referralCode == Some(code)
        && r[i].balance == users[i].balance + ReferralBonus
        && r[i].transactions == users[i].transactions + [BonusTransaction(txId, newUserId, now)]
        && (forall j :: 0 <= j < |users| && j != i ==> r[j] == users[j])
  {
  }

  /** The bonus raises the sum of all balances by exactly GHS 24 when the code
      is known, keeps a reconciled referrer reconciled, and otherwise is a no-op. */
  lemma {:induction false} ReferralBonusTotals(users: seq<User>, code: string, txId: string, newUserId: string, now: int)
    ensures var r := ApplyReferralBonus(users, code, txId, newUserId, now);
      SumOf(r, Balance) == SumOf(users, Balance) + (if ReferrerIndex(users, code).Some? then ReferralBonus else 0)
    ensures var r := ApplyReferralBonus(users, code, txId, newUserId, now);
      forall j :: 0 <= j < |users| && Reconciled(users[j]) ==> Reconciled(r[j])
  {
    var r := ApplyReferralBonus(users, code, txId, newUserId, now);
    match ReferrerIndex(users, code)
    case None =>
    case Some(i) =>
      assert users == users[..i] + [users[i]] + users[i + 1..];
      assert r == users[..i] + [r[i]] + users[i + 1..];
      SumAppend(users[..i] + [users[i]], users[i + 1..], Balance);
      SumAppend(users[..i], [users[i]], Balance);
      SumAppend(users[..i] + [r[i]], users[i + 1..], Balance);
      SumAppend(users[..i], [r[i]], Balance);
      SumAppend(users[i].transactions, [BonusTransaction(txId, newUserId, now)], CompletedAmount);
  }

  /** The user list after a successful register(): the new record appended,
      then the referral bonus applied when a code was given. */
  function Registered(users: seq<User>, data: Registration, id: string, code: string, txId: string, now: int): seq<User>
  {
    var appended := users + [NewAccount(data, id, code, now)];
    if data.referralCode != "" then ApplyReferralBonus(appended, data.referralCode, txId, id, now) else appended
  }

  ghost predicate UniqueEmails(users: seq<User>)
  {
    forall i, j :: 0 <= i < j < |users| ==> users[i].email != users[j].email
  }

  /** The record a registration appends: the fresh account, credited with
      the bonus only when it is itself the first owner of the code it gave. */
  lemma RegisteredLast(users: seq<User>, data: Registration, id: string, code: string, txId: string, now: int)
    ensures var r := Registered(users, data, id, code, txId, now);
      var a := NewAccount(data, id, code, now);
      && |r| == |users| + 1
      && r[|users|] == if data.referralCode != "" && data.referralCode == code && ReferrerIndex(users, data.referralCode).None?
                       then a.(balance := ReferralBonus, transactions := [BonusTransaction(txId, id, now)])
                       else a
  {
    var a := NewAccount(data, id, code, now);
    var appended := users + [a];
    if data.referralCode != "" {
      var r := ApplyReferralBonus(appended, data.referralCode, txId, id, now);
      ReferralBonusEffect(appended, data.referralCode, txId, id, now);
      match ReferrerIndex(users, data.referralCode)
      case Some(i) =>
        assert appended[i] == users[i];
        assert ReferrerIndex(appended, data.referralCode) == Some(i);
      case None =>
        if data.referralCode == code {
          assert appended[|users|].referralCode == Some(data.referralCode);
          assert forall k :: 0 <= k < |users| ==> appended[k] == users[k];
          assert ReferrerIndex(appended, data.referralCode) == Some(|users|);
        } else {
          assert ReferrerIndex(appended, data.referralCode).None?;
        }
    }
  }

  /** Registering a new e-mail keeps e-mail addresses unique. */
  lemma RegisteredUniqueEmails(users: seq<User>, data: Registration, id: string, code: string, txId: string, now: int)
    requires EmailIndex(users, data.email).None?
    requires UniqueEmails(users)
    ensures UniqueEmails(Registered(users, data, id, code, txId, now))
  {
    var appended := users + [NewAccount(data, id, code, now)];
    assert UniqueEmails(appended);
  }

  /** Registration appends exactly one record, a fresh user account (zero
      balance and empty journal unless it is the first owner of the code it
      gave, free plan, unverified, empty portfolio, referredBy the given code
      or none), and keeps e-mail addresses unique. */
  lemma RegisteredShape(users: seq<User>, data: Registration, id: string, code: string, txId: string, now: int)
    requires EmailIndex(users, data.email).None?
    ensures var r := Registered(users, data, id, code, txId, now);
      && |r| == |users| + 1
      && r[|users|].id == id && r[|users|].email == data.email
      && r[|users|].role == "user" && r[|users|].plan == "free" && !r[|users|].kycVerified
      && r[|users|].investments == []
      && r[|users|].referralCode == Some(code)
      && r[|users|].referredBy == (if data.referralCode == "" then None else Some(data.referralCode))
      && (r[|users|].balance == 0 || r[|users|].balance == ReferralBonus)
      && Reconciled(r[|users|])
    ensures var r := Registered(users, data, id, code, txId, now);
      data.referralCode != code || ReferrerIndex(users, data.referralCode).Some? ==>
        r[|users|].balance == 0 && r[|users|].transactions == []
    ensures UniqueEmails(users) ==> UniqueEmails(Registered(users, data, id, code, txId, now))
  {
    RegisteredLast(users, data, id, code, txId, now);
    var b := BonusTransaction(txId, id, now);
    assert SumOf([b], CompletedAmount) == ReferralBonus by {
      assert [b][..0] == [];
    }
    if UniqueEmails(users) {
      RegisteredUniqueEmails(users, data, id, code, txId, now);
    }
  }

  /** {...user, ...updates} restricted to the fields the pages send: each
      present field overwrites, an absent one keeps the stored value. */
  datatype UserUpdate = UserUpdate(
    fullName: Option<string>,
    email: Option<string>,
    phone: Option<string>,
    balance: Option<int>,
    plan: Option<string>,
    kycVerified: Option<bool>,
    kycSubmission: Option<Option<KycSubmission>>,
    investments: Option<seq<Investment>>,
    transactions: Option<seq<Transaction>>)

  const NoChanges: UserUpdate := UserUpdate(None, None, None, None, None, None, None, None, None)

  function Merge(u: User, upd: UserUpdate): (r: User)
    ensures r.id == u.id && r.password == u.password && r.role == u.role
    ensures r.referralCode == u.referralCode && r.referredBy == u.referredBy && r.joinedDate == u.joinedDate
  {
    u.(fullName := GetOr(upd.fullName, u.fullName),
       email := GetOr(upd.email, u.email),
       phone := GetOr(upd.phone, u.phone),
       balance := GetOr(upd.balance, u.balance),
       plan := GetOr(upd.plan, u.plan),
       kycVerified := GetOr(upd.kycVerified, u.kycVerified),
       kycSubmission := GetOr(upd.kycSubmission, u.kycSubmission),
       investments := GetOr(upd.investments, u.investments),
       transactions := GetOr(upd.transactions, u.transactions))
  }

  function Pick<T>(later: Option<T>, earlier: Option<T>): Option<T>
  {
    if later.Some? then later else earlier
  }

  /** The update {...a, ...b}: b's fields win over a's. */
  function Overlay(a: UserUpdate, b: UserUpdate): UserUpdate
  {
    UserUpdate(Pick(b.fullName, a.fullName), Pick(b.email, a.email), Pick(b.phone, a.phone),
               Pick(b.balance, a.balance), Pick(b.plan, a.plan), Pick(b.kycVerified, a.kycVerified),
               Pick(b.kycSubmission, a.kycSubmission), Pick(b.investments, a.investments),
               Pick(b.transactions, a.transactions))
  }

  /** Spread semantics: an empty update keeps the record, two merges are one
      merge of the overlaid updates, and repeating a merge changes nothing. */
  lemma MergeLaws(u: User, a: UserUpdate, b: UserUpdate)
    ensures Merge(u, NoChanges) == u
    ensures Merge(Merge(u, a), b) == Merge(u, Overlay(a, b))
    ensures Merge(Merge(u, a), a) == Merge(u, a)
  {
  }

  /** The list after updateUser(userId, updates): the first record with the
      id merged with the updates, every other record as it was. */
  function Updated(users: seq<User>, userId: string, updates: UserUpdate): (r: seq<User>)
    ensures |r| == |users|
    ensures forall j :: 0 <= j < |users| ==>
      r[j] == if IdIndex(users, userId) == Some(j) then Merge(users[j], updates) else users[j]
  {
    match IdIndex(users, userId)
    case None => users
    case Some(i) => users[i := Merge(users[i], updates)]
  }

  /** The signed-in record after updateUser: re-synced with the merged record
      when it is the updated user, otherwise as it was. */
  function SessionAfterUpdate(current: Option<User>, users: seq<User>, userId: string, updates: UserUpdate): (r: Option<User>)
    ensures IdIndex(users, userId).None? ==> r == current
    ensures current.None? ==> r == None
  {
    match IdIndex(users, userId)
    case None => current
    case Some(i) => if current.Some? && current.value.id == userId then Some(Merge(users[i], updates)) else current
  }

  /** An update changes only the record with the id, keeps the list length and
      every record's identity, and an unknown id changes nothing. */
  lemma UpdatedFrame(users: seq<User>, userId: string, updates: UserUpdate)
    ensures IdIndex(users, userId).None? ==> Updated(users, userId, updates) == users
    ensures forall j :: 0 <= j < |users| && users[j].id != userId ==> Updated(users, userId, updates)[j] == users[j]
    ensures forall j :: 0 <= j < |users| ==> Updated(users, userId, updates)[j].id == users[j].id
    ensures IdIndex(Updated(users, userId, updates), userId) == IdIndex(users, userId)
  {
    var r := Updated(users, userId, updates);
    match IdIndex(users, userId)
    case None =>
    case Some(i) =>
      assert r[i].id == userId;
      assert forall j :: 0 <= j < i ==> r[j] == users[j];
  }

  /** getAllUsers: the records whose role is "user". */
  function AllUsers(users: seq<User>): seq<User>
  {
    Filter(users, HasUserRole)
  }

  /** getAllUsers keeps every "user" record, as often as it occurs, drops every
      other record, and preserves the order of the store. */
  lemma {:induction false} AllUsersExact(users: seq<User>, more: seq<User>, u: User)
    ensures multiset(AllUsers(users))[u] == if u.role == "user" then multiset(users)[u] else 0
    ensures AllUsers(users + more) == AllUsers(users) + AllUsers(more)
  {
    FilterMultiset(users, HasUserRole, u);
    FilterAppend(users, more, HasUserRole);
  }

  datatype LoginResult = LoginFailed(message: string) | LoggedIn(user: User)

  /** The outcome of login(email, password) against the stored list. */
  function LoginOutcome(users: seq<User>, email: string, password: string): LoginResult
  {
    match EmailIndex(users, email)
    case None => LoginFailed("User not found")
    case Some(i) =>
      if !VerifyPassword(password, users[i].password) then LoginFailed("Invalid password")
      else LoggedIn(users[i])
  }

  /** For an account registered with password `registered`, login succeeds
      exactly with that password, and yields the first record with that e-mail. */
  lemma LoginNeedsRegisteredPassword(users: seq<User>, email: string, password: string, registered: string)
    requires EmailIndex(users, email).Some?
    requires users[EmailIndex(users, email).value].password == HashPassword(registered)
    ensures LoginOutcome(users, email, password).LoggedIn? <==> password == registered
    ensures LoginOutcome(users, email, password).LoggedIn? ==>
      LoginOutcome(users, email, password).user == users[EmailIndex(users, email).value]
  {
    VerifyPasswordExact(password, registered);
  }

  /** An unknown e-mail address never logs in. */
  lemma LoginUnknownEmail(users: seq<User>, email: string, password: string)
    requires forall i :: 0 <= i < |users| ==> users[i].email != email
    ensures LoginOutcome(users, email, password) == LoginFailed("User not found")
  {
  }

  /** The account store: the persisted user list and the signed-in user. */
  class AuthSystem {
    var users: seq<User>
    var currentUser: Option<User>

    /** Loads the stored list and session, then seeds the administrator. */
    constructor (stored: seq<User>, storedCurrent: Option<User>, adminId: string, now: int)
      ensures users == WithDefaultAdmin(stored, adminId, now)
      ensures currentUser == storedCurrent
    {
      users := stored;
      currentUser := storedCurrent;
      new;
      Init(adminId, now);
    }

    method Init(adminId: string, now: int)
      modifies this`users
      ensures users == WithDefaultAdmin(old(users), adminId, now)
    {
      if EmailIndex(users, AdminEmail).None? {
        users := users + [DefaultAdmin(adminId, now)];
      }
    }

    method Register(data: Registration, id: string, code: string, bonusTxId: string, now: int) returns (out: Outcome)
      modifies this`users
      ensures out.success <==> EmailIndex(old(users), data.email).None?
      ensures !out.success ==> users == old(users) && out.message == "User already exists with this email"
      ensures out.success ==> users == Registered(old(users), data, id, code, bonusTxId, now)
      ensures out.success ==> out.message == "Registration successful"
    {
      if EmailIndex(users, data.email).Some? {
        return Outcome(false, "User already exists with this email");
      }
      var newUser := NewAccount(data, id, code, now);
      users := users + [newUser];
      if data.referralCode != "" {
        ProcessReferralBonus(data.referralCode, id, bonusTxId, now);
      }
      out := Outcome(true, "Registration successful");
    }

    method ProcessReferralBonus(code: string, newUserId: string, txId: string, now: int)
      modifies this`users
      ensures users == ApplyReferralBonus(old(users), code, txId, newUserId, now)
    {
      var found := ReferrerIndex(users, code);
      if found.Some? {
        var i := found.value;
        var referrer := users[i];
        users := users[i := referrer.(balance := referrer.balance + ReferralBonus,
                                      transactions := referrer.transactions + [BonusTransaction(txId, newUserId, now)])];
      }
    }

    method Login(email: string, password: string) returns (r: LoginResult)
      modifies this`currentUser
      ensures r == LoginOutcome(users, email, password)
      ensures r.LoginFailed? ==> currentUser == old(currentUser)
      ensures r.LoggedIn? ==> currentUser == Some(r.user)
    {
      var found := EmailIndex(users, email);
      if found.None? {
        return LoginFailed("User not found");
      }
      var user := users[found.value];
      if !VerifyPassword(password, user.password) {
        return LoginFailed("Invalid password");
      }
      currentUser := Some(user);
      r := LoggedIn(user);
    }

    method Logout()
      modifies this`currentUser
      ensures currentUser == None
    {
      currentUser := None;
    }

    method UpdateUser(userId: string, updates: UserUpdate) returns (ok: bool)
      modifies this
      ensures ok <==> IdIndex(old(users), userId).Some?
      ensures users == Updated(old(users), userId, updates)
      ensures currentUser == SessionAfterUpdate(old(currentUser), old(users), userId, updates)
    {
      var found := IdIndex(users, userId);
      if found.None? {
        return false;
      }
      var i := found.value;
      users := users[i := Merge(users[i], updates)];
      if currentUser.Some? && currentUser.value.id == userId {
        currentUser := Some(users[i]);
      }
      ok := true;
    }
  }
}
