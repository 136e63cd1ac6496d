# MoneyPilot ledger model

A Dafny model of the account ledger behind the MoneyPilot investment site. The ledger is one list of user
records. Each record holds a balance, a plan, KYC flags, a referral code, a journal of
transactions and a portfolio of investments. Five pages read and change that list:

- `auth.js`: the account store. It covers registration, the GHS 24 referral bonus, login, the merge-style
  `updateUser` and the role filter.
- `admin-script.js`: the admin console. It covers the pending-transaction review, admin credit, delete, the flattened and
  date-sorted transaction list, the filters, the search and the overview figures.
- `dashboard.js`: the investor dashboard. It covers the balance guard, the investment debit, the return and
  maturity tables, and the referral and investment figures.
- `admin-data.js`: the administrator's data store. It covers the settings and plan merges, system and per-user
  statistics, backup and restore, and the two CSV exports.
- `admin-auth.js`: the administrator guard. It covers the admin-action validators, the password policy, the
  bounded admin log, the pending-action counts and the recent registrations.

Each class of the source is a Dafny `class`:

- `Accounts.AuthSystem` holds the stored list as a `seq<User>` field and the signed-in record.
- `AdminConsole.AdminSystem`, `Investing.Dashboard`, `AdminData.AdminDataSystem` and `AdminAuth.AdminAuthSystem`
  hold a reference to it. The browser-stored list and `AuthSystem.users` are one and the same sequence.

Each method is proved against a specification function over values: `Registered`, `Updated`, `ReviewAll`,
`Invested`, `SystemStatsOf`, `UserCsv`, `PendingActionsOf` and others. The lemmas prove what the source promises
about those functions.

Units:

- Amounts are whole pesewas (1 GHS = 100 pesewas). The referral bonus is 2400 and the bronze payout is 232523.
- Times are integer milliseconds.

The modules follow the files:

- `Collections`: generic sums, counts, filters, search and the newest-first sort.
- `Records`: the record datatypes and per-record figures.
- `Text`: character counts, joining and number text.
- `Accounts`, `AdminConsole`, `Investing`, `AdminData` and `AdminAuth`: one per source file.

## Model

| member | source | states |
|---|---|---|
| Accounts.HashPasswordInjective | auth.js:32-35 | distinct passwords never share a hash |
| Accounts.VerifyPasswordExact | auth.js:37-39 | a stored hash verifies exactly the password it was made from, so `verifyPassword(p, hashPassword(p))` holds |
| Accounts.UserById | auth.js:154-156 | some record is returned iff some record has the id; the returned record is in the list, has that id, and no earlier record has it (the first match, as `find` returns) |
| Accounts.WithDefaultAdmin | auth.js:9-26 | after seeding, the administrator e-mail is present; the list only grows, by at most one record; a list that already has it is unchanged |
| Accounts.WithDefaultAdminIdempotent | auth.js:9-26 | seeding twice equals seeding once |
| Accounts.AuthSystem.constructor | auth.js:3-7 | the store is the loaded list with the administrator seeded; the session is the stored one |
| Accounts.AuthSystem.Init | auth.js:9-26 | the list becomes the seeded list |
| Accounts.ApplyReferralBonus | auth.js:83-101 | the bonus keeps the list length and every record's id, e-mail and role |
| Accounts.ReferralBonusEffect | auth.js:83-101 | an unknown code changes nothing; a known code raises the first owning record's balance by exactly 2400, appends one completed referral_bonus entry and leaves every other record as it was |
| Accounts.ReferralBonusTotals | auth.js:83-101 | the sum of all balances rises by 2400 for a known code and is unchanged otherwise; reconciled records stay reconciled |
| Accounts.AuthSystem.ProcessReferralBonus | auth.js:83-101 | the store becomes `ApplyReferralBonus` of the old store |
| Accounts.RegisteredShape | auth.js:45-77 | a registration with a new e-mail appends exactly one record: the given id and e-mail, role user, plan free, not KYC-verified, empty portfolio, the generated referral code, referredBy the given code or none, balance 0 and an empty journal unless the new record is the first owner of the code it gave (then 2400 and one bonus entry), reconciled; e-mail uniqueness is preserved |
| Accounts.RegisteredLast | auth.js:45-77 | the appended record is the fresh account (id, e-mail, role user, free plan, balance 0, empty journal and portfolio, the generated code); it gets the 2400 bonus and one bonus entry only when the code it gave is its own and no earlier record owns it |
| Accounts.RegisteredUniqueEmails | auth.js:45-77 | registering an e-mail no record has keeps every e-mail unique |
| Accounts.AuthSystem.Register | auth.js:45-77 | succeeds iff the e-mail is not yet stored; a duplicate leaves the store unchanged with "User already exists with this email"; a success stores `Registered(...)` and answers "Registration successful" |
| Accounts.Merge | auth.js:137-152 | an update never changes the id, password, role, referral code, referrer or join date |
| Accounts.MergeLaws | auth.js:137-152 | spread semantics: an empty update keeps the record; two merges equal one merge of the overlaid updates; a repeated merge changes nothing |
| Accounts.Updated | auth.js:137-152 | the list keeps its length; the first record with the id is merged with the updates and every other record is kept |
| Accounts.SessionAfterUpdate | auth.js:144-147 | an unknown id or no session leaves the session as it was |
| Accounts.UpdatedFrame | auth.js:137-152 | an unknown id changes nothing; records with another id are untouched; every id is kept, so the same record is found again |
| Accounts.AuthSystem.UpdateUser | auth.js:137-152 | answers true iff the id is stored; the store becomes `Updated(...)`; the session is re-synced only when it belongs to the updated id |
| Accounts.AllUsersExact | auth.js:158-160 | getAllUsers keeps every record with role user as often as it occurs, drops every other record and keeps store order |
| Accounts.LoginNeedsRegisteredPassword | auth.js:103-121 | for a stored e-mail, login succeeds iff the password is the registered one, and yields the first record with that e-mail |
| Accounts.LoginUnknownEmail | auth.js:103-108 | an unknown e-mail fails with "User not found" |
| Accounts.AuthSystem.Login | auth.js:103-121 | the result is the login outcome; a failure leaves the session untouched; a success makes the matched record the session |
| Accounts.AuthSystem.Logout | auth.js:123-127 | the session is cleared |
| AdminConsole.TagAll | admin-script.js:290-297 | one tagged entry per journal entry, in journal order, each carrying the owner's id |
| AdminConsole.Tagged | admin-script.js:288-299 | the number of tagged entries is the sum of the per-user journal lengths |
| AdminConsole.TaggedCount | admin-script.js:288-299 | counting tagged entries by a predicate equals summing the per-user counts |
| AdminConsole.AdminSystem.constructor | admin-script.js:3-8 | the console works over the given account store |
| AdminConsole.AdminSystem.GetAllTransactions | admin-script.js:288-301 | the result is a permutation of every entry of every listed user, tagged with its owner; it is sorted newest first; its length is the sum of the per-user counts |
| AdminConsole.ReviewTxs | admin-script.js:527-535 | each entry of the journal is reviewed on its own and the length is kept |
| AdminConsole.ReviewAll | admin-script.js:525-537 | each record is reviewed on its own and the length is kept |
| AdminConsole.NoHitNoCredit | admin-script.js:528-533 | a journal with no pending entry of that id gets no credit and no change |
| AdminConsole.ReviewMissIsNoOp | admin-script.js:539-547 | reviewing an unknown or already processed id changes no record |
| AdminConsole.ReviewIsFinal | admin-script.js:528-529 | after a review to a non-pending status no entry with that id is pending, so a second review changes nothing and never credits twice |
| AdminConsole.CreditTotalNoDeposit | admin-script.js:530-532 | rejection, and approval of anything but a deposit, credit nothing |
| AdminConsole.ReviewWithoutDepositKeepsBalances | admin-script.js:530-532 | rejection, and approval of an id that is not a pending deposit, leave every balance unchanged |
| AdminConsole.CreditTotalSingle | admin-script.js:527-533 | with one entry of that id in a journal, the credit is that entry's credit |
| AdminConsole.ApproveSingleDeposit | admin-script.js:525-537 | approving the only pending deposit with that id marks it completed, raises its owner's balance by exactly its amount and leaves every other record unchanged |
| AdminConsole.ReviewCompletedTotal | admin-script.js:528-532 | for a rejection or an approval of pending deposits, the completed total of the journal moves by exactly the credit |
| AdminConsole.ReviewKeepsReconciled | admin-script.js:528-532 | approving a pending deposit or rejecting anything keeps a reconciled record reconciled |
| AdminConsole.WithdrawalApprovalUnbalances | admin-script.js:530-532 | approving a pending withdrawal completes it without moving the balance, so the record is no longer reconciled |
| AdminConsole.ReviewJournal | admin-script.js:527-535 | the loop over one journal yields the reviewed record and whether some entry was hit |
| AdminConsole.AdminSystem.UpdateTransactionStatus | admin-script.js:521-548 | found iff some stored entry with that id was pending; the store becomes `ReviewAll` of the old store |
| AdminConsole.AdminSystem.ApproveTransaction | admin-script.js:513-515 | the review with status completed and balance update |
| AdminConsole.AdminSystem.RejectTransaction | admin-script.js:517-519 | the review with status rejected and no balance update |
| AdminConsole.AdminCreditEffect | admin-script.js:474-493 | an admin credit raises the balance by exactly the amount and appends one completed deposit with method admin_credit; the merged record equals the old one with only those two fields changed; a reconciled account stays reconciled |
| AdminConsole.AdminSystem.CreditUser | admin-script.js:467-499 | a missing or non-positive amount or an unknown user changes nothing; otherwise the store is updated with the credit update for that user, and the session is re-synced exactly as `updateUser` does (only when it belongs to that id) |
| AdminConsole.WithoutId | admin-script.js:503-505 | every kept record is from the list and has another id |
| AdminConsole.WithoutIdExact | admin-script.js:503-505 | deleteUser drops every record with the id and keeps each other record as often as it occurs |
| AdminConsole.WithoutIdAppend | admin-script.js:503-505 | deleteUser keeps the store order of the remaining records |
| AdminConsole.AdminSystem.DeleteUser | admin-script.js:501-511 | the store becomes `WithoutId` of the old store |
| AdminConsole.FilterTransactions | admin-script.js:205-214 | a type filter keeps exactly the entries of that type; a status filter keeps exactly the entries with that status; any other value keeps the list |
| AdminConsole.TransactionFilterKeepsMatches | admin-script.js:205-214 | each matching entry is kept as often as it occurs and each other entry is dropped |
| AdminConsole.SearchUsers | admin-script.js:598-603 | every listed user comes from the list and matches the query |
| AdminConsole.SearchUsersExact | admin-script.js:598-603 | an empty query lists everyone; otherwise each matching user is kept as often as it occurs and the others are dropped |
| AdminConsole.FormatTransactionType | admin-script.js:668-678 | the type is returned unchanged iff it is not one of the six known types; a known type gets a capitalised label |
| AdminConsole.FormatTransactionTypeInjective | admin-script.js:668-678 | distinct known types get distinct labels |
| AdminConsole.Overview | admin-script.js:112-126 | total users is the list length; deposits and withdrawals are the completed sums over all entries; withdrawals and investments are non-negative; pending KYC is at most the user count |
| AdminConsole.NewestFive | admin-script.js:139-141 | min(5, n) users, newest first, a sub-multiset of the list, and no user left out is newer than any listed one |
| AdminConsole.NewestPrefix | admin-script.js:139-141 | the first n of a newest-first reordering are sorted, drawn from the users and their newest |
| AdminConsole.PendingCountsFromJournal | admin-script.js:155-158 | counting pending deposits and withdrawals in any reordering of the tagged journal equals summing the per-user counts |
| AdminConsole.AdminSystem.RecentActivities | admin-script.js:138-176 | min(5, n) listed users, newest first, drawn from the listed users, none left out newer than one kept; the pending deposit, withdrawal and KYC counts of the listed users |
| Investing.ExpectedReturn | dashboard.js:294-302 | an unpaid plan returns the amount itself; a paid plan returns at least GHS 2325.23 |
| Investing.MaturityDays | dashboard.js:372-383 | the offset is positive exactly for the four paid plans, and always whole weeks |
| Investing.MaturityPeriodAgrees | dashboard.js:304-312 | the period label always names the offset the investment gets |
| Investing.MaturityDate | dashboard.js:372-383 | maturity is never before now; a paid plan matures at least three weeks later; other plans mature now; the offset is whole weeks |
| Investing.InvestedEffects | dashboard.js:332-365 | an investment debits exactly the amount, stays non-negative when funded, appends one active investment and one completed investment entry of minus the amount, sets the plan, keeps a reconciled record reconciled, adds one active investment and leaves profit and referral earnings alone |
| Investing.WriteBackMatches | dashboard.js:359-365 | writing the invested fields back through updateUser reproduces the invested record |
| Investing.ReferralCount | dashboard.js:182-184 | the referral count is at most the number of records |
| Investing.FreeReferralCount | dashboard.js:187-191 | referrals still on free are at most all referrals |
| Investing.ReferralCountAppend | dashboard.js:182-184 | the count over a joined list is the sum of the counts |
| Investing.ReferralCountPointwise | dashboard.js:182-184 | the count depends only on each record's referredBy |
| Investing.RegistrationAddsReferral | auth.js:45-77 | registering with a referral code raises that code's referral count by exactly one |
| Investing.ReferralBonusEarns | auth.js:83-101 | the bonus raises the referrer's referral earnings by exactly 2400 and no other record's |
| Investing.ReferralStats | dashboard.js:174-199 | total referrals are at most the number of records; the pending bonus is between 0 and 2400 times the total referrals |
| Investing.InvestmentStats | dashboard.js:161-172 | the active count is the number of active positions and at most the portfolio size |
| Investing.Refreshed | dashboard.js:19-40 | the refreshed record has the same id; it is the stored record when one exists, otherwise the session record |
| Investing.Dashboard.constructor | dashboard.js:19-40 | the dashboard shows the stored record of the signed-in user and has no plan selected |
| Investing.Dashboard.OpenInvestmentModal | dashboard.js:264-292 | the modal opens iff the refreshed balance covers the amount; only then is the plan selected |
| Investing.Dashboard.CloseModal | dashboard.js:314-317 | the selection is cleared |
| Investing.Dashboard.ProcessInvestment | dashboard.js:319-370 | nothing happens without a selection or with too small a balance; otherwise the record becomes `Invested(...)`, the store is updated for that id and the selection is cleared |
| AdminData.DefaultPlansAgreeWithDashboard | admin-data.js:17-57 | each paid plan of the default table pays what the dashboard promises, matures after the weeks the dashboard uses, and pays more than it costs |
| AdminData.MergeSettings | admin-data.js:74-78 | the given keys overwrite, every other key keeps its value, and no key is lost |
| AdminData.PlanChangesLaws | admin-data.js:80-87 | a plan update overwrites exactly the given fields; an empty change keeps the plan; a repeated change changes nothing |
| AdminData.AdminDataSystem.constructor | admin-data.js:7-68 | the stored data, or the defaults when none is stored |
| AdminData.AdminDataSystem.UpdateSettings | admin-data.js:74-78 | the settings become the merge; nothing else changes |
| AdminData.AdminDataSystem.UpdatePlan | admin-data.js:80-87 | succeeds iff the plan id exists; an unknown id changes nothing; a known id changes only that plan |
| AdminData.SystemStatsOf | admin-data.js:89-125 | administrators are excluded; deposits and withdrawals count only when completed, withdrawals by absolute value, investment debits whatever their status; pending KYC is at most the user count |
| AdminData.SystemStatsMatchOverview | admin-data.js:89-125 | when every record is a user or an administrator, the system figures equal the overview's over getAllUsers |
| AdminData.SystemDepositsPerUser | admin-data.js:98-112 | the system deposit and withdrawal totals are sums of the per-user totals |
| AdminData.TallyJournal | admin-data.js:98-112 | the loop over one journal sums completed deposits, completed withdrawals and investment debits |
| AdminData.AdminDataSystem.GetSystemStats | admin-data.js:89-125 | the result is the system figures of the store |
| AdminData.UserStatsOf | admin-data.js:155-197 | null exactly for an unknown id; withdrawals and investments are non-negative; referrals are at most the number of records |
| AdminData.UserStatsReferralEarnings | admin-data.js:180-183 | the referral earnings of getUserStats are those the dashboard shows |
| AdminData.UserStatsVersusSystem | admin-data.js:166-185 | per user, deposits count only when completed, like the system figures, but withdrawals count whatever their status, so they are at least the completed ones |
| AdminData.TallyUserJournal | admin-data.js:166-185 | the switch loop sums completed deposits, all withdrawals, investment debits and referral credits |
| AdminData.AdminDataSystem.GetUserStats | admin-data.js:155-197 | the result is the per-user figures of the store |
| AdminData.AdminDataSystem.CreateBackup | admin-data.js:128-136 | the backup holds the store and the system data |
| AdminData.AdminDataSystem.RestoreBackup | admin-data.js:138-152 | no backup changes nothing; otherwise exactly the parts present in the backup are replaced |
| AdminData.UserCsvLines | admin-data.js:209-235 | the user export has the header line plus exactly one line per non-administrator record |
| AdminData.UserRowColumns | admin-data.js:211-230 | each user row has the header's eleven columns |
| AdminData.BuildUserRows | admin-data.js:213-231 | the loop appends one row per listed user, in order |
| AdminData.AdminDataSystem.ExportUserDataCsv | admin-data.js:209-235 | the export is the user CSV of the store |
| AdminData.TransactionCsvLines | admin-data.js:237-261 | the transaction export has the header line plus exactly one line per transaction of every user |
| AdminData.TransactionRowColumns | admin-data.js:239-258 | each transaction row has the header's eight columns |
| AdminData.BuildJournalRows | admin-data.js:242-257 | the inner loop appends one row per journal entry, in journal order |
| AdminData.BuildTransactionRows | admin-data.js:241-258 | the outer loop appends every journal's rows, user by user |
| AdminData.AdminDataSystem.ExportTransactionDataCsv | admin-data.js:237-261 | the export is the transaction CSV of the store |
| AdminAuth.ValidateBalanceEditAsWritten | admin-auth.js:55-65 | as written: accepted iff a user id is given, the amount is not a non-number, and no range comparison fails (a NaN amount fails none) |
| AdminAuth.BalanceEditAcceptsNaN | admin-auth.js:59-62 | a NaN amount is accepted as written |
| AdminAuth.ValidateBalanceEdit | admin-auth.js:55-65 | accepted iff a user id is given and the amount is a number between 0 and GHS 1,000,000, with the source's two error messages |
| AdminAuth.BalanceEditAgreesOffNaN | admin-auth.js:55-65 | the corrected check agrees with the written one on every amount that is not NaN |
| AdminAuth.ValidateTransactionApproval | admin-auth.js:67-78 | accepted iff a transaction id is given and the action is approve or reject; a missing field gives the data error |
| AdminAuth.FirstBadField | admin-auth.js:91-96 | none iff every changed field is allowed; otherwise the first changed field in key order that is not allowed, every earlier field being allowed |
| AdminAuth.ValidatePlanManagement | admin-auth.js:80-99 | accepted iff the plan is one of the five and every changed field is allowed; a bad field is named in the error |
| AdminAuth.ValidateAdminAction | admin-auth.js:37-53 | throws iff the caller is not a signed-in administrator; unknown actions are accepted; the three known actions get the verdict of their validator, the balance edit the one as written |
| AdminAuth.AdminActionAcceptsNaN | admin-auth.js:37-65 | an administrator's balance edit with a NaN amount is accepted as written |
| AdminAuth.ValidateAdminActionCorrected | admin-auth.js:37-53 | the dispatch with the corrected balance check: a balance edit is accepted iff a user id is given and the amount is a number within range; every other action as written |
| AdminAuth.AdminActionCorrectionAgreesOffNaN | admin-auth.js:37-65 | the corrected dispatch agrees with the written one on every amount that is not NaN |
| AdminAuth.KeepLast | admin-auth.js:157-160 | keeps the last n entries in order |
| AdminAuth.StoreAdminLogBounded | admin-auth.js:153-163 | after storing, the log holds at most 1000 entries, the newest ones in insertion order, with the new entry last |
| AdminAuth.SliceFromEnd | admin-auth.js:167 | `slice(-limit)`: the last min(limit, n) entries for a positive limit, all of them for 0 |
| AdminAuth.Reversed | admin-auth.js:167 | the entries in reverse order |
| AdminAuth.AdminLogsNewestFirst | admin-auth.js:165-168 | for a positive limit, the newest min(limit, n) entries, newest first |
| AdminAuth.AdminAuthSystem.constructor | admin-auth.js:3-7 | the guard works over the given store and stored log |
| AdminAuth.AdminAuthSystem.StoreAdminLog | admin-auth.js:153-163 | the log becomes the last 1000 entries of the old log plus the new one |
| AdminAuth.AdminAuthSystem.LogAdminAction | admin-auth.js:131-151 | nothing is logged unless an administrator is signed in; otherwise one entry with the action, details, time and admin is stored |
| AdminAuth.AdminAuthSystem.GetAdminLogs | admin-auth.js:165-168 | the result is the reversed `slice(-limit)` of the log |
| AdminAuth.ValidateAdminPassword | admin-auth.js:176-196 | valid iff at least 8 characters with an upper-case letter, a lower-case letter, a digit and one of the listed special characters; too short gives the length message |
| AdminAuth.PasswordStrengthMonotone | admin-auth.js:176-196 | appending characters never makes a valid password invalid |
| AdminAuth.DefaultAdminPasswordIsWeak | admin-auth.js:176-196 | the seeded administrator's password fails the administrator policy |
| AdminAuth.PendingActionsOf | admin-auth.js:247-275 | the total is deposits plus withdrawals plus KYC; the counts are over every stored entry; KYC is at most the record count |
| AdminAuth.ReviewReducesPending | admin-auth.js:247-275 | a review never raises the pending deposit or withdrawal counts and leaves the KYC count alone |
| AdminAuth.CountPendingJournal | admin-auth.js:251-263 | the loop over one journal counts pending deposits and pending withdrawals |
| AdminAuth.AdminAuthSystem.GetPendingActions | admin-auth.js:247-275 | the result is the pending-action figures of the store |
| AdminAuth.RecentUsers | admin-auth.js:230-237 | min(limit, number of non-administrators) records for a non-negative limit, all non-administrators from the list, newest first, a sub-multiset of the non-administrators, and no non-administrator left out is newer than any listed one |
| AdminAuth.RecentRegistrations | admin-auth.js:230-245 | min(limit, number of non-administrators) summaries, newest first, each summarising a stored non-administrator; a non-administrator without a summary joined no later than any listed one |
| AdminAuth.UnlistedAreOlder | admin-auth.js:233-236 | a stored non-administrator whose summary is not listed is no newer than any listed one |
| AdminAuth.AdminAuthSystem.GetRecentRegistrations | admin-auth.js:230-245 | the result is the recent registrations of the store: min(limit, non-administrators) summaries, and no unlisted non-administrator is newer than a listed one |

## Left out

- Rendering is not modelled: HTML, the DOM, modals, navigation, `alert`/`prompt`/`confirm`, redirects, clipboard, share links and Blob downloads. They carry no ledger logic. A confirmed `deleteUser` is modelled; a cancelled one does nothing.
- Browser storage is not modelled. The JSON load and save of `localStorage` is replaced by one in-memory list shared by every page. The admin console's `allUsers` cache is read as `getAllUsers()` of that list at the time of the call.
- Ids, referral codes and times from `Date.now`/`Math.random` are not generated. The methods take them as parameters. Referral codes are not claimed unique, because nothing checks it.
- `btoa` is replaced by an injective stand-in (each character written twice). Only its injectivity matters. `btoa` throws for a character above U+00FF (auth.js:34, 38), so registration and login with such a password throw; the model's `HashPassword` is total and does not model that throw.
- Amounts are whole pesewas, not floating-point GHS. Fractional pesewas, `toFixed` rounding and `parseFloat` of form input are not modelled. The CSV exports print amounts as the GHS value p/100 (no fraction when whole, otherwise without trailing zeros), as JavaScript prints such a number; floating-point artefacts of that printing are not modelled. Dates are written as timestamp digits instead of `toLocaleDateString` and `toISOString` text.
- `Text.ToLower` folds ASCII letters only, where `toLowerCase` folds all of Unicode.
- AdminConsole.AdminSystem.DeleteUser and AdminConsole.AdminSystem.UpdateTransactionStatus write the shared list directly. In the source they rewrite only the stored list, while the account store keeps its copy from page load (auth.js:4). The console then lists the stale copy, and the next `updateUser` on that page (creditUser, updateUser, approveKYC) saves the stale copy back (auth.js:141, 41-43). That brings a deleted user back and undoes a review and its credit. The model does not capture this lost update.
- Aliasing is not modelled; records are values. In the source, `currentUser` after login is the same object as the stored record. The dashboard, in contrast, holds a parsed copy, which is what the model does.
- `Investing.Dashboard.constructor`, `OpenInvestmentModal` and `ProcessInvestment` require a signed-in user. Without one the source redirects to the login page (dashboard.js:19-40); that redirect, and the administrator redirect, are not modelled.
- `Investing.Dashboard.OpenInvestmentModal` takes the amount as a number. A `NaN` from `parseFloat` of a button attribute is not modelled.
- Plan, action and type lookups take plain strings. JavaScript object lookups also answer for `Object.prototype` keys such as `"constructor"`, which the model treats as unknown. This affects `formatTransactionType`, `calculateExpectedReturn`, `getMaturityPeriod`, `calculateMaturityDate` and `updatePlan` (admin-data.js:81 finds a plan for `"constructor"`, stores the change and answers true, where the model answers false).
- `AdminData.ReferralsOf`: a record without a referral code counts no referrals. The source compares `referredBy === undefined`. Registration stores `null` for a missing referrer, so that comparison matches only records stored with no `referredBy` key at all, such as the seeded administrator, which then counts itself.
- `null` and `undefined` are one `None`. An absent `transactions` or `investments` array is the empty sequence.
- `AdminData.ApplyPlanChanges` carries only the six plan fields. Changes with other keys are refused by `validatePlanManagement` but would be stored by `updatePlan`.
- `AdminData.AdminDataSystem.CreateBackup` does not model the backup's version string or its ISO timestamp text; the time is a parameter.
- script.js, `debugSystem`, `getActiveUsersCount` (random), `getSystemHealth` (mock figures), `getAdminSession`, `getAdminPermissions`, `getClientIP`, `forceLogoutAllUsers`, `getAdminDashboardStats`, `getRecentAdminActivities`, the maintenance-mode switches, KYC approval and `editUser`/`viewUploadedFile` are not modelled. They are UI, random, mock figures or thin wrappers over modelled operations.

- AdminAuth.AdminAuthSystem.GetAdminLogs takes the limit as an argument; the default of 100 for a call without one (admin-auth.js:165) is not modelled.
- AdminAuth.ValidateAdminPassword measures the length in characters; `password.length` counts UTF-16 code units, so the two differ for characters outside the Basic Multilingual Plane.
- Collections.SortDesc does not promise the stable order that JavaScript's `sort` gives to equal dates (admin-script.js:139-141, 300; admin-auth.js:234-235). Records or entries with the same date may be listed in another order.

## Findings

| source | as written | input that shows it | evidently intended | confidence | as-written member | corrected member |
|---|---|---|---|---|---|---|
| admin-auth.js:55-65 | `validateBalanceEdit` rejects only a non-number type or an amount below 0 or above 1,000,000; `NaN` has type number and fails both comparisons | `{userId: "u1", amount: NaN}` is accepted | only a real amount between 0 and 1,000,000 is accepted | not executed | AdminAuth.ValidateBalanceEditAsWritten, AdminAuth.BalanceEditAcceptsNaN, AdminAuth.ValidateAdminAction, AdminAuth.AdminActionAcceptsNaN | AdminAuth.ValidateBalanceEdit, AdminAuth.ValidateAdminActionCorrected |
