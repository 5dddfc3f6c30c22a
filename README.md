# Banker, modelled in Dafny

A model of the transaction-processing core of Banker, a toy bank written in Rust. The bank reads a stream of
records (deposit, withdrawal, dispute, resolve, chargeback). It keeps one account per client and, at the end,
reports every account's available, held and total funds and whether the account is locked.

The model has one module per part of the core:

- `Amounts` (src/amount.rs) is the fixed-point money type: a scaled integer with four implied decimals.
- `Transactions` (src/transaction.rs) holds the record, its five kinds and the snake-case names the `type`
  column gives them. The accessors `kind()`, `client()`, `id()` and `amount()` are the datatype's destructors.
- `Accounts` (src/account.rs) has a `Balance` value and one transition function per account operation. Each
  guarded transition returns `None` when its guard fails. The class `Account` has the three mutable fields of
  the Rust struct (as `Amount` values, see "Left out"), and each of its methods is proved to act exactly as its transition function. The module also
  holds laws about any sequence of account operations.
- `Ledgers` (src/bank.rs) is the bank's state as a value: the three maps. It has one function per handler,
  the dispatch `Process`, the fold `ProcessAll` over a record stream, and the integer `Snapshot` that
  `accounts_iter` reports.
- `LedgerInvariant` is the invariant of every bank reachable from `Bank::new()`:
  - every stored deposit and every active dispute carries an amount, so the `unwrap()` calls are safe;
  - every stored record belongs to an existing account;
  - no client has more under active dispute than the account holds.
  It is proved preserved by every handler. From it follows that the errors `process_resolve` and
  `process_chargeback` discard never happen for an active dispute.
- `Banks` (src/bank.rs) is the mutable `Bank` class. Each handler borrows the client's account as an `Account`
  object, runs the account method on it, and stores the result back in the map, which owns the account by
  value as the Rust `HashMap` does. Each handler is proved to change the bank exactly as the matching ledger
  function does, and to keep the invariant. `ProcessStream` is the loop of src/main.rs.
- `LedgerLaws` and `Scenarios` hold laws about several records in a row, and end-to-end runs
  stated for any clients, ids and amounts of the same shape.

Amounts appear in scaled units throughout: 10.0 is 100000.

## Model

| member | source | states |
|---|---|---|
| Amounts.Zero | src/amount.rs:16-20 | `Amount::new()` is the least amount: every amount is at least it |
| Amounts.Add | src/amount.rs:50-56 | the sum is at least each operand, and taking `b` back off the sum's scaled value gives `a` |
| Amounts.AddAssign | src/amount.rs:58-62 | `a += b` yields the sum of the scaled values, which is at least each operand |
| Amounts.SubAssign | src/amount.rs:64-68 | `a -= b`, allowed only when `b <= a`, yields the `r` with `r + b == a`, and `r <= a` |
| Amounts.AddZeroIdentity | src/amount.rs:16-20 | `Amount::new()` is the identity of `+` on both sides |
| Amounts.AddCommutative | src/amount.rs:50-56 | `a + b == b + a` |
| Amounts.AddAssociative | src/amount.rs:50-56 | `(a + b) + c == a + (b + c)` |
| Amounts.AddSubInverse | src/amount.rs:58-68 | subtracting `b` undoes adding it, and adding `b` back undoes a guarded subtraction |
| Amounts.LeTotalOrder | src/amount.rs:13-14 | the derived ordering on the scaled integer is reflexive, antisymmetric with respect to equality, transitive and total |
| Amounts.LeIffDifference | src/amount.rs:13-14 | `b <= a` holds exactly when `a` is `b` plus some amount |
| Amounts.Decimal | src/amount.rs:5-7 | a decimal with four fractional digits is a scaled value from which its whole part and its fraction can both be read back |
| Amounts.DecimalOfEvery | src/amount.rs:5-7 | every scaled value is exactly the decimal of its whole part and four-digit fraction |
| Amounts.SaturatingCast | src/amount.rs:36-41 | the `as u64` of a scaled, rounded input always fits the storage: in-range values are kept, negative values read as zero and values beyond the storage read as its largest value |
| Amounts.SaturatingCastMonotone | src/amount.rs:36-41 | the cast keeps the order of its inputs, and casting a stored value gives it back |
| Amounts.FitsUnderArithmetic | src/amount.rs:5-7 | a guarded subtraction stays in the u64 range; a sum stays in it exactly when the two scaled values add up to at most 2^64 - 1 |
| Transactions.KindOf | src/transaction.rs:32-41 | a `type` column is accepted only when it is one of the five snake-case names, and then it is that kind's name |
| Transactions.KindNameRoundTrip | src/transaction.rs:32-41 | each kind's snake-case name reads back as that kind, so the five names are distinct |
| Transactions.AccessorsReturnFields | src/transaction.rs:5-30 | `kind()`, `client()`, `id()` and `amount()` return exactly the fields the record was read with; client ids lie in the u16 range and tx ids in the u32 range |
| Accounts.TotalOf | src/account.rs:25-28 | the total is available plus held, so it bounds each of them |
| Accounts.Credited | src/account.rs:34-36 | credit raises `available` and the total by exactly `v`; `held` and `locked` are unchanged |
| Accounts.Debited | src/account.rs:38-44 | a debit succeeds exactly when `v <= available`; on success `available` drops by exactly `v` and nothing else changes |
| Accounts.Disputed | src/account.rs:46-53 | a dispute succeeds exactly when `v <= available`; it then moves `v` to `held`, keeping the total and the lock |
| Accounts.Resolved | src/account.rs:55-62 | a resolve succeeds exactly when `v <= held`; it then moves `v` back to `available`, keeping the total and the lock |
| Accounts.ChargedBack | src/account.rs:64-71 | a chargeback succeeds exactly when `v <= held`; it then removes `v` from `held` and the total and sets `locked` |
| Accounts.CreditsAddUp | src/account.rs:79-85 | any sequence of credits raises `available` by their sum and changes nothing else |
| Accounts.FreshCreditsSum | src/account.rs:79-85 | credits on a new account leave `available` equal to their sum, nothing held and no lock |
| Accounts.FailureLeavesUnchanged | src/account.rs:38-71 | a debit or dispute of more than is available, or a resolve or chargeback of more than is held, leaves the account unchanged |
| Accounts.DisputeThenResolve | src/account.rs:123-134 | a successful dispute of `v` followed by a resolve of `v` restores the account exactly |
| Accounts.DisputeThenChargeback | src/account.rs:146-157 | after a successful dispute of `v`, a chargeback of `v` succeeds; `held` is back to its earlier value, the total has lost `v`, and the account is locked |
| Accounts.LockIsPermanent | src/account.rs:9-71 | no sequence of operations unlocks a locked account |
| Accounts.OnlyCreditRaisesTotal | src/account.rs:25-28 | operations other than credit never raise the total, so a total within the u64 range stays in it: only a credit can take the total out of the u64 range |
| Accounts.FieldOverflowAfterCredit | src/account.rs:25-71 | once credits have taken the total past the u64 range while each field still fits (credit `v`, dispute `v`, credit `w` with `v + w` beyond it), a dispute of `w` overflows `held` and a resolve of `v` overflows `available` |
| Accounts.Account.constructor | src/account.rs:9-15 | `Account::new()` has nothing available, nothing held and no lock |
| Accounts.Account.Of | src/bank.rs:55-104 | the account the map holds, borrowed as an object for one mutable call (the `entry().or_insert_with` at src/bank.rs:55-58 and each `get_mut` at lines 69, 81, 94 and 104), starts with exactly the stored state |
| Accounts.Account.Total | src/account.rs:25-28 | `total()` is `held + available` |
| Accounts.Account.Credit | src/account.rs:34-36 | the account's new state is its old state credited with `v` |
| Accounts.Account.TryDebit | src/account.rs:38-44 | returns `Ok` exactly when the debit's guard holds; the new state is the debited state, or the old one on `Err` |
| Accounts.Account.TryDispute | src/account.rs:46-53 | returns `Ok` exactly when the dispute's guard holds; the new state is the disputed state, or the old one on `Err` |
| Accounts.Account.TryResolve | src/account.rs:55-62 | returns `Ok` exactly when the resolve's guard holds; the new state is the resolved state, or the old one on `Err` |
| Accounts.Account.TryChargeback | src/account.rs:64-71 | returns `Ok` exactly when the chargeback's guard holds; the new state is the charged-back state, or the old one on `Err` |
| Ledgers.AfterDeposit | src/bank.rs:53-63 | without an amount, nothing changes; with one, the client's account (opened empty if absent) is credited, the record is stored under its tx id replacing any earlier one, and all other accounts and the disputes are unchanged |
| Ledgers.AfterWithdrawal | src/bank.rs:68-74 | never opens an account; with an unknown client or no amount nothing changes; otherwise the client's account is debited, or left as it was if funds are short |
| Ledgers.AfterDispute | src/bank.rs:79-90 | an unknown tx changes nothing; otherwise only the account of the original deposit's client is held, and the deposit enters the disputes only when the hold succeeded |
| Ledgers.AfterResolve | src/bank.rs:92-100 | the tx always leaves the disputes; only the deposit's client's account is resolved, or left as it was if the resolve failed; an inactive tx changes nothing |
| Ledgers.AfterChargeback | src/bank.rs:102-110 | the tx always leaves the disputes; only the deposit's client's account is charged back, or left as it was if the chargeback failed; an inactive tx changes nothing |
| Ledgers.Process | src/bank.rs:41-49 | every record keeps stored amounts present; accounts are never removed; only a deposit adds one; a locked account stays locked |
| Ledgers.ProcessAll | src/main.rs:44-47 | over any stream, accounts are never removed and locked accounts stay locked |
| Ledgers.NewLedger | src/bank.rs:20-26 | `Bank::new()` has three empty maps and reports no rows; a first record other than a deposit with an amount leaves it empty |
| Ledgers.Snapshot | src/bank.rs:29-39 | one row per account, carrying its available, held and lock, with total equal to available plus held |
| LedgerInvariant.EmptyInv | src/bank.rs:20-26 | the new bank satisfies the invariant |
| LedgerInvariant.DepositPreservesInv | src/bank.rs:53-63 | a deposit keeps the invariant |
| LedgerInvariant.WithdrawalPreservesInv | src/bank.rs:68-74 | a withdrawal keeps the invariant |
| LedgerInvariant.DisputePreservesInv | src/bank.rs:79-90 | a dispute keeps the invariant, including disputed funds being no more than held funds |
| LedgerInvariant.ResolvePreservesInv | src/bank.rs:92-100 | a resolve keeps the invariant |
| LedgerInvariant.ChargebackPreservesInv | src/bank.rs:102-110 | a chargeback keeps the invariant |
| LedgerInvariant.ProcessPreservesInv | src/bank.rs:41-49 | every record keeps the invariant |
| LedgerInvariant.ReachableInv | src/bank.rs:82-86 | every bank built from `Bank::new()` by any stream satisfies the invariant; in particular every stored amount is present, which makes the `unwrap()` calls safe |
| LedgerInvariant.ActiveDisputeSettles | src/bank.rs:92-110 | in such a bank, an active dispute's account exists and both its resolve and its chargeback succeed, so the discarded result is never an error |
| LedgerLaws.AccountsAreDepositors | src/bank.rs:53-63 | from `Bank::new()`, a client has an account exactly when some deposit with an amount named that client |
| LedgerLaws.SettleIsFinal | src/bank.rs:92-110 | after a resolve or chargeback of a tx, a second resolve or chargeback of it changes nothing |
| LedgerLaws.DisputeThenResolveRestores | src/bank.rs:79-100 | a dispute of a deposit not under dispute, then its resolve, leaves the whole bank as it was |
| LedgerLaws.DisputeThenChargebackRemoves | src/bank.rs:79-110 | a dispute then a chargeback leaves the disputes and every other account as they were; if the hold succeeded, the deposit's client is locked with `held` restored and has lost exactly the deposit from the total |
| Banks.Bank.constructor | src/bank.rs:20-26 | `Bank::new()` is the empty ledger and satisfies the invariant |
| Banks.Bank.AccountsIter | src/bank.rs:29-39 | one row per account of the bank, carrying that account's available, held and lock, with total equal to available plus held |
| Banks.Bank.ProcessTransaction | src/bank.rs:41-49 | the bank changes as `Process` says and keeps the invariant |
| Banks.Bank.ProcessDeposit | src/bank.rs:53-63 | the bank changes as `AfterDeposit` says and keeps the invariant |
| Banks.Bank.ProcessWithdrawal | src/bank.rs:68-74 | the bank changes as `AfterWithdrawal` says and keeps the invariant |
| Banks.Bank.ProcessDispute | src/bank.rs:79-90 | the bank changes as `AfterDispute` says and keeps the invariant |
| Banks.Bank.ProcessResolve | src/bank.rs:92-100 | the bank changes as `AfterResolve` says and keeps the invariant |
| Banks.Bank.ProcessChargeback | src/bank.rs:102-110 | the bank changes as `AfterChargeback` says and keeps the invariant |
| Banks.ProcessStream | src/main.rs:44-47 | processing a stream record by record leaves the bank equal to `ProcessAll` of it, and keeps the invariant |
| Scenarios.OpeningDeposit | src/bank.rs:53-63 | a first deposit for a client opens the account with exactly the amount available and stores the record |
| Scenarios.HoldWhole | src/bank.rs:79-90 | a dispute of a deposit whose whole amount is available moves all of it to held and records the dispute |
| Scenarios.ReleaseWhole | src/bank.rs:92-100 | a resolve of a dispute whose whole amount is held moves all of it back to available and ends the dispute |
| Scenarios.ChargeWhole | src/bank.rs:102-110 | a chargeback of a dispute whose whole amount is held empties held, locks the account and ends the dispute |
| Scenarios.DisputeHoldsFunds | src/bank.rs:79-90 | deposits of `v` for one client and `w` for another, then a dispute of the first: the first account holds all of `v` with nothing available, and the second is untouched |
| Scenarios.ResolveReleasesFunds | src/bank.rs:92-100 | continuing that run, a resolve makes all of `v` available again and leaves no dispute |
| Scenarios.ChargebackLocks | src/bank.rs:102-110 | a deposit, its dispute and its chargeback leave the account empty and locked; a later withdrawal of any amount changes nothing |
| Scenarios.OverdraftRefused | src/bank.rs:68-74 | a withdrawal of more than was deposited leaves the account unchanged |
| Scenarios.SnapshotRows | src/bank.rs:117-153 | the rows of a credited account, a partly disputed one and a charged-back one are as in the iterator test, for any amounts |
| Scenarios.SnapshotOfThree | src/bank.rs:29-39 | the snapshot of three distinct accounts has exactly their three rows |
| Scenarios.SettleAccount | src/account.rs:123-157 | an account credited `a` then `b` with `a` disputed: the dispute and the settlement both report `Ok`; a resolve leaves `a + b` available, and a chargeback leaves `b` available and locks the account |
| Scenarios.RefuseExcess | src/account.rs:96-167 | asking for more than is available or held makes a debit, a dispute, a resolve and a chargeback each report `Err`, leaving the account unchanged and unlocked |

## Left out

- Amounts.AddAssign: does not model u64 overflow. The scaled value is an unbounded `nat`, where Rust wraps or panics. The u64 range is stated separately as `Fits`. `OnlyCreditRaisesTotal` shows that only a credit can take the total out of it; once it has, the unguarded additions `self.held += val` in `try_dispute` (src/account.rs:49) and `self.available += val` in `try_resolve` (src/account.rs:58) can overflow too, as `FieldOverflowAfterCredit` exhibits. The bank reaches that state with a deposit of 1844674407370955.1615, its dispute, a second deposit of 0.0001 and its dispute.
- Accounts.Account.Credit: does not model u64 overflow of `available` (src/account.rs:35), for the same reason.
- Accounts.Account.TryDispute: does not model u64 overflow of `held` (src/account.rs:49), for the same reason.
- Accounts.Account.TryResolve: does not model u64 overflow of `available` (src/account.rs:58), for the same reason.
- Accounts.Account.Total: does not model u64 overflow of `held + available`, for the same reason.
- Amounts.AddAssign: modelled as a method that returns the sum rather than updating `self.0` in place (src/amount.rs:58-62). `Amount` is a `Copy` value, so nothing can observe the difference.
- Amounts.SubAssign: modelled as a method that returns the difference rather than updating `self.0` in place (src/amount.rs:64-68), for the same reason.
- Banks.Bank: accounts are held in the map by value, as in the Rust `HashMap`. The mutable borrow `get_mut` and `entry().or_insert_with` are modelled by copying the account into an `Account` object, calling the method and storing the result back. In-place update through a reference into the map is therefore not modelled; Rust's ownership rules exclude any aliasing it could cause.
- The serde `Deserialize` and `Serialize` of `Amount`, the test-only `From<f64>`, and the `/ 10000.0` conversions in `accounts_iter` are left out. They are floating-point conversions: parsing multiplies by 10000 and rounds, and output divides by 10000. The snapshot is kept in scaled integers. The integer side of the parse, the saturating `as u64` at src/amount.rs:40, is `SaturatingCast`: a negative amount reads as 0 (so `deposit,1,1,-5.0` opens an empty account for client 1 and stores a deposit of 0, and a negative withdrawal is a debit of 0), NaN reads as 0, and anything at or beyond 2^64 scaled units reads as 2^64 - 1. Every parsed amount therefore fits the storage, and `Amount(scaled: nat)` loses nothing on input. The output cast `self.0 as f64` (src/amount.rs:75, src/bank.rs:33-35) is exact only up to 2^53 scaled units; above that the reported figures are rounded.
- The test-only `From<u64>` is the datatype constructor `Amount(scaled)`.
- `accounts_iter` returns rows in `HashMap` iteration order, which is unspecified. The snapshot is a map from client to row.
- CSV reading and writing, the command line, the error wrapper and process exit (src/main.rs, src/cli.rs, src/error.rs) are I/O and are not part of this model. A record that fails to parse ends the run at once (src/main.rs:45): the program prints the error, exits with code 1 (src/main.rs:17-20) and writes no rows, since the writer at src/main.rs:50-56 is never reached. The model covers only streams that parse in full; the ledger `ProcessAll(Empty, prefix)` of the records read before such a failure exists in the model but the program never reports it.
- Only the `type` column's text is modelled (`KindOf`, on the text after the reader's trimming); parsing of the other columns is serde and is left out with the amount conversions above.
- src/account.rs declares the fields of `Account` and the arguments of `credit`, `try_debit`, `try_dispute`, `try_resolve` and `try_chargeback` as `u64` (src/account.rs:3-5, 34-71), while src/bank.rs passes them an `Amount` (src/bank.rs:60, 71, 84, 97, 107). The model uses `Amount` in both places; its scaled value is the `u64`.
- The accessors `available()`, `held()` and `is_locked()` of `Account` are its fields.
- A deposit without an amount is skipped altogether and is not stored in the deposit history. This follows the code, where the record is stored inside the same branch that credits it.
