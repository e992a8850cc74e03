# The vault, verified

The vault program holds value in one pool per mint and records in *ledgers* who owns how much of it.
A ledger belongs to a person (an on-curve key) or to a program (an address only that program can sign
for). Value moves between ledgers by `settle`, or by a *receipt* that a program writes and a player's
session key settles on a rollup, with a callback into the program in the middle. Ledgers travel to
rollups and back; the pools stay on basenet.

This project models the program and its client's decoders in Dafny and proves what they are for: that
every claim is always covered and can be cashed out, that no value passes from one person to another,
that nobody's ledger is touched without their consent, and that a receipt is used once, whatever its
callback does.

## How it is built

| files | what they hold |
|---|---|
| `Base`, `Chain`, `Receipts` | bytes, keys, errors; the chain's derivations, curve and rent as functions; the terms of a receipt |
| `SlotTable`, `Ledger`, `Books` | a ledger's slots: the operations on them, the object that carries them out in place, and the map of balances they refine |
| `Sessions`, `SessionTable`, `Session`, `SessionRent` | a wallet's session store: as its owner means it, as its padded entries, as the objects that update them, and what it costs |
| `Machine` | the whole vault as a state machine, one step an instruction; a settlement is two steps with its callback between them |
| `Sums`, `Totals`, `Frames`, `Invariant`, `Runs` | totals over all ledgers, what each step can write, the invariant, runs of any length, errors that cannot happen |
| `CashOut`, `Execution`, `Flow`, `Reserves`, `GrantRuns`, `Consent`, `Lifecycle`, `Calls`, `Places`, `Witness` | the theorems over runs, and runs that show what they do not promise |
| `Settlements`, `Openings`, `Admission` | exactly when each instruction goes through, in terms of the state and, for keys and receipts, of the run behind it |
| `Sweep`, `ReceiptLoop`, `Accounts`, `Assembly`, `Vault` | the handlers as they run, loops and all, over accounts held in fields; each is proved to end in exactly the state, or with exactly the error, of its step in `Machine` |
| `Bytes`, `LedgerCodec`, `SessionCodec`, `ReceiptCodec`, `Layouts`, `Client` | the three account layouts, written and read in both directions, and the client's second decoders |

`dafny verify dfyconfig.toml` checks all of it.

## What is assumed of the chain

`Chains.Sound` states it: derived addresses of different seeds differ, an address belongs to one
program, every derived address is off the curve, and rent does not fall with size. A hash into 32
bytes cannot keep all pairs of keys apart; that no two collide is the usual idealization, and to
keep it free of contradiction keys are byte strings of open length, among which a chain with all of
these properties exists (`Chains.SoundChainExists`). The account layouts take keys of 32 bytes.
Beyond that: a System or token transfer moves exactly its amount or fails; only the vault's own
signature takes from its pools; a failed transaction changes nothing (`Vault.Transact` plays this
part); an account is written only where it lives; transactions run one at a time, and the clock
stands still within one; the slot never goes back; a session store read on a rollup is the current
basenet one.

## Where the code and its documents part

- The specification document (its section 3.5) says a session key consents to debits in `settle`. In
  the code (programs/vault/src/instructions/settle.rs:34-70) only the owner of the paying ledger can; a
  key consents there to a new slot on the receiving one and to nothing else. The model follows the code.
- Its section 4.3 says that a program's stale ledger can run into the physical reserve check. It
  cannot: no ledger pays out while it is away, and in no reachable state does that check, or the one for
  overflow, fail (`Runs.DeadErrorsAreNeverRaised`).
- Its section 3.1 says that on an unfunded vault `withdraw` fails with `InsufficientReserve`. In a
  reachable state an unfunded vault owes no SOL, so the debit fails first, with `Insufficient`.
- Its section 3.2 puts the mint account of a deposit at index 9; the code reads index 10
  (programs/vault/src/instructions/deposit.rs:107).
- The comment at programs/vault/src/state/ledger.rs:106-107 says a released slot keeps credits from
  filling a ledger with mints its owner never asked for. That holds for people. On a program's ledger
  anyone who holds a mint can open a slot for it, even with a zero amount, which then stays open until it
  is debited (`Consent.ProgramSlotOpensIff`).
- programs/vault/src/instructions/settle_receipt.rs:61-62 builds error codes that collide from the
  hundred and first ledger on (`Receipts.CodesDifferIff`).

## Model

| member | source | states |
|---|---|---|
| Chains.SoundChainExists | programs/vault/src/utils/pda.rs:11-42 | The properties assumed of address derivation, the curve and rent can all hold at once, with as many addresses to a program as there are seeds |
| SlotTable.LookupFindsTheOnlySlot | programs/vault/src/state/ledger.rs:74-79 | The first-match lookup of a claimed slot's mint finds that slot and no other, and the ledger's map holds its amount: a balance can be neither split nor shadowed |
| SlotTable.AbsentIffNotClaimed | programs/vault/src/state/ledger.rs:74-79 | A mint is in the ledger's map if and only if the lookup finds a slot for it |
| SlotTable.ClaimRefines | programs/vault/src/state/ledger.rs:82-94 | Claiming adds a zero entry for exactly the new mint, keeps the table well formed, and fails with `LedgerFull` exactly when the mint is new and every slot is taken |
| SlotTable.DebitRefines | programs/vault/src/state/ledger.rs:106-115 | A debit subtracts from one mint, releases its slot at zero (slot 0 excepted) and touches nothing else; it fails with `Insufficient` exactly when the balance is short |
| SlotTable.CreditRefines | programs/vault/src/state/ledger.rs:117-121 | A credit adds to one mint and touches nothing else; it fails with `Overflow` exactly above 2^64 - 1 |
| SlotTable.FreePlusClaimed | programs/vault/src/state/ledger.rs:65-71 | Claimed mints and free slots always add up to the capacity |
| SlotTable.GrowthRefines | programs/vault/src/utils/account.rs:129-131 | Growth keeps the table well formed and changes no balance |
| SlotTable.GrowthAddsFreeSlots | programs/vault/src/utils/account.rs:129-131 | Growth adds exactly the asked number of free slots and leaves every mint at its index |
| LedgerObject.Ledger.constructor | programs/vault/src/state/ledger.rs:54-63 | A fresh ledger: the given fields, no program, every slot zeroed |
| LedgerObject.Ledger.FreeSlots | programs/vault/src/state/ledger.rs:65-71 | The counting loop returns the number of free slots beyond slot 0 |
| LedgerObject.Ledger.IndexOf | programs/vault/src/state/ledger.rs:74-79 | The search returns the first slot of the mint, slot 0 for SOL |
| LedgerObject.Ledger.IndexOrClaim | programs/vault/src/state/ledger.rs:82-94 | Finds the mint's slot or claims the first free one in place; unchanged on `LedgerFull` |
| LedgerObject.Ledger.IndexForCredit | programs/vault/src/state/ledger.rs:96-104 | The same, but a new slot is refused unless the caller may claim |
| LedgerObject.Ledger.Debit | programs/vault/src/state/ledger.rs:108-115 | Updates one slot in place as the table's debit; unchanged on failure |
| LedgerObject.Ledger.Credit | programs/vault/src/state/ledger.rs:117-121 | Updates one slot in place as the table's credit; unchanged on failure |
| LedgerObject.Ledger.Grow | programs/vault/src/utils/account.rs:129-131 | The pushing loop appends exactly the asked number of free slots |
| Books.DebitIsRefined | programs/vault/src/state/ledger.rs:106-115 | Lookup and debit on the slots are the debit of a plain map of balances, error for error |
| Books.CreditIsRefined | programs/vault/src/state/ledger.rs:82-121 | Lookup, claim and credit on the slots are the credit of a plain map bounded by the capacity, error for error |
| Books.GrowthIsRefined | programs/vault/src/utils/account.rs:112-144 | Growth raises the capacity of the map and nothing else; free slots are the room left in it |
| Totals.MoveEffect | programs/vault/src/instructions/settle.rs:72-75 | One movement takes its amount from one ledger, gives it to the other, and changes no other balance |
| Totals.MoveKeepsTotals | programs/vault/src/instructions/settle.rs:72-75 | One movement keeps the total of every mint |
| Totals.MoveAllEffect | programs/vault/src/instructions/settle_receipt.rs:118-124 | A whole receipt changes every balance by exactly its inflow less its outflow, keeps every total, and leaves ledgers it does not name alone |
| ReceiptLoop.MoveBetween | programs/vault/src/instructions/settle_receipt.rs:120-123 | Debit, claim and credit on two ledger objects, or one and the same, as on their balances |
| ReceiptLoop.RunMovements | programs/vault/src/instructions/settle_receipt.rs:118-124 | The loop over the loaded ledgers, with its lookups, releases and reclaims, ends exactly as the movements applied one after another to maps of balances, or with the same error |
| ReceiptLoop.CountPeople | programs/vault/src/instructions/settle_receipt.rs:89-91 | The loop counts the ledgers whose owner is a person |
| ReceiptLoop.FindPerson | programs/vault/src/instructions/settle_receipt.rs:97-98 | The search returns the first ledger whose owner is a person |
| ReceiptLoop.NeedsConsent | programs/vault/src/instructions/settle_receipt.rs:102-107 | True exactly when some movement debits the ledger or brings it a mint it has no slot for |
| Execution.OrderKeepsBalances | programs/vault/src/instructions/settle_receipt.rs:118-124 | Any two orders of the same movements that both go through leave every balance the same |
| Execution.FinalSlots | programs/vault/src/state/ledger.rs:82-121 | Which slots a receipt leaves open: those that hold something, the emptied ones it touched last on the way in, and the untouched as they were |
| Execution.OrderIsIrrelevantIff | programs/vault/src/instructions/settle_receipt.rs:118-124 | Two orders that both go through leave the ledgers equal, slots included, if and only if every token slot they touch and empty is touched last in the same direction by both |
| Execution.PositiveOrderIsIrrelevant | programs/vault/src/instructions/settle_receipt.rs:118-124 | So with positive amounts the order does not matter at all |
| Witnesses.ZeroAmountsCanDisagree | programs/vault/src/instructions/settle_receipt.rs:118-124 | After a run from an unused vault, two admissible receipts, the same zero-amount movements in either order, both go through and leave different slots open |
| Execution.ConsentBeforeTheLoopSuffices | programs/vault/src/instructions/settle_receipt.rs:97-124 | A person the test before the loop finds neither debited nor given a new mint keeps exactly their mints, and no amount falls, from any iteration to any later one |
| Invariant.NextKeepsInv | programs/vault/src/instruction.rs:36-74 | Every instruction, from any sender with any accounts, keeps the invariant: ledgers, stores, pools and receipts in order and every mint's live claims covered |
| Runs.RunInv | programs/vault/src/instruction.rs:36-74 | The invariant holds after every run from an unused vault |
| Runs.AlwaysSolvent | programs/vault/src/instructions/withdraw.rs:51-66 | In every run, for every mint, the live balances of all ledgers, at home or on a rollup, never exceed the reserve (for SOL, the lamports above the floor) |
| Runs.OverclaimIsUncommitted | programs/vault/src/instructions/delegation.rs:50-69 | The copies basenet shows differ from the live total by exactly the uncommitted changes of the ledgers away |
| Runs.HomeIsAlwaysCovered | programs/vault/src/instructions/delegation.rs:50-69 | In every run the ledgers at home are covered by themselves, whatever the ones away do |
| Runs.CoveredUnlessLostAway | programs/vault/src/instructions/delegation.rs:50-69 | In every run, if basenet shows more than there is, some ledger away has paid out of what its copy still shows |
| Witnesses.BasenetCanOverclaim | programs/vault/src/instructions/delegation.rs:20-69 | And it can: a run (deposit, two delegations, a settlement on the rollup, one ledger committed home) after which the copies claim twice what backs them, for any amount |
| Runs.MoveNeverOverflows | programs/vault/src/instructions/settle.rs:72-75 | While totals fit in 64 bits no movement can overflow |
| Runs.ReceiptNeverOverflows | programs/vault/src/instructions/settle_receipt.rs:118-124 | Nor can any iteration of a receipt, whatever its length: the loop can only fail with `NoBalance`, `Insufficient` or `LedgerFull` |
| Runs.DeadErrorsAreNeverRaised | programs/vault/src/state/ledger.rs:117-121 | In reachable states no instruction raises `Overflow`, `InsufficientReserve`, `SlotClaimNeedsConsent`, `MustFundOwnLedger` or the receipt checks 2 and 4 |
| Runs.DepositFindsRoomIff | programs/vault/src/instructions/deposit.rs:87-90 | A deposit finds the ledger full if and only if it asked for no free slot, none is free and the mint is new |
| CashOut.WithdrawSucceeds | programs/vault/src/instructions/withdraw.rs:48-80 | In every reachable state any amount a person's ledger holds at home can be withdrawn |
| CashOut.EveryoneCanCashOut | programs/vault/src/instructions/withdraw.rs:48-80 | Any queue of withdrawals of positive amounts, of whichever ledgers at home and mints, whole or in parts and in whatever order, goes through to its end if and only if no ledger is asked for more of a mint, all in all, than it holds |
| CashOut.AnyoneBringsItHome | programs/vault/src/instructions/delegation.rs:50-89 | From every reachable state with no settlement open, anyone can bring any ledger home, with no one's consent; it keeps all it holds and nothing else changes |
| CashOut.EveryLedgerCanBeCashedOut | programs/vault/src/instructions/delegation.rs:50-89 | Brought home so, any part of what a person's ledger holds can then be withdrawn by its owner, wherever it was |
| Flow.StepAccounts | programs/vault/src/instruction.rs:36-74 | Each instruction changes each ledger by exactly the transfers it makes |
| Flow.StepIsMediated | programs/vault/src/instructions/settle.rs:38-41 | Each transfer has a program's ledger on one side, or stays between a ledger and its own owner's wallet |
| Flow.HoldingIsHistory | programs/vault/src/instruction.rs:36-74 | In every run every ledger holds what it received less what it gave |
| Flow.NoFlowBetweenPeople | programs/vault/src/instructions/settle.rs:38-41 | In every run nothing flows from one person to another, be it ledger to ledger or to the other's wallet |
| Flow.PersonBalance | programs/vault/src/instructions/settle_receipt.rs:88-91 | A person's balance is their deposits less their withdrawals and close payouts, plus what programs paid them, less what they paid programs |
| Reserves.ReserveIsItsHistory | programs/vault/src/instruction.rs:36-74 | In every run each reserve is what it was at first plus what wallets paid in less what they were paid plus gifts, and the claims on it are what wallets paid in less what they were paid |
| Reserves.SurplusIsWhatWasGiven | programs/vault/src/instructions/deposit.rs:92-115 | In every run a reserve exceeds all claims on it by exactly what was there at first and what was given since, so the surplus never falls |
| Reserves.BasenetCoveredIff | programs/vault/src/instructions/delegation.rs:50-69 | In every run what basenet shows of a mint is covered if and only if what ledgers away paid out beyond what came in to them is at most what the reserve was given |
| Reserves.InitializingIsNoIncome | programs/vault/src/instructions/initialize_vault.rs:12-30 | Initializing raises the lamports to the floor and no further, changes nothing the second time, and adds to no reserve |
| Consent.StoreIsItsHistory | programs/vault/src/instructions/session.rs:27-105 | After every run the store holds for each program exactly the owner's own grants, revocations, drops and closes folded in order over the bounded queue and the temporary slot; nothing else adds, removes or reorders a key |
| GrantRuns.HonouredIff | programs/vault/src/state/session.rs:38-70 | A key comes out of such a fold honoured if and only if some grant of it stands: never taken back, and never with five newer keys behind it, or, lent for a time, not replaced since and not expired |
| Consent.HonouredKeysWereGranted | programs/vault/src/state/session.rs:38-124 | In every run a store honours a key for a program if and only if the owner granted it by a step they signed and the grant stands: not revoked, dropped or closed away; still in the ring, never pushed out by newer keys; or still in the temporary slot and unexpired |
| Consent.PersonsLedgerNeedsConsent | programs/vault/src/instructions/settle_receipt.rs:93-112 | If a step of any run takes from a person's ledger or opens a mint on it, the person signed it, or a key signed it that they had granted, by a step they signed, for exactly the program it is for, and whose grant still stood in that sense |
| Consent.ProgramSlotOpensIff | programs/vault/src/instructions/settle.rs:53-75 | A settlement opens a slot on a program's ledger if and only if the payer signs for what they hold and the ledger has room and no slot for the mint: the program is not asked, and a zero amount will do |
| Lifecycle.WhoOpensProgramSlots | programs/vault/src/instructions/settle.rs:53-75 | A step that opens a slot on a program's ledger is such a settlement or settles a receipt of that very program; no other can |
| Lifecycle.LiveEvolves | programs/vault/src/instructions/reap_receipt.rs:23-47 | Only a create makes a receipt live, only a settle or a reap ends it, and nothing alters one |
| Lifecycle.SettleConsumesLatestCreate | programs/vault/src/instructions/settle_receipt.rs:34-53 | Every settlement uses the latest receipt created at its address, in the same slot, with exactly the terms written then, nothing having used it in between |
| Lifecycle.EachReceiptIsUsedAtMostOnce | programs/vault/src/instructions/settle_receipt.rs:129-131 | In every run, at every address, settlements and reaps together never outnumber creations |
| Lifecycle.SettleOrReapNeverBoth | programs/vault/src/instructions/reap_receipt.rs:32-35 | In every run, between any two steps that end a receipt at one address, two settlements, two reaps or one of each, some step created a receipt there |
| Lifecycle.SettlingReceiptIsInert | programs/vault/src/instructions/settle_receipt.rs:129-131 | While its callback runs a receipt can be neither settled, reaped nor written over |
| Lifecycle.CallbackIsSafe | programs/vault/src/instructions/settle_receipt.rs:125-165 | Around any sequence of instructions in the callback the invariant holds, the receipt stays as killed, and the handler's end removes it and writes nothing else |
| Calls.NestedCallbackIsSafe | programs/vault/src/instructions/settle_receipt.rs:125-165 | The same for callbacks nested to any depth: the settlements outside are restored exactly |
| Lifecycle.ProgramLedgersObeyTheirProgram | programs/vault/src/instructions/settle_receipt.rs:79-81 | If a step of any run takes from a program's ledger, its owner signed it, or it settles a receipt and the very step that wrote that receipt, in the same slot and with the same terms, names that program and was signed by an address of it |
| Places.StepMoves | programs/vault/src/instructions/delegation.rs:20-89 | No instruction changes a ledger except where it lives, so a rollup writes only ledgers delegated to it; a ledger leaves home only when its owner sends it, and its basenet copy stays as it was left until it is back |
| Places.StaleCopyIsTheDelegated | programs/vault/src/instructions/delegation.rs:20-48 | In every run, what basenet shows of a ledger that is away is the very ledger that was there when it was last delegated |
| Consent.MayConsentIff | programs/vault/src/instructions/session.rs:119-148 | The question the handlers put to a store is answered yes to the owner and, if the store passed is the owner's, to exactly the keys it honours for that program now |
| Settlements.MoveIff | programs/vault/src/instructions/settle.rs:72-75 | Between two ledgers a movement can be made if and only if the payer has a slot with enough in it and the receiver a slot or room for one |
| Settlements.MovementsGoIff | programs/vault/src/instructions/settle_receipt.rs:118-124 | A receipt's movements go through if and only if each of them can be made once the ones before it are |
| Settlements.SettleIff | programs/vault/src/instructions/settle.rs:27-79 | A payment goes through if and only if both ledgers are here and differ, one is a program's, the payer's owner signs for what the payer holds, and the receiver, if a person without a slot for the mint, consents by their own signature or by that of a key their store honours for the payer's program: into a slot they have, a person is paid unasked |
| Settlements.GrantedKeysOpenSlots | programs/vault/src/instructions/settle.rs:53-70 | In every run that key's word is taken if and only if some earlier step granted it and the grant stands; with it, such a payment goes through |
| Settlements.CheckLedgersIff | programs/vault/src/instructions/settle_receipt.rs:64-86 | The checks on a receipt's ledgers find no fault if and only if each account is the ledger of the owner named there, here, and bound to the member program if a program's |
| Settlements.BeginIff | programs/vault/src/instructions/settle_receipt.rs:30-136 | A receipt settles, up to its callback, if and only if it is live and of this slot, sent with what its terms name and its consenter's signature, its ledgers are those its owners have, no two of them people's, its movements can be made, and the one person, if any, is left in peace, is the consenter, or honours the consenter's key for the program |
| Settlements.GrantedKeysSettle | programs/vault/src/instructions/settle_receipt.rs:93-116 | In every run a receipt that is ready settles if and only if its person is left in peace, is its consenter, or granted the consenter's key, for the receipt's program, by an earlier step whose grant stands |
| Settlements.EndIff | programs/vault/src/instructions/settle_receipt.rs:157-167 | The handler ends if and only if it was sent with the account for refunds and the authority is among the receipt's owners |
| Settlements.SettlementIff | programs/vault/src/instructions/settle_receipt.rs:24-168 | A whole settlement goes through if and only if it begins, its callback goes through, whatever it nests, and those two things hold of the receipt as it was before: the callback can neither spoil them nor mend them |
| Settlements.CreateIff | programs/vault/src/instructions/create_receipt.rs:36-127 | A receipt is created if and only if consenter and authority sign, the authority is an address of the member program with a ledger here, the terms are admissible, the address is right, it is a rollup, and no receipt of this very slot stands there |
| Settlements.ReceiptsAreTheLatest | programs/vault/src/instructions/create_receipt.rs:79-122 | In every run what stands at a receipt address, live or being settled, has the terms the latest create there wrote |
| Settlements.EarlierSlotsAreDebris | programs/vault/src/instructions/create_receipt.rs:83-89 | So in every run an address whose latest receipt is of an earlier slot can be written again |
| Settlements.ReapIff | programs/vault/src/instructions/reap_receipt.rs:16-48 | A reap removes exactly a live receipt of an earlier slot, sent with the ledger of its authority; where there is none it does nothing |
| Openings.OpenWalletIff | programs/vault/src/instructions/open_wallet_ledger.rs:24-63 | A wallet opens its ledger if and only if it has none, signs and pays; it gets an empty ledger of the size asked for, its own rent payer, and a store if it had none |
| Openings.OpenPdaIff | programs/vault/src/instructions/open_pda_ledger.rs:27-65 | A program opens a ledger for an address of its own if and only if that has none and both owner and payer sign; it is bound to the program, and the payer is its rent payer |
| Openings.GrowPdaIff | programs/vault/src/instructions/grow_pda_ledger.rs:26-39 | A program's ledger grows, if its owner and its rent payer sign, by exactly the slots asked for when it is short of the free ones asked for, and by none otherwise |
| Openings.DepositIff | programs/vault/src/instructions/deposit.rs:34-116 | A deposit goes through if and only if a wallet signs and pays, its ledger is at home or yet to be opened, there is room for the mint or room is asked for, and the vault can take it; the ledger ends with exactly the amount added, grown by exactly the slots asked for if it was short |
| Openings.RentPayersSigned | programs/vault/src/utils/account.rs:27-34 | In every run the rent payer of a program's ledger is whoever signed, as payer, the step that opened it |
| Openings.OnlyTheRentPayerGrows | programs/vault/src/utils/account.rs:110-144 | No step adds a slot to a ledger but a deposit to it or a growth of it, on basenet, with its rent payer's signature |
| Admission.WithdrawIff | programs/vault/src/instructions/withdraw.rs:32-80 | A withdrawal goes through if and only if a person signs for what their ledger, at home, holds, naming the reserve and an account of theirs: it never depends on what is in the reserve |
| Admission.CloseIff | programs/vault/src/instructions/close_ledger.rs:31-139 | A close goes through if and only if owner and rent payer sign for a ledger at home, with the owner's store if a person's, and the account list pays every token out |
| Admission.AuthorizeIff | programs/vault/src/instructions/session.rs:27-70 | A grant goes through if and only if a wallet signs it, on basenet, for a key on the curve, for good or until a time to come, with the rent it adds there or paid; from then on the key is honoured for that program until that time |
| Admission.RevokeIff | programs/vault/src/instructions/session.rs:82-105 | A revocation goes through if and only if the store's owner signs it on basenet; from then on the key, or every key of the program, is refused at any time |
| Admission.DelegateIff | programs/vault/src/instructions/delegation.rs:20-46 | A ledger goes to the rollup named, leaving its copy, if and only if its owner and the payer sign and it is at home |
| Admission.UndelegateIff | programs/vault/src/instructions/delegation.rs:55-69 | Anyone sends a ledger home, with all it holds, from the rollup it lives on and from nowhere else |
| Admission.NextIff | programs/vault/src/instruction.rs:36-74 | All of these as one: in every reachable state each instruction, from any sender with any accounts, inside a callback or outside, goes through if and only if its condition on the state holds |
| Receipts.CodesDifferIff | programs/vault/src/instructions/settle_receipt.rs:61-62 | The off-enum error codes tell check and ledger apart if and only if there are at most a hundred ledgers |
| Sweeps.SweepSucceedsIff | programs/vault/src/instructions/close_ledger.rs:64-106 | The sweep goes through if and only if the account list names, in slot order and back to back, the group of every non-zero entry, every pool holds its amount and the transfers are carried out |
| Sweeps.SweepDrains | programs/vault/src/instructions/close_ledger.rs:64-106 | A sweep that goes through pays every token the ledger claims out of its own pool and takes nothing else |
| Sweeps.SweepPaysTheOwner | programs/vault/src/instructions/close_ledger.rs:64-106 | Every payment of a sweep goes to a token account of the owner, and together they bring, mint by mint, exactly the tokens the ledger held |
| CashOut.CloseSucceedsIff | programs/vault/src/instructions/close_ledger.rs:49-111 | In reachable states a ledger at home can be closed whatever it holds, if and only if the account list is the right one |
| CashOut.EveryLedgerCanBeClosedIff | programs/vault/src/instructions/close_ledger.rs:49-111 | Brought home so, any ledger, a program's included, is closed by its owner if and only if the account list is the right one |
| CashOut.CloseIsNeverShort | programs/vault/src/instructions/close_ledger.rs:49-84 | In reachable states no close finds a reserve short |
| CashOut.CloseSweepsExactly | programs/vault/src/instructions/close_ledger.rs:49-139 | A close brings the owner exactly the closed ledger's balance of every mint, SOL from the lamports and tokens by payments to accounts of theirs; each reserve and each total of claims falls by as much; no other ledger changes |
| VaultObject.Vault.LoadLedger | programs/vault/src/state/ledger.rs:178-190 | Loads a ledger that lives here and sits at its own address, with the errors of the original otherwise |
| VaultObject.Vault.StoreLedger | programs/vault/src/state/ledger.rs:192-194 | Writes one account and no other, and is never too small for it |
| VaultObject.Vault.NewLedger | programs/vault/src/utils/account.rs:19-58 | Who may pay for a ledger, and the empty ledger they get |
| VaultObject.Vault.OpenWallet | programs/vault/src/instructions/open_wallet_ledger.rs:23-63 | Ends in the machine's state or error: one more empty ledger, owned and paid for by the wallet, and its session store if there was none |
| VaultObject.Vault.OpenPda | programs/vault/src/instructions/open_pda_ledger.rs:26-65 | Ends in the machine's state or error: one more empty ledger, bound to the program its owner derives from |
| VaultObject.Vault.EnsureHeadroom | programs/vault/src/utils/account.rs:112-144 | Grows the slots and the account together, only when too few are free, only for the rent payer |
| VaultObject.Vault.GrowPda | programs/vault/src/instructions/grow_pda_ledger.rs:20-40 | Ends in the machine's state or error: at most the asked slots added to one program ledger, its account grown to match |
| VaultObject.Vault.Deposit | programs/vault/src/instructions/deposit.rs:34-116 | Ends in the machine's state or error: the depositor's ledger, new or grown if need be, credited with exactly what entered the vault or the mint's one pool |
| VaultObject.Vault.DepositStored | programs/vault/src/instructions/deposit.rs:87-116 | Headroom, claim, transfer and credit in this order, written back into an account large enough |
| VaultObject.Vault.Withdraw | programs/vault/src/instructions/withdraw.rs:24-81 | Ends in the machine's state or error: the signer's own ledger debited by exactly what left the vault or the mint's one pool |
| VaultObject.Vault.MayClaim | programs/vault/src/instructions/settle.rs:53-70 | Whether the receiving ledger may open a slot, asking its owner or a session key when it must |
| VaultObject.Vault.Settle | programs/vault/src/instructions/settle.rs:20-80 | Ends in the machine's state or error: one movement between two ledgers at least one of which is a program's, the payer's owner having signed |
| VaultObject.Vault.CheckTerms | programs/vault/src/instructions/create_receipt.rs:55-67 | The loops accept exactly distinct owners and movements in range between two of them |
| VaultObject.Vault.CreateReceipt | programs/vault/src/instructions/create_receipt.rs:31-122 | Ends in the machine's state or error: the terms written with this slot, never over a receipt of this slot |
| VaultObject.Vault.ReadNamed | programs/vault/src/instructions/settle_receipt.rs:65-85 | The five checks on one ledger of a receipt, in order |
| VaultObject.Vault.ReadAllNamed | programs/vault/src/instructions/settle_receipt.rs:64-86 | The loop over all of them ends with the first fault, or with every ledger as the state has it |
| VaultObject.Vault.AskConsent | programs/vault/src/instructions/settle_receipt.rs:97-116 | The one person's consent, decided on the ledgers as loaded |
| VaultObject.Vault.StoreAll | programs/vault/src/instructions/settle_receipt.rs:125-127 | The write-back loop leaves every named ledger as moved and every other as it was |
| VaultObject.Vault.SettleBegin | programs/vault/src/instructions/settle_receipt.rs:24-136 | Ends in the machine's state or error at the moment of the callback: all movements made, all ledgers stored, the receipt killed |
| VaultObject.Vault.MayConsent | programs/vault/src/instructions/session.rs:134-148 | The owner, or a key their store grants for the program now |
| VaultObject.Vault.EnsureSession | programs/vault/src/utils/account.rs:66-98 | Creates an empty store at its rent if there is none |
| VaultObject.Vault.LoadSession | programs/vault/src/instructions/session.rs:107-117 | Loads the owner's own store, with the errors of the original otherwise |
| VaultObject.Vault.Authorize | programs/vault/src/instructions/session.rs:27-70 | Ends in the machine's state or error: the key granted for one program, the store grown and topped up if the program is new to it; the final write is never too small |
| VaultObject.Vault.Revoke | programs/vault/src/instructions/session.rs:82-105 | Ends in the machine's state or error: the key forgotten, or the program dropped and the rent refunded; the final write is never too small |
| VaultObject.Vault.Delegate | programs/vault/src/instructions/delegation.rs:20-48 | Ends in the machine's state or error: the ledger away, its copy left behind on basenet |
| VaultObject.Vault.Undelegate | programs/vault/src/instructions/delegation.rs:55-69 | Ends in the machine's state or error: a ledger that lives on this rollup on its way home, whoever asks |
| VaultObject.Vault.SweepTokens | programs/vault/src/instructions/close_ledger.rs:67-111 | The sweep loop pays as the specification of the sweep, and the last check never finds anything left |
| VaultObject.Vault.Close | programs/vault/src/instructions/close_ledger.rs:25-140 | Ends in the machine's state or error: every balance paid out, the ledger and a wallet's store gone |
| VaultObject.Vault.Execute | programs/vault/src/instruction.rs:36-74 | Every instruction, a close on a rollup included, ends in exactly the machine's state, or with exactly its error |
| VaultObject.Vault.Run | programs/vault/src/instructions/settle_receipt.rs:125-165 | A settlement with everything its callback calls, closes included, is exactly the run of the machine it flattens to |
| VaultObject.Vault.Transact | programs/vault/src/instruction.rs:36-74 | All of a transaction happens or none of it, it is the machine's run, and the invariant stands |
| VaultObject.Vault.TransactClose | programs/vault/src/instructions/close_ledger.rs:25-140 | The same for a close, on its account list: all of it happens or none, it is the machine's step, and the invariant stands |
| SessionTable.GrantRefines | programs/vault/src/state/session.rs:44-54 | Granting on the padded ring is: nothing for a key held, append if short, drop the oldest and append if full; the ring stays packed and without duplicates |
| SessionTable.RevokeRefines | programs/vault/src/state/session.rs:62-69 | Revoking on the ring takes the key out, the others closing up in order |
| SessionTable.RingIsAQueue | programs/vault/src/state/session.rs:38-70 | Under any sequence of grants and revokes the five slots are a bounded first-in-first-out queue |
| SessionTable.AllowsIsRefined | programs/vault/src/state/session.rs:122-124 | `allows` on the stored entries is `allows` of the store as its owner means it |
| SessionTable.GrantInRefines | programs/vault/src/instructions/session.rs:48-56 | A grant changes its own program's keys and no other's, and adds at most one entry |
| SessionTable.RevokeInRefines | programs/vault/src/instructions/session.rs:101-103 | A revocation changes its own program's keys and no other's |
| SessionTable.DropInRefines | programs/vault/src/state/session.rs:115-119 | Dropping a program forgets exactly its keys |
| Sessions.GrantThenRevoke | programs/vault/src/state/session.rs:38-70 | A granted key consents until its expiry, a revoked one not at all, and no other key is affected by the revocation |
| SessionObject.Entry.Allows | programs/vault/src/state/session.rs:38-40 | The loop over the ring answers as the entry's predicate |
| SessionObject.Entry.RotateLeft | programs/vault/src/state/session.rs:52-52 | Every slot takes its right neighbour's key, in place |
| SessionObject.Entry.Grant | programs/vault/src/state/session.rs:44-54 | The in-place grant is the specified one |
| SessionObject.Entry.Revoke | programs/vault/src/state/session.rs:62-69 | The in-place revocation is the specified one, temporary slot included |
| SessionObject.Session.Allows | programs/vault/src/state/session.rs:122-124 | Search and test answer as the store's predicate |
| SessionObject.Session.EntryMut | programs/vault/src/state/session.rs:105-112 | The program's one entry, appended if there was none |
| SessionObject.Session.DropEntry | programs/vault/src/state/session.rs:115-119 | The retaining loop keeps exactly the other programs' entries, in order |
| SessionRent.StoreStaysPaidFor | programs/vault/src/instructions/session.rs:57-105 | Over every run of grants and revocations the account is the size of its entries, stays rent-exempt, and no lamport is made or lost between wallet and store |
| SessionRent.RunsPayForStores | programs/vault/src/utils/account.rs:66-98 | In every run of the vault, from before a store is made until after it is closed, its lamports are what its owner paid and what its account was found with, less what came back; while it stands it is the size of its entries and rent-exempt |
| SessionRent.FlowsAreSigned | programs/vault/src/instructions/session.rs:27-105 | No step takes rent from a wallet, or hands any back, without its signature |
| SessionRent.FailsOnlyForRent | programs/vault/src/instructions/session.rs:57-67 | A grant fails only for want of the rent it adds; a revocation never does |
| LedgerCodec.WriteTo | programs/vault/src/state/ledger.rs:151-169 | Writes the ledger's bytes over the front of the account and nothing else, or refuses an account too small |
| LedgerCodec.ReadFrom | programs/vault/src/state/ledger.rs:125-147 | The reading loop returns what the layout says, or the error |
| LedgerCodec.ReadInvertsWrite | programs/vault/src/state/ledger.rs:125-169 | Reading returns what was written, in any account large enough |
| LedgerCodec.WriteInvertsRead | programs/vault/src/state/ledger.rs:125-169 | Writing back what was read changes only the padding and the flag byte |
| LedgerCodec.SolIsAt148 | programs/vault/src/state/ledger.rs:10-12 | The SOL balance stands at byte 148 |
| SessionCodec.WriteTo | programs/vault/src/state/session.rs:153-173 | Writes the store's bytes over the front of the account and nothing else, or refuses an account too small |
| SessionCodec.ReadFrom | programs/vault/src/state/session.rs:126-150 | The reading loops return what the layout says, or the error |
| SessionCodec.ReadInvertsWrite | programs/vault/src/state/session.rs:126-173 | Reading returns what was written, in any account large enough |
| SessionCodec.WriteInvertsRead | programs/vault/src/state/session.rs:126-173 | Writing back what was read changes only the padding |
| ReceiptCodec.Write | programs/vault/src/state/receipt.rs:58-93 | The three packed arrays and the header, written in place, are the receipt's bytes |
| ReceiptCodec.Read | programs/vault/src/state/receipt.rs:109-159 | The parsing loops return what the layout says, or the error |
| ReceiptCodec.ReadInvertsWrite | programs/vault/src/state/receipt.rs:41-159 | `read` inverts `write` for every receipt that can be created |
| ReceiptCodec.WriteInvertsRead | programs/vault/src/state/receipt.rs:41-159 | Conversely, writing what was read reproduces the account byte for byte, up to the length the terms take |
| ReceiptCodec.KilledIsInert | programs/vault/src/instructions/settle_receipt.rs:129-131 | With its discriminator zeroed a receipt is no longer read as one, yet keeps the slot and the authority it was created with |
| Layouts.LedgerIsNoReceipt | programs/vault/src/state/receipt.rs:6-11 | No bytes the ledger writer produces are ever read as a receipt |
| Layouts.SessionIsNoReceipt | programs/vault/src/state/receipt.rs:6-11 | No bytes the session writer produces, whatever follows them, are ever read as a receipt, and which error they give |
| Layouts.OnlyLedgersAreLedgers | programs/vault/src/state/ledger.rs:125-128 | Neither a receipt, live or killed, nor a session store, whatever follows its bytes, is read as a ledger |
| Layouts.LedgerLayout | programs/vault/src/state/ledger.rs:6-13 | Where every field of a ledger stands in its account, byte for byte, numbers least significant byte first |
| Layouts.SessionLayout | programs/vault/src/state/session.rs:9-17 | The same for a session store, the keys of its rings included |
| Layouts.ReceiptLayout | programs/vault/src/state/receipt.rs:14-43 | The same for a receipt, owners, movements and arguments included |
| ClientDecoders.DecodeLedger | vault-client/src/commonMain/kotlin/com/interstellargames/vault/Ledger.kt:22-46 | The cursor loop returns what the client's layout says |
| ClientDecoders.LedgersAgree | vault-client/src/commonMain/kotlin/com/interstellargames/vault/Ledger.kt:22-46 | On every account the program reads as a well-formed ledger the client shows exactly its positive balances, owner, kind, capacity and program |
| ClientDecoders.ShownTrulyIff | vault-client/src/commonMain/kotlin/com/interstellargames/vault/Ledger.kt:38-42 | The amount shown is the amount held if and only if it is below 2^63; otherwise it is negative |
| ClientDecoders.DecodeSession | vault-client/src/commonMain/kotlin/com/interstellargames/vault/Session.kt:30-49 | The cursor loop returns what the client's layout says |
| ClientDecoders.SessionsAgree | vault-client/src/commonMain/kotlin/com/interstellargames/vault/Session.kt:13-49 | On every account the program reads as a store, client and program agree for every key, program and time |

## Left out

- The permission program: creating, updating and closing permissions, `make_public`, the two
  `make_..._private` instructions and `add_pda_caller` move no value and gate reading only.
- The delegation and magic programs inside: delegating, committing and undelegating are transitions of
  where a ledger lives; the reap crank is a reap that anyone may send at any time.
- The rent of ledger accounts and of receipts, and the lamports of wallets: whether a wallet could pay,
  or a payout could be delivered, is a flag of the instruction (`funded`, `delivered`). The session
  store's rent is modelled in full.
- What a callback is handed: its data (discriminator, first owner, arguments), the accounts forwarded to it
  and the vault's signature. What it does with them is any run of instructions.
- Errors for missing accounts, unparsable arguments and a wrong permission program; `ReceiptNotConsumed`,
  since a receipt never leaves the vault's ownership before it is closed.
- The runtime's limit on how much an account may grow in one instruction.
- Token-2022 transfer fees, hooks and permanent delegates: a transfer is exact.
- The bytes under the handlers: `Vault` keeps accounts decoded, and the codecs are proved beside it to
  lose nothing.
- Re-entry: the runtime refuses to let a callback call the vault again; the theorems hold even if it may.
- Amounts are `u64` and times `i64` throughout; slots, sizes and counts are unbounded where the
  original's width cannot be reached.
- `VaultSession.kt`, `VaultIx.kt`, `VaultPda.kt` and the developer page build transactions and draw
  screens; they decide nothing.
- VaultObject.Vault.Close: the account list comes as a separate argument, and the machine's step carries
  the first fault it would meet, because a map of balances has no slot order.
- VaultObject.Vault.Run: a close sent to basenet is not among the instructions it nests, since a callback
  runs on the rollup of its settlement; such a close has its own transaction, `TransactClose`.
- ClientDecoders.LedgersAgree: arrays shorter than 2^31 less one entry, so that the client's 32-bit
  offsets do not wrap.
- ClientDecoders.SessionsAgree: the same bound.
