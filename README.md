# solana_vesting in Dafny

This project models a Solana program for token vesting. A creator deposits `amount` tokens of one
mint into a *vault*. The vault is a token account at a program-derived address. The program also
writes a *vesting record*, an account holding `amount`, `claimed`, `start`, `cliff` and `duration`.
After that, the beneficiary (`user`) claims whatever has unlocked. Nothing unlocks before
`start + cliff`. Between `start` and `start + duration` the unlocked amount grows linearly. After
`start + duration` the whole amount is unlocked.

The repository contains two versions of the entrypoint:

- `src/processor.rs` is the careful version. It checks account owners and the claimer, and its
  unlock calculation is capped and widened to 128 bits.
- `src/lib.rs` is the entrypoint the crate actually compiles. It has fewer gates, an uncapped
  unlock calculation in u64, and a `claim` that transfers before it writes the record.

Both versions are modelled here. The model follows the code's structure:

- `Types`, `Errors`, `Bytes`: the fixed-width integers, the error codes of `src/error.rs` and the
  little-endian encoding of u64.
- `Solana`: the parts of the runtime the program touches.
  - `AccountInfo` is a class. Its `owner` and `data` change when an account is created.
  - `TokenLedger` is the token program reduced to the balances of token accounts. It is a class
    whose `balances` map is reassigned by transfers.
  - `CreateAccount` is the system program's account creation.
- `Schedule`: the two `calculate_amount` functions.
- `Pda`: `src/pda.rs`. It holds the record, its Borsh encoding and the seed lists. It also holds
  the address check and the cross-program invocations that create the accounts and move tokens.
  `SetData` writes into the account's data array in place.
- `Instruction`: the instruction enum and its Borsh encoding.
- `Helpers`: `src/helpers.rs`, the `assert!`-based variants of the same helpers.
- `Processor`: `src/processor.rs`.
  - The gates (`Admit`) and the bookkeeping of create and claim (`NewSchedule`, `ClaimStep`) are
    pure functions.
  - `CreateVesting`, `Claim`, `Process`, `Run` and `Dispatch` are methods that change the
    accounts and the ledger. The state a successful create or claim leaves behind is named once,
    by the two-state predicates `Created` and `Claimed`. `OthersUnchanged` says that the other
    accounts are left alone.
  - Repeated claims are described by `ClaimRun`, and their properties are proved as lemmas about
    it.
- `CompiledLib`: `src/lib.rs`, with its own gates, its own claim and its own entrypoint.
- `Transaction`: the host's all-or-nothing rule. When an instruction fails, the host discards
  every change it made. `Execute` restores the snapshot after a failed `Process`.

Terms used below:

- An *abort* is what Rust calls a panic: a failed `assert!`, an arithmetic overflow, a division by
  zero or a failed `unwrap`. The model gives it the result `Err(Panic)`.
- The model assumes overflow checks are on, so an overflow aborts instead of wrapping.
- The clock is a parameter `now: i64`. Address derivation (`find_program_address`) is a function
  value inside `Env`, and the model assumes nothing about it except where a lemma says so.

Two behaviours of `src/processor.rs` follow from the code and are proved as lemmas:

- `create_vesting` accepts `cliff == duration == 0`. Every claim from `start` on then divides by
  zero, so the deposit never leaves the vault (`Processor.ZeroDurationLocksFunds`).
- `create_vesting` does not check that `start + cliff` fits in u64, although `CustomError` has a
  `StartCliffOverflow` variant. When the sum does not fit, every claim aborts
  (`Processor.OverflowingCliffLocksFunds`).

A few more facts about the code shape the model:

- The unlocked amount is capped at `amount` in `src/processor.rs`. It is not capped in `src/lib.rs`.
- A claim pays into the wallet account that the caller passes, the third account of the list.
- A claim is never clamped to the vault's balance. If the vault holds too little, the token
  transfer fails and the whole instruction fails.
- `StartCliffOverflow` is declared in `src/error.rs`, but no code path returns it.

## Model

| member | source | states |
|---|---|---|
| Errors.CustomError.Code | src/error.rs:3-17 | each error's code is its discriminant, between 101 and 106 |
| Errors.CodeInjective | src/error.rs:3-10 | distinct error variants have distinct codes |
| Errors.FromCodeOfInvalidPdaKey | src/error.rs:26-29 | `ProgramError::from(101)` is the custom error of `InvalidPDAKey` (the crate's unit test) |
| Bytes.U64ToLe | src/pda.rs:54 | `to_le_bytes` gives 8 bytes whose little-endian value is the number |
| Bytes.LeToU64 | src/pda.rs:117-125 | reading 8 little-endian bytes is the inverse of `to_le_bytes` |
| Bytes.U64ToLeInjective | src/pda.rs:50-55 | distinct nonces give distinct seed bytes |
| Solana.CreateAccount | src/pda.rs:222-226 | the system program creates the account only for a writable signing payer and a writable account not in use; on success the account gets the owner and `space` zero bytes, and on failure it is unchanged |
| Solana.Moved | src/pda.rs:255-266 | a token transfer keeps the set of accounts, keeps the sum of the two balances, credits the destination and leaves every other balance alone |
| Solana.MovedZero | src/pda.rs:255-266 | a transfer of zero tokens is always possible and changes nothing |
| Solana.TokenLedger.InitializeAccount | src/pda.rs:231-241 | a writable, token-program-owned account that is not yet a token account becomes one with balance 0; otherwise the call fails and nothing changes |
| Solana.TokenLedger.Transfer | src/pda.rs:255-266 | succeeds exactly when both accounts are writable and the balances allow the move; the new balances are `Moved`, and a failure changes nothing |
| Schedule.WideProductFits | src/processor.rs:256-257 | the u128 product of two u64 values never overflows |
| Schedule.NarrowingIsLossless | src/processor.rs:256-257 | with `passed <= duration` the quotient is at most `amount`, so narrowing it to u64 loses nothing, and `passed == duration` gives exactly `amount` |
| Schedule.CalculateAmount | src/processor.rs:245-258 | aborts exactly when `start + cliff` overflows or the division is by zero; otherwise gives 0 before the cliff, `amount * (now - start) / duration` within the duration, `amount` after it, and never more than `amount` |
| Schedule.CalculateAmountMonotone | src/processor.rs:245-258 | the unlocked amount never decreases as time goes on |
| Schedule.CalculateAmountVectors | src/processor.rs:265-273 | the six values of the crate's unit test |
| Schedule.CalculateAmountLib | src/lib.rs:193-208 | aborts exactly when `start + cliff` overflows, or, past the cliff, when the u64 product overflows or `duration` is 0; gives 0 before the cliff and, from the cliff on, `amount * (now - start) / duration` with no cap at `duration` |
| Schedule.LibAgreesWithinDuration | src/lib.rs:193-208 | up to the end of the schedule, whenever the lib.rs version does not abort, it gives what the processor.rs version gives |
| Schedule.LibAtLeastIntended | src/lib.rs:193-208 | wherever neither version aborts, the lib.rs version unlocks at least what the processor.rs version unlocks |
| Schedule.LibExceedsAmountAfterDuration | src/lib.rs:204-207 | after twice the duration the lib.rs version unlocks at least twice `amount` |
| Schedule.LibOverUnlockExample | src/lib.rs:204-207 | on the unit test's schedule at time 1200, lib.rs unlocks 2000 where processor.rs unlocks 1000 |
| Schedule.LibProductOverflowExample | src/lib.rs:205 | `amount = 2^63` at half the duration aborts in lib.rs; processor.rs gives `2^62` |
| Pda.Encode | src/pda.rs:117-133 | the Borsh form of a record is `size_of::<Vesting>()` = 40 bytes |
| Pda.Decode | src/pda.rs:177-182 | decoding succeeds exactly on 40 bytes and otherwise fails with a Borsh error |
| Pda.DecodeEncode | src/pda.rs:177-189 | a record that is written is read back unchanged |
| Pda.EncodeDecode | src/pda.rs:177-182 | every 40 bytes are the encoding of the record they decode to |
| Pda.SetData | src/pda.rs:184-189 | writes the encoding at the front of the data and keeps the tail; fails exactly when the data is shorter than 40 bytes, after writing the bytes that fit |
| Pda.SeedListsDifferOnlyInTag | src/pda.rs:47-56 | the vault and vesting seed lists of one schedule differ only in their first element |
| Pda.SeedListsDetermineSchedule | src/pda.rs:143-152 | equal seed lists have equal mint, user and nonce, and a vault list is never a vesting list |
| Pda.VaultSeeds | src/pda.rs:50-55 | the vault seed list is the tag, the mint, the user and the nonce's 8 little-endian bytes (which read back as the nonce), each seed within the runtime's 32-byte limit |
| Pda.VestingSeeds | src/pda.rs:146-151 | the vesting seed list has the same layout with the vesting tag, each seed within the runtime's 32-byte limit |
| Pda.CheckExpectedAddress | src/pda.rs:192-203 | rejects exactly the keys that differ from the derived address, with code 201 |
| Pda.VaultCheckInfo | src/pda.rs:40-57 | rejects, with code 201, exactly the keys that differ from the vault address derived from the mint, the user and the nonce |
| Pda.VestingCheckInfo | src/pda.rs:136-153 | rejects, with code 201, exactly the keys that differ from the vesting address derived from the mint, the user and the nonce |
| Pda.GetData | src/pda.rs:177-182 | reads a record exactly when the account holds 40 bytes, and otherwise fails with a Borsh error; the record read encodes back to the account's bytes |
| Pda.CreatePda | src/pda.rs:205-229 | rejects a wrong address with 201 before invoking anything; otherwise succeeds exactly when the system program does, giving the owner and `space` zero bytes |
| Pda.InitTokenPda | src/pda.rs:231-241 | the new vault becomes a token account with balance 0, or the call fails and nothing changes |
| Pda.TransferTokenFromPda | src/pda.rs:243-267 | rejects a wrong address with 201 before invoking anything; otherwise `amount` moves from the derived account to the wallet, or nothing changes |
| Pda.TransferTokenToPda | src/pda.rs:269-286 | `amount` moves from the wallet to the derived account, or nothing changes |
| Pda.VaultCreate | src/pda.rs:59-82 | the vault is created at the vault address, owned by the token program, with the token account size, and gets a zero balance; a correct address never yields 201 |
| Pda.VaultTransferOut | src/pda.rs:93-114 | the vault's seed list authorizes the transfer of `amount` to the wallet; a wrong vault key yields 201 and moves nothing |
| Pda.VestingCreate | src/pda.rs:155-175 | the record account is created at the vesting address, owned by the program, with 40 zero bytes |
| Instruction.Encode | src/instruction.rs:9-26 | a create instruction is 73 bytes with tag 0, a claim 41 bytes with tag 1 |
| Instruction.Decode | src/instruction.rs:9-26 | decoding succeeds exactly on a known tag followed by exactly its fields, and otherwise fails with a Borsh error |
| Instruction.DecodeEncode | src/instruction.rs:9-26 | an encoded instruction decodes to itself |
| Instruction.EncodeDecode | src/instruction.rs:9-26 | whatever decodes re-encodes to the same bytes |
| Helpers.CheckExpectedAddress | src/helpers.rs:51-63 | rejects exactly the keys that differ from the derived address, with code 101 |
| Helpers.AddressChecksAgree | src/helpers.rs:51-63 | the address checks of helpers.rs and pda.rs accept the same keys and differ only in the code, 101 versus 201 |
| Helpers.CreatePda | src/helpers.rs:18-48 | aborts unless the payer is a writable signer and the account is writable at the derived address; otherwise succeeds exactly when the system program does |
| Helpers.InitTokenPda | src/helpers.rs:66-88 | aborts unless the account is writable and owned by the token program; otherwise it becomes a token account with balance 0 |
| Helpers.TransferToPda | src/helpers.rs:91-121 | aborts unless the authority signs and both accounts are writable token-program accounts; otherwise `amount` moves to the account, or nothing changes |
| Helpers.TransferFromPda | src/helpers.rs:124-159 | aborts unless both accounts are writable token-program accounts and the account is at the derived address; otherwise `amount` moves to the wallet, or nothing changes |
| Processor.NewSchedule | src/processor.rs:156-183 | rejects `cliff > duration` and a zero amount with `Custom(0)`; otherwise the new record has the parameters and `claimed = 0` |
| Processor.ClaimStep | src/processor.rs:215-228 | the new `claimed` is the unlocked total, the distributed amount is the increase, only `claimed` changes, and `claimed` never exceeds `amount`; it aborts exactly when the calculation aborts or the total is below `claimed` |
| Processor.PlanClaim | src/processor.rs:204-228 | an undecodable record fails with a Borsh error, a negative time aborts, and otherwise the result is the claim step at `now`; a planned claim raises `claimed` by exactly the distributed amount and never past `amount` |
| Processor.ClaimStepIdempotent | src/processor.rs:225-228 | a second claim at the same time distributes nothing and changes nothing |
| Processor.ClaimBeforeCliff | src/processor.rs:245-248 | before the cliff a claim on a fresh record distributes nothing |
| Processor.ZeroDurationLocksFunds | src/processor.rs:157-162 | a schedule with `cliff = duration = 0` is accepted, and every claim from `start` on aborts |
| Processor.OverflowingCliffLocksFunds | src/processor.rs:157-162 | a schedule whose `start + cliff` overflows is accepted, and every claim aborts |
| Processor.ClaimRun | src/processor.rs:202-242 | after a sequence of claims, `claimed` has grown by exactly the total distributed, and nothing else in the record changed |
| Processor.ClaimRunNeverAborts | src/processor.rs:225-227 | with a clock that never goes back and a schedule whose calculation cannot abort, no claim underflows |
| Processor.ClaimRunClaimsUnlocked | src/processor.rs:225-228 | after a sequence of claims, `claimed` is what is unlocked at the last one |
| Processor.FreshScheduleDistributesAtMostAmount | src/processor.rs:174-228 | a created schedule, claimed along a clock that never goes back, distributes at most `amount` in all, and exactly `amount` once the duration has passed |
| Processor.Admit | src/processor.rs:62-129 | the gates in order: the signer must sign, mint and wallet must be owned by the token program (102), a claim must come from `user` (103), and the vesting and vault keys must be the derived addresses (201); a list that ends before the next gate's account fails with `NotEnoughAccountKeys` once all earlier gates pass, so a 4-account list with a correct vesting key fails with that error and not with 201 |
| Processor.CreateVesting | src/processor.rs:146-199 | rejects bad parameters before touching an account; on success the record account holds the new record, the vault is a fresh token account, and `amount` has moved from the wallet to it; a record account or a vault account already in use makes it fail; once the parameters are accepted, it succeeds exactly when `CreateSucceeds` holds of the accounts and balances before the call: both addresses derived, a writable signer, distinct writable record and vault accounts not yet in use, no token account yet at the vault, a writable wallet that can send `amount` |
| Processor.Claim | src/processor.rs:202-242 | reads the record, aborts for a negative time, writes the new record before the transfer, and then moves the distributed amount from the vault to the wallet; on success the balances are `Moved` by that amount; it succeeds exactly when `ClaimSucceeds` holds: the plan is Ok, the vault address is derived, vault and wallet are writable, and the vault covers the distributed amount |
| Processor.Process | src/processor.rs:50-143 | a malformed instruction or a failed gate returns that error and changes nothing; it succeeds exactly when the instruction decodes, every gate passes (`Admissible`) and the instruction's own condition holds before the call (`InstructionSucceeds`, built from `CreateSucceeds` and `ClaimSucceeds`); the only custom codes are 0, 102, 103 and 201, and 201 never comes after the gates pass; a successful create leaves the new record, the fresh vault and `amount` moved into it (`Created`); a successful claim leaves the record planned by `PlanClaim`, the distributed amount moved to the wallet, and the record and vault accounts otherwise unchanged (`Claimed`); whatever the outcome, every other account keeps its owner and data (`OthersUnchanged`) |
| Processor.Run | src/processor.rs:59-143 | the same as `Process`, for an instruction that has already been decoded: the gates, then create or claim; it succeeds exactly when `Admissible` and `InstructionSucceeds` hold |
| Processor.Dispatch | src/processor.rs:84-142 | succeeds exactly when `InstructionSucceeds` holds before the call; for create: on success the record account holds the new record and `amount` has moved into the fresh vault; for claim: on success the record is the planned one and the distributed amount has moved to the wallet, and the record and vault accounts keep their owner and data array; correct vesting and vault addresses never yield 201 |
| CompiledLib.AdmitLib | src/lib.rs:52-98 | lib.rs checks only the signer and the derived addresses, and it checks the vault address against the vesting account's key |
| CompiledLib.LibNeverAdmits | src/lib.rs:75-98 | when the derivation never gives the vesting and the vault seed lists of one schedule the same address (`SeparatesTags`), no account list passes the lib.rs gates |
| CompiledLib.SomeDerivationSeparatesTags | src/lib.rs:75-98 | the assumption of `LibNeverAdmits` can be met: a derivation that tells the two tags apart satisfies it |
| CompiledLib.LibIgnoresVaultAccount | src/lib.rs:97-98 | the account in the vault position never influences the lib.rs gates |
| CompiledLib.AsU64 | src/lib.rs:174 | `unix_timestamp as u64` reinterprets a negative time as a value near 2^64 |
| CompiledLib.PlanClaimLib | src/lib.rs:165-184 | an undecodable record fails with a Borsh error; otherwise the claim aborts exactly when the uncapped calculation at the wrapped time aborts or falls below `claimed`, and on success `claimed` becomes that total and rises by exactly the distributed amount |
| CompiledLib.PlanClaimLibAgreesWithinDuration | src/lib.rs:164-191 | within the schedule, whenever the lib.rs claim does not abort, it computes what the processor.rs claim computes |
| CompiledLib.ClaimLib | src/lib.rs:164-191 | the transfer comes first; the record is written only after it succeeds, so a failure leaves both record and balances unchanged; it succeeds exactly when `ClaimSucceeds` holds of the plan from `PlanClaimLib` |
| CompiledLib.ProcessInstruction | src/lib.rs:47-111 | a malformed instruction or a failed gate changes nothing; under `SeparatesTags`, every call fails and changes nothing; it succeeds exactly when the instruction decodes, the lib.rs gates pass and `InstructionSucceedsLib` holds before the call, and success leaves the state of a create (`Created`) or of a claim planned by `PlanClaimLib` (`Claimed`); every other account keeps its owner and data |
| CompiledLib.RunLib | src/lib.rs:54-111 | the same as `ProcessInstruction`, for an instruction that has already been decoded: the lib.rs gates, then create or claim; it succeeds exactly when the gates pass and `InstructionSucceedsLib` holds |
| CompiledLib.DispatchLib | src/lib.rs:66-110 | succeeds exactly when `InstructionSucceedsLib` holds before the call; for create: the effects of `Processor.CreateVesting`; for claim: on success the record is the one planned by `PlanClaimLib` and the distributed amount has moved to the wallet, and the record and vault accounts keep their owner and data array |
| Transaction.Execute | src/processor.rs:225-239 | a failed instruction leaves every account's owner and data and every token balance as they were, which is what makes writing the record before the transfer safe; it succeeds exactly when `Process` does (decoded, `Admissible`, `InstructionSucceeds`), and a successful one leaves the state `Process` promises (`Created`, `Claimed`, `OthersUnchanged`) |

## Left out

- Lamports and rent: the rent sysvar, `minimum_balance` and the lamport transfer of account creation are not modelled. Creation fails only for the reasons listed under `CreateAccount`.
- The bump seed: `find_program_address` is modelled as a function from seed lists to addresses. The bump it also returns, and the signature `invoke_signed` derives from it, are not modelled.
- Solana.TokenLedger.Transfer: the token program's authority checks are not modelled, and neither is the mint binding of `initialize_account3`. The source names `spl_token::id()` as the authority of every transfer, and the token program's verdict on that cannot be derived from the code shown.
- The token program's and the system program's own error codes are not modelled; each is one error value.
- `size_of::<spl_token::state::Account>()` is a compiler layout fact, so the vault size is the parameter `Env.tokenAccountSize`.
- The clock sysvar is the parameter `now`, so `Clock::get()` cannot fail in the model. The fixed clock that `src/processor.rs` uses when not compiled for Solana is not modelled.
- `try_borrow_data` / `try_borrow_mut_data` cannot fail in the model: there is no concurrent borrow.
- Overflow is modelled as an abort, which assumes overflow checks are on. A release build without them would wrap instead.
- `CompiledLib.ProcessInstruction` reuses `Processor.CreateVesting`, because `create_vesting` in `src/lib.rs` differs only in building the record before the accounts are created.
- `Vault::transfer_in` only forwards its arguments, so it is modelled by `Pda.TransferTokenToPda`.
- `CreateVestingAccounts` and `ClaimAccounts` in `src/instruction.rs` are never used by the code; they are not modelled.
- The commented-out tests in `src/lib.rs` and `tests/lib.rs` are not part of this model.
- The entrypoint macro and the iteration over accounts are modelled by the account sequence and the index of each role.

## Findings

| source | as written | input that shows it | evidently intended | confidence | as-written member | corrected member |
|---|---|---|---|---|---|---|
| src/lib.rs:204-207 | the unlocked amount is `amount * (now - start) / duration` with no cap at `duration` | start 1000, cliff 20, duration 100, amount 1000, now 1200 unlocks 2000 | stop growing at `amount` once `duration` has passed, as `src/processor.rs:250-254` does | high, not executed | Schedule.LibOverUnlockExample | Schedule.CalculateAmount |
| src/lib.rs:205 | the product `amount * (now - start)` is computed in u64 | start 0, cliff 0, duration 4, amount 2^63, now 2 aborts | compute the product in u128 and narrow the quotient, as `src/processor.rs:256-257` does | high, not executed | Schedule.LibProductOverflowExample | Schedule.CalculateAmount |
| src/lib.rs:79 | `Vault::check_info` is applied to the vesting account (the same at line 98) | any account list: its vesting key would have to be both the vesting and the vault address, which no derivation that tells the two tags apart allows | check the vault account, as `src/processor.rs:99` and `src/processor.rs:129` do | high, not executed | CompiledLib.LibNeverAdmits | Processor.Admit |
