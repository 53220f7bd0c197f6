/** src/processor.rs: the account gates of `process`, `create_vesting` and `claim`. The
    bookkeeping is given as functions (`NewSchedule`, `ClaimStep`, `Admit`) that the methods
    follow step by step, and the properties of repeated claims are proved about them. */
module Processor {
  import opened Types
  import opened Errors
  import opened Solana
  import opened Schedule
  import opened Pda
  import I = Instruction

  /** The accounts an instruction works with, by role. */
  datatype Accounts = Accounts(signer: AccountInfo, mint: AccountInfo, vesting: AccountInfo, vault: AccountInfo, wallet: AccountInfo)

  /** The roles in the account list of an instruction: signer, mint, wallet, vesting, vault. */
  function Roles(accounts: seq<AccountInfo>): Accounts
    requires |accounts| >= 5
  {
    Accounts(accounts[0], accounts[1], accounts[3], accounts[4], accounts[2])
  }

  // ---------------------------------------------------------------- create_vesting, pure part

  /** The parameter checks of `create_vesting` and the record it writes. */
  function NewSchedule(amount: u64, start: u64, cliff: u64, duration: u64): (r: Result<Vesting, ProgramError>)
    ensures r.Err? <==> cliff > duration || amount == 0
    ensures r.Err? ==> r.error == Custom(0)
    ensures r.Ok? ==> r.value.claimed == 0 && r.value.claimed < r.value.amount
    ensures r.Ok? ==> r.value == Vesting(amount, 0, start, cliff, duration)
  {
    if cliff > duration then Err(Custom(0))
    else if amount == 0 then Err(Custom(0))
    else Ok(Vesting(amount, 0, start, cliff, duration))
  }

  // ---------------------------------------------------------------- claim, pure part

  datatype ClaimOutcome = ClaimOutcome(record: Vesting, distributed: u64)

  /** The bookkeeping of `claim` at time `now`: the unlocked total becomes the new `claimed`,
      and the difference to the old `claimed` is what leaves the vault. An unlocked total below
      what was already claimed aborts (u64 underflow). */
  function ClaimStep(v: Vesting, now: u64): (r: Result<ClaimOutcome, ProgramError>)
    ensures r.Err? ==> r.error == Panic
    ensures r.Err? <==> CalculateAmount(v.start, v.cliff, v.duration, v.amount, now).Err?
                        || CalculateAmount(v.start, v.cliff, v.duration, v.amount, now).value < v.claimed
    ensures r.Ok? ==> r.value.record == v.(claimed := CalculateAmount(v.start, v.cliff, v.duration, v.amount, now).value)
    ensures r.Ok? ==> r.value.record.claimed == v.claimed + r.value.distributed
    ensures r.Ok? ==> r.value.record.claimed <= v.amount
  {
    var total :- CalculateAmount(v.start, v.cliff, v.duration, v.amount, now);
    if total < v.claimed then Err(Panic)
    else Ok(ClaimOutcome(v.(claimed := total), total - v.claimed))
  }

  /** A second claim at the same time distributes nothing and changes nothing. */
  lemma ClaimStepIdempotent(v: Vesting, now: u64)
    requires ClaimStep(v, now).Ok?
    ensures ClaimStep(ClaimStep(v, now).value.record, now) == Ok(ClaimOutcome(ClaimStep(v, now).value.record, 0))
  {
  }

  /** Before the cliff a claim on a fresh schedule succeeds, distributes nothing and leaves
      `claimed` at 0. */
  lemma ClaimBeforeCliff(v: Vesting, now: u64)
    requires v.claimed == 0 && v.start + v.cliff <= U64_MAX && now < v.start + v.cliff
    ensures ClaimStep(v, now) == Ok(ClaimOutcome(v, 0))
  {
  }

  /** `create_vesting` accepts `cliff == duration == 0`, but every claim from `start` on then
      divides by zero: the deposit can never leave the vault. */
  lemma ZeroDurationLocksFunds(amount: u64, start: u64, now: u64)
    requires amount > 0
    ensures NewSchedule(amount, start, 0, 0).Ok?
    ensures ClaimStep(NewSchedule(amount, start, 0, 0).value, now)
         == if now < start then Ok(ClaimOutcome(NewSchedule(amount, start, 0, 0).value, 0)) else Err(Panic)
  {
  }

  /** `create_vesting` does not check that `start + cliff` fits in u64 (`StartCliffOverflow`
      is never raised); when it does not, every claim aborts. */
  lemma OverflowingCliffLocksFunds(amount: u64, start: u64, cliff: u64, duration: u64, now: u64)
    requires amount > 0 && cliff <= duration && start + cliff > U64_MAX
    ensures NewSchedule(amount, start, cliff, duration).Ok?
    ensures ClaimStep(NewSchedule(amount, start, cliff, duration).value, now) == Err(Panic)
  {
  }

  datatype RunOutcome = RunOutcome(record: Vesting, distributed: nat)

  /** Claims at the times `nows`, one after another; the first abort ends the run. */
  function ClaimRun(v: Vesting, nows: seq<u64>): (r: Result<RunOutcome, ProgramError>)
    ensures r.Ok? ==> r.value.record.claimed == v.claimed + r.value.distributed
    ensures r.Ok? ==> r.value.record == v.(claimed := r.value.record.claimed)
    decreases |nows|
  {
    if nows == [] then Ok(RunOutcome(v, 0))
    else
      var step :- ClaimStep(v, nows[0]);
      var rest :- ClaimRun(step.record, nows[1..]);
      Ok(RunOutcome(rest.record, step.distributed + rest.distributed))
  }

  ghost predicate NonDecreasing(nows: seq<u64>) {
    forall i, j :: 0 <= i <= j < |nows| ==> nows[i] <= nows[j]
  }

  /** The unlock calculator never aborts on this schedule. */
  predicate Claimable(v: Vesting) {
    v.start + v.cliff <= U64_MAX && v.duration > 0
  }

  /** With a clock that never goes back, claims never underflow: a run that starts from a
      record claimed no further than the first time allows completes. */
  lemma {:induction false} ClaimRunNeverAborts(v: Vesting, nows: seq<u64>)
    requires Claimable(v) && NonDecreasing(nows)
    requires nows != [] ==> v.claimed <= CalculateAmount(v.start, v.cliff, v.duration, v.amount, nows[0]).value
    ensures ClaimRun(v, nows).Ok?
    decreases |nows|
  {
    if nows != [] {
      var step := ClaimStep(v, nows[0]);
      assert step.Ok?;
      if |nows| > 1 {
        CalculateAmountMonotone(v.start, v.cliff, v.duration, v.amount, nows[0], nows[1]);
      }
      ClaimRunNeverAborts(step.value.record, nows[1..]);
    }
  }

  /** After a run, `claimed` is exactly what is unlocked at the last claim. */
  lemma {:induction false} ClaimRunClaimsUnlocked(v: Vesting, nows: seq<u64>)
    requires nows != [] && ClaimRun(v, nows).Ok?
    ensures CalculateAmount(v.start, v.cliff, v.duration, v.amount, nows[|nows| - 1]).Ok?
    ensures ClaimRun(v, nows).value.record.claimed
         == CalculateAmount(v.start, v.cliff, v.duration, v.amount, nows[|nows| - 1]).value
    decreases |nows|
  {
    var step := ClaimStep(v, nows[0]).value;
    if |nows| > 1 {
      ClaimRunClaimsUnlocked(step.record, nows[1..]);
    }
  }

  /** A schedule created by `create_vesting` and claimed along a clock that never goes back
      distributes, in all, exactly what is unlocked at the last claim: never more than
      `amount`, and all of it once `duration` has passed. */
  lemma FreshScheduleDistributesAtMostAmount(amount: u64, start: u64, cliff: u64, duration: u64, nows: seq<u64>)
    requires NewSchedule(amount, start, cliff, duration).Ok?
    requires start + cliff <= U64_MAX && duration > 0 && NonDecreasing(nows) && nows != []
    ensures ClaimRun(NewSchedule(amount, start, cliff, duration).value, nows).Ok?
    ensures ClaimRun(NewSchedule(amount, start, cliff, duration).value, nows).value.distributed <= amount
    ensures var last := nows[|nows| - 1];
            start + cliff <= last && last - start >= duration ==>
              ClaimRun(NewSchedule(amount, start, cliff, duration).value, nows).value.distributed == amount
  {
    var v := NewSchedule(amount, start, cliff, duration).value;
    ClaimRunNeverAborts(v, nows);
    ClaimRunClaimsUnlocked(v, nows);
  }

  // ---------------------------------------------------------------- the gates of process

  /** The gates of `process` that come before the addresses: the signer signs, mint and wallet
      are owned by the token program, and a claim comes from `user`. */
  predicate FirstGates(env: Env, instr: I.VestingInstruction, metas: seq<AccountMeta>)
    requires |metas| >= 3
  {
    && metas[0].isSigner
    && metas[1].owner == env.tokenProgramId
    && metas[2].owner == env.tokenProgramId
    && (instr.Claim? ==> metas[0].key == instr.user)
  }

  /** What the account gates of `process` demand, all at once. */
  predicate Admissible(env: Env, instr: I.VestingInstruction, metas: seq<AccountMeta>) {
    && |metas| >= 5
    && FirstGates(env, instr, metas)
    && metas[3].key == env.Derive(VestingSeeds(metas[1].key, instr.user, instr.nonce))
    && metas[4].key == env.Derive(VaultSeeds(metas[1].key, instr.user, instr.nonce))
  }

  /** The account gates of `process`, in their order: signer, mint, wallet, then (for a claim)
      the claimer, then the vesting and vault addresses. Accounts are taken one at a time, so a
      missing account is reported only when its turn comes. */
  function Admit(env: Env, instr: I.VestingInstruction, metas: seq<AccountMeta>): (r: Result<(), ProgramError>)
    ensures r.Ok? <==> Admissible(env, instr, metas)
    ensures |metas| >= 1 && !metas[0].isSigner ==> r == Err(MissingRequiredSignature)
    ensures |metas| >= 2 && metas[0].isSigner && metas[1].owner != env.tokenProgramId
            ==> r == Err(Custom(NotOwnedByTokenProgram.Code()))
    ensures (|metas| >= 3 && metas[0].isSigner && metas[1].owner == env.tokenProgramId
             && metas[2].owner != env.tokenProgramId) ==> r == Err(Custom(NotOwnedByTokenProgram.Code()))
    ensures (|metas| >= 3 && metas[0].isSigner && metas[1].owner == env.tokenProgramId
             && metas[2].owner == env.tokenProgramId && instr.Claim? && metas[0].key != instr.user)
            ==> r == Err(Custom(UnauthorizedClaimer.Code()))
    ensures |metas| == 0 ==> r == Err(NotEnoughAccountKeys)
    ensures |metas| == 1 && metas[0].isSigner ==> r == Err(NotEnoughAccountKeys)
    ensures |metas| == 2 && metas[0].isSigner && metas[1].owner == env.tokenProgramId ==> r == Err(NotEnoughAccountKeys)
    ensures |metas| == 3 && FirstGates(env, instr, metas) ==> r == Err(NotEnoughAccountKeys)
    ensures (|metas| >= 4 && FirstGates(env, instr, metas)
             && metas[3].key != env.Derive(VestingSeeds(metas[1].key, instr.user, instr.nonce)))
            ==> r == Err(Custom(INVALID_PDA_KEY))
    ensures (|metas| == 4 && FirstGates(env, instr, metas)
             && metas[3].key == env.Derive(VestingSeeds(metas[1].key, instr.user, instr.nonce)))
            ==> r == Err(NotEnoughAccountKeys)
    ensures (|metas| >= 5 && FirstGates(env, instr, metas)
             && metas[3].key == env.Derive(VestingSeeds(metas[1].key, instr.user, instr.nonce))
             && metas[4].key != env.Derive(VaultSeeds(metas[1].key, instr.user, instr.nonce)))
            ==> r == Err(Custom(INVALID_PDA_KEY))
    ensures r.Err? ==> r.error in {NotEnoughAccountKeys, MissingRequiredSignature, Custom(102), Custom(103), Custom(INVALID_PDA_KEY)}
  {
    if |metas| < 1 then Err(NotEnoughAccountKeys)
    else if !metas[0].isSigner then Err(MissingRequiredSignature)
    else if |metas| < 2 then Err(NotEnoughAccountKeys)
    else if metas[1].owner != env.tokenProgramId then Err(Custom(NotOwnedByTokenProgram.Code()))
    else if |metas| < 3 then Err(NotEnoughAccountKeys)
    else if metas[2].owner != env.tokenProgramId then Err(Custom(NotOwnedByTokenProgram.Code()))
    else if instr.Claim? && metas[0].key != instr.user then Err(Custom(UnauthorizedClaimer.Code()))
    else if |metas| < 4 then Err(NotEnoughAccountKeys)
    else if VestingCheckInfo(env, metas[3].key, metas[1].key, instr.user, instr.nonce).Err? then Err(Custom(INVALID_PDA_KEY))
    else if |metas| < 5 then Err(NotEnoughAccountKeys)
    else if VaultCheckInfo(env, metas[4].key, metas[1].key, instr.user, instr.nonce).Err? then Err(Custom(INVALID_PDA_KEY))
    else Ok(())
  }

  // ---------------------------------------------------------------- the instructions

  /** When `create_vesting`, its parameters accepted, succeeds: both accounts are at their
      derived addresses, the signer can pay, the vesting and the vault account are two distinct
      writable accounts not yet in use, the vault is not yet a token account, and the wallet
      can send `amount` to it. */
  predicate CreateSucceeds(env: Env, acc: Accounts, user: Pubkey, nonce: u64, amount: u64, balances: map<Pubkey, u64>)
    reads acc.vesting, acc.vault
  {
    && VestingCheckInfo(env, acc.vesting.key, acc.mint.key, user, nonce).Ok?
    && VaultCheckInfo(env, acc.vault.key, acc.mint.key, user, nonce).Ok?
    && acc.signer.isSigner && acc.signer.isWritable
    && acc.vesting.isWritable && !acc.vesting.InUse()
    && acc.vault != acc.vesting
    && acc.vault.isWritable && !acc.vault.InUse()
    && acc.vault.key !in balances
    && acc.wallet.isWritable
    && CanMove(balances[acc.vault.key := 0], acc.wallet.key, acc.vault.key, amount)
  }

  /** When a `claim` planned as `plan` succeeds: the plan did not fail, the vault is at its
      derived address, vault and wallet are writable, and the vault covers the distributed
      amount. */
  predicate ClaimSucceeds(env: Env, acc: Accounts, user: Pubkey, nonce: u64, plan: Result<ClaimOutcome, ProgramError>, balances: map<Pubkey, u64>) {
    && plan.Ok?
    && VaultCheckInfo(env, acc.vault.key, acc.mint.key, user, nonce).Ok?
    && acc.vault.isWritable && acc.wallet.isWritable
    && CanMove(balances, acc.vault.key, acc.wallet.key, plan.value.distributed)
  }

  /** When an instruction whose gates have passed succeeds, at time `now` and with token
      balances `balances`. */
  predicate InstructionSucceeds(env: Env, instr: I.VestingInstruction, acc: Accounts, now: i64, balances: map<Pubkey, u64>)
    reads acc.vesting, acc.vault, acc.vesting.data
  {
    match instr
    case CreateVesting(user, nonce, amount, start, cliff, duration) =>
      NewSchedule(amount, start, cliff, duration).Ok? && CreateSucceeds(env, acc, user, nonce, amount, balances)
    case Claim(user, nonce) =>
      ClaimSucceeds(env, acc, user, nonce, PlanClaim(acc.vesting.data[..], now), balances)
  }

  /** `create_vesting`: parameter checks before any account is touched, then the vesting
      account with its fresh record, then the vault, then the deposit of `amount` from the
      wallet into the vault. */
  method CreateVesting(env: Env, acc: Accounts, user: Pubkey, nonce: u64, amount: u64, start: u64, cliff: u64, duration: u64, ledger: TokenLedger)
    returns (r: Result<(), ProgramError>)
    modifies acc.vesting, acc.vault, ledger
    ensures NewSchedule(amount, start, cliff, duration).Err? ==>
              r == Err(Custom(0)) && unchanged(acc.vesting, acc.vault) && ledger.balances == old(ledger.balances)
    ensures r.Ok? ==> NewSchedule(amount, start, cliff, duration).Ok?
                      && acc.vesting.owner == env.programId
                      && acc.vesting.data[..] == Encode(Vesting(amount, 0, start, cliff, duration))
                      && acc.vault.owner == env.tokenProgramId && acc.vault.data.Length == env.tokenAccountSize
    ensures r.Ok? ==> acc.vault.key !in old(ledger.balances)
                      && CanMove(old(ledger.balances)[acc.vault.key := 0], acc.wallet.key, acc.vault.key, amount)
                      && ledger.balances == Moved(old(ledger.balances)[acc.vault.key := 0], acc.wallet.key, acc.vault.key, amount)
    ensures NewSchedule(amount, start, cliff, duration).Ok? ==>
              (r.Ok? <==> old(CreateSucceeds(env, acc, user, nonce, amount, ledger.balances)))
    ensures old(acc.vesting.InUse()) ==> r.Err?
    ensures old(acc.vault.InUse()) ==> r.Err?
    ensures (VestingCheckInfo(env, acc.vesting.key, acc.mint.key, user, nonce).Ok?
             && VaultCheckInfo(env, acc.vault.key, acc.mint.key, user, nonce).Ok?) ==> r != Err(Custom(INVALID_PDA_KEY))
    ensures r.Err? ==> r.error == Custom(0) || r.error == Custom(INVALID_PDA_KEY)
                       || r.error == SystemProgramFailure || r.error == TokenProgramFailure
  {
    var schedule :- NewSchedule(amount, start, cliff, duration);
    r := VestingCreate(env, acc.vesting, acc.signer, acc.mint.key, user, nonce);
    if r.Err? {
      return;
    }
    var written := SetData(schedule, acc.vesting);
    assert written.Ok?;
    assert acc.vesting.data[..] == Encode(schedule);
    r := VaultCreate(env, acc.vault, acc.signer, acc.mint.key, user, nonce, ledger);
    if r.Err? {
      return;
    }
    r := TransferTokenToPda(acc.vault, acc.wallet, amount, ledger);
  }

  /** The computation of `claim` before anything is written: read the record, read the clock
      (a negative time aborts the `unwrap`), take the claim step. */
  function PlanClaim(data: seq<byte>, now: i64): (r: Result<ClaimOutcome, ProgramError>)
    ensures Decode(data).Err? ==> r == Err(BorshIoError)
    ensures Decode(data).Ok? && now < 0 ==> r == Err(Panic)
    ensures Decode(data).Ok? && now >= 0 ==> r == ClaimStep(Decode(data).value, now)
    ensures r.Ok? ==> |data| == SIZE
                      && r.value.record.claimed == Decode(data).value.claimed + r.value.distributed
                      && r.value.record.claimed <= r.value.record.amount
  {
    var record :- Decode(data);
    if now < 0 then Err(Panic) else ClaimStep(record, now)
  }

  /** `claim`: the new record is written before the vault transfer is issued, so it is in the
      account even when the transfer then fails (the host discards both). */
  method Claim(env: Env, acc: Accounts, user: Pubkey, nonce: u64, now: i64, ledger: TokenLedger)
    returns (r: Result<(), ProgramError>)
    modifies acc.vesting.data, ledger
    ensures PlanClaim(old(acc.vesting.data[..]), now).Err? ==>
              r == Err(PlanClaim(old(acc.vesting.data[..]), now).error)
              && acc.vesting.data[..] == old(acc.vesting.data[..]) && ledger.balances == old(ledger.balances)
    ensures PlanClaim(old(acc.vesting.data[..]), now).Ok? ==>
              acc.vesting.data[..] == Encode(PlanClaim(old(acc.vesting.data[..]), now).value.record)
    ensures r.Ok? <==> ClaimSucceeds(env, acc, user, nonce, PlanClaim(old(acc.vesting.data[..]), now), old(ledger.balances))
    ensures r.Ok? ==> PlanClaim(old(acc.vesting.data[..]), now).Ok?
                      && ledger.balances == Moved(old(ledger.balances), acc.vault.key, acc.wallet.key,
                                                  PlanClaim(old(acc.vesting.data[..]), now).value.distributed)
    ensures r.Err? ==> ledger.balances == old(ledger.balances)
    ensures VaultCheckInfo(env, acc.vault.key, acc.mint.key, user, nonce).Ok? ==> r != Err(Custom(INVALID_PDA_KEY))
    ensures r.Err? ==> r.error == BorshIoError || r.error == Panic
                       || r.error == Custom(INVALID_PDA_KEY) || r.error == TokenProgramFailure
  {
    ghost var plan := PlanClaim(acc.vesting.data[..], now);
    var record :- GetData(acc.vesting);
    if now < 0 {
      return Err(Panic);
    }
    var step :- ClaimStep(record, now);
    assert plan == Ok(step);
    var written := SetData(step.record, acc.vesting);
    assert written.Ok?;
    r := VaultTransferOut(env, acc.vault, acc.wallet, acc.mint.key, user, nonce, step.distributed, ledger);
  }

  /** What a successful `create_vesting` leaves: the vesting account owned by the program and
      holding the fresh record, the vault a new token account of the token account size (it held
      no balance before), and `amount` moved from the wallet into the vault. */
  twostate predicate Created(env: Env, instr: I.VestingInstruction, accounts: seq<AccountInfo>, ledger: TokenLedger)
    requires instr.CreateVesting? && |accounts| >= 5
    reads accounts, accounts[3].data, accounts[4].data, ledger
  {
    var vesting, wallet, vault := accounts[3], accounts[2], accounts[4];
    var before := old(ledger.balances)[vault.key := 0];
    && vesting.owner == env.programId
    && GetData(vesting) == Ok(Vesting(instr.amount, 0, instr.start, instr.cliff, instr.duration))
    && vault.owner == env.tokenProgramId
    && vault.data.Length == env.tokenAccountSize
    && vault.key !in old(ledger.balances)
    && CanMove(before, wallet.key, vault.key, instr.amount)
    && ledger.balances == Moved(before, wallet.key, vault.key, instr.amount)
  }

  /** What a successful `claim` planned as `plan` leaves: the vesting account holds the new
      record, the claimed amount moved from the vault to the wallet, and neither the vesting
      nor the vault account changed otherwise. */
  twostate predicate Claimed(plan: Result<ClaimOutcome, ProgramError>, accounts: seq<AccountInfo>, ledger: TokenLedger)
    requires |accounts| >= 5
    reads accounts, accounts[3].data, accounts[4].data, ledger
  {
    var vesting, wallet, vault := accounts[3], accounts[2], accounts[4];
    var before := old(ledger.balances);
    && plan.Ok?
    && GetData(vesting) == Ok(plan.value.record)
    && CanMove(before, vault.key, wallet.key, plan.value.distributed)
    && ledger.balances == Moved(before, vault.key, wallet.key, plan.value.distributed)
    && unchanged(vesting, vault)
    && (vault.data != vesting.data ==> unchanged(vault.data))
  }

  /** Every account other than the vesting and the vault account keeps its owner and its data
      array, and the data itself unless it is shared with the vesting account. */
  twostate predicate OthersUnchanged(accounts: seq<AccountInfo>)
    requires |accounts| >= 5
    reads accounts, set a | a in accounts :: a.data
  {
    forall a | a in accounts && a != accounts[3] && a != accounts[4] ::
      unchanged(a) && (a.data != old(accounts[3].data) ==> unchanged(a.data))
  }

  /** `process`: decode the instruction, run the gates over the accounts, then the
      instruction. */
  method Process(env: Env, accounts: seq<AccountInfo>, instructionData: seq<byte>, now: i64, ledger: TokenLedger)
    returns (r: Result<(), ProgramError>)
    modifies accounts, set a | a in accounts :: a.data, ledger
    ensures I.Decode(instructionData).Err? ==>
              r == Err(BorshIoError) && ledger.balances == old(ledger.balances)
              && forall a | a in accounts :: unchanged(a) && unchanged(a.data)
    ensures I.Decode(instructionData).Ok? && Admit(env, I.Decode(instructionData).value, old(Metas(accounts))).Err? ==>
              r == Admit(env, I.Decode(instructionData).value, old(Metas(accounts)))
              && ledger.balances == old(ledger.balances)
              && forall a | a in accounts :: unchanged(a) && unchanged(a.data)
    ensures r.Ok? <==> I.Decode(instructionData).Ok? && Admissible(env, I.Decode(instructionData).value, old(Metas(accounts)))
                       && old(InstructionSucceeds(env, I.Decode(instructionData).value, Roles(accounts), now, ledger.balances))
    ensures I.Decode(instructionData).Ok? && Admissible(env, I.Decode(instructionData).value, old(Metas(accounts)))
            ==> r != Err(Custom(INVALID_PDA_KEY))
    ensures r.Err? && r.error.Custom? ==> r.error.code in {0, 102, 103, INVALID_PDA_KEY}
    ensures r.Ok? && I.Decode(instructionData).value.CreateVesting? ==> Created(env, I.Decode(instructionData).value, accounts, ledger)
    ensures r.Ok? && I.Decode(instructionData).value.Claim? ==> Claimed(PlanClaim(old(accounts[3].data[..]), now), accounts, ledger)
    ensures |accounts| >= 5 ==> OthersUnchanged(accounts)
  {
    var decoded := I.Decode(instructionData);
    if decoded.Err? {
      return Err(BorshIoError);
    }
    r := Run(env, decoded.value, accounts, now, ledger);
  }

  /** `process` once the instruction is decoded: the gates, then the instruction. */
  method Run(env: Env, instr: I.VestingInstruction, accounts: seq<AccountInfo>, now: i64, ledger: TokenLedger)
    returns (r: Result<(), ProgramError>)
    modifies accounts, set a | a in accounts :: a.data, ledger
    ensures Admit(env, instr, old(Metas(accounts))).Err? ==>
              r == Admit(env, instr, old(Metas(accounts)))
              && ledger.balances == old(ledger.balances)
              && forall a | a in accounts :: unchanged(a) && unchanged(a.data)
    ensures r.Ok? <==> Admissible(env, instr, old(Metas(accounts)))
                       && old(InstructionSucceeds(env, instr, Roles(accounts), now, ledger.balances))
    ensures Admissible(env, instr, old(Metas(accounts)))
            ==> r != Err(Custom(INVALID_PDA_KEY))
    ensures r.Err? && r.error.Custom? ==> r.error.code in {0, 102, 103, INVALID_PDA_KEY}
    ensures r.Ok? && instr.CreateVesting? ==> Created(env, instr, accounts, ledger)
    ensures r.Ok? && instr.Claim? ==> Claimed(PlanClaim(old(accounts[3].data[..]), now), accounts, ledger)
    ensures |accounts| >= 5 ==> OthersUnchanged(accounts)
  {
    var gate := Admit(env, instr, Metas(accounts));
    if gate.Err? {
      assert gate.error.Custom? ==> gate.error.code in {102, 103, INVALID_PDA_KEY};
      return gate;
    }
    var acc := Roles(accounts);
    r := Dispatch(env, instr, acc, now, ledger);
  }

  /** The instruction itself, once the gates have passed. */
  method Dispatch(env: Env, instr: I.VestingInstruction, acc: Accounts, now: i64, ledger: TokenLedger)
    returns (r: Result<(), ProgramError>)
    modifies acc.vesting, acc.vault, acc.vesting.data, ledger
    ensures VestingCheckInfo(env, acc.vesting.key, acc.mint.key, instr.user, instr.nonce).Ok?
            && VaultCheckInfo(env, acc.vault.key, acc.mint.key, instr.user, instr.nonce).Ok?
            ==> r != Err(Custom(INVALID_PDA_KEY))
    ensures r.Err? && r.error.Custom? ==> r.error.code == 0 || r.error.code == INVALID_PDA_KEY
    ensures r.Ok? <==> old(InstructionSucceeds(env, instr, acc, now, ledger.balances))
    ensures r.Ok? && instr.CreateVesting? ==>
              && acc.vesting.owner == env.programId
              && GetData(acc.vesting) == Ok(Vesting(instr.amount, 0, instr.start, instr.cliff, instr.duration))
              && acc.vault.owner == env.tokenProgramId && acc.vault.data.Length == env.tokenAccountSize
              && acc.vault.key !in old(ledger.balances)
              && CanMove(old(ledger.balances)[acc.vault.key := 0], acc.wallet.key, acc.vault.key, instr.amount)
              && ledger.balances == Moved(old(ledger.balances)[acc.vault.key := 0], acc.wallet.key, acc.vault.key, instr.amount)
    ensures r.Ok? && instr.Claim? ==>
              var plan := PlanClaim(old(acc.vesting.data[..]), now);
              && plan.Ok?
              && GetData(acc.vesting) == Ok(plan.value.record)
              && CanMove(old(ledger.balances), acc.vault.key, acc.wallet.key, plan.value.distributed)
              && ledger.balances == Moved(old(ledger.balances), acc.vault.key, acc.wallet.key, plan.value.distributed)
    ensures instr.Claim? ==> unchanged(acc.vesting, acc.vault)
                             && (acc.vault.data != acc.vesting.data ==> unchanged(acc.vault.data))
  {
    match instr
    case CreateVesting(user, nonce, amount, start, cliff, duration) =>
      r := CreateVesting(env, acc, user, nonce, amount, start, cliff, duration, ledger);
      if r.Ok? {
        DecodeEncode(Vesting(amount, 0, start, cliff, duration));
      }
    case Claim(user, nonce) =>
      r := Claim(env, acc, user, nonce, now, ledger);
      if r.Ok? {
        DecodeEncode(PlanClaim(old(acc.vesting.data[..]), now).value.record);
      }
  }
}
