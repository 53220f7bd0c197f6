/** src/lib.rs: the entrypoint that the crate actually compiles. It shares the record, the
    instruction and the account helpers with src/processor.rs but has its own gates, its own
    `claim` (transfer first, record afterwards) and its own uncapped `calculate_amount`. */
module CompiledLib {
  import opened Types
  import opened Errors
  import opened Solana
  import opened Schedule
  import opened Pda
  import I = Instruction
  import P = Processor

  /** The gates of `process_instruction`: only the signer is checked before the vesting
      address, and the vault check is applied to the vesting account's key (lines 79 and 98),
      the vault account itself is never looked at. */
  function AdmitLib(env: Env, instr: I.VestingInstruction, metas: seq<AccountMeta>): (r: Result<(), ProgramError>)
    ensures r.Ok? <==> |metas| >= 5 && metas[0].isSigner
                       && metas[3].key == env.Derive(VestingSeeds(metas[1].key, instr.user, instr.nonce))
                       && metas[3].key == env.Derive(VaultSeeds(metas[1].key, instr.user, instr.nonce))
    ensures |metas| >= 1 && !metas[0].isSigner ==> r == Err(MissingRequiredSignature)
    ensures r.Err? ==> r.error in {NotEnoughAccountKeys, MissingRequiredSignature, Custom(INVALID_PDA_KEY)}
  {
    if |metas| < 1 then Err(NotEnoughAccountKeys)
    else if !metas[0].isSigner then Err(MissingRequiredSignature)
    else if |metas| < 4 then Err(NotEnoughAccountKeys)
    else if VestingCheckInfo(env, metas[3].key, metas[1].key, instr.user, instr.nonce).Err? then Err(Custom(INVALID_PDA_KEY))
    else if |metas| < 5 then Err(NotEnoughAccountKeys)
    else if VaultCheckInfo(env, metas[3].key, metas[1].key, instr.user, instr.nonce).Err? then Err(Custom(INVALID_PDA_KEY))
    else Ok(())
  }

  /** The address derivation never gives the vesting and the vault seed lists of one schedule
      the same address. Their tags differ, so only a collision of the hash behind
      `find_program_address` could break this. */
  ghost predicate SeparatesTags(env: Env) {
    forall m: Pubkey, u: Pubkey, n: u64 :: env.Derive(VestingSeeds(m, u, n)) != env.Derive(VaultSeeds(m, u, n))
  }

  /** The assumption is satisfiable: a derivation that sends every seed list tagged "VAULT" to
      one address and every other seed list to another meets it. */
  lemma SomeDerivationSeparatesTags(programId: Pubkey, tokenProgramId: Pubkey, size: nat)
    ensures SeparatesTags(Env(programId, tokenProgramId, TagDerivation, size))
  {
    var env := Env(programId, tokenProgramId, TagDerivation, size);
    forall m: Pubkey, u: Pubkey, n: u64
      ensures env.Derive(VestingSeeds(m, u, n)) != env.Derive(VaultSeeds(m, u, n))
    {
      SeedListsDetermineSchedule(m, u, n, m, u, n);
      assert env.Derive(VaultSeeds(m, u, n))[0] == 1;
      assert env.Derive(VestingSeeds(m, u, n))[0] == 0;
    }
  }

  /** The derivation used by `SomeDerivationSeparatesTags`. */
  function TagDerivation(seeds: Seeds, programId: Pubkey): (r: Pubkey)
    ensures r[0] == if |seeds| > 0 && seeds[0] == VAULT_SEED then 1 else 0
  {
    if |seeds| > 0 && seeds[0] == VAULT_SEED then seq(32, _ => 1) else seq(32, _ => 0)
  }

  /** When the derivation keeps the two addresses of a schedule apart, no account list passes
      the gates of `process_instruction`: one key cannot be both the vesting and the vault
      address. */
  lemma LibNeverAdmits(env: Env, instr: I.VestingInstruction, metas: seq<AccountMeta>)
    requires SeparatesTags(env)
    ensures AdmitLib(env, instr, metas).Err?
  {
    if |metas| >= 5 {
      var mint := metas[1].key;
      assert env.Derive(VestingSeeds(mint, instr.user, instr.nonce)) != env.Derive(VaultSeeds(mint, instr.user, instr.nonce));
    }
  }

  /** The account in the vault position never influences the gates. */
  lemma LibIgnoresVaultAccount(env: Env, instr: I.VestingInstruction, metas: seq<AccountMeta>, other: AccountMeta)
    requires |metas| >= 5
    ensures AdmitLib(env, instr, metas[4 := other]) == AdmitLib(env, instr, metas)
  {
  }

  /** `clock.unix_timestamp as u64`: two's complement reinterpretation. */
  function AsU64(now: i64): (r: u64)
    ensures now >= 0 ==> r == now
    ensures now < 0 ==> r == now + U64_MODULUS
  {
    if now >= 0 then now else now + U64_MODULUS
  }

  /** The computation of `claim` in src/lib.rs before anything is written. */
  function PlanClaimLib(data: seq<byte>, now: i64): (r: Result<P.ClaimOutcome, ProgramError>)
    ensures Decode(data).Err? ==> r == Err(BorshIoError)
    ensures Decode(data).Ok? ==>
              var v := Decode(data).value;
              var total := CalculateAmountLib(v.start, v.cliff, v.duration, v.amount, AsU64(now));
              && (r.Err? <==> total.Err? || total.value < v.claimed)
              && (r.Err? ==> r.error == Panic)
              && (r.Ok? ==> r.value.record == v.(claimed := total.value)
                            && r.value.record.claimed == v.claimed + r.value.distributed)
  {
    var record :- Decode(data);
    var total :- CalculateAmountLib(record.start, record.cliff, record.duration, record.amount, AsU64(now));
    if total < record.claimed then Err(Panic)
    else Ok(P.ClaimOutcome(record.(claimed := total), total - record.claimed))
  }

  /** Within the schedule the compiled `claim` computes what src/processor.rs computes. */
  lemma PlanClaimLibAgreesWithinDuration(data: seq<byte>, now: i64)
    requires now >= 0 && Decode(data).Ok?
    requires var v := Decode(data).value; v.start + v.cliff <= now ==> now - v.start <= v.duration
    requires PlanClaimLib(data, now).Ok?
    ensures P.PlanClaim(data, now) == PlanClaimLib(data, now)
  {
    var v := Decode(data).value;
    LibAgreesWithinDuration(v.start, v.cliff, v.duration, v.amount, now);
  }

  /** When an instruction whose gates have passed succeeds under lib.rs: as in processor.rs,
      except that a claim is planned by `PlanClaimLib`. */
  predicate InstructionSucceedsLib(env: Env, instr: I.VestingInstruction, acc: P.Accounts, now: i64, balances: map<Pubkey, u64>)
    reads acc.vesting, acc.vault, acc.vesting.data
  {
    match instr
    case CreateVesting(user, nonce, amount, start, cliff, duration) =>
      P.NewSchedule(amount, start, cliff, duration).Ok? && P.CreateSucceeds(env, acc, user, nonce, amount, balances)
    case Claim(user, nonce) =>
      P.ClaimSucceeds(env, acc, user, nonce, PlanClaimLib(acc.vesting.data[..], now), balances)
  }

  /** `claim` of src/lib.rs: the vault transfer comes first and the record is written only
      after it succeeded. */
  method ClaimLib(env: Env, acc: P.Accounts, user: Pubkey, nonce: u64, now: i64, ledger: TokenLedger)
    returns (r: Result<(), ProgramError>)
    modifies acc.vesting.data, ledger
    ensures PlanClaimLib(old(acc.vesting.data[..]), now).Err? ==>
              r == Err(PlanClaimLib(old(acc.vesting.data[..]), now).error)
    ensures r.Ok? <==> P.ClaimSucceeds(env, acc, user, nonce, PlanClaimLib(old(acc.vesting.data[..]), now), old(ledger.balances))
    ensures r.Ok? ==> PlanClaimLib(old(acc.vesting.data[..]), now).Ok?
                      && acc.vesting.data[..] == Encode(PlanClaimLib(old(acc.vesting.data[..]), now).value.record)
                      && CanMove(old(ledger.balances), acc.vault.key, acc.wallet.key,
                                 PlanClaimLib(old(acc.vesting.data[..]), now).value.distributed)
                      && ledger.balances == Moved(old(ledger.balances), acc.vault.key, acc.wallet.key,
                                                  PlanClaimLib(old(acc.vesting.data[..]), now).value.distributed)
    ensures r.Err? ==> acc.vesting.data[..] == old(acc.vesting.data[..]) && ledger.balances == old(ledger.balances)
    ensures r.Err? ==> r.error in {BorshIoError, Panic, Custom(INVALID_PDA_KEY), TokenProgramFailure}
  {
    ghost var plan := PlanClaimLib(acc.vesting.data[..], now);
    var record :- GetData(acc.vesting);
    var total :- CalculateAmountLib(record.start, record.cliff, record.duration, record.amount, AsU64(now));
    if total < record.claimed {
      return Err(Panic);
    }
    assert plan == Ok(P.ClaimOutcome(record.(claimed := total), total - record.claimed));
    r := VaultTransferOut(env, acc.vault, acc.wallet, acc.mint.key, user, nonce, total - record.claimed, ledger);
    if r.Err? {
      return;
    }
    var written := SetData(record.(claimed := total), acc.vesting);
    assert written.Ok?;
  }

  /** `process_instruction` of src/lib.rs. Its `create_vesting` differs from the one of
      src/processor.rs only in building the record before the accounts, so it is shared. */
  method ProcessInstruction(env: Env, accounts: seq<AccountInfo>, instructionData: seq<byte>, now: i64, ledger: TokenLedger)
    returns (r: Result<(), ProgramError>)
    modifies accounts, set a | a in accounts :: a.data, ledger
    ensures I.Decode(instructionData).Err? ==>
              r == Err(BorshIoError) && ledger.balances == old(ledger.balances)
              && forall a | a in accounts :: unchanged(a) && unchanged(a.data)
    ensures (I.Decode(instructionData).Ok? && AdmitLib(env, I.Decode(instructionData).value, old(Metas(accounts))).Err?) ==>
              r == AdmitLib(env, I.Decode(instructionData).value, old(Metas(accounts)))
              && ledger.balances == old(ledger.balances)
              && forall a | a in accounts :: unchanged(a) && unchanged(a.data)
    ensures SeparatesTags(env) ==>
              r.Err? && ledger.balances == old(ledger.balances)
              && forall a | a in accounts :: unchanged(a) && unchanged(a.data)
    ensures r.Ok? <==> I.Decode(instructionData).Ok? && AdmitLib(env, I.Decode(instructionData).value, old(Metas(accounts))).Ok?
                       && old(InstructionSucceedsLib(env, I.Decode(instructionData).value, P.Roles(accounts), now, ledger.balances))
    ensures r.Ok? && I.Decode(instructionData).value.CreateVesting? ==> P.Created(env, I.Decode(instructionData).value, accounts, ledger)
    ensures r.Ok? && I.Decode(instructionData).value.Claim? ==> P.Claimed(PlanClaimLib(old(accounts[3].data[..]), now), accounts, ledger)
    ensures |accounts| >= 5 ==> P.OthersUnchanged(accounts)
  {
    var decoded := I.Decode(instructionData);
    if decoded.Err? {
      return Err(BorshIoError);
    }
    if SeparatesTags(env) {
      LibNeverAdmits(env, decoded.value, Metas(accounts));
    }
    r := RunLib(env, decoded.value, accounts, now, ledger);
  }

  /** `process_instruction` once the instruction is decoded: the gates, then the instruction. */
  method RunLib(env: Env, instr: I.VestingInstruction, accounts: seq<AccountInfo>, now: i64, ledger: TokenLedger)
    returns (r: Result<(), ProgramError>)
    modifies accounts, set a | a in accounts :: a.data, ledger
    ensures AdmitLib(env, instr, old(Metas(accounts))).Err? ==>
              r == AdmitLib(env, instr, old(Metas(accounts)))
              && ledger.balances == old(ledger.balances)
              && forall a | a in accounts :: unchanged(a) && unchanged(a.data)
    ensures r.Ok? <==> AdmitLib(env, instr, old(Metas(accounts))).Ok?
                       && old(InstructionSucceedsLib(env, instr, P.Roles(accounts), now, ledger.balances))
    ensures r.Ok? && instr.CreateVesting? ==> P.Created(env, instr, accounts, ledger)
    ensures r.Ok? && instr.Claim? ==> P.Claimed(PlanClaimLib(old(accounts[3].data[..]), now), accounts, ledger)
    ensures |accounts| >= 5 ==> P.OthersUnchanged(accounts)
  {
    var gate := AdmitLib(env, instr, Metas(accounts));
    if gate.Err? {
      return gate;
    }
    var acc := P.Roles(accounts);
    r := DispatchLib(env, instr, acc, now, ledger);
  }

  /** The instruction itself, once the gates of `process_instruction` have passed. */
  method DispatchLib(env: Env, instr: I.VestingInstruction, acc: P.Accounts, now: i64, ledger: TokenLedger)
    returns (r: Result<(), ProgramError>)
    modifies acc.vesting, acc.vault, acc.vesting.data, ledger
    ensures r.Ok? <==> old(InstructionSucceedsLib(env, instr, acc, now, ledger.balances))
    ensures r.Ok? && instr.CreateVesting? ==>
              && acc.vesting.owner == env.programId
              && GetData(acc.vesting) == Ok(Vesting(instr.amount, 0, instr.start, instr.cliff, instr.duration))
              && acc.vault.owner == env.tokenProgramId && acc.vault.data.Length == env.tokenAccountSize
              && acc.vault.key !in old(ledger.balances)
              && CanMove(old(ledger.balances)[acc.vault.key := 0], acc.wallet.key, acc.vault.key, instr.amount)
              && ledger.balances == Moved(old(ledger.balances)[acc.vault.key := 0], acc.wallet.key, acc.vault.key, instr.amount)
    ensures r.Ok? && instr.Claim? ==>
              var plan := PlanClaimLib(old(acc.vesting.data[..]), now);
              && plan.Ok?
              && GetData(acc.vesting) == Ok(plan.value.record)
              && CanMove(old(ledger.balances), acc.vault.key, acc.wallet.key, plan.value.distributed)
              && ledger.balances == Moved(old(ledger.balances), acc.vault.key, acc.wallet.key, plan.value.distributed)
    ensures instr.Claim? ==> unchanged(acc.vesting, acc.vault)
                             && (acc.vault.data != acc.vesting.data ==> unchanged(acc.vault.data))
  {
    match instr
    case CreateVesting(user, nonce, amount, start, cliff, duration) =>
      r := P.CreateVesting(env, acc, user, nonce, amount, start, cliff, duration, ledger);
      if r.Ok? {
        DecodeEncode(Vesting(amount, 0, start, cliff, duration));
      }
    case Claim(user, nonce) =>
      r := ClaimLib(env, acc, user, nonce, now, ledger);
      if r.Ok? {
        DecodeEncode(PlanClaimLib(old(acc.vesting.data[..]), now).value.record);
      }
  }
}
