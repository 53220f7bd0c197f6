/** src/helpers.rs: a second set of account helpers, in which every guard is an `assert!`
    (a failed guard aborts the program) and a wrong address is reported as
    `CustomError::InvalidPDAKey` (101). */
module Helpers {
  import opened Types
  import opened Errors
  import opened Solana
  import Pda

  /** `check_expected_address`. */
  function CheckExpectedAddress(env: Env, key: Pubkey, seeds: Seeds): (r: Result<(), ProgramError>)
    ensures r.Err? <==> key != env.Derive(seeds)
    ensures r.Err? ==> r.error == Custom(InvalidPDAKey.Code())
  {
    if key != env.Derive(seeds) then Err(Custom(InvalidPDAKey.Code())) else Ok(())
  }

  /** Both versions of the address check accept exactly the same keys; they differ only in the
      code they report, 101 here and 201 in src/pda.rs. */
  lemma AddressChecksAgree(env: Env, key: Pubkey, seeds: Seeds)
    ensures CheckExpectedAddress(env, key, seeds).Ok? <==> Pda.CheckExpectedAddress(env, key, seeds).Ok?
    ensures CheckExpectedAddress(env, key, seeds).Err? ==>
              CheckExpectedAddress(env, key, seeds).error == Custom(101)
              && Pda.CheckExpectedAddress(env, key, seeds).error == Custom(201)
  {
  }

  /** `create_pda`: the payer must be a writable signer, the account writable and at the
      derived address, or the program aborts; then the system program creates the account
      with `space` bytes (`T::size()`) owned by `owner`. */
  method CreatePda(env: Env, pda: AccountInfo, seeds: Seeds, payer: AccountInfo, owner: Pubkey, space: nat)
    returns (r: Result<(), ProgramError>)
    modifies pda
    ensures !(payer.isSigner && payer.isWritable && pda.isWritable && pda.key == env.Derive(seeds)) ==> r == Err(Panic)
    ensures r.Ok? <==> payer.isSigner && payer.isWritable && pda.isWritable && pda.key == env.Derive(seeds)
                       && !old(pda.InUse())
    ensures r.Ok? ==> pda.owner == owner && fresh(pda.data) && pda.data[..] == seq(space, _ => 0)
    ensures r.Err? ==> unchanged(pda)
    ensures r.Err? ==> r.error == if payer.isSigner && payer.isWritable && pda.isWritable && pda.key == env.Derive(seeds)
                                  then SystemProgramFailure else Panic
  {
    if !payer.isSigner || !payer.isWritable || !pda.isWritable {
      return Err(Panic);
    }
    if pda.key != env.Derive(seeds) {
      return Err(Panic);
    }
    r := CreateAccount(payer, pda, space, owner);
  }

  /** `init_token_pda`: the account must be writable and owned by the token program, or the
      program aborts; then it becomes an empty token account. */
  method InitTokenPda(env: Env, pda: AccountInfo, ledger: TokenLedger) returns (r: Result<(), ProgramError>)
    modifies ledger
    ensures !(pda.isWritable && pda.owner == env.tokenProgramId) ==> r == Err(Panic)
    ensures r.Ok? <==> pda.isWritable && pda.owner == env.tokenProgramId && pda.key !in old(ledger.balances)
    ensures r.Ok? ==> ledger.balances == old(ledger.balances)[pda.key := 0]
    ensures r.Err? ==> ledger.balances == old(ledger.balances)
    ensures r.Err? ==> r.error == if pda.isWritable && pda.owner == env.tokenProgramId then TokenProgramFailure else Panic
  {
    if !pda.isWritable || pda.owner != env.tokenProgramId {
      return Err(Panic);
    }
    r := ledger.InitializeAccount(pda, env.tokenProgramId);
  }

  /** The `assert!`s of `transfer_to_pda`. */
  predicate TransferToPdaGuard(env: Env, pda: AccountInfo, wallet: AccountInfo, authority: AccountInfo)
    reads pda, wallet
  {
    && authority.isSigner && wallet.isWritable && pda.isWritable
    && pda.owner == env.tokenProgramId && wallet.owner == env.tokenProgramId
  }

  /** The `assert!`s of `transfer_from_pda`. */
  predicate TransferFromPdaGuard(env: Env, pda: AccountInfo, seeds: Seeds, wallet: AccountInfo)
    reads pda, wallet
  {
    && pda.isWritable && wallet.isWritable
    && pda.owner == env.tokenProgramId && wallet.owner == env.tokenProgramId
    && pda.key == env.Derive(seeds)
  }

  /** `transfer_to_pda`: the authority must sign, wallet and account must be writable token
      accounts, or the program aborts; then `amount` moves from the wallet to the account. */
  method TransferToPda(env: Env, pda: AccountInfo, wallet: AccountInfo, authority: AccountInfo, amount: u64, ledger: TokenLedger)
    returns (r: Result<(), ProgramError>)
    modifies ledger
    ensures !TransferToPdaGuard(env, pda, wallet, authority) ==> r == Err(Panic)
    ensures r.Ok? <==> TransferToPdaGuard(env, pda, wallet, authority)
                       && CanMove(old(ledger.balances), wallet.key, pda.key, amount)
    ensures r.Ok? ==> ledger.balances == Moved(old(ledger.balances), wallet.key, pda.key, amount)
    ensures r.Err? ==> ledger.balances == old(ledger.balances)
    ensures r.Err? ==> r.error == if TransferToPdaGuard(env, pda, wallet, authority) then TokenProgramFailure else Panic
  {
    if !authority.isSigner || !wallet.isWritable || !pda.isWritable {
      return Err(Panic);
    }
    if pda.owner != env.tokenProgramId || wallet.owner != env.tokenProgramId {
      return Err(Panic);
    }
    r := ledger.Transfer(wallet, pda, amount);
  }

  /** `transfer_from_pda`: account and wallet must be writable token accounts and the account
      must sit at the derived address, or the program aborts; then `amount` moves from the
      account to the wallet. */
  method TransferFromPda(env: Env, pda: AccountInfo, seeds: Seeds, wallet: AccountInfo, amount: u64, ledger: TokenLedger)
    returns (r: Result<(), ProgramError>)
    modifies ledger
    ensures !TransferFromPdaGuard(env, pda, seeds, wallet) ==> r == Err(Panic)
    ensures r.Ok? <==> TransferFromPdaGuard(env, pda, seeds, wallet)
                       && CanMove(old(ledger.balances), pda.key, wallet.key, amount)
    ensures r.Ok? ==> ledger.balances == Moved(old(ledger.balances), pda.key, wallet.key, amount)
    ensures r.Err? ==> ledger.balances == old(ledger.balances)
    ensures r.Err? ==> r.error == if TransferFromPdaGuard(env, pda, seeds, wallet) then TokenProgramFailure else Panic
  {
    if !pda.isWritable || !wallet.isWritable {
      return Err(Panic);
    }
    if pda.owner != env.tokenProgramId || wallet.owner != env.tokenProgramId {
      return Err(Panic);
    }
    if pda.key != env.Derive(seeds) {
      return Err(Panic);
    }
    r := ledger.Transfer(pda, wallet, amount);
  }
}
