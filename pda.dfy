/** src/pda.rs: the Vesting record and its Borsh layout, the seed lists of the two
    program-derived accounts, the address check, and the invocations that create the accounts
    and move tokens out of the vault. */
module Pda {
  import opened Types
  import opened Errors
  import opened Bytes
  import opened Solana

  /** `PDAError::InvalidPDAKey`. */
  const INVALID_PDA_KEY: u32 := 201

  // ---------------------------------------------------------------- the Vesting record

  /** `Vesting`: five u64 fields, in this order. */
  datatype Vesting = Vesting(amount: u64, claimed: u64, start: u64, cliff: u64, duration: u64)

  /** `Vesting::size()`, `size_of::<Vesting>()`: five u64 fields and no padding. */
  const SIZE: nat := 40

  /** Borsh serialization: each field as 8 little-endian bytes, in declaration order. */
  function Encode(v: Vesting): (r: seq<byte>)
    ensures |r| == SIZE
  {
    U64ToLe(v.amount) + U64ToLe(v.claimed) + U64ToLe(v.start) + U64ToLe(v.cliff) + U64ToLe(v.duration)
  }

  /** `Vesting::try_from_slice`: fails when the bytes run out or when some are left over;
      any 40 bytes are a record. */
  function Decode(s: seq<byte>): (r: Result<Vesting, ProgramError>)
    ensures r.Ok? <==> |s| == SIZE
    ensures r.Err? ==> r.error == BorshIoError
  {
    if |s| != SIZE then Err(BorshIoError)
    else Ok(Vesting(LeToU64(s[0..8]), LeToU64(s[8..16]), LeToU64(s[16..24]), LeToU64(s[24..32]), LeToU64(s[32..40])))
  }

  lemma DecodeEncode(v: Vesting)
    ensures Decode(Encode(v)) == Ok(v)
  {
    var s := Encode(v);
    assert s[0..8] == U64ToLe(v.amount);
    assert s[8..16] == U64ToLe(v.claimed);
    assert s[16..24] == U64ToLe(v.start);
    assert s[24..32] == U64ToLe(v.cliff);
    assert s[32..40] == U64ToLe(v.duration);
    U64ToLeInjective(LeToU64(s[0..8]), v.amount);
    U64ToLeInjective(LeToU64(s[8..16]), v.claimed);
    U64ToLeInjective(LeToU64(s[16..24]), v.start);
    U64ToLeInjective(LeToU64(s[24..32]), v.cliff);
    U64ToLeInjective(LeToU64(s[32..40]), v.duration);
  }

  lemma EncodeDecode(s: seq<byte>)
    requires |s| == SIZE
    ensures Encode(Decode(s).value) == s
  {
    assert s == s[0..8] + s[8..16] + s[16..24] + s[24..32] + s[32..40];
  }

  /** `Vesting::get_data`: the record held in an account's data. */
  function GetData(info: AccountInfo): (r: Result<Vesting, ProgramError>)
    reads info, info.data
    ensures r.Ok? <==> info.data.Length == SIZE
    ensures r.Err? ==> r.error == BorshIoError
    ensures r.Ok? ==> Encode(r.value) == info.data[..]
  {
    if info.data.Length == SIZE then
      EncodeDecode(info.data[..]);
      Decode(info.data[..])
    else Decode(info.data[..])
  }

  /** `Vesting::set_data`: serializes into the account's data buffer in place. A buffer that
      is too short receives the bytes that fit and the call fails; a longer one keeps its tail. */
  method SetData(v: Vesting, info: AccountInfo) returns (r: Result<(), ProgramError>)
    modifies info.data
    ensures r.Ok? <==> info.data.Length >= SIZE
    ensures r.Ok? ==> info.data[..] == Encode(v) + old(info.data[SIZE..])
    ensures r.Ok? && info.data.Length == SIZE ==> GetData(info) == Ok(v)
    ensures r.Err? ==> r.error == BorshIoError && info.data[..] == Encode(v)[..info.data.Length]
  {
    var bytes := Encode(v);
    var buffer := info.data;
    var n := if buffer.Length < SIZE then buffer.Length else SIZE;
    for i := 0 to n
      invariant forall k :: 0 <= k < i ==> buffer[k] == bytes[k]
      invariant forall k :: i <= k < buffer.Length ==> buffer[k] == old(buffer[k])
    {
      buffer[i] := bytes[i];
    }
    if n < SIZE {
      assert buffer[..] == bytes[..n];
      return Err(BorshIoError);
    }
    assert buffer[..] == bytes + old(buffer[SIZE..]);
    if buffer.Length == SIZE {
      assert buffer[..] == bytes;
      DecodeEncode(v);
    }
    r := Ok(());
  }

  // ---------------------------------------------------------------- seeds and the address check

  /** "VAULT" and "VESTING" as bytes. */
  const VAULT_SEED: seq<byte> := [0x56, 0x41, 0x55, 0x4c, 0x54]
  const VESTING_SEED: seq<byte> := [0x56, 0x45, 0x53, 0x54, 0x49, 0x4e, 0x47]

  /** The runtime's limit on the length of one seed. */
  const MAX_SEED_LEN: nat := 32

  /** The seeds of a vault address: the tag, the mint, the user and the nonce's little-endian
      bytes, each within the runtime's seed limit. */
  function VaultSeeds(mint: Pubkey, user: Pubkey, nonce: u64): (r: Seeds)
    ensures |r| == 4 && r[0] == VAULT_SEED && r[1] == mint && r[2] == user
    ensures |r[3]| == 8 && FromLe(r[3]) == nonce
    ensures forall i | 0 <= i < |r| :: |r[i]| <= MAX_SEED_LEN
  {
    [VAULT_SEED, mint, user, U64ToLe(nonce)]
  }

  /** The seeds of a vesting address, laid out as those of the vault but for the tag. */
  function VestingSeeds(mint: Pubkey, user: Pubkey, nonce: u64): (r: Seeds)
    ensures |r| == 4 && r[0] == VESTING_SEED && r[1] == mint && r[2] == user
    ensures |r[3]| == 8 && FromLe(r[3]) == nonce
    ensures forall i | 0 <= i < |r| :: |r[i]| <= MAX_SEED_LEN
  {
    [VESTING_SEED, mint, user, U64ToLe(nonce)]
  }

  /** The two seed lists of one schedule agree everywhere but in the tag. */
  lemma SeedListsDifferOnlyInTag(mint: Pubkey, user: Pubkey, nonce: u64)
    ensures |VaultSeeds(mint, user, nonce)| == |VestingSeeds(mint, user, nonce)| == 4
    ensures VaultSeeds(mint, user, nonce)[1..] == VestingSeeds(mint, user, nonce)[1..]
    ensures VaultSeeds(mint, user, nonce)[0] != VestingSeeds(mint, user, nonce)[0]
  {
  }

  /** A seed list names its schedule: equal lists have equal mint, user and nonce, and a
      vault list is never a vesting list. */
  lemma SeedListsDetermineSchedule(m1: Pubkey, u1: Pubkey, n1: u64, m2: Pubkey, u2: Pubkey, n2: u64)
    ensures VaultSeeds(m1, u1, n1) == VaultSeeds(m2, u2, n2) ==> m1 == m2 && u1 == u2 && n1 == n2
    ensures VestingSeeds(m1, u1, n1) == VestingSeeds(m2, u2, n2) ==> m1 == m2 && u1 == u2 && n1 == n2
    ensures VaultSeeds(m1, u1, n1) != VestingSeeds(m2, u2, n2)
  {
    if VaultSeeds(m1, u1, n1) == VaultSeeds(m2, u2, n2) || VestingSeeds(m1, u1, n1) == VestingSeeds(m2, u2, n2) {
      U64ToLeInjective(n1, n2);
    }
    assert VaultSeeds(m1, u1, n1)[0] != VestingSeeds(m2, u2, n2)[0];
  }

  /** `check_expected_address`: the account's key must be the one derived from the seeds. */
  function CheckExpectedAddress(env: Env, key: Pubkey, seeds: Seeds): (r: Result<(), ProgramError>)
    ensures r.Err? <==> key != env.Derive(seeds)
    ensures r.Err? ==> r.error == Custom(INVALID_PDA_KEY)
  {
    if key != env.Derive(seeds) then Err(Custom(INVALID_PDA_KEY)) else Ok(())
  }

  /** `Vault::check_info`. */
  function VaultCheckInfo(env: Env, key: Pubkey, mint: Pubkey, user: Pubkey, nonce: u64): (r: Result<(), ProgramError>)
    ensures r.Err? <==> key != env.Derive([VAULT_SEED, mint, user, U64ToLe(nonce)])
    ensures r.Err? ==> r.error == Custom(INVALID_PDA_KEY)
  {
    CheckExpectedAddress(env, key, VaultSeeds(mint, user, nonce))
  }

  /** `Vesting::check_info`. */
  function VestingCheckInfo(env: Env, key: Pubkey, mint: Pubkey, user: Pubkey, nonce: u64): (r: Result<(), ProgramError>)
    ensures r.Err? <==> key != env.Derive([VESTING_SEED, mint, user, U64ToLe(nonce)])
    ensures r.Err? ==> r.error == Custom(INVALID_PDA_KEY)
  {
    CheckExpectedAddress(env, key, VestingSeeds(mint, user, nonce))
  }

  // ---------------------------------------------------------------- invocations

  /** `create_pda`: rejects a key that is not the derived one before invoking anything, then
      has the system program create the account, signed with the seeds. */
  method CreatePda(env: Env, pda: AccountInfo, owner: Pubkey, payer: AccountInfo, seeds: Seeds, space: nat)
    returns (r: Result<(), ProgramError>)
    modifies pda
    ensures pda.key != env.Derive(seeds) ==> r == Err(Custom(INVALID_PDA_KEY))
    ensures r.Ok? <==> pda.key == env.Derive(seeds) && payer.isSigner && payer.isWritable
                       && pda.isWritable && !old(pda.InUse())
    ensures r.Ok? ==> pda.owner == owner && fresh(pda.data) && pda.data[..] == seq(space, _ => 0)
    ensures r.Err? ==> unchanged(pda)
    ensures r.Err? ==> r.error == if pda.key != env.Derive(seeds) then Custom(INVALID_PDA_KEY) else SystemProgramFailure
  {
    if pda.key != env.Derive(seeds) {
      return Err(Custom(INVALID_PDA_KEY));
    }
    r := CreateAccount(payer, pda, space, owner);
  }

  /** `init_token_pda`: the token program's `initialize_account3` on the new vault. The mint it
      binds the account to is not modelled. */
  method InitTokenPda(env: Env, pda: AccountInfo, ledger: TokenLedger) returns (r: Result<(), ProgramError>)
    modifies ledger
    ensures r.Ok? <==> pda.isWritable && pda.owner == env.tokenProgramId && pda.key !in old(ledger.balances)
    ensures r.Ok? ==> ledger.balances == old(ledger.balances)[pda.key := 0]
    ensures r.Err? ==> r.error == TokenProgramFailure && ledger.balances == old(ledger.balances)
  {
    r := ledger.InitializeAccount(pda, env.tokenProgramId);
  }

  /** `transfer_token_from_pda`: rejects a key that is not the derived one before invoking
      anything, then moves `amount` from the program-derived account to the wallet. */
  method TransferTokenFromPda(env: Env, pda: AccountInfo, wallet: AccountInfo, amount: u64, seeds: Seeds, ledger: TokenLedger)
    returns (r: Result<(), ProgramError>)
    modifies ledger
    ensures pda.key != env.Derive(seeds) ==> r == Err(Custom(INVALID_PDA_KEY))
    ensures r.Ok? <==> pda.key == env.Derive(seeds) && pda.isWritable && wallet.isWritable
                       && CanMove(old(ledger.balances), pda.key, wallet.key, amount)
    ensures r.Ok? ==> ledger.balances == Moved(old(ledger.balances), pda.key, wallet.key, amount)
    ensures r.Err? ==> ledger.balances == old(ledger.balances)
    ensures r.Err? ==> r.error == if pda.key != env.Derive(seeds) then Custom(INVALID_PDA_KEY) else TokenProgramFailure
  {
    if pda.key != env.Derive(seeds) {
      return Err(Custom(INVALID_PDA_KEY));
    }
    r := ledger.Transfer(pda, wallet, amount);
  }

  /** `transfer_token_to_pda` (and `Vault::transfer_in`, which only forwards to it): moves
      `amount` from the wallet to the program-derived account. */
  method TransferTokenToPda(pda: AccountInfo, wallet: AccountInfo, amount: u64, ledger: TokenLedger)
    returns (r: Result<(), ProgramError>)
    modifies ledger
    ensures r.Ok? <==> wallet.isWritable && pda.isWritable && CanMove(old(ledger.balances), wallet.key, pda.key, amount)
    ensures r.Ok? ==> ledger.balances == Moved(old(ledger.balances), wallet.key, pda.key, amount)
    ensures r.Err? ==> r.error == TokenProgramFailure && ledger.balances == old(ledger.balances)
  {
    r := ledger.Transfer(wallet, pda, amount);
  }

  /** `Vault::create`: a token-program-owned account at the vault address, then its
      initialization as an empty token account. */
  method VaultCreate(env: Env, pda: AccountInfo, payer: AccountInfo, mint: Pubkey, user: Pubkey, nonce: u64, ledger: TokenLedger)
    returns (r: Result<(), ProgramError>)
    modifies pda, ledger
    ensures VaultCheckInfo(env, pda.key, mint, user, nonce).Err? ==> r == Err(Custom(INVALID_PDA_KEY))
    ensures r.Ok? <==> VaultCheckInfo(env, pda.key, mint, user, nonce).Ok? && payer.isSigner && payer.isWritable
                       && pda.isWritable && !old(pda.InUse()) && pda.key !in old(ledger.balances)
    ensures r.Ok? ==> pda.owner == env.tokenProgramId && fresh(pda.data) && pda.data.Length == env.tokenAccountSize
    ensures r.Ok? ==> ledger.balances == old(ledger.balances)[pda.key := 0]
    ensures r.Err? ==> ledger.balances == old(ledger.balances)
    ensures r.Err? ==> r.error in {Custom(INVALID_PDA_KEY), SystemProgramFailure, TokenProgramFailure}
    ensures r.Err? && VaultCheckInfo(env, pda.key, mint, user, nonce).Ok? ==> r.error != Custom(INVALID_PDA_KEY)
  {
    r := CreatePda(env, pda, env.tokenProgramId, payer, VaultSeeds(mint, user, nonce), env.tokenAccountSize);
    if r.Err? {
      return;
    }
    r := InitTokenPda(env, pda, ledger);
  }

  /** `Vault::transfer_out`: `transfer_token_from_pda` with the vault's seed list. */
  method VaultTransferOut(env: Env, pda: AccountInfo, wallet: AccountInfo, mint: Pubkey, user: Pubkey, nonce: u64, amount: u64, ledger: TokenLedger)
    returns (r: Result<(), ProgramError>)
    modifies ledger
    ensures VaultCheckInfo(env, pda.key, mint, user, nonce).Err? ==> r == Err(Custom(INVALID_PDA_KEY))
    ensures r.Ok? <==> VaultCheckInfo(env, pda.key, mint, user, nonce).Ok? && pda.isWritable && wallet.isWritable
                       && CanMove(old(ledger.balances), pda.key, wallet.key, amount)
    ensures r.Ok? ==> ledger.balances == Moved(old(ledger.balances), pda.key, wallet.key, amount)
    ensures r.Err? ==> ledger.balances == old(ledger.balances)
    ensures r.Err? ==> r.error == if VaultCheckInfo(env, pda.key, mint, user, nonce).Err? then Custom(INVALID_PDA_KEY) else TokenProgramFailure
  {
    r := TransferTokenFromPda(env, pda, wallet, amount, VaultSeeds(mint, user, nonce), ledger);
  }

  /** `Vesting::create`: a program-owned account of `SIZE` zero bytes at the vesting address. */
  method VestingCreate(env: Env, pda: AccountInfo, payer: AccountInfo, mint: Pubkey, user: Pubkey, nonce: u64)
    returns (r: Result<(), ProgramError>)
    modifies pda
    ensures VestingCheckInfo(env, pda.key, mint, user, nonce).Err? ==> r == Err(Custom(INVALID_PDA_KEY))
    ensures r.Ok? <==> VestingCheckInfo(env, pda.key, mint, user, nonce).Ok? && payer.isSigner && payer.isWritable
                       && pda.isWritable && !old(pda.InUse())
    ensures r.Ok? ==> pda.owner == env.programId && fresh(pda.data) && pda.data[..] == seq(SIZE, _ => 0)
    ensures r.Err? ==> unchanged(pda)
    ensures r.Err? ==> r.error == if VestingCheckInfo(env, pda.key, mint, user, nonce).Err? then Custom(INVALID_PDA_KEY) else SystemProgramFailure
  {
    r := CreatePda(env, pda, env.programId, payer, VestingSeeds(mint, user, nonce), SIZE);
  }
}
