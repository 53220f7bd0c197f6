/** The parts of the Solana runtime the program touches: accounts handed to an instruction,
    the program-address derivation, and abstract stand-ins for the system program's
    `create_account` and the token program's `initialize_account3` and `transfer`. */
module Solana {
  import opened Types
  import opened Errors

  /** The system program's id, `11111111111111111111111111111111`: 32 zero bytes. */
  const SYSTEM_PROGRAM_ID: Pubkey := seq(32, _ => 0)

  type Seeds = seq<seq<byte>>

  /** What the program reads from its environment.
      `findProgramAddress` is `Pubkey::find_program_address` without its bump, kept
      uninterpreted. `tokenAccountSize` is `size_of::<spl_token::state::Account>()`, a fact of
      the Rust compiler's layout. */
  datatype Env = Env(
    programId: Pubkey,
    tokenProgramId: Pubkey,
    findProgramAddress: (Seeds, Pubkey) -> Pubkey,
    tokenAccountSize: nat)
  {
    function Derive(seeds: Seeds): Pubkey {
      findProgramAddress(seeds, programId)
    }
  }

  /** The read-only part of an `AccountInfo`. */
  datatype AccountMeta = AccountMeta(key: Pubkey, isSigner: bool, isWritable: bool, owner: Pubkey)

  /** An `AccountInfo`: the runtime lets the program reassign its owner (through the system
      program) and write its data buffer in place. */
  class AccountInfo {
    const key: Pubkey
    const isSigner: bool
    const isWritable: bool
    var owner: Pubkey
    var data: array<byte>

    constructor (key: Pubkey, isSigner: bool, isWritable: bool, owner: Pubkey, contents: seq<byte>)
      ensures this.key == key && this.isSigner == isSigner && this.isWritable == isWritable
      ensures this.owner == owner && fresh(data) && data[..] == contents
    {
      this.key := key;
      this.isSigner := isSigner;
      this.isWritable := isWritable;
      this.owner := owner;
      data := new byte[|contents|](i requires 0 <= i < |contents| => contents[i]);
    }

    function Meta(): AccountMeta
      reads this
    {
      AccountMeta(key, isSigner, isWritable, owner)
    }

    /** An account the system program will not create again. */
    predicate InUse()
      reads this
    {
      data.Length > 0 || owner != SYSTEM_PROGRAM_ID
    }
  }

  function Metas(accounts: seq<AccountInfo>): (ms: seq<AccountMeta>)
    reads accounts
    ensures |ms| == |accounts|
    ensures forall i :: 0 <= i < |accounts| ==> ms[i] == accounts[i].Meta()
  {
    if accounts == [] then [] else [accounts[0].Meta()] + Metas(accounts[1..])
  }

  /** The system program's `create_account`, invoked with the new account's signature:
      it needs a writable signing payer and a writable account that is not in use, and
      gives the account `space` zero bytes and the new owner. Lamports are not modelled. */
  method CreateAccount(payer: AccountInfo, account: AccountInfo, space: nat, owner: Pubkey)
    returns (r: Result<(), ProgramError>)
    modifies account
    ensures r.Ok? <==> payer.isSigner && payer.isWritable && account.isWritable && !old(account.InUse())
    ensures r.Ok? ==> account.owner == owner && fresh(account.data) && account.data[..] == seq(space, _ => 0)
    ensures r.Err? ==> r.error == SystemProgramFailure && unchanged(account)
  {
    if !(payer.isSigner && payer.isWritable && account.isWritable) || account.InUse() {
      return Err(SystemProgramFailure);
    }
    account.owner := owner;
    account.data := new byte[space](_ => 0);
    r := Ok(());
  }

  /** A token transfer of `amount` from `source` to `destination` is possible: both are
      token accounts, the source holds enough, and the destination does not overflow. */
  predicate CanMove(balances: map<Pubkey, u64>, source: Pubkey, destination: Pubkey, amount: u64) {
    && source in balances
    && destination in balances
    && balances[source] >= amount
    && (source == destination || balances[destination] + amount <= U64_MAX)
  }

  /** The balances after such a transfer; a transfer to the source itself changes nothing. */
  function Moved(balances: map<Pubkey, u64>, source: Pubkey, destination: Pubkey, amount: u64): (r: map<Pubkey, u64>)
    requires CanMove(balances, source, destination, amount)
    ensures r.Keys == balances.Keys
    ensures r[source] as int + r[destination] == balances[source] as int + balances[destination]
    ensures source != destination ==> r[destination] == balances[destination] + amount
    ensures forall k :: k in balances && k != source && k != destination ==> r[k] == balances[k]
  {
    if source == destination then balances
    else balances[source := balances[source] - amount][destination := balances[destination] + amount]
  }

  /** A transfer of nothing leaves every balance as it was. */
  lemma MovedZero(balances: map<Pubkey, u64>, source: Pubkey, destination: Pubkey)
    requires source in balances && destination in balances
    ensures CanMove(balances, source, destination, 0)
    ensures Moved(balances, source, destination, 0) == balances
  {
  }

  /** The token program, reduced to the balance of every initialized token account. */
  class TokenLedger {
    var balances: map<Pubkey, u64>

    constructor (balances: map<Pubkey, u64>)
      ensures this.balances == balances
    {
      this.balances := balances;
    }

    /** `initialize_account3`: a writable account owned by the token program that is not yet
        a token account becomes one, with a zero balance. */
    method InitializeAccount(account: AccountInfo, tokenProgramId: Pubkey) returns (r: Result<(), ProgramError>)
      modifies this
      ensures r.Ok? <==> account.isWritable && account.owner == tokenProgramId && account.key !in old(balances)
      ensures r.Ok? ==> balances == old(balances)[account.key := 0]
      ensures r.Err? ==> r.error == TokenProgramFailure && balances == old(balances)
    {
      if !account.isWritable || account.owner != tokenProgramId || account.key in balances {
        return Err(TokenProgramFailure);
      }
      balances := balances[account.key := 0];
      r := Ok(());
    }

    /** `transfer`: fails, changing nothing, unless both accounts are writable and the
        balances allow the move. The authority checks of the token program are not modelled. */
    method Transfer(source: AccountInfo, destination: AccountInfo, amount: u64) returns (r: Result<(), ProgramError>)
      modifies this
      ensures r.Ok? <==> source.isWritable && destination.isWritable && CanMove(old(balances), source.key, destination.key, amount)
      ensures r.Ok? ==> balances == Moved(old(balances), source.key, destination.key, amount)
      ensures r.Err? ==> r.error == TokenProgramFailure && balances == old(balances)
    {
      if !source.isWritable || !destination.isWritable || !CanMove(balances, source.key, destination.key, amount) {
        return Err(TokenProgramFailure);
      }
      balances := Moved(balances, source.key, destination.key, amount);
      r := Ok(());
    }
  }
}
