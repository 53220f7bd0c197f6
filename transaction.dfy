/** The host's side of an instruction: if the program returns an error (or aborts), every
    change it made to accounts and token balances is discarded. */
module Transaction {
  import opened Types
  import opened Errors
  import opened Solana
  import I = Instruction
  import Pda
  import P = Processor

  /** The owner of every account, in order. */
  function Owners(accounts: seq<AccountInfo>): (r: seq<Pubkey>)
    reads accounts
    ensures |r| == |accounts|
    ensures forall i :: 0 <= i < |accounts| ==> r[i] == accounts[i].owner
  {
    seq(|accounts|, i reads accounts requires 0 <= i < |accounts| => accounts[i].owner)
  }

  /** The data of every account, in order. */
  function Contents(accounts: seq<AccountInfo>): (r: seq<seq<byte>>)
    reads accounts, set a | a in accounts :: a.data
    ensures |r| == |accounts|
    ensures forall i :: 0 <= i < |accounts| ==> r[i] == accounts[i].data[..]
  {
    seq(|accounts|, i reads accounts, set a | a in accounts :: a.data requires 0 <= i < |accounts| => accounts[i].data[..])
  }

  /** Puts back the owners and data of a snapshot; an account listed twice has the same
      snapshot in both places. */
  method Restore(accounts: seq<AccountInfo>, owners: seq<Pubkey>, contents: seq<seq<byte>>)
    requires |owners| == |contents| == |accounts|
    requires forall i, j :: 0 <= i < |accounts| && 0 <= j < |accounts| && accounts[i] == accounts[j]
               ==> owners[i] == owners[j] && contents[i] == contents[j]
    modifies accounts
    ensures forall i :: 0 <= i < |accounts| ==> accounts[i].owner == owners[i] && accounts[i].data[..] == contents[i]
  {
    for i := 0 to |accounts|
      invariant forall k :: 0 <= k < i ==> accounts[k].owner == owners[k] && accounts[k].data[..] == contents[k]
    {
      accounts[i].owner := owners[i];
      accounts[i].data := new byte[|contents[i]|](j requires 0 <= j < |contents[i]| => contents[i][j]);
    }
  }

  /** Runs `process` of src/processor.rs as one transaction: account owners, account data and
      token balances are snapshotted, and restored when the instruction fails. */
  method Execute(env: Env, accounts: seq<AccountInfo>, instructionData: seq<byte>, now: i64, ledger: TokenLedger)
    returns (r: Result<(), ProgramError>)
    modifies accounts, set a | a in accounts :: a.data, ledger
    ensures r.Err? ==>
              && ledger.balances == old(ledger.balances)
              && forall i :: 0 <= i < |accounts| ==>
                   accounts[i].owner == old(accounts[i].owner) && accounts[i].data[..] == old(accounts[i].data[..])
    ensures r.Ok? <==> I.Decode(instructionData).Ok? && P.Admissible(env, I.Decode(instructionData).value, old(Metas(accounts)))
                       && old(P.InstructionSucceeds(env, I.Decode(instructionData).value, P.Roles(accounts), now, ledger.balances))
    ensures r.Err? && r.error.Custom? ==> r.error.code in {0, 102, 103, Pda.INVALID_PDA_KEY}
    ensures r.Ok? && I.Decode(instructionData).value.CreateVesting? ==> P.Created(env, I.Decode(instructionData).value, accounts, ledger)
    ensures r.Ok? && I.Decode(instructionData).value.Claim? ==> P.Claimed(P.PlanClaim(old(accounts[3].data[..]), now), accounts, ledger)
    ensures r.Ok? ==> P.OthersUnchanged(accounts)
  {
    var owners := Owners(accounts);
    var contents := Contents(accounts);
    var saved := ledger.balances;
    r := P.Process(env, accounts, instructionData, now, ledger);
    if r.Err? {
      ledger.balances := saved;
      Restore(accounts, owners, contents);
      assert forall i :: 0 <= i < |accounts| ==>
               accounts[i].owner == old(accounts[i].owner) && accounts[i].data[..] == old(accounts[i].data[..]);
    }
  }
}
