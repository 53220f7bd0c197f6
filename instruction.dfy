/** src/instruction.rs: the instruction enum and its Borsh encoding (a one-byte variant index,
    then the fields in declaration order; a key as its 32 bytes, a u64 as 8 little-endian
    bytes). */
module Instruction {
  import opened Types
  import opened Errors
  import opened Bytes

  datatype VestingInstruction =
    | CreateVesting(user: Pubkey, nonce: u64, amount: u64, start: u64, cliff: u64, duration: u64)
    | Claim(user: Pubkey, nonce: u64)

  const CREATE_VESTING_LEN: nat := 73
  const CLAIM_LEN: nat := 41

  function Encode(i: VestingInstruction): (r: seq<byte>)
    ensures |r| == if i.CreateVesting? then CREATE_VESTING_LEN else CLAIM_LEN
    ensures r[0] == if i.CreateVesting? then 0 else 1
  {
    match i
    case CreateVesting(user, nonce, amount, start, cliff, duration) =>
      [0] + user + U64ToLe(nonce) + U64ToLe(amount) + U64ToLe(start) + U64ToLe(cliff) + U64ToLe(duration)
    case Claim(user, nonce) =>
      [1] + user + U64ToLe(nonce)
  }

  /** `VestingInstruction::try_from_slice`: an unknown variant index, too few bytes or bytes
      left over all fail. */
  function Decode(s: seq<byte>): (r: Result<VestingInstruction, ProgramError>)
    ensures r.Ok? <==> |s| > 0 && ((s[0] == 0 && |s| == CREATE_VESTING_LEN) || (s[0] == 1 && |s| == CLAIM_LEN))
    ensures r.Err? ==> r.error == BorshIoError
  {
    if |s| == 0 then Err(BorshIoError)
    else if s[0] == 0 && |s| == CREATE_VESTING_LEN then
      Ok(CreateVesting(s[1..33], LeToU64(s[33..41]), LeToU64(s[41..49]), LeToU64(s[49..57]),
                       LeToU64(s[57..65]), LeToU64(s[65..73])))
    else if s[0] == 1 && |s| == CLAIM_LEN then
      Ok(Claim(s[1..33], LeToU64(s[33..41])))
    else Err(BorshIoError)
  }

  lemma DecodeEncode(i: VestingInstruction)
    ensures Decode(Encode(i)) == Ok(i)
  {
    var s := Encode(i);
    match i
    case CreateVesting(user, nonce, amount, start, cliff, duration) =>
      assert s[1..33] == user;
      assert s[33..41] == U64ToLe(nonce);
      assert s[41..49] == U64ToLe(amount);
      assert s[49..57] == U64ToLe(start);
      assert s[57..65] == U64ToLe(cliff);
      assert s[65..73] == U64ToLe(duration);
      U64ToLeInjective(LeToU64(s[33..41]), nonce);
      U64ToLeInjective(LeToU64(s[41..49]), amount);
      U64ToLeInjective(LeToU64(s[49..57]), start);
      U64ToLeInjective(LeToU64(s[57..65]), cliff);
      U64ToLeInjective(LeToU64(s[65..73]), duration);
    case Claim(user, nonce) =>
      assert s[1..33] == user;
      assert s[33..41] == U64ToLe(nonce);
      U64ToLeInjective(LeToU64(s[33..41]), nonce);
  }

  /** A prefix followed by the next slice is the longer prefix. */
  lemma PrefixExtend(s: seq<byte>, k: nat, m: nat)
    requires k <= m <= |s|
    ensures s[..k] + s[k..m] == s[..m]
  {
  }

  lemma EncodeDecodeCreate(s: seq<byte>)
    requires |s| == CREATE_VESTING_LEN && s[0] == 0
    ensures Encode(Decode(s).value) == s
  {
    var i := Decode(s).value;
    assert U64ToLe(i.nonce) == s[33..41];
    assert U64ToLe(i.amount) == s[41..49];
    assert U64ToLe(i.start) == s[49..57];
    assert U64ToLe(i.cliff) == s[57..65];
    assert U64ToLe(i.duration) == s[65..73];
    assert [0] + i.user == s[..33];
    PrefixExtend(s, 33, 41);
    PrefixExtend(s, 41, 49);
    PrefixExtend(s, 49, 57);
    PrefixExtend(s, 57, 65);
    PrefixExtend(s, 65, 73);
  }

  lemma EncodeDecodeClaim(s: seq<byte>)
    requires |s| == CLAIM_LEN && s[0] == 1
    ensures Encode(Decode(s).value) == s
  {
    var i := Decode(s).value;
    assert U64ToLe(i.nonce) == s[33..41];
    assert [1] + i.user == s[..33];
    PrefixExtend(s, 33, 41);
  }

  /** Decoding accepts only canonical encodings: whatever decodes re-encodes to the same bytes. */
  lemma EncodeDecode(s: seq<byte>)
    requires Decode(s).Ok?
    ensures Encode(Decode(s).value) == s
  {
    if s[0] == 0 {
      EncodeDecodeCreate(s);
    } else {
      EncodeDecodeClaim(s);
    }
  }
}
