/**
 * Shared vocabulary of the swap-construction model: bytes and their
 * little-endian integer encodings, Python's float-to-int truncation, account
 * identities, account metadata, program instructions and the auxiliary
 * instructions (compute budget, token-account lifecycle, transfers) that the
 * trade builders place around a swap.
 */
module Solana {

  type Byte = x: int | 0 <= x < 256

  datatype Option<T> = None | Some(value: T)

  datatype Result<T, E> = Success(value: T) | Failure(error: E)

  /** The value of an option as a sequence of zero or one elements. */
  function Listed<T>(o: Option<T>): seq<T>
  {
    match o
    case Some(v) => [v]
    case None => []
  }

  /** Exceptions the modelled code can raise; every one ends the trade attempt. */
  datatype Raised =
    | ZeroDivisionError   // float division by zero
    | StructError         // struct.pack("<Q", n) with n outside [0, 2^64)
    | KeyError            // a required entry missing from a pool-data dict
    | UnboundLocalError   // the swap instruction was never assigned
    | NonFiniteError      // int() of an infinite or NaN float
    | OverflowError       // an int outside the unsigned range a solders constructor takes

  const U64_BOUND: int := 0x1_0000_0000_0000_0000
  const U16_BOUND: int := 0x1_0000
  const U32_BOUND: int := 0x1_0000_0000

  predicate InU64(n: int) { 0 <= n < U64_BOUND }
  predicate InU32(n: int) { 0 <= n < U32_BOUND }

  /**
   * Whether the two compute-budget instructions can be built:
   * set_compute_unit_limit takes a u32 and set_compute_unit_price a u64,
   * and either raises OverflowError on an argument outside its range.
   */
  predicate BudgetFits(units: int, microLamports: int)
  {
    InU32(units) && InU64(microLamports)
  }

  function Pow256(n: nat): (r: nat)
    ensures r >= 1
  {
    if n == 0 then 1 else 256 * Pow256(n - 1)
  }

  lemma Pow256Values()
    ensures Pow256(2) == U16_BOUND
    ensures Pow256(8) == U64_BOUND
  {
    assert Pow256(1) == 256;
    assert Pow256(2) == 65536;
    assert Pow256(3) == 16777216;
    assert Pow256(4) == 4294967296;
    assert Pow256(5) == 1099511627776;
    assert Pow256(6) == 281474976710656;
    assert Pow256(7) == 72057594037927936;
  }

  /** The `width` low-order bytes of `n`, least significant first. */
  function LittleEndian(n: nat, width: nat): (r: seq<Byte>)
    ensures |r| == width
  {
    if width == 0 then [] else [n % 256] + LittleEndian(n / 256, width - 1)
  }

  /** The unsigned integer a little-endian byte string denotes. */
  function FromLittleEndian(s: seq<Byte>): (r: nat)
    ensures r < Pow256(|s|)
  {
    if s == [] then 0 else s[0] + 256 * FromLittleEndian(s[1..])
  }

  lemma {:induction false} LittleEndianRoundTrip(n: nat, width: nat)
    requires n < Pow256(width)
    ensures FromLittleEndian(LittleEndian(n, width)) == n
  {
    if width > 0 {
      LittleEndianRoundTrip(n / 256, width - 1);
      var s := LittleEndian(n, width);
      assert s[1..] == LittleEndian(n / 256, width - 1);
    }
  }

  lemma {:induction false} FromLittleEndianRoundTrip(s: seq<Byte>)
    ensures LittleEndian(FromLittleEndian(s), |s|) == s
  {
    if s != [] {
      FromLittleEndianRoundTrip(s[1..]);
      ByteDivMod(s[0], FromLittleEndian(s[1..]));
    }
  }

  lemma ByteDivMod(b: Byte, m: nat)
    ensures (b + 256 * m) % 256 == b as int && (b + 256 * m) / 256 == m
  {
  }

  /** struct.pack("<Q", n): eight little-endian bytes, or struct.error. */
  function PackU64(n: int): (r: Option<seq<Byte>>)
    ensures r.Some? <==> InU64(n)
    ensures r.Some? ==> |r.value| == 8
  {
    if InU64(n) then Some(LittleEndian(n, 8)) else None
  }

  /** Unpacking the eight packed bytes gives back the packed integer. */
  lemma PackU64Decodes(n: int)
    requires InU64(n)
    ensures FromLittleEndian(PackU64(n).value) == n
  {
    Pow256Values();
    LittleEndianRoundTrip(n, 8);
  }

  /** The payload shape shared by every swap instruction. */
  predicate EncodesSwapData(data: seq<Byte>, discriminator: seq<Byte>, first: int, second: int)
  {
    && |data| == |discriminator| + 16
    && data[..|discriminator|] == discriminator
    && FromLittleEndian(data[|discriminator|..|discriminator| + 8]) == first
    && FromLittleEndian(data[|discriminator| + 8..]) == second
  }

  /**
   * A bytearray extended with the discriminator and then the two amounts
   * packed as "<Q"; an amount outside the u64 range raises struct.error.
   */
  function SwapData(discriminator: seq<Byte>, first: int, second: int): (r: Option<seq<Byte>>)
    ensures r.Some? <==> InU64(first) && InU64(second)
  {
    match (PackU64(first), PackU64(second))
    case (Some(a), Some(b)) => Some(discriminator + a + b)
    case _ => None
  }

  /** The packed payload starts with the discriminator and decodes to the two amounts. */
  lemma SwapDataEncodes(discriminator: seq<Byte>, first: int, second: int)
    requires InU64(first) && InU64(second)
    ensures EncodesSwapData(SwapData(discriminator, first, second).value, discriminator, first, second)
  {
    var a, b := PackU64(first).value, PackU64(second).value;
    var data := discriminator + a + b;
    assert data[|discriminator|..|discriminator| + 8] == a;
    assert data[|discriminator| + 8..] == b;
    PackU64Decodes(first);
    PackU64Decodes(second);
  }

  /** Python's int() of a finite float: truncation toward zero. */
  function Trunc(x: real): int
  {
    if 0.0 <= x then x.Floor else -((-x).Floor)
  }

  /** Truncation drops the fractional part, moving toward zero. */
  lemma TruncBounds(x: real)
    ensures 0.0 <= x ==> 0 <= Trunc(x) && Trunc(x) as real <= x < Trunc(x) as real + 1.0
    ensures x < 0.0 ==> Trunc(x) <= 0 && Trunc(x) as real - 1.0 < x <= Trunc(x) as real
  {
  }

  lemma {:induction false} TruncMonotonic(x: real, y: real)
    requires x <= y
    ensures Trunc(x) <= Trunc(y)
  {
    if 0.0 <= x {
      assert x.Floor <= y.Floor;
    } else if y < 0.0 {
      assert (-y).Floor <= (-x).Floor;
    }
  }

  /** 10^n as a real, for scaling by token decimals. */
  function Pow10(n: nat): (r: real)
    ensures r >= 1.0
  {
    if n == 0 then 1.0 else 10.0 * Pow10(n - 1)
  }

  /**
   * Account identities. Program-derived and associated-token addresses are
   * kept as the symbolic terms they are derived from, so two derivations
   * denote the same account exactly when their inputs agree.
   */
  datatype Address =
    | Key(bytes: seq<Byte>)                     // raw public key bytes read from account data
    | Named(name: string)                       // fixed identity read from configuration
    | Pda(seeds: seq<Seed>, program: Address)   // Pubkey.find_program_address(seeds, program)[0]
    | Ata(owner: Address, mint: Address)        // get_associated_token_address(owner, mint)

  datatype Seed =
    | Literal(text: string)       // a b"..." seed
    | Raw(raw: seq<Byte>)         // computed bytes, e.g. an index
    | KeyOf(key: Address)         // bytes(pubkey)

  // Fixed identities from configuration shared by both venues.
  const SYSTEM_PROGRAM: Address := Named("constants.system_program")
  const TOKEN_PROGRAM: Address := Named("constants.token_program")
  const ASSOC_TOKEN_ACC_PROG: Address := Named("constants.assoc_token_acc_prog")

  datatype AccountMeta = AccountMeta(key: Address, isSigner: bool, isWritable: bool)

  datatype Instruction = Instruction(programId: Address, data: seq<Byte>, accounts: seq<AccountMeta>)

  /** The instructions of a transaction, in the order they execute. */
  datatype Ix =
    | SetComputeUnitLimit(units: int)
    | SetComputeUnitPrice(microLamports: int)
    | CreateAta(payer: Address, owner: Address, mint: Address)
    | Transfer(from: Address, to: Address, lamports: int)
    | SyncNative(account: Address)
    | CloseAccount(account: Address, dest: Address, owner: Address)
    | Invoke(instruction: Instruction)

  /** Exactly the positions in `signers` sign and exactly those in `writables` are writable. */
  predicate HasFlags(accounts: seq<AccountMeta>, signers: set<int>, writables: set<int>)
  {
    forall k :: 0 <= k < |accounts| ==>
      (accounts[k].isSigner <==> k in signers) && (accounts[k].isWritable <==> k in writables)
  }

  /** Whether executing `ix` may write account `a`. */
  predicate Writes(ix: Ix, a: Address)
  {
    match ix
    case SetComputeUnitLimit(_) => false
    case SetComputeUnitPrice(_) => false
    case CreateAta(payer, owner, mint) => a == payer || a == Ata(owner, mint)
    case Transfer(from, to, _) => a == from || a == to
    case SyncNative(account) => a == account
    case CloseAccount(account, dest, _) => a == account || a == dest
    case Invoke(instr) =>
      exists k :: 0 <= k < |instr.accounts| && instr.accounts[k].key == a && instr.accounts[k].isWritable
  }

  /** No instruction writes a token account before the instruction creating it. */
  predicate CreatedBeforeWritten(ixs: seq<Ix>)
  {
    forall i, j :: 0 <= j < i < |ixs| && ixs[i].CreateAta? ==> !Writes(ixs[j], Ata(ixs[i].owner, ixs[i].mint))
  }

  predicate IsComputeBudget(ix: Ix)
  {
    ix.SetComputeUnitLimit? || ix.SetComputeUnitPrice?
  }

  /** The compute-unit limit and price come first, and nowhere else. */
  predicate ComputeBudgetFirst(ixs: seq<Ix>)
  {
    && |ixs| >= 2
    && ixs[0].SetComputeUnitLimit?
    && ixs[1].SetComputeUnitPrice?
    && forall i :: 2 <= i < |ixs| ==> !IsComputeBudget(ixs[i])
  }
}
