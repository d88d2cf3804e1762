/** Register widths, modular register arithmetic and the session parameters that every
    writer and checker derives from (addressing mode, init_adr, max_len). */
module AddressArithmetic {

  /** Width of base_addr (adr_width) and of sent_data / recv_data (dw), as every stage is built. */
  const ADR_WIDTH: nat := 64
  const DW: nat := 32
  const ADR_MOD: nat := 0x1_0000_0000_0000_0000
  const DAT_MOD: nat := 0x1_0000_0000

  /** Value of a 64-bit address register. */
  type Addr = x: int | 0 <= x < 0x1_0000_0000_0000_0000
  /** Value of a 32-bit data register. */
  type Data = x: int | 0 <= x < 0x1_0000_0000

  /** Assigning an integer to a 64-bit register keeps its low 64 bits. */
  function Wrap64(x: int): (r: Addr)
    ensures 0 <= x < ADR_MOD ==> r == x
  {
    x % ADR_MOD
  }

  /** Assigning an integer to a 32-bit register keeps its low 32 bits. */
  function Wrap32(x: int): (r: Data)
    ensures 0 <= x < DAT_MOD ==> r == x
  {
    x % DAT_MOD
  }

  datatype Addressing = Byte | Word

  /** The derived parameters _init_adr, _incr_adr and _max_len of one stage. */
  datatype Params = Params(initAdr: nat, incrAdr: nat, maxLen: nat)

  /** Number of transfers a session makes when it completes. */
  function TransferCount(p: Params): nat
  {
    if p.incrAdr == 0 then 0 else p.maxLen / p.incrAdr
  }

  /** Parameter derivation: byte mode keeps byte quantities and steps by 4; word mode turns the
      address and the length into word quantities (a right shift by 2) and steps by 1. */
  function Derive(mode: Addressing, initAdr: nat, maxLen: nat): (p: Params)
    ensures p.incrAdr == (if mode == Byte then 4 else 1)
    // both modes visit the same number of 32-bit words
    ensures TransferCount(p) == maxLen / 4
    // the word address of the session start is the byte address rounded down to a word
    ensures mode == Byte ==> p.initAdr == initAdr && p.maxLen == maxLen
    ensures mode == Word ==> p.initAdr * 4 <= initAdr < p.initAdr * 4 + 4
    // in word mode the length is in words, rounded down
    ensures mode == Word ==> p.maxLen * 4 <= maxLen < p.maxLen * 4 + 4
  {
    if mode == Byte then Params(initAdr, 4, maxLen)
    else Params(initAdr / 4, 1, maxLen / 4)
  }

  /** The right-hand side of the completion test: the address of the last transfer. */
  function Target(p: Params): int
  {
    p.initAdr + p.maxLen - p.incrAdr
  }

  /** Address register value during transfer k (0-based) of a session. */
  function AddressAt(p: Params, k: nat): Addr
  {
    Wrap64(p.initAdr + k * p.incrAdr)
  }

  /** Data register value during transfer k (0-based) of a session seeded with init_val. */
  function DataAt(seed: nat, k: nat): Data
  {
    Wrap32(seed + k)
  }

  /** A session that ends without its address register wrapping: the length is a positive
      multiple of the increment and the whole range [init_adr, init_adr + max_len) lies below
      2^64. This is sufficient for the completion test to be met (LastTransfer), not necessary:
      a session whose addresses pass 2^64 can meet it too (WrappingEndExcluded); those
      sessions are outside the session theorems. */
  predicate Completes(p: Params)
  {
    p.incrAdr > 0 && p.maxLen > 0 && p.maxLen % p.incrAdr == 0 && p.initAdr + p.maxLen <= ADR_MOD
  }

  /** Which requested configurations meet Completes, per addressing mode. */
  lemma CompletesByMode(mode: Addressing, initAdr: nat, maxLen: nat)
    ensures mode == Byte ==>
      (Completes(Derive(mode, initAdr, maxLen)) <==>
         maxLen > 0 && maxLen % 4 == 0 && initAdr + maxLen <= ADR_MOD)
    ensures mode == Word ==>
      (Completes(Derive(mode, initAdr, maxLen)) <==>
         maxLen >= 4 && initAdr / 4 + maxLen / 4 <= ADR_MOD)
  {
  }

  /** Two sessions Completes leaves out although the completion test is met: in byte mode one
      word at 2^64 - 3 (init_adr + max_len passes 2^64, yet the test holds on its first
      response), and a zero length at 8, whose target 4 is reached only after the register wraps. */
  lemma WrappingEndExcluded()
    ensures var p := Derive(Byte, ADR_MOD - 3, 4);
      !Completes(p) && Target(p) == AddressAt(p, 0)
    ensures var p := Derive(Byte, 8, 0);
      !Completes(p) && Target(p) == AddressAt(p, (ADR_MOD - 4) / 4)
  {
    var p := Derive(Byte, 8, 0);
    var k := (ADR_MOD - 4) / 4;
    assert 8 + k * 4 == ADR_MOD + 4;
  }

  /** Incrementing the address register by _incr_adr moves it from transfer k to transfer k + 1. */
  lemma AddressAdvance(p: Params, k: nat)
    ensures AddressAt(p, k + 1) == Wrap64(AddressAt(p, k) + p.incrAdr)
  {
    var x := p.initAdr + k * p.incrAdr;
    assert p.initAdr + (k + 1) * p.incrAdr == x + p.incrAdr;
    ModAddLeft(x, p.incrAdr, ADR_MOD);
  }

  /** Incrementing the data register by 1 moves it from transfer k to transfer k + 1. */
  lemma DataAdvance(seed: nat, k: nat)
    ensures DataAt(seed, k + 1) == Wrap32(DataAt(seed, k) + 1)
  {
    ModAddLeft(seed + k, 1, DAT_MOD);
  }

  lemma ModAddLeft(x: int, y: int, m: int)
    requires m > 0
    ensures (x + y) % m == (x % m + y) % m
  {
    var q := x / m;
    assert x == q * m + x % m;
    assert x + y == q * m + (x % m + y);
    ModMultiple(q, x % m + y, m);
  }

  lemma ModMultiple(q: int, r: int, m: int)
    requires m > 0
    ensures (q * m + r) % m == r % m
  {
    var d := (q * m + r) / m - r / m - q;
    assert q * m + r == ((q * m + r) / m) * m + (q * m + r) % m;
    assert r == (r / m) * m + r % m;
    assert d * m == r % m - (q * m + r) % m;
  }

  /** Before the end, transfer k stays below 2^64, so no wrap-around happens. */
  lemma NoWrap(p: Params, k: nat)
    requires Completes(p) && k < TransferCount(p)
    ensures p.initAdr + k * p.incrAdr + p.incrAdr <= p.initAdr + p.maxLen
    ensures AddressAt(p, k) == p.initAdr + k * p.incrAdr
  {
    var n := TransferCount(p);
    assert p.maxLen == n * p.incrAdr;
    assert k + 1 <= n;
    MulMono(k + 1, n, p.incrAdr);
    assert (k + 1) * p.incrAdr == k * p.incrAdr + p.incrAdr;
  }

  /** A completing session makes at least one transfer. */
  lemma CountPositive(p: Params)
    requires Completes(p)
    ensures TransferCount(p) > 0
  {
    assert p.maxLen == TransferCount(p) * p.incrAdr + p.maxLen % p.incrAdr;
  }

  lemma MulStep(a: nat, c: nat)
    ensures (a + 1) * c == a * c + c
  {
  }

  lemma MulMono(a: nat, b: nat, c: nat)
    requires a <= b
    ensures a * c <= b * c
  {
  }

  /** The completion test succeeds on transfer k exactly when k is the last of the
      TransferCount(p) transfers: no off-by-one, no early end. */
  lemma {:induction false} LastTransfer(p: Params, k: nat)
    requires Completes(p) && k < TransferCount(p)
    ensures AddressAt(p, k) == Target(p) <==> k == TransferCount(p) - 1
  {
    var n := TransferCount(p);
    NoWrap(p, k);
    assert p.maxLen == n * p.incrAdr;
    MulStep(n - 1, p.incrAdr);
    if k != n - 1 {
      MulMono(k + 1, n - 1, p.incrAdr);
      MulStep(k, p.incrAdr);
    }
  }

  /** Every address of a completing session lies in [init, init + max_len) and appears once. */
  lemma {:induction false} AddressesInRegion(p: Params, k: nat)
    requires Completes(p) && k < TransferCount(p)
    ensures p.initAdr <= AddressAt(p, k) < p.initAdr + p.maxLen
  {
    NoWrap(p, k);
  }

  lemma {:induction false} AddressesDistinct(p: Params, j: nat, k: nat)
    requires Completes(p) && j < k < TransferCount(p)
    ensures AddressAt(p, j) < AddressAt(p, k)
  {
    NoWrap(p, j);
    NoWrap(p, k);
    MulMono(j + 1, k, p.incrAdr);
    assert (j + 1) * p.incrAdr == j * p.incrAdr + p.incrAdr;
  }

  /** In byte mode a length that is not a multiple of 4 never satisfies the completion test:
      the address register keeps the residue of _init_adr modulo 4 (2^64 is a multiple of 4),
      and the target has a different one. */
  lemma {:induction false} ByteMisalignedNeverEnds(p: Params, k: nat)
    requires p.incrAdr == 4 && p.maxLen % 4 != 0
    ensures AddressAt(p, k) != Target(p)
  {
    var x := p.initAdr + k * 4;
    var q := x / ADR_MOD;
    assert x == q * ADR_MOD + AddressAt(p, k);
    assert ADR_MOD == 4 * 0x4000_0000_0000_0000;
    assert AddressAt(p, k) == p.initAdr + 4 * (k - q * 0x4000_0000_0000_0000);
    if AddressAt(p, k) == Target(p) {
      assert p.maxLen == 4 + 4 * (k - q * 0x4000_0000_0000_0000);
      ModMultiple(1 + k - q * 0x4000_0000_0000_0000, 0, 4);
      assert false;
    }
  }

  /** The two sessions the simulation SoCs configure (max_len = 0x100, 64 words each). */
  lemma DefaultSessions()
    ensures Derive(Byte, 0x4_0000_0000, 0x100) == Params(0x4_0000_0000, 4, 0x100)
    ensures Derive(Byte, 0x2_0000, 0x100) == Params(0x2_0000, 4, 0x100)
    ensures Derive(Word, 0x4_0000_0000, 0x100) == Params(0x1_0000_0000, 1, 0x40)
    ensures Derive(Word, 0x2_0000, 0x100) == Params(0x8000, 1, 0x40)
    ensures TransferCount(Derive(Byte, 0x4_0000_0000, 0x100)) == 64
    ensures AddressAt(Derive(Byte, 0x4_0000_0000, 0x100), 63) == 0x4_0000_00FC
    ensures DataAt(0x12345678, 63) == 0x123456B7
    ensures DataAt(0xCAFEBEBE, 63) == 0xCAFEBEFD
    ensures Completes(Derive(Byte, 0x4_0000_0000, 0x100)) && Completes(Derive(Byte, 0x2_0000, 0x100))
    ensures Completes(Derive(Word, 0x4_0000_0000, 0x100)) && Completes(Derive(Word, 0x2_0000, 0x100))
  {
  }
}
