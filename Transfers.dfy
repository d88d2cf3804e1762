/** Transaction-level meaning of a session: the memory a writer leaves behind, and the
    mismatches a checker reports against a given memory. The cycle-level stages are proved
    against these definitions. */
module Transfers {
  import opened AddressArithmetic

  /** The word store behind the bus (an SRAM region): unwritten words read as 0. */
  type Memory = map<Addr, Data>

  function Read(m: Memory, a: Addr): Data
  {
    if a in m then m[a] else 0
  }

  /** Memory after the first k transfers of a writer session over m0. */
  function Written(m0: Memory, p: Params, seed: nat, k: nat): Memory
  {
    if k == 0 then m0 else Written(m0, p, seed, k - 1)[AddressAt(p, k - 1) := DataAt(seed, k - 1)]
  }

  /** What the checker's diagnostic prints on a mismatch, in the order it prints it:
      address, the word observed on the bus, the word expected. */
  datatype Report = Report(address: Addr, observed: Data, expected: Data)

  /** The report for transfer k of a checker session over memory m, if that word differs. */
  function CheckAt(m: Memory, p: Params, seed: nat, k: nat): seq<Report>
  {
    if Read(m, AddressAt(p, k)) != DataAt(seed, k)
    then [Report(AddressAt(p, k), Read(m, AddressAt(p, k)), DataAt(seed, k))]
    else []
  }

  /** Reports of the first n transfers of a checker session over memory m, in order. */
  function Mismatches(m: Memory, p: Params, seed: nat, n: nat): (r: seq<Report>)
    ensures |r| <= n
  {
    if n == 0 then [] else Mismatches(m, p, seed, n - 1) + CheckAt(m, p, seed, n - 1)
  }

  /** A completed write of the first k transfers holds word j of the session at address j. */
  lemma {:induction false} WrittenHolds(m0: Memory, p: Params, seed: nat, k: nat, j: nat)
    requires Completes(p) && j < k <= TransferCount(p)
    ensures Read(Written(m0, p, seed, k), AddressAt(p, j)) == DataAt(seed, j)
  {
    if j < k - 1 {
      WrittenHolds(m0, p, seed, k - 1, j);
      AddressesDistinct(p, j, k - 1);
    }
  }

  /** Writing a session changes nothing outside [init, init + max_len). */
  lemma {:induction false} WrittenOutside(m0: Memory, p: Params, seed: nat, k: nat, a: Addr)
    requires Completes(p) && k <= TransferCount(p)
    requires a < p.initAdr || p.initAdr + p.maxLen <= a
    ensures Read(Written(m0, p, seed, k), a) == Read(m0, a)
  {
    if k > 0 {
      WrittenOutside(m0, p, seed, k - 1, a);
      AddressesInRegion(p, k - 1);
    }
  }

  /** A checker reading back what the writer of the same session wrote finds no mismatch. */
  lemma {:induction false} WriteThenCheckIsClean(m0: Memory, p: Params, seed: nat, n: nat)
    requires Completes(p) && n <= TransferCount(p)
    ensures Mismatches(Written(m0, p, seed, TransferCount(p)), p, seed, n) == []
  {
    if n > 0 {
      WriteThenCheckIsClean(m0, p, seed, n - 1);
      WrittenHolds(m0, p, seed, TransferCount(p), n - 1);
    }
  }

  /** A checker reports exactly the words that differ: over a memory that agrees with the
      expected sequence everywhere but transfer j, it reports that one transfer and no other. */
  lemma {:induction false} SingleFaultReported(m: Memory, p: Params, seed: nat, j: nat, n: nat)
    requires Completes(p) && j < n <= TransferCount(p)
    requires Read(m, AddressAt(p, j)) != DataAt(seed, j)
    requires forall k :: 0 <= k < TransferCount(p) && k != j ==> Read(m, AddressAt(p, k)) == DataAt(seed, k)
    ensures Mismatches(m, p, seed, n) == [Report(AddressAt(p, j), Read(m, AddressAt(p, j)), DataAt(seed, j))]
  {
    if n - 1 == j {
      NoneBefore(m, p, seed, j);
    } else {
      SingleFaultReported(m, p, seed, j, n - 1);
    }
  }

  lemma {:induction false} NoneBefore(m: Memory, p: Params, seed: nat, n: nat)
    requires n <= TransferCount(p)
    requires forall k :: 0 <= k < n ==> Read(m, AddressAt(p, k)) == DataAt(seed, k)
    ensures Mismatches(m, p, seed, n) == []
  {
    if n > 0 {
      NoneBefore(m, p, seed, n - 1);
    }
  }

  /** The two regions the SoCs use are disjoint in both addressing modes, so the low writer
      cannot disturb what the high writer left, and both checkers find their sessions intact:
      the whole pipeline reports nothing over a correctly wired memory. */
  lemma {:induction false} DisjointSessionsCheckClean(m0: Memory, ph: Params, sh: nat, pl: Params, sl: nat)
    requires Completes(ph) && Completes(pl)
    requires pl.initAdr + pl.maxLen <= ph.initAdr
    ensures var m2 := Written(Written(m0, ph, sh, TransferCount(ph)), pl, sl, TransferCount(pl));
      Mismatches(m2, ph, sh, TransferCount(ph)) == [] && Mismatches(m2, pl, sl, TransferCount(pl)) == []
  {
    var m1 := Written(m0, ph, sh, TransferCount(ph));
    var m2 := Written(m1, pl, sl, TransferCount(pl));
    WriteThenCheckIsClean(m1, pl, sl, TransferCount(pl));
    forall k | 0 <= k < TransferCount(ph)
      ensures Read(m2, AddressAt(ph, k)) == DataAt(sh, k)
    {
      AddressesInRegion(ph, k);
      WrittenOutside(m1, pl, sl, TransferCount(pl), AddressAt(ph, k));
      WrittenHolds(m0, ph, sh, TransferCount(ph), k);
    }
    NoneBefore(m2, ph, sh, TransferCount(ph));
  }

  /** The configured regions: high 0x4_0000_0000 and low 0x2_0000, 0x100 bytes each. */
  lemma DefaultRunCheckClean(m0: Memory, mode: Addressing)
    ensures var ph := Derive(mode, 0x4_0000_0000, 0x100);
      var pl := Derive(mode, 0x2_0000, 0x100);
      var m2 := Written(Written(m0, ph, 0x12345678, TransferCount(ph)), pl, 0xCAFEBEBE, TransferCount(pl));
      Mismatches(m2, ph, 0x12345678, TransferCount(ph)) == [] &&
      Mismatches(m2, pl, 0xCAFEBEBE, TransferCount(pl)) == []
  {
    DisjointSessionsCheckClean(m0, Derive(mode, 0x4_0000_0000, 0x100), 0x12345678,
      Derive(mode, 0x2_0000, 0x100), 0xCAFEBEBE);
  }

  /** n cycles of the same timing. */
  function Repeat<T>(t: T, n: nat): (r: seq<T>)
    ensures |r| == n
  {
    if n == 0 then [] else Repeat(t, n - 1) + [t]
  }

  lemma {:induction false} RepeatAdd<T>(t: T, n: nat, m: nat)
    ensures Repeat(t, n + m) == Repeat(t, n) + Repeat(t, m)
  {
    if m == 0 {
      assert Repeat(t, n) + [] == Repeat(t, n);
    } else {
      RepeatAdd(t, n, m - 1);
      assert Repeat(t, n) + Repeat(t, m) == (Repeat(t, n) + Repeat(t, m - 1)) + [t];
    }
  }
}
