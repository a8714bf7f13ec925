/** The instruction stream that both simulators execute, and the straight-line simulator of
    bin/simexp/main.cpp. Memory is an arbitrary function from addresses to 64-bit words (the source
    hashes the address); the shift of an operand by its opcode is an arbitrary function, because its
    shift count is at least 128. */
module Machine {
  import opened Arithmetic

  datatype Memory = Memory(word: nat -> u64, shift: (nat, nat) -> int)

  function Opcode(m: Memory, pc: nat): nat {
    m.word(pc) % 0x100
  }

  function Operand(m: Memory, pc: nat): nat {
    m.word(pc) % 0x1_0000
  }

  function Advance(pc: nat, n: nat): nat {
    (pc + n) % 0x1_0000
  }

  /** The registers of interest, and how many of the `icount` instructions were unary. */
  datatype State = State(pc: nat, icount: nat, wcount: int, unary: nat)

  function NextState(m: Memory, s: State): State {
    var opcode := Opcode(m, s.pc);
    var pc := Advance(s.pc, 1);
    if opcode < 0x80 then
      State(pc, s.icount + 1, s.wcount + opcode, s.unary + 1)
    else
      State(Advance(pc, 2), s.icount + 1, s.wcount + m.shift(Operand(m, pc), opcode), s.unary)
  }

  /** The state after `n` instructions from reset. */
  function After(m: Memory, n: nat): (s: State)
    ensures s.icount == n && s.unary <= n && s.pc < 0x1_0000
  {
    if n == 0 then State(0, 0, 0, 0) else NextState(m, After(m, n - 1))
  }

  function Low16(x: nat): nat {
    x % 0x1_0000
  }

  lemma {:induction false} WrapTwice(x: nat, n: nat)
    ensures Low16(Low16(x) + n) == Low16(x + n)
  {
    Split(x, 0x1_0000);
    var y := x % 0x1_0000 + n;
    Split(y, 0x1_0000);
    Quotient(x + n, 0x1_0000, x / 0x1_0000 + y / 0x1_0000, y % 0x1_0000);
  }

  lemma {:induction false} PcStep(m: Memory, s: State)
    ensures var t := NextState(m, s);
      (t.unary == s.unary + 1 && t.pc == Low16(s.pc + 1)) || (t.unary == s.unary && t.pc == Low16(s.pc + 3))
  {
    WrapTwice(s.pc + 1, 2);
  }

  lemma {:induction false} PcIsLow16(m: Memory, n: nat)
    ensures After(m, n).pc == Low16(3 * n - 2 * After(m, n).unary)
  {
    hide Low16, NextState;
    if n == 0 {
      ZeroIsLow16();
    } else {
      var s := After(m, n - 1);
      PcIsLow16(m, n - 1);
      PcStep(m, s);
      var bytes := 3 * (n - 1) - 2 * s.unary;
      WrapTwice(bytes, 1);
      WrapTwice(bytes, 3);
    }
  }

  lemma {:induction false} StreamStep(m: Memory, n: nat)
    ensures After(m, n + 1).unary == After(m, n).unary || After(m, n + 1).unary == After(m, n).unary + 1
  {
    assert After(m, n + 1) == NextState(m, After(m, n));
  }

  lemma {:induction false} ZeroIsLow16()
    ensures Low16(0) == 0
  {
  }

  /** The program counter counts the bytes of the instructions executed, modulo 2^16. */
  lemma {:induction false} PcCountsBytes(m: Memory, n: nat)
    ensures After(m, n).pc == (3 * n - 2 * After(m, n).unary) % 0x1_0000
  {
    hide After;
    PcIsLow16(m, n);
  }

  /** What one instruction does. The opcode is the low byte of the word at the program counter; below 0x80 the
      instruction is unary, and adds its opcode to `wcount`; otherwise the operand is the low half of the word
      at the next address, and its shift by the opcode is added. */
  lemma {:induction false} InstructionEffect(m: Memory, n: nat)
    ensures var s, t := After(m, n), After(m, n + 1);
      var op, operand := m.word(s.pc) % 0x100, m.word((s.pc + 1) % 0x1_0000) % 0x1_0000;
      if op < 0x80
      then t == State((s.pc + 1) % 0x1_0000, n + 1, s.wcount + op, s.unary + 1)
      else t == State((s.pc + 3) % 0x1_0000, n + 1, s.wcount + m.shift(operand, op), s.unary)
  {
    var s := After(m, n);
    assert After(m, n + 1) == NextState(m, s);
    WrapTwice(s.pc + 1, 2);
  }

  class SimulatorFast {
    var pc: nat
    var icount: nat
    var wcount: int
    var currentTick: nat

    constructor ()
      ensures pc == icount == currentTick == 0 && wcount == 0
      ensures forall m: Memory :: pc == After(m, icount).pc && wcount == After(m, icount).wcount
    {
      pc, icount, wcount, currentTick := 0, 0, 0, 0;
    }

    method ReadMemory(m: Memory, address: nat) returns (word: u64)
      modifies this`currentTick
      ensures word == m.word(address) && currentTick == old(currentTick) + 1
    {
      currentTick := currentTick + 1;
      word := m.word(address);
    }

    /** The body of execute's loop, from the state after `icount` instructions. */
    method Instruction(m: Memory)
      requires pc == After(m, icount).pc && wcount == After(m, icount).wcount
      modifies this
      ensures icount == old(icount) + 1
      ensures pc == After(m, icount).pc && wcount == After(m, icount).wcount
      ensures currentTick == old(currentTick)
        + if After(m, icount).unary == After(m, old(icount)).unary then 6 else 3
    {
      var word := ReadMemory(m, pc);
      var mn := word % 0x100;
      pc := Advance(pc, 1);
      if mn < 0x80 {
        currentTick := currentTick + 2;
        wcount := wcount + mn;
      } else {
        word := ReadMemory(m, pc);
        var operand := word % 0x1_0000;
        pc := Advance(pc, 2);
        currentTick := currentTick + 4;
        wcount := wcount + m.shift(operand, mn);
      }
      icount := icount + 1;
      assert After(m, icount) == NextState(m, After(m, icount - 1));
    }

    /** Executes up to `maxi` instructions, each unary one in 3 ticks and each nonunary one in 6. */
    method Execute(m: Memory, maxi: int)
      requires pc == After(m, icount).pc && wcount == After(m, icount).wcount
      modifies this
      ensures icount == if old(icount) < maxi then maxi else old(icount)
      ensures pc == After(m, icount).pc && wcount == After(m, icount).wcount
      ensures pc == (3 * icount - 2 * After(m, icount).unary) % 0x1_0000
      ensures currentTick - old(currentTick)
        == 6 * (icount - old(icount)) - 3 * (After(m, icount).unary - After(m, old(icount)).unary)
    {
      hide After, Low16;
      while icount < maxi
        invariant old(icount) <= icount && (old(icount) < maxi ==> icount <= maxi)
        invariant old(icount) >= maxi ==> icount == old(icount)
        invariant pc == After(m, icount).pc && wcount == After(m, icount).wcount
        invariant currentTick - old(currentTick)
          == 6 * (icount - old(icount)) - 3 * (After(m, icount).unary - After(m, old(icount)).unary)
      {
        StreamStep(m, icount);
        Instruction(m);
      }
      PcCountsBytes(m, icount);
    }
  }

  /* What travels between the CPU and memory is bytes. */

  /** The low `n` bytes of a word, in the order a little-endian host stores them. */
  function Bytes(word: nat, n: nat): (bs: seq<nat>)
    ensures |bs| == n && forall b :: b in bs ==> b < 0x100
  {
    if n == 0 then [] else [word % 0x100] + Bytes(word / 0x100, n - 1)
  }

  /** The value of little-endian bytes. */
  function Value(bs: seq<nat>): nat {
    if bs == [] then 0 else bs[0] + 0x100 * Value(bs[1..])
  }

  function Power256(n: nat): (p: nat)
    ensures p > 0
  {
    if n == 0 then 1 else 0x100 * Power256(n - 1)
  }

  /** DRAM::handle_event: at most the 8 bytes of the hash go to the front of the buffer. */
  function Store(buffer: seq<nat>, word: nat, len: nat): seq<nat> {
    var n := if len < 8 then len else 8;
    if n <= |buffer| then Bytes(word, n) + buffer[n..] else Bytes(word, |buffer|)
  }

  /** Byte `i` of a little-endian word. */
  lemma {:induction false} ByteAt(word: nat, n: nat, i: nat)
    requires i < n
    ensures Bytes(word, n)[i] == word / Power256(i) % 0x100
  {
    if i == 0 {
    } else {
      ByteAt(word / 0x100, n - 1, i - 1);
      DivTwice(word, 0x100, Power256(i - 1));
    }
  }

  lemma {:induction false} DivTwice(x: nat, a: nat, b: nat)
    requires a > 0 && b > 0
    ensures a * b > 0 && x / a / b == x / (a * b)
  {
    MulMonotone(1, b, a);
    var q, r := x / a / b, x / a % b;
    Split(x, a);
    Split(x / a, b);
    assert a * (b * q + r) == (a * b) * q + a * r;
    MulMonotone(r, b - 1, a);
    assert a * (b - 1) == a * b - a;
    Quotient(x, a * b, q, a * r + x % a);
  }

  /** Memory answers with the first 8 bytes of the word at most, as many as were asked for and fit, and leaves
      the rest of the buffer as it was. */
  lemma {:induction false} StoreEffect(buffer: seq<nat>, word: nat, len: nat, i: nat)
    requires i < |buffer|
    ensures |Store(buffer, word, len)| == |buffer|
    ensures Store(buffer, word, len)[i] == if i < len && i < 8 then word / Power256(i) % 0x100 else buffer[i]
  {
    if i < len && i < 8 {
      var n := if len < 8 then len else 8;
      ByteAt(word, if n <= |buffer| then n else |buffer|, i);
    }
  }

  /** Reading back the bytes of a word gives the word modulo the size of the buffer. */
  lemma {:induction false} BytesRoundTrip(word: nat, n: nat)
    ensures Value(Bytes(word, n)) < Power256(n)
    ensures exists high: nat :: word == high * Power256(n) + Value(Bytes(word, n))
  {
    if n == 0 {
      assert word == word * Power256(0) + 0;
    } else {
      BytesRoundTrip(word / 0x100, n - 1);
      var high: nat :| word / 0x100 == high * Power256(n - 1) + Value(Bytes(word / 0x100, n - 1));
      assert Bytes(word, n)[1..] == Bytes(word / 0x100, n - 1);
      assert word == 0x100 * (word / 0x100) + word % 0x100;
      assert high * Power256(n) == 0x100 * (high * Power256(n - 1));
      assert word == high * Power256(n) + Value(Bytes(word, n));
    }
  }

  /** What the CPU reads into a buffer of one or two bytes is the word's low byte or half-word. */
  lemma {:induction false} ReadBack(word: nat)
    ensures Value(Bytes(word, 1)) == word % 0x100
    ensures Value(Bytes(word, 2)) == word % 0x1_0000
  {
    ReadByte(word);
    ReadByte(word / 0x100);
    assert Bytes(word, 2)[1..] == Bytes(word / 0x100, 1);
    assert Value(Bytes(word, 2)) == word % 0x100 + 0x100 * (word / 0x100 % 0x100);
    HalfWord(word);
  }

  lemma {:induction false} ReadByte(word: nat)
    ensures Value(Bytes(word, 1)) == word % 0x100
  {
    assert Bytes(word / 0x100, 0) == [];
    assert Bytes(word, 1) == [word % 0x100];
    assert Bytes(word, 1)[1..] == [];
  }

  lemma {:induction false} HalfWord(word: nat)
    ensures word % 0x1_0000 == word % 0x100 + 0x100 * (word / 0x100 % 0x100)
  {
    Split(word, 0x100);
    Split(word / 0x100, 0x100);
    Quotient(word, 0x1_0000, word / 0x100 / 0x100, word % 0x100 + 0x100 * (word / 0x100 % 0x100));
  }
}
