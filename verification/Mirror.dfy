/** The protocol memory window: what synchronising it with a snapshot leaves in every cell and bit. */
module Mirror {
  import opened Wrappers
  import opened RegisterMaps
  import opened WetWell

  /** The low sixteen bits of a value, as the register encoder keeps them. */
  function EncodeRegister(v: Raw): (cell: int)
    ensures 0 <= cell < 0x1_0000
  {
    v.AsInt() % 0x1_0000
  }

  /** A client's reading of one cell by data type. */
  function DecodeRegister(t: DataType, cell: int): Raw {
    match t
    case Bool => BoolRaw(cell != 0)
    case Int16 => IntRaw(if cell >= 0x8000 then cell - 0x1_0000 else cell)
    case _ => IntRaw(cell)
  }

  /** Values a data type can carry in one sixteen-bit register. */
  predicate Fits(t: DataType, v: Raw) {
    match t
    case Bool => v.BoolRaw?
    case Int16 => v.IntRaw? && -0x8000 <= v.n < 0x8000
    case _ => v.IntRaw? && 0 <= v.n < 0x1_0000
  }

  /** Encoding then decoding returns the value exactly when it fits its data type. */
  lemma LosslessExactlyWhenFitting(t: DataType, v: Raw)
    ensures DecodeRegister(t, EncodeRegister(v)) == v <==> Fits(t, v)
  {
  }

  predicate BitArea(area: Area) { area == Coil || area == DiscreteInput }

  // ----- Sixteen-bit registers as bits, least significant first -----

  predicate IsRegister(cell: int) { 0 <= cell < 0x1_0000 }

  ghost predicate AreRegisters(cells: seq<int>) { forall i :: 0 <= i < |cells| ==> IsRegister(cells[i]) }

  /** The low `width` bits of a number, least significant first. */
  function BitsOf(n: int, width: nat): (bits: seq<bool>)
    ensures |bits| == width
    decreases width
  {
    if width == 0 then [] else [n % 2 == 1] + BitsOf(n / 2, width - 1)
  }

  function NumberOf(bits: seq<bool>): nat {
    if bits == [] then 0 else (if bits[0] then 1 else 0) + 2 * NumberOf(bits[1..])
  }

  function Pow2(k: nat): nat { if k == 0 then 1 else 2 * Pow2(k - 1) }

  lemma {:induction false} NumberInRange(bits: seq<bool>)
    ensures NumberOf(bits) < Pow2(|bits|)
  {
    if bits != [] { NumberInRange(bits[1..]); }
  }

  lemma {:induction false} BitsThenNumber(n: nat, width: nat)
    requires n < Pow2(width)
    ensures NumberOf(BitsOf(n, width)) == n
  {
    if width != 0 {
      BitsThenNumber(n / 2, width - 1);
      assert BitsOf(n, width)[1..] == BitsOf(n / 2, width - 1);
    }
  }

  lemma {:induction false} NumberThenBits(bits: seq<bool>)
    ensures BitsOf(NumberOf(bits), |bits|) == bits
  {
    if bits != [] {
      NumberThenBits(bits[1..]);
      assert NumberOf(bits) / 2 == NumberOf(bits[1..]);
      assert bits == [bits[0]] + bits[1..];
    }
  }

  function RegistersToBits(cells: seq<int>): (bits: seq<bool>)
    ensures |bits| == 16 * |cells|
  {
    if cells == [] then [] else RegistersToBits(cells[..|cells| - 1]) + BitsOf(cells[|cells| - 1], 16)
  }

  function BitsToRegisters(bits: seq<bool>): (cells: seq<int>)
    requires |bits| % 16 == 0
    ensures |bits| == 16 * |cells|
  {
    if bits == [] then []
    else BitsToRegisters(bits[..|bits| - 16]) + [NumberOf(bits[|bits| - 16..])]
  }

  lemma Pow16()
    ensures Pow2(16) == 0x1_0000
  {
    assert Pow2(4) == 16;
    assert Pow2(8) == 256 by { assert Pow2(6) == 64; }
    assert Pow2(12) == 4096 by { assert Pow2(10) == 1024; }
    assert Pow2(14) == 16384;
  }

  lemma WordOfBits(bits: seq<bool>)
    requires |bits| == 16
    ensures BitsOf(NumberOf(bits), 16) == bits && IsRegister(NumberOf(bits))
  {
    Pow16();
    NumberInRange(bits);
    NumberThenBits(bits);
  }

  lemma BitsOfWord(cell: int)
    requires IsRegister(cell)
    ensures NumberOf(BitsOf(cell, 16)) == cell
  {
    Pow16();
    BitsThenNumber(cell, 16);
  }

  /** Unpacking registers into bits and packing them again is the identity on sixteen-bit cells. */
  lemma {:induction false} PackUnpack(cells: seq<int>)
    requires AreRegisters(cells)
    ensures BitsToRegisters(RegistersToBits(cells)) == cells
  {
    hide BitsOf, NumberOf;
    if cells != [] {
      var front, last := cells[..|cells| - 1], cells[|cells| - 1];
      PackUnpack(front);
      BitsOfWord(last);
      var bits := RegistersToBits(cells);
      assert bits[..|bits| - 16] == RegistersToBits(front);
      assert bits[|bits| - 16..] == BitsOf(last, 16);
      assert cells == front + [last];
    }
  }

  /** Packing bits into registers and unpacking them again is the identity, and yields sixteen-bit cells. */
  lemma {:induction false} UnpackPack(bits: seq<bool>)
    requires |bits| % 16 == 0
    ensures RegistersToBits(BitsToRegisters(bits)) == bits
    ensures AreRegisters(BitsToRegisters(bits))
  {
    hide BitsOf, NumberOf;
    if bits != [] {
      var front, last := bits[..|bits| - 16], bits[|bits| - 16..];
      UnpackPack(front);
      WordOfBits(last);
      var cells := BitsToRegisters(bits);
      assert cells[..|cells| - 1] == BitsToRegisters(front);
      assert bits == front + last;
    }
  }

  // ----- Synchronising a window -----

  function SyncedCell(c: Config, s: State, area: Area, address: int, was: int): int
    requires c.registers.Complete()
  {
    match c.registers.At(area, address)
    case None => was
    case Some(d) => EncodeRegister(Snapshot(c, s, d.key))
  }

  function SyncedBit(c: Config, s: State, area: Area, address: int, was: bool): bool
    requires c.registers.Complete()
  {
    match c.registers.At(area, address)
    case None => was
    case Some(d) => Snapshot(c, s, d.key).Truth()
  }

  function SyncedBits(c: Config, s: State, area: Area, base: int, bits: seq<bool>): (r: seq<bool>)
    requires c.registers.Complete()
    ensures |r| == |bits|
    ensures forall j :: 0 <= j < |bits| ==> r[j] == SyncedBit(c, s, area, base + j, bits[j])
  {
    seq(|bits|, j requires 0 <= j < |bits| => SyncedBit(c, s, area, base + j, bits[j]))
  }

  function SyncCells(c: Config, s: State, area: Area, start: int, cells: seq<int>): (r: seq<int>)
    requires c.registers.Complete()
    ensures |r| == |cells|
    ensures forall i :: 0 <= i < |cells| ==> r[i] == SyncedCell(c, s, area, start + i, cells[i])
  {
    seq(|cells|, i requires 0 <= i < |cells| => SyncedCell(c, s, area, start + i, cells[i]))
  }

  /** The window after synchronisation: bit by bit in the bit areas, cell by cell in the others. */
  function SyncArea(c: Config, s: State, area: Area, start: int, cells: seq<int>): (r: seq<int>)
    requires c.registers.Complete()
    ensures |r| == |cells|
  {
    if BitArea(area) then BitsToRegisters(SyncedBits(c, s, area, 16 * start, RegistersToBits(cells)))
    else SyncCells(c, s, area, start, cells)
  }

  /** The manifest maps a location. */
  ghost predicate Mapped(m: RegisterMap, area: Area, address: int) {
    exists d :: d in m.definitions && d.area == area && d.address == address
  }

  lemma MappedIsAt(m: RegisterMap, area: Area, address: int)
    requires m.WellFormed()
    ensures Mapped(m, area, address) <==> m.At(area, address).Some?
    ensures forall d :: d in m.definitions && d.area == area && d.address == address ==>
      m.At(area, address) == Some(d)
  {
  }

  /** A mapped cell decodes to the snapshot value it can carry; an unmapped one keeps its content. */
  lemma CellCoherent(c: Config, s: State, area: Area, start: int, cells: seq<int>, i: nat)
    requires c.registers.Complete() && c.registers.WellFormed() && !BitArea(area) && i < |cells|
    ensures var after := SyncArea(c, s, area, start, cells);
      && (!Mapped(c.registers, area, start + i) ==> after[i] == cells[i])
      && (forall d :: d in c.registers.definitions && d.area == area && d.address == start + i ==>
            (Fits(d.dataType, Snapshot(c, s, d.key)) <==>
               DecodeRegister(d.dataType, after[i]) == Snapshot(c, s, d.key)))
  {
    MappedIsAt(c.registers, area, start + i);
    var at := c.registers.At(area, start + i);
    if at.Some? {
      LosslessExactlyWhenFitting(at.value.dataType, Snapshot(c, s, at.value.key));
    }
    hide Snapshot, EncodeRegister, DecodeRegister, Fits, RegisterMap.WellFormed, RegisterMap.At, Mapped;
  }

  /** A mapped bit is the truth of its snapshot value; an unmapped one keeps its content. */
  lemma BitCoherent(c: Config, s: State, area: Area, start: int, cells: seq<int>, j: nat)
    requires c.registers.Complete() && c.registers.WellFormed() && BitArea(area) && j < 16 * |cells|
    ensures var before, after := RegistersToBits(cells), RegistersToBits(SyncArea(c, s, area, start, cells));
      && (!Mapped(c.registers, area, 16 * start + j) ==> after[j] == before[j])
      && (forall d :: d in c.registers.definitions && d.area == area && d.address == 16 * start + j ==>
            after[j] == Snapshot(c, s, d.key).Truth())
    ensures AreRegisters(SyncArea(c, s, area, start, cells))
  {
    hide Snapshot, RegistersToBits, BitsToRegisters, SyncedBits, RegisterMap.WellFormed, RegisterMap.At, Mapped;
    UnpackPack(SyncedBits(c, s, area, 16 * start, RegistersToBits(cells)));
    MappedIsAt(c.registers, area, 16 * start + j);
  }

  lemma BitsOverride(c: Config, earlier: State, s: State, area: Area, base: int, bits: seq<bool>)
    requires c.registers.Complete()
    ensures SyncedBits(c, s, area, base, SyncedBits(c, earlier, area, base, bits))
         == SyncedBits(c, s, area, base, bits)
  {
    hide Snapshot, RegisterMap.At;
  }

  /** A later synchronisation overrides an earlier one entirely; in particular it is idempotent. */
  lemma SyncOverrides(c: Config, earlier: State, s: State, area: Area, start: int, cells: seq<int>)
    requires c.registers.Complete()
    ensures SyncArea(c, s, area, start, SyncArea(c, earlier, area, start, cells))
         == SyncArea(c, s, area, start, cells)
  {
    hide Snapshot, RegistersToBits, BitsToRegisters, RegisterMap.At, SyncedBits;
    if BitArea(area) {
      BitsOverride(c, earlier, s, area, 16 * start, RegistersToBits(cells));
      UnpackPack(SyncedBits(c, earlier, area, 16 * start, RegistersToBits(cells)));
    }
  }

  lemma {:induction false} BitsOfConcat(one: seq<int>, other: seq<int>)
    ensures RegistersToBits(one + other) == RegistersToBits(one) + RegistersToBits(other)
  {
    hide BitsOf;
    if other == [] {
      assert one + other == one;
    } else {
      var front, last := other[..|other| - 1], other[|other| - 1];
      var all := one + other;
      BitsOfConcat(one, front);
      assert all[..|all| - 1] == one + front;
      calc {
        RegistersToBits(all);
        RegistersToBits(one + front) + BitsOf(last, 16);
        RegistersToBits(one) + RegistersToBits(front) + BitsOf(last, 16);
        RegistersToBits(one) + RegistersToBits(other);
      }
    }
  }

  lemma BitsOfWindow(cells: seq<int>, from: nat, to: nat)
    requires from <= to <= |cells|
    ensures RegistersToBits(cells[from..to]) == RegistersToBits(cells)[16 * from..16 * to]
  {
    hide RegistersToBits;
    var before, window, after := cells[..from], cells[from..to], cells[to..];
    assert cells == before + window + after;
    BitsOfConcat(before, window);
    BitsOfConcat(before + window, after);
    MiddleSlice(RegistersToBits(before), RegistersToBits(window), RegistersToBits(after));
  }

  lemma MiddleSlice<T>(before: seq<T>, window: seq<T>, after: seq<T>)
    ensures (before + window + after)[|before|..|before| + |window|] == window
  {
  }

  lemma SyncBitsSubWindow(c: Config, s: State, area: Area, base: int, bits: seq<bool>, from: nat, to: nat)
    requires c.registers.Complete() && from <= to <= |bits|
    ensures SyncedBits(c, s, area, base + from, bits[from..to]) == SyncedBits(c, s, area, base, bits)[from..to]
  {
    hide Snapshot, RegisterMap.At, SyncedBit;
    var part, whole := SyncedBits(c, s, area, base + from, bits[from..to]), SyncedBits(c, s, area, base, bits);
    forall j | 0 <= j < to - from ensures part[j] == whole[from + j] {
      assert base + from + j == base + (from + j);
    }
  }

  lemma WindowOfRegisters(cells: seq<int>, from: nat, to: nat)
    requires AreRegisters(cells) && from <= to <= |cells|
    ensures AreRegisters(cells[from..to])
  {
  }

  lemma SyncCellsSubWindow(c: Config, s: State, area: Area, start: int, cells: seq<int>, from: nat, to: nat)
    requires c.registers.Complete() && from <= to <= |cells|
    ensures SyncCells(c, s, area, start + from, cells[from..to]) == SyncCells(c, s, area, start, cells)[from..to]
  {
    hide SyncedCell;
    var part, whole := SyncCells(c, s, area, start + from, cells[from..to]), SyncCells(c, s, area, start, cells);
    forall i | 0 <= i < to - from ensures part[i] == whole[from + i] {
      assert start + from + i == start + (from + i);
    }
  }

  /** Synchronising a sub-window is the sub-window of the synchronised whole. */
  lemma SyncSubWindow(c: Config, s: State, area: Area, start: int, cells: seq<int>, from: nat, to: nat)
    requires c.registers.Complete() && from <= to <= |cells|
    ensures SyncArea(c, s, area, start + from, cells[from..to]) == SyncArea(c, s, area, start, cells)[from..to]
  {
    hide SyncCells, RegistersToBits, BitsToRegisters, SyncedBits, AreRegisters;
    if BitArea(area) {
      var bits := RegistersToBits(cells);
      var whole := SyncedBits(c, s, area, 16 * start, bits);
      var after := BitsToRegisters(whole);
      BitsOfWindow(cells, from, to);
      assert 16 * (start + from) == 16 * start + 16 * from;
      SyncBitsSubWindow(c, s, area, 16 * start, bits, 16 * from, 16 * to);
      UnpackPack(whole);
      BitsOfWindow(after, from, to);
      WindowOfRegisters(after, from, to);
      PackUnpack(after[from..to]);
    } else {
      SyncCellsSubWindow(c, s, area, start, cells, from, to);
    }
  }
}
