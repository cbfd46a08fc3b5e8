/**
 * The EEPROM, seen through the typed accessors the firmware uses
 * (`readByte`, `readInteger`, `readDouble` with a default, and the matching
 * writes). Each field is one cell keyed by its start address; the address
 * map guarantees that the byte spans of different fields never overlap, so
 * a write to one cell cannot be observed through another.
 */
module Store {
  import opened CLib

  datatype Cell = ByteCell(b: byte) | IntCell(i: int) | DoubleCell(d: real)

  type Cells = map<int, Cell>

  /** `eeprom.readByte(addr, default)`: the stored byte, or the default when there is none. */
  function ReadByte(cells: Cells, addr: int, default: byte): byte
  {
    if addr in cells && cells[addr].ByteCell? then cells[addr].b else default
  }

  /** `eeprom.readInteger(addr, default)`. */
  function ReadInteger(cells: Cells, addr: int, default: int): int
  {
    if addr in cells && cells[addr].IntCell? then cells[addr].i else default
  }

  /** `eeprom.readDouble(addr, default)`. */
  function ReadDouble(cells: Cells, addr: int, default: real): real
  {
    if addr in cells && cells[addr].DoubleCell? then cells[addr].d else default
  }

  /** The `n` bytes from `base` on, as a loop of `readByte` calls with one default reads them. */
  function ReadText(cells: Cells, base: int, n: nat, default: byte): seq<byte>
  {
    seq<byte>(n, i requires 0 <= i < n => ReadByte(cells, base + i, default))
  }

  /** The store after `writeByte(base + i, text[i])` for i = 0, 1, ..., |text| - 1, in that order. */
  function PutText(cells: Cells, base: int, text: seq<byte>): Cells
    decreases |text|
  {
    if |text| == 0 then cells
    else PutText(cells, base, text[..|text| - 1])[base + |text| - 1 := ByteCell(text[|text| - 1])]
  }

  /** The addresses base, base + 1, ..., base + n - 1. */
  function Range(base: int, n: nat): (r: set<int>)
    ensures forall k :: k in r <==> base <= k < base + n
  {
    if n == 0 then {} else Range(base, n - 1) + {base + n - 1}
  }

  /** The two stores hold the same thing at address `k`. */
  ghost predicate Agree(a: Cells, b: Cells, k: int)
  {
    (k in a <==> k in b) && (k in a ==> a[k] == b[k])
  }

  /** The two stores differ at most at the addresses in `keys`. */
  ghost predicate SameOutside(a: Cells, b: Cells, keys: set<int>)
  {
    forall k :: k !in keys ==> Agree(a, b, k)
  }

  /** Every byte written by PutText reads back as written. */
  lemma {:induction false} PutTextReadBack(cells: Cells, base: int, text: seq<byte>, j: int, default: byte)
    requires 0 <= j < |text|
    ensures ReadByte(PutText(cells, base, text), base + j, default) == text[j]
  {
    if j < |text| - 1 {
      PutTextReadBack(cells, base, text[..|text| - 1], j, default);
    }
  }

  /** PutText changes nothing outside the |text| addresses from `base` on. */
  lemma {:induction false} PutTextFrame(cells: Cells, base: int, text: seq<byte>)
    ensures SameOutside(PutText(cells, base, text), cells, Range(base, |text|))
  {
    if |text| > 0 {
      var prefix := text[..|text| - 1];
      PutTextFrame(cells, base, prefix);
      forall k | k !in Range(base, |text|)
        ensures Agree(PutText(cells, base, text), cells, k)
      {
        assert k !in Range(base, |prefix|);
        assert Agree(PutText(cells, base, prefix), cells, k);
      }
    }
  }

  /** The non-volatile memory. Its contents at power-on are a parameter of the model. */
  class Eeprom {
    var cells: Cells

    constructor (initial: Cells)
      ensures cells == initial
    {
      cells := initial;
    }

    method WriteByte(addr: int, value: byte)
      modifies this
      ensures cells == old(cells)[addr := ByteCell(value)]
    {
      cells := cells[addr := ByteCell(value)];
    }

    method WriteInteger(addr: int, value: int)
      modifies this
      ensures cells == old(cells)[addr := IntCell(value)]
    {
      cells := cells[addr := IntCell(value)];
    }

    method WriteDouble(addr: int, value: real)
      modifies this
      ensures cells == old(cells)[addr := DoubleCell(value)]
    {
      cells := cells[addr := DoubleCell(value)];
    }
  }
}
