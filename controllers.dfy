/** The byte logic of the Launchpad Mini controller
    (src/player/controllers/mod.rs): the key a grid cell is written to, the
    colour codes, and how a pad press read back from the device becomes a
    slot to toggle. Sending and receiving are left to the caller: messages
    are returned as values. */
module Controllers {
  import opened Base

  /** The key of grid cell (`row`, `col`), each clamped to 7: the row in
      the high nibble, the column in the low one. */
  function GridKey(row: nat, col: nat): (k: u8)
    ensures k == 16 * Min7(row) + Min7(col)
  {
    var r := Min7(row) as bv8;
    var c := Min7(col) as bv8;
    NibbleJoin(r, c);
    ((r << 4) | c) as int
  }

  function Min7(n: nat): (r: nat)
    ensures r <= 7 && (n <= 7 ==> r == n)
  {
    if n < 7 then n else 7
  }

  /** Shifting a row into the high nibble and or-ing in the column adds. */
  lemma NibbleJoin(r: bv8, c: bv8)
    requires r < 8 && c < 8
    ensures ((r << 4) | c) as int == 16 * r as int + c as int
  {
  }

  /** `set_grid`: a note-on on channel 1 to the cell's key, the colour as
      velocity. */
  function GridMessage(row: nat, col: nat, color: u8): (m: seq<u8>)
    ensures m == [0x90, 16 * Min7(row) + Min7(col), color]
  {
    [0x90, GridKey(row, col), color]
  }

  datatype Color = Off | Red1 | Red2 | Red3 | Green1 | Green2 | Green3
                 | Orange1 | Orange2 | Orange3

  /** How bright the red and the green LED of a pad are, 0 to 3. */
  function RedLevel(c: Color): nat
  {
    match c
    case Red1 | Orange1 => 1
    case Red2 | Orange2 => 2
    case Red3 | Orange3 => 3
    case _ => 0
  }

  function GreenLevel(c: Color): nat
  {
    match c
    case Green1 | Orange1 => 1
    case Green2 | Orange2 => 2
    case Green3 | Orange3 => 3
    case _ => 0
  }

  /** `From<Color> for u8`: green brightness in the high nibble, red in the
      low one, orange being both at once. */
  function ColorCode(c: Color): (r: u8)
    ensures r == 16 * GreenLevel(c) + RedLevel(c)
  {
    match c
    case Off => 0x00
    case Red1 => 0x01
    case Red2 => 0x02
    case Red3 => 0x03
    case Green1 => 0x10
    case Green2 => 0x20
    case Green3 => 0x30
    case Orange1 => 0x11
    case Orange2 => 0x22
    case Orange3 => 0x33
  }

  /** Different colours light the pad differently. */
  lemma ColorCodesDistinct(a: Color, b: Color)
    ensures ColorCode(a) == ColorCode(b) ==> a == b
  {
  }

  /** The messages `lpad_cb` does not handle and on which it panics. */
  datatype PadError = WeirdMessage | WeirdStatus

  /** The row and column a pad key names: its high nibble, masked with
      0xF0 and shifted right by 4, and its low nibble, masked with 0x0F.
      On a byte these are the quotient and the remainder by 16, which
      `MaskedNibbles` states. */
  function KeyRow(nn: u8): nat
  {
    nn / 16
  }

  function KeyCol(nn: u8): nat
  {
    nn % 16
  }

  lemma MaskedNibbles(k: bv8)
    ensures ((k & 0xF0) >> 4) as int == KeyRow(k as int)
    ensures (k & 0x0F) as int == KeyCol(k as int)
  {
    assert (k & 0xF0) >> 4 == k / 16;
    assert k & 0x0F == k % 16;
  }

  /** `lpad_cb`: a three-byte note-on becomes the slot to toggle, row * 8 +
      column, unless it is a release (velocity 0) or a side button (column
      8); anything else is an error. */
  function Decode(msg: seq<u8>): (r: Result<Option<nat>, PadError>)
    ensures |msg| != 3 <==> r == Fail(WeirdMessage)
    ensures |msg| == 3 && msg[0] != 0x90 <==> r == Fail(WeirdStatus)
    ensures |msg| == 3 && msg[0] == 0x90 ==>
              r == if msg[1] % 16 == 8 || msg[2] == 0 then Ok(None)
                   else Ok(Some(msg[1] / 16 * 8 + msg[1] % 16))
  {
    if |msg| != 3 then Fail(WeirdMessage)
    else if msg[0] != 0x90 then Fail(WeirdStatus)
    else
      var row := KeyRow(msg[1]);
      var col := KeyCol(msg[1]);
      if col == 8 then Ok(None)
      else if msg[2] == 0 then Ok(None)
      else Ok(Some(row * 8 + col))
  }

  /** Pressing the pad the sequencer lit for slot `i` toggles slot `i`. */
  lemma {:induction false} GridRoundTrip(row: nat, col: nat, color: u8, vel: u8)
    requires row < 8 && col < 8 && vel != 0
    ensures Decode(GridMessage(row, col, color)[2 := vel]) == Ok(Some(row * 8 + col))
  {
    var k := GridKey(row, col);
    assert k == 16 * row + col;
    SplitKey(row, col);
  }

  /** Slot `i` is lit at cell (i / 8, i % 8); pressing that pad names
      slot `i` again. */
  lemma SlotPadRoundTrip(i: nat, color: u8, vel: u8)
    requires i < 64 && vel != 0
    ensures Decode(GridMessage(i / 8, i % 8, color)[2 := vel]) == Ok(Some(i))
  {
    GridRoundTrip(i / 8, i % 8, color, vel);
  }

  lemma SplitKey(q: nat, m: nat)
    requires m < 16
    ensures (16 * q + m) / 16 == q && (16 * q + m) % 16 == m
  {
  }

  /** Releasing any pad toggles nothing, and the slot number, which the
      source computes in a u8, never wraps: it is at most 15 * 8 + 15. */
  lemma DecodeBounds(msg: seq<u8>)
    ensures |msg| == 3 && msg[0] == 0x90 && msg[2] == 0 ==> Decode(msg) == Ok(None)
    ensures Decode(msg).Ok? && Decode(msg).value.Some? ==> Decode(msg).value.value <= 15 * 8 + 15
  {
  }

  /** The decode checks only for column 8: a key with column 9 to 15, which
      the grid never sends, reads as a slot of the next row. */
  lemma WideColumnAliases()
    ensures Decode([0x90, 0x0A, 0x7F]) == Decode([0x90, 0x12, 0x7F]) == Ok(Some(10))
  {
  }
}
