/** `ObjImportService.packRGB`: three colour channels packed into one `int`. */
module ColorPacking {
  import opened JavaInt

  /** Java `(r << 16) | (g << 8) | b` on `int`, for any argument values. */
  function PackRgb(r: Int32, g: Int32, b: Int32): (p: Int32)
  {
    Or(Or(ShiftLeft(r, 16), ShiftLeft(g, 8)), b)
  }

  /** Java `(p >> shift) & 0xFF`: the byte of `p` that starts at bit `shift`. */
  function Channel(p: Int32, shift: nat): (c: Int32)
    requires shift < 32
  {
    And(ShiftRight(p, shift), 0xFF)
  }

  predicate IsByte(c: Int32) { 0 <= c <= 255 }

  /** Java's `<<` on a byte value never overflows for the distances packing uses. */
  lemma ShiftByte(c: Int32, n: nat)
    requires IsByte(c) && (n == 8 || n == 16)
    ensures ShiftLeft(c, n) as int == c as int * Pow2(n)
  {
    assert Pow2(8) == 0x100;
    assert Pow2(16) == 0x1_0000;
  }

  /** Or-ing two non-negative `int`s whose bits are disjoint is addition. */
  lemma OrAdds(hi: Int32, h: nat, k: nat, lo: Int32)
    requires 0 <= hi as int == h * Pow2(k)
    requires 0 <= lo as int < Pow2(k)
    requires hi as int + lo as int <= MAX_INT
    ensures Or(hi, lo) as int == hi as int + lo as int
  {
    OrDisjoint(h, k, lo as int);
    assert Unsigned(hi) == hi as int && Unsigned(lo) == lo as int;
  }

  /** On byte channels the three fields do not overlap: packing is positional arithmetic. */
  lemma PackValue(r: Int32, g: Int32, b: Int32)
    requires IsByte(r) && IsByte(g) && IsByte(b)
    ensures PackRgb(r, g, b) as int == r as int * 0x1_0000 + g as int * 0x100 + b as int
    ensures 0 <= PackRgb(r, g, b) as int <= 0xFF_FFFF
  {
    assert Pow2(8) == 0x100 && Pow2(16) == 0x1_0000;
    var rs, gs := ShiftLeft(r, 16), ShiftLeft(g, 8);
    ShiftByte(r, 16);
    ShiftByte(g, 8);
    OrAdds(rs, r as nat, 16, gs);
    var hi := Or(rs, gs);
    assert hi as int == r as int * 0x1_0000 + g as int * 0x100;
    OrAdds(hi, r as nat * 0x100 + g as nat, 8, b);
  }

  /** The channel accessors recover what was packed. */
  lemma {:induction false} UnpackPack(r: Int32, g: Int32, b: Int32)
    requires IsByte(r) && IsByte(g) && IsByte(b)
    ensures Channel(PackRgb(r, g, b), 16) == r
    ensures Channel(PackRgb(r, g, b), 8) == g
    ensures Channel(PackRgb(r, g, b), 0) == b
  {
    var p := PackRgb(r, g, b);
    PackValue(r, g, b);
    DivModUnique(p as int, 0x1_0000, r as int, g as int * 0x100 + b as int);
    DivModUnique(p as int, 0x100, r as int * 0x100 + g as int, b as int);
    DivModUnique(r as int * 0x100 + g as int, 0x100, r as int, g as int);
    assert ShiftRight(p, 16) == r;
    assert ShiftRight(p, 8) as int == r as int * 0x100 + g as int;
    assert ShiftRight(p, 0) == p;
    AndByteIsMod(ShiftRight(p, 16));
    AndByteIsMod(ShiftRight(p, 8));
    AndByteIsMod(p);
    DivModUnique(r as int, 0x100, 0, r as int);
  }

  /** Distinct byte triples pack to distinct `int`s. */
  lemma PackInjective(r: Int32, g: Int32, b: Int32, r': Int32, g': Int32, b': Int32)
    requires IsByte(r) && IsByte(g) && IsByte(b)
    requires IsByte(r') && IsByte(g') && IsByte(b')
    requires PackRgb(r, g, b) == PackRgb(r', g', b')
    ensures r == r' && g == g' && b == b'
  {
    UnpackPack(r, g, b);
    UnpackPack(r', g', b');
  }

  /** Outside the byte range the fields overlap: green 256 lands in red's byte. */
  lemma OverlapOutsideBytes()
    ensures PackRgb(0, 256, 0) == PackRgb(1, 0, 0)
  {
    assert ShiftLeft(256, 8) as int == 256 * Pow2(8);
    assert ShiftLeft(1, 16) as int == Pow2(16);
  }

  /** The values the unit tests pin down. */
  lemma KnownColors()
    ensures PackRgb(0, 0, 0) == 0x00_0000
    ensures PackRgb(255, 255, 255) == 0xFF_FFFF
    ensures PackRgb(255, 0, 0) == 0xFF_0000
    ensures PackRgb(0, 255, 0) == 0x00_FF00
    ensures PackRgb(0, 0, 255) == 0x00_00FF
    ensures PackRgb(128, 64, 32) == 0x80_4020
    ensures PackRgb(128, 128, 128) == 0x80_8080
  {
    PackValue(0, 0, 0);
    PackValue(255, 255, 255);
    PackValue(255, 0, 0);
    PackValue(0, 255, 0);
    PackValue(0, 0, 255);
    PackValue(128, 64, 32);
    PackValue(128, 128, 128);
  }
}
