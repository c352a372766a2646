/** White text on a transparent canvas of two bits per pixel, src/osd/fps_text.hpp. */
module FpsText {

  // ----------------------------------------------------------- what is wanted

  const GLYPHS: seq<seq<nat>> := [
    [14,17,19,21,25,17,14], [4,12,4,4,4,4,14],
    [14,17,1,2,4,8,31], [30,1,1,14,1,1,30],
    [2,6,10,18,31,2,2], [31,16,16,30,1,1,30],
    [14,16,16,30,17,17,14], [31,1,2,4,8,8,8],
    [14,17,17,14,17,17,14], [14,17,17,15,1,1,14],
    [31,16,16,30,16,16,16],
    [30,17,17,30,16,16,16],
    [15,16,16,14,1,1,30],
    [0,4,4,0,4,4,0],
    [0,0,0,0,0,4,4]
  ]

  function GlyphIndex(ch: char): int {
    if '0' <= ch <= '9' then ch as int - '0' as int
    else if ch == 'F' then 10 else if ch == 'P' then 11 else if ch == 'S' then 12
    else if ch == ':' then 13 else if ch == '.' then 14 else -1
  }

  function Power(k: nat): (p: nat)
    ensures p > 0
  {
    if k == 0 then 1 else 2 * Power(k - 1)
  }

  lemma {:induction false} GlyphRows(index: nat)
    requires index < 15
    ensures |GLYPHS| == 15 && |GLYPHS[index]| == 7
  {
  }

  /** Dot x of row y of the character's 5 by 7 glyph. */
  predicate Dot(ch: char, x: nat, y: nat) {
    var index := GlyphIndex(ch);
    0 <= index && x < 5 && y < 7 && (GlyphRows(index); GLYPHS[index][y] / Power(4 - x) % 2 == 1)
  }

  type Dots = set<(nat, nat)>

  function DotsOf(ch: char): (dots: Dots)
    ensures forall x: nat, y: nat :: (x, y) in dots <==> Dot(ch, x, y)
  {
    set x: nat, y: nat | x < 5 && y < 7 && Dot(ch, x, y) :: (x, y)
  }

  /** Pixel (px, py) of character number n: every dot is two pixels wide and high, characters are 12 pixels apart. */
  predicate GlyphInk(dots: Dots, n: nat, px: nat, py: nat) {
    4 + 12 * n <= px && 4 <= py && ((px - 4 - 12 * n) / 2, (py - 4) / 2) in dots
  }

  /** Pixel (px, py) of the text; characters that do not fit whole in the pitch are left out. */
  predicate Ink(text: string, width: nat, px: nat, py: nat) {
    exists n :: 0 <= n < |text| && n < width / 12 && GlyphInk(DotsOf(text[n]), n, px, py)
  }

  // -------------------------------------------------------------- the canvas

  /** The two bits of pixel k in a byte, leftmost pixel in the high bits. */
  function Field(b: bv8, k: nat): bv8
    requires k < 4
  {
    (if k == 0 then b >> 6 else if k == 1 then b >> 4 else if k == 2 then b >> 2 else b) & 3
  }

  ghost predicate Canvas(s: seq<bv8>, width: nat, height: nat) {
    width % 4 == 0 && width / 4 * height <= |s|
  }

  lemma {:induction false} Rows(a: nat, b: nat, stride: nat)
    requires a <= b
    ensures a * stride <= b * stride
    ensures a < b ==> a * stride + stride <= b * stride
    decreases b - a
  {
    if a < b {
      Rows(a, b - 1, stride);
      assert b * stride == (b - 1) * stride + stride;
    }
  }

  lemma {:induction false} Inside(stride: nat, height: nat, a: nat, row: nat)
    requires a < stride && row < height
    ensures 0 <= row * stride + a < stride * height
  {
    Rows(row, height, stride);
    Rows(0, row, stride);
  }

  /** Pixel (px, py), decoded. */
  function At(s: seq<bv8>, width: nat, height: nat, px: nat, py: nat): bv8
    requires Canvas(s, width, height) && px < width && py < height
  {
    Inside(width / 4, height, px / 4, py);
    Field(s[py * (width / 4) + px / 4], px % 4)
  }

  lemma {:induction false} Nibbles(b: bv8)
    ensures Field(b | 0xf0, 0) == 3 && Field(b | 0xf0, 1) == 3
    ensures Field(b | 0xf0, 2) == Field(b, 2) && Field(b | 0xf0, 3) == Field(b, 3)
    ensures Field(b | 0x0f, 2) == 3 && Field(b | 0x0f, 3) == 3
    ensures Field(b | 0x0f, 0) == Field(b, 0) && Field(b | 0x0f, 1) == Field(b, 1)
  {
  }

  lemma {:induction false} OneCell(stride: nat, a: nat, row: nat, b: nat, other: nat)
    requires a < stride && b < stride && row * stride + a == other * stride + b
    ensures row == other && a == b
  {
    if row < other { Rows(row, other, stride); }
    if other < row { Rows(other, row, stride); }
  }

  /** The byte that lights a dot's pixels in one row. */
  function Lit(b: bv8, col: nat): bv8 {
    if col % 4 == 0 then b | 0xf0 else b | 0x0f
  }

  /** One store lights pixels col and col + 1 of a row, and nothing else changes. */
  lemma {:induction false} Lights(s: seq<bv8>, width: nat, height: nat, col: nat, row: nat, px: nat, py: nat)
    requires Canvas(s, width, height) && col % 2 == 0 && col + 1 < width && row < height && px < width && py < height
    ensures
      var stride := width / 4;
      var i := row * stride + col / 4;
      && 0 <= i < |s| && Canvas(s[i := Lit(s[i], col)], width, height)
      && At(s[i := Lit(s[i], col)], width, height, px, py) ==
           if py == row && (px == col || px == col + 1) then 3 else At(s, width, height, px, py)
  {
    var stride := width / 4;
    var i, j := row * stride + col / 4, py * stride + px / 4;
    Inside(stride, height, col / 4, row);
    Inside(stride, height, px / 4, py);
    Nibbles(s[i]);
    if i == j {
      OneCell(stride, col / 4, row, px / 4, py);
    }
  }

  // ---------------------------------------------------------------- drawing

  ghost predicate SamePast(s: seq<bv8>, t: seq<bv8>, bytes: nat) {
    |s| == |t| && forall i :: bytes <= i < |s| ==> s[i] == t[i]
  }

  /** The pixels of the character drawn before dot (x, y), and in dot (x, y) before half row dy. */
  predicate Before(n: nat, x: nat, y: nat, dy: nat, px: nat, py: nat) {
    4 + 12 * n <= px && 4 <= py &&
    var gx, gy := (px - 4 - 12 * n) / 2, (py - 4) / 2;
    gy < y || (gy == y && (gx < x || (gx == x && (py - 4) % 2 < dy)))
  }

  /** t is s with the part of the character drawn so far. */
  ghost predicate Drawn(s: seq<bv8>, t: seq<bv8>, width: nat, height: nat, dots: Dots, n: nat, x: nat, y: nat, dy: nat)
    requires Canvas(s, width, height) && Canvas(t, width, height)
  {
    forall px: nat, py: nat :: px < width && py < height ==>
      At(t, width, height, px, py) ==
        if GlyphInk(dots, n, px, py) && Before(n, x, y, dy, px, py) then 3 else At(s, width, height, px, py)
  }

  lemma {:induction false} HalfRow(n: nat, x: nat, y: nat, dy: nat, px: nat, py: nat)
    requires dy < 2
    ensures Before(n, x, y, dy, px, py) ==> Before(n, x, y, dy + 1, px, py)
    ensures Before(n, x, y, dy + 1, px, py) && !Before(n, x, y, dy, px, py) <==>
              py == 4 + y * 2 + dy && (px == 4 + n * 12 + x * 2 || px == 4 + n * 12 + x * 2 + 1)
  {
    if 4 + 12 * n <= px && 4 <= py {
      var a, b := px - 4 - 12 * n, py - 4;
      assert a == 2 * (a / 2) + a % 2 && b == 2 * (b / 2) + b % 2;
    }
  }

  /** t is s with the byte of one half row stored, unless that is off the canvas. */
  ghost predicate Stored(s: seq<bv8>, t: seq<bv8>, width: nat, height: nat, row: nat, col: nat) {
    if row < height && col + 1 < width then
      var i := row * (width / 4) + col / 4;
      0 <= i < |s| && t == s[i := Lit(s[i], col)]
    else t == s
  }

  /** What a store into a dot's half row leaves of any pixel. */
  lemma {:induction false} HalfRowPixel(
    s: seq<bv8>, t: seq<bv8>, width: nat, height: nat, row: nat, col: nat, px: nat, py: nat)
    requires Canvas(s, width, height) && Canvas(t, width, height) && px < width && py < height && col % 2 == 0
    requires Stored(s, t, width, height, row, col)
    ensures At(t, width, height, px, py) ==
              if py == row && (px == col || px == col + 1) then 3 else At(s, width, height, px, py)
  {
    if row < height && col + 1 < width { Lights(s, width, height, col, row, px, py); }
  }

  lemma {:induction false} LitDots(dots: Dots, n: nat, x: nat, y: nat, dy: nat, px: nat, py: nat)
    requires (x, y) in dots && dy < 2
    ensures GlyphInk(dots, n, px, py) && Before(n, x, y, dy + 1, px, py) <==>
              (GlyphInk(dots, n, px, py) && Before(n, x, y, dy, px, py))
              || (py == 4 + y * 2 + dy && (px == 4 + n * 12 + x * 2 || px == 4 + n * 12 + x * 2 + 1))
  {
    HalfRow(n, x, y, dy, px, py);
  }

  /** One half row of one dot, stored or clipped. */
  lemma {:induction false} HalfRowDrawn(
    was: seq<bv8>, s: seq<bv8>, t: seq<bv8>, width: nat, height: nat,
    dots: Dots, n: nat, x: nat, y: nat, dy: nat, row: nat, col: nat)
    requires Canvas(was, width, height) && Canvas(s, width, height) && Canvas(t, width, height)
    requires (x, y) in dots && dy < 2 && Drawn(was, s, width, height, dots, n, x, y, dy)
    requires row == 4 + y * 2 + dy && col == 4 + n * 12 + x * 2 && col % 2 == 0
    requires Stored(s, t, width, height, row, col)
    ensures Drawn(was, t, width, height, dots, n, x, y, dy + 1)
  {
    forall px: nat, py: nat | px < width && py < height
      ensures At(t, width, height, px, py) ==
                if GlyphInk(dots, n, px, py) && Before(n, x, y, dy + 1, px, py) then 3
                else At(was, width, height, px, py)
    {
      LitDots(dots, n, x, y, dy, px, py);
      assert At(t, width, height, px, py) ==
             if py == row && (px == col || px == col + 1) then 3 else At(s, width, height, px, py)
      by {
        HalfRowPixel(s, t, width, height, row, col, px, py);
      }
    }
  }

  /** One half row of one dot: two pixels, if they are on the canvas. */
  method DrawHalfRow(pixels: array<bv8>, width: nat, height: nat, row: nat, col: nat)
    requires Canvas(pixels[..], width, height) && col % 2 == 0
    modifies pixels
    ensures Canvas(pixels[..], width, height) && Stored(old(pixels[..]), pixels[..], width, height, row, col)
    ensures SamePast(old(pixels[..]), pixels[..], width / 4 * height)
  {
    var stride := width / 4;
    if row < height && col + 1 < width {
      Inside(stride, height, col / 4, row);
      ghost var s := pixels[..];
      var i := row * stride + col / 4;
      pixels[i] := Lit(pixels[i], col);
      assert pixels[..] == s[i := Lit(s[i], col)];
    }
  }

  lemma {:induction false} SamePastBoth(r: seq<bv8>, s: seq<bv8>, t: seq<bv8>, bytes: nat)
    requires SamePast(r, s, bytes) && SamePast(s, t, bytes)
    ensures SamePast(r, t, bytes)
  {
  }

  /** The two half rows of one dot. */
  method DrawDot(pixels: array<bv8>, width: nat, height: nat, ghost dots: Dots, n: nat, x: nat, y: nat,
      ghost was: seq<bv8>)
    requires Canvas(was, width, height) && Canvas(pixels[..], width, height) && (x, y) in dots
    requires Drawn(was, pixels[..], width, height, dots, n, x, y, 0)
    modifies pixels
    ensures Canvas(pixels[..], width, height) && Drawn(was, pixels[..], width, height, dots, n, x, y, 2)
    ensures SamePast(old(pixels[..]), pixels[..], width / 4 * height)
  {
    for dy := 0 to 2
      invariant Canvas(pixels[..], width, height) && Drawn(was, pixels[..], width, height, dots, n, x, y, dy)
      invariant SamePast(old(pixels[..]), pixels[..], width / 4 * height)
    {
      var row, col := 4 + y * 2 + dy, 4 + n * 12 + x * 2;
      ghost var s := pixels[..];
      DrawHalfRow(pixels, width, height, row, col);
      HalfRowDrawn(was, s, pixels[..], width, height, dots, n, x, y, dy, row, col);
      SamePastBoth(old(pixels[..]), s, pixels[..], width / 4 * height);
    }
  }

  predicate Glyph(dots: Dots) {
    forall d <- dots :: d.0 < 5 && d.1 < 7
  }

  /** Moving to the next dot, past one that is drawn, or that is not in the glyph. */
  lemma {:induction false} NextDot(
    s: seq<bv8>, t: seq<bv8>, width: nat, height: nat, dots: Dots, n: nat, x: nat, y: nat)
    requires Canvas(s, width, height) && Canvas(t, width, height)
    requires
      if (x, y) in dots then Drawn(s, t, width, height, dots, n, x, y, 2)
      else Drawn(s, t, width, height, dots, n, x, y, 0)
    ensures Drawn(s, t, width, height, dots, n, x + 1, y, 0)
  {
    forall px: nat, py: nat | px < width && py < height
      ensures At(t, width, height, px, py) ==
                if GlyphInk(dots, n, px, py) && Before(n, x + 1, y, 0, px, py) then 3 else At(s, width, height, px, py)
    {
    }
  }

  lemma {:induction false} NextRow(s: seq<bv8>, t: seq<bv8>, width: nat, height: nat, dots: Dots, n: nat, y: nat)
    requires Canvas(s, width, height) && Canvas(t, width, height) && Glyph(dots)
    requires Drawn(s, t, width, height, dots, n, 5, y, 0)
    ensures Drawn(s, t, width, height, dots, n, 0, y + 1, 0)
  {
    forall px: nat, py: nat | px < width && py < height
      ensures At(t, width, height, px, py) ==
                if GlyphInk(dots, n, px, py) && Before(n, 0, y + 1, 0, px, py) then 3 else At(s, width, height, px, py)
    {
    }
  }

  /** t is s with a whole character. */
  ghost predicate WithGlyph(s: seq<bv8>, t: seq<bv8>, width: nat, height: nat, dots: Dots, n: nat)
    requires Canvas(s, width, height) && Canvas(t, width, height)
  {
    forall px: nat, py: nat :: px < width && py < height ==>
      At(t, width, height, px, py) == if GlyphInk(dots, n, px, py) then 3 else At(s, width, height, px, py)
  }

  lemma {:induction false} AllRows(s: seq<bv8>, t: seq<bv8>, width: nat, height: nat, dots: Dots, n: nat)
    requires Canvas(s, width, height) && Canvas(t, width, height) && Glyph(dots)
    requires Drawn(s, t, width, height, dots, n, 0, 7, 0)
    ensures WithGlyph(s, t, width, height, dots, n)
  {
    forall px: nat, py: nat | px < width && py < height
      ensures At(t, width, height, px, py) == if GlyphInk(dots, n, px, py) then 3 else At(s, width, height, px, py)
    {
    }
  }

  method DrawGlyph(pixels: array<bv8>, width: nat, height: nat, ch: char, n: nat)
    requires Canvas(pixels[..], width, height)
    modifies pixels
    ensures Canvas(pixels[..], width, height) && WithGlyph(old(pixels[..]), pixels[..], width, height, DotsOf(ch), n)
    ensures SamePast(old(pixels[..]), pixels[..], width / 4 * height)
  {
    ghost var was := pixels[..];
    ghost var dots := DotsOf(ch);
    assert Glyph(dots);
    for y := 0 to 7
      invariant Canvas(pixels[..], width, height) && Drawn(was, pixels[..], width, height, dots, n, 0, y, 0)
      invariant SamePast(was, pixels[..], width / 4 * height)
    {
      for x := 0 to 5
        invariant Canvas(pixels[..], width, height) && Drawn(was, pixels[..], width, height, dots, n, x, y, 0)
        invariant SamePast(was, pixels[..], width / 4 * height)
      {
        if Dot(ch, x, y) {
          DrawDot(pixels, width, height, dots, n, x, y, was);
        }
        NextDot(was, pixels[..], width, height, dots, n, x, y);
      }
      NextRow(was, pixels[..], width, height, dots, n, y);
    }
    AllRows(was, pixels[..], width, height, dots, n);
  }

  // -------------------------------------------------------------- the result

  /** The first k characters of the text, on a canvas that was cleared. */
  predicate InkUpTo(text: string, k: nat, px: nat, py: nat) {
    exists n :: 0 <= n < |text| && n < k && GlyphInk(DotsOf(text[n]), n, px, py)
  }

  ghost predicate Shows(s: seq<bv8>, width: nat, height: nat, text: string, k: nat) {
    && Canvas(s, width, height)
    && forall px: nat, py: nat :: px < width && py < height ==>
         At(s, width, height, px, py) == if InkUpTo(text, k, px, py) then 3 else 0
  }

  lemma {:induction false} Blank(s: seq<bv8>, width: nat, height: nat, text: string)
    requires Canvas(s, width, height) && forall i :: 0 <= i < width / 4 * height ==> s[i] == 0
    ensures Shows(s, width, height, text, 0)
  {
    forall px: nat, py: nat | px < width && py < height ensures At(s, width, height, px, py) == 0 {
      Inside(width / 4, height, px / 4, py);
    }
  }

  lemma {:induction false} NextCharacter(s: seq<bv8>, t: seq<bv8>, width: nat, height: nat, text: string, k: nat)
    requires Shows(s, width, height, text, k) && k < |text| && Canvas(t, width, height)
    requires WithGlyph(s, t, width, height, DotsOf(text[k]), k)
    ensures Shows(t, width, height, text, k + 1)
  {
    forall px: nat, py: nat | px < width && py < height
      ensures At(t, width, height, px, py) == if InkUpTo(text, k + 1, px, py) then 3 else 0
    {
      assert InkUpTo(text, k + 1, px, py) <==> InkUpTo(text, k, px, py) || GlyphInk(DotsOf(text[k]), k, px, py);
    }
  }

  /** Every pixel of the canvas is white where the text has ink and transparent elsewhere. */
  ghost predicate Rendered(s: seq<bv8>, width: nat, height: nat, text: string) {
    && Canvas(s, width, height)
    && forall px: nat, py: nat :: px < width && py < height ==>
         At(s, width, height, px, py) == if Ink(text, width, px, py) then 3 else 0
  }

  /**
   * Every pixel is white exactly where the text has ink and transparent elsewhere, whatever was there before;
   * nothing outside the canvas is written; a canvas of no area or a width not divisible by 4 is left alone.
   */
  method Draw(pixels: array<bv8>, width: nat, height: nat, text: string)
    requires width / 4 * height <= pixels.Length
    modifies pixels
    ensures width == 0 || width % 4 != 0 || height == 0 ==> pixels[..] == old(pixels[..])
    ensures width % 4 == 0 ==> Rendered(pixels[..], width, height, text)
    ensures SamePast(old(pixels[..]), pixels[..], width / 4 * height)
  {
    if width == 0 || width % 4 != 0 || height == 0 {
      return;
    }
    var bytes := width / 4 * height;
    ghost var before := pixels[..];
    for i := 0 to bytes
      invariant forall j :: 0 <= j < i ==> pixels[j] == 0
      invariant forall j :: i <= j < pixels.Length ==> pixels[j] == before[j]
    {
      pixels[i] := 0;
    }
    Blank(pixels[..], width, height, text);
    var n := 0;
    while n < |text| && n < width / 12
      invariant 0 <= n <= |text| && n <= width / 12 && Shows(pixels[..], width, height, text, n)
      invariant SamePast(before, pixels[..], bytes)
    {
      ghost var s := pixels[..];
      DrawGlyph(pixels, width, height, text[n], n);
      NextCharacter(s, pixels[..], width, height, text, n);
      n := n + 1;
    }
    assert forall px: nat, py: nat :: Ink(text, width, px, py) <==> InkUpTo(text, n, px, py);
  }

  /** Ink stays in its own cell: 10 of the 12 columns, rows 4 to 17; so characters never touch. */
  lemma {:induction false} InkOfOneCharacter(text: string, width: nat, px: nat, py: nat)
    requires Ink(text, width, px, py)
    ensures 4 <= px && 4 <= py < 18 && (px - 4) % 12 < 10
    ensures (px - 4) / 12 < |text| && GlyphInk(DotsOf(text[(px - 4) / 12]), (px - 4) / 12, px, py)
  {
    var n :| 0 <= n < |text| && n < width / 12 && GlyphInk(DotsOf(text[n]), n, px, py);
    DotsAreSmall(text[n], (px - 4 - 12 * n) / 2, (py - 4) / 2);
    InCell(px, n);
  }

  lemma {:induction false} DotsAreSmall(ch: char, x: nat, y: nat)
    requires (x, y) in DotsOf(ch)
    ensures x < 5 && y < 7
  {
  }

  lemma {:induction false} InCell(px: nat, n: nat)
    requires 4 + 12 * n <= px && (px - 4 - 12 * n) / 2 < 5
    ensures (px - 4) / 12 == n && (px - 4) % 12 < 10
  {
    var a := px - 4 - 12 * n;
    assert px - 4 == 12 * n + a && 0 <= a < 10;
  }
}
