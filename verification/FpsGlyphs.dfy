/** What the characters of the overlay look like, and which pixels their dots cover. */
module FpsGlyphs {
  import opened FpsText

  // -------------------------------------------------- what the glyphs look like

  /** The character's dots are the marks of the picture. */
  ghost predicate Pictured(ch: char, picture: seq<string>) {
    && |picture| == 7 && (forall y :: 0 <= y < 7 ==> |picture[y]| == 5)
    && forall x: nat, y: nat :: Dot(ch, x, y) <==> x < 5 && y < 7 && picture[y][x] == '#'
  }

  function Bits(row: string): nat
    requires |row| == 5
  {
    (if row[0] == '#' then 16 else 0) + (if row[1] == '#' then 8 else 0) + (if row[2] == '#' then 4 else 0) +
      (if row[3] == '#' then 2 else 0) + if row[4] == '#' then 1 else 0
  }

  lemma {:induction false} Powers()
    ensures Power(0) == 1 && Power(1) == 2 && Power(2) == 4 && Power(3) == 8 && Power(4) == 16
  {
    assert Power(1) == 2 * Power(0) && Power(2) == 2 * Power(1);
    assert Power(3) == 2 * Power(2) && Power(4) == 2 * Power(3);
  }

  lemma {:induction false} RowShows(row: string, x: nat)
    requires |row| == 5 && x < 5
    ensures Bits(row) / Power(4 - x) % 2 == 1 <==> row[x] == '#'
  {
    Powers();
  }

  lemma {:induction false} PictureShows(ch: char, index: nat, picture: seq<string>)
    requires GlyphIndex(ch) == index < 15 && |picture| == 7
    requires forall y :: 0 <= y < 7 ==> |picture[y]| == 5
    requires GLYPHS[index] == [Bits(picture[0]), Bits(picture[1]), Bits(picture[2]), Bits(picture[3]),
                               Bits(picture[4]), Bits(picture[5]), Bits(picture[6])]
    ensures Pictured(ch, picture)
  {
    GlyphRows(index);
    forall x: nat, y: nat ensures Dot(ch, x, y) <==> x < 5 && y < 7 && picture[y][x] == '#' {
      if x < 5 && y < 7 {
        assert GLYPHS[index][y] == Bits(picture[y]);
        RowShows(picture[y], x);
      }
    }
  }

  function Picture(ch: char): seq<string> {
    match ch
    case '0' => [".###.", "#...#", "#..##", "#.#.#", "##..#", "#...#", ".###."]
    case '1' => ["..#..", ".##..", "..#..", "..#..", "..#..", "..#..", ".###."]
    case '2' => [".###.", "#...#", "....#", "...#.", "..#..", ".#...", "#####"]
    case '3' => ["####.", "....#", "....#", ".###.", "....#", "....#", "####."]
    case '4' => ["...#.", "..##.", ".#.#.", "#..#.", "#####", "...#.", "...#."]
    case '5' => ["#####", "#....", "#....", "####.", "....#", "....#", "####."]
    case '6' => [".###.", "#....", "#....", "####.", "#...#", "#...#", ".###."]
    case '7' => ["#####", "....#", "...#.", "..#..", ".#...", ".#...", ".#..."]
    case '8' => [".###.", "#...#", "#...#", ".###.", "#...#", "#...#", ".###."]
    case '9' => [".###.", "#...#", "#...#", ".####", "....#", "....#", ".###."]
    case 'F' => ["#####", "#....", "#....", "####.", "#....", "#....", "#...."]
    case 'P' => ["####.", "#...#", "#...#", "####.", "#....", "#....", "#...."]
    case 'S' => [".####", "#....", "#....", ".###.", "....#", "....#", "####."]
    case ':' => [".....", "..#..", "..#..", ".....", "..#..", "..#..", "....."]
    case '.' => [".....", ".....", ".....", ".....", ".....", "..#..", "..#.."]
    case _ => [".....", ".....", ".....", ".....", ".....", ".....", "....."]
  }

  lemma {:induction false} Zero()
    ensures Pictured('0', Picture('0'))
  {
    PictureShows('0', 0, Picture('0'));
  }

  lemma {:induction false} One()
    ensures Pictured('1', Picture('1'))
  {
    PictureShows('1', 1, Picture('1'));
  }

  lemma {:induction false} Two()
    ensures Pictured('2', Picture('2'))
  {
    PictureShows('2', 2, Picture('2'));
  }

  lemma {:induction false} Three()
    ensures Pictured('3', Picture('3'))
  {
    PictureShows('3', 3, Picture('3'));
  }

  lemma {:induction false} Four()
    ensures Pictured('4', Picture('4'))
  {
    PictureShows('4', 4, Picture('4'));
  }

  lemma {:induction false} Five()
    ensures Pictured('5', Picture('5'))
  {
    PictureShows('5', 5, Picture('5'));
  }

  lemma {:induction false} Six()
    ensures Pictured('6', Picture('6'))
  {
    PictureShows('6', 6, Picture('6'));
  }

  lemma {:induction false} Seven()
    ensures Pictured('7', Picture('7'))
  {
    PictureShows('7', 7, Picture('7'));
  }

  lemma {:induction false} Eight()
    ensures Pictured('8', Picture('8'))
  {
    PictureShows('8', 8, Picture('8'));
  }

  lemma {:induction false} Nine()
    ensures Pictured('9', Picture('9'))
  {
    PictureShows('9', 9, Picture('9'));
  }

  lemma {:induction false} LetterF()
    ensures Pictured('F', Picture('F'))
  {
    PictureShows('F', 10, Picture('F'));
  }

  lemma {:induction false} LetterP()
    ensures Pictured('P', Picture('P'))
  {
    PictureShows('P', 11, Picture('P'));
  }

  lemma {:induction false} LetterS()
    ensures Pictured('S', Picture('S'))
  {
    PictureShows('S', 12, Picture('S'));
  }

  lemma {:induction false} Colon()
    ensures Pictured(':', Picture(':'))
  {
    PictureShows(':', 13, Picture(':'));
  }

  lemma {:induction false} Point()
    ensures Pictured('.', Picture('.'))
  {
    PictureShows('.', 14, Picture('.'));
  }

  /** Every character looks like its picture. */
  lemma {:induction false} PicturesExactly(ch: char)
    ensures Pictured(ch, Picture(ch))
  {
    match ch
    case '0' => Zero();
    case '1' => One();
    case '2' => Two();
    case '3' => Three();
    case '4' => Four();
    case '5' => Five();
    case '6' => Six();
    case '7' => Seven();
    case '8' => Eight();
    case '9' => Nine();
    case 'F' => LetterF();
    case 'P' => LetterP();
    case 'S' => LetterS();
    case ':' => Colon();
    case '.' => Point();
    case _ =>
      forall x: nat, y: nat ensures !Dot(ch, x, y) && (x < 5 && y < 7 ==> Picture(ch)[y][x] == '.') {
        OthersAreGaps(ch, x, y);
      }
  }

  /** Every other character is a gap. */
  lemma {:induction false} OthersAreGaps(ch: char, x: nat, y: nat)
    requires !('0' <= ch <= '9') && ch != 'F' && ch != 'P' && ch != 'S' && ch != ':' && ch != '.'
    ensures !Dot(ch, x, y)
  {
  }

  /** Dot (x, y) of character n covers the two by two pixels from column 4 + 12n + 2x and row 4 + 2y on, no others. */
  lemma {:induction false} DotCovers(dots: Dots, n: nat, px: nat, py: nat)
    ensures GlyphInk(dots, n, px, py) <==> exists x: nat, y: nat :: (x, y) in dots && Covers(n, x, y, px, py)
  {
    if 4 + 12 * n <= px && 4 <= py {
      var x, y := (px - 4 - 12 * n) / 2, (py - 4) / 2;
      assert Covers(n, x, y, px, py);
      assert forall u: nat, v: nat :: Covers(n, u, v, px, py) ==> u == x && v == y;
    }
  }

  predicate Covers(n: nat, x: nat, y: nat, px: nat, py: nat) {
    && (px == 4 + 12 * n + 2 * x || px == 5 + 12 * n + 2 * x)
    && (py == 4 + 2 * y || py == 5 + 2 * y)
  }

  /** A pixel is inked exactly if a dot of a character that fits whole in the width covers it. */
  lemma {:induction false} InkExactly(text: string, width: nat, px: nat, py: nat)
    ensures Ink(text, width, px, py) <==>
              exists n: nat, x: nat, y: nat ::
                n < |text| && 12 * n + 12 <= width && Dot(text[n], x, y) && Covers(n, x, y, px, py)
  {
    forall n: nat | n < |text|
      ensures GlyphInk(DotsOf(text[n]), n, px, py) <==>
                exists x: nat, y: nat :: Dot(text[n], x, y) && Covers(n, x, y, px, py)
    {
      DotCovers(DotsOf(text[n]), n, px, py);
    }
  }

  /** A byte holds four pixels, the leftmost in its highest bits. */
  lemma {:induction false} FourPixels(b: bv8)
    ensures b == (Field(b, 0) << 6) | (Field(b, 1) << 4) | (Field(b, 2) << 2) | Field(b, 3)
    ensures Field(b, 0) < 4 && Field(b, 1) < 4 && Field(b, 2) < 4 && Field(b, 3) < 4
  {
  }
}
