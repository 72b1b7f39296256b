/** How the digits of the 8x8 LED display and the glyphs of the dot matrix are drawn. */
module Drawings {
  import opened Glyphs
  import opened Pictures

  const LED_0: Picture := [
    ".####...",
    "#....#..",
    "#...##..",
    "#..#.#..",
    "#.#..#..",
    "##...#..",
    ".####...",
    "........"
  ]

  const LED_1: Picture := [
    "..##....",
    ".###....",
    "..##....",
    "..##....",
    "..##....",
    "..##....",
    "######..",
    "........"
  ]

  const LED_2: Picture := [
    ".####...",
    "##..##..",
    "....##..",
    "..###...",
    ".##.....",
    "##..##..",
    "######..",
    "........"
  ]

  const LED_3: Picture := [
    ".####...",
    "##..##..",
    "....##..",
    "..###...",
    "....##..",
    "##..##..",
    ".####...",
    "........"
  ]

  const LED_4: Picture := [
    "...###..",
    "..####..",
    ".##.##..",
    "##..##..",
    "#######.",
    "....##..",
    "...####.",
    "........"
  ]

  const LED_5: Picture := [
    "######..",
    "##......",
    "#####...",
    "....##..",
    "....##..",
    "##..##..",
    ".####...",
    "........"
  ]

  const LED_6: Picture := [
    "..###...",
    ".##.....",
    "##......",
    "#####...",
    "##..##..",
    "##..##..",
    ".####...",
    "........"
  ]

  const LED_7: Picture := [
    "######..",
    "##..##..",
    "....##..",
    "...##...",
    "..##....",
    "..##....",
    "..##....",
    "........"
  ]

  const LED_8: Picture := [
    ".####...",
    "##..##..",
    "##..##..",
    ".####...",
    "##..##..",
    "##..##..",
    ".####...",
    "........"
  ]

  const LED_9: Picture := [
    ".####...",
    "##..##..",
    "##..##..",
    ".#####..",
    "....##..",
    "...##...",
    ".###....",
    "........"
  ]

  function LedPicture(d: nat): Picture
    requires d < 10
  {
    if d == 0 then LED_0 else if d == 1 then LED_1 else if d == 2 then LED_2 else if d == 3 then LED_3
    else if d == 4 then LED_4 else if d == 5 then LED_5 else if d == 6 then LED_6 else if d == 7 then LED_7
    else if d == 8 then LED_8 else LED_9
  }

  const DOT_0: Picture := [
    "..####..",
    "..#..#..",
    "..#..#..",
    "..#..#..",
    "..#..#..",
    "..#..#..",
    "..#..#..",
    "..####.."
  ]

  const DOT_1: Picture := [
    "....#...",
    "...##...",
    "....#...",
    "....#...",
    "....#...",
    "....#...",
    "....#...",
    "...###.."
  ]

  const DOT_2: Picture := [
    "..####..",
    ".....#..",
    ".....#..",
    "..####..",
    "..####..",
    "..#.....",
    "..#.....",
    "..####.."
  ]

  const DOT_3: Picture := [
    "..####..",
    ".....#..",
    ".....#..",
    "..####..",
    "..####..",
    ".....#..",
    ".....#..",
    "..####.."
  ]

  const DOT_4: Picture := [
    "..#.#...",
    "..#.#...",
    "..#.#...",
    "..#.#...",
    "..####..",
    "....#...",
    "....#...",
    "....#..."
  ]

  const DOT_5: Picture := [
    "..####..",
    "..#.....",
    "..#.....",
    "..####..",
    "..####..",
    ".....#..",
    ".....#..",
    "..####.."
  ]

  const DOT_6: Picture := [
    "..####..",
    "..#.....",
    "..#.....",
    "..#.....",
    "..####..",
    "..#..#..",
    "..#..#..",
    "..####.."
  ]

  const DOT_7: Picture := [
    "..#..#..",
    "..#..#..",
    "..#..#..",
    "...###..",
    "..####..",
    "..####..",
    "..####..",
    "..####.."
  ]

  const DOT_8: Picture := [
    "..####..",
    "..#..#..",
    "..#..#..",
    "..####..",
    "..#..#..",
    "..#..#..",
    "..#..#..",
    "..####.."
  ]

  const DOT_9: Picture := [
    "..####..",
    "..#..#..",
    "..#..#..",
    "..####..",
    ".....#..",
    ".....#..",
    ".....#..",
    "..####.."
  ]

  const DOT_T: Picture := [
    "..#####.",
    "....#...",
    "....#...",
    "....#...",
    "....#...",
    "....#...",
    "....#...",
    "....#..."
  ]

  const DOT_C: Picture := [
    "..####..",
    "..#.....",
    "..#.....",
    "..#.....",
    "..#.....",
    "..#.....",
    "..#.....",
    "..####.."
  ]

  const DOT_COLON: Picture := [
    "........",
    "....#...",
    "....#...",
    "........",
    "........",
    "....#...",
    "....#...",
    "........"
  ]

  const DOT_W: Picture := [
    ".#.#.#..",
    ".#.#.#..",
    ".#.#.#..",
    ".#.#.#..",
    ".#.#.#..",
    ".#.#.#..",
    ".#.#.#..",
    ".#####.."
  ]

  const DOT_BLANK: Picture := [
    "........",
    "........",
    "........",
    "........",
    "........",
    "........",
    "........",
    "........"
  ]

  function DotPicture(g: Glyph): Picture
    requires Proper(g)
  {
    match g
    case Digit(d) =>
      if d == 0 then DOT_0 else if d == 1 then DOT_1 else if d == 2 then DOT_2 else if d == 3 then DOT_3
      else if d == 4 then DOT_4 else if d == 5 then DOT_5 else if d == 6 then DOT_6 else if d == 7 then DOT_7
      else if d == 8 then DOT_8 else DOT_9
    case T => DOT_T
    case C => DOT_C
    case Colon => DOT_COLON
    case W => DOT_W
    case Blank => DOT_BLANK
  }
}
