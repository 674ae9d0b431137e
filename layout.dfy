/**
 * The fixed key tables of the keyboard: icons, the lower- and upper-case
 * letter rows, the numeric rows and the two bottom rows.
 */
module Layout {

  const IconShiftUp: string := "\U{21E7}"
  const IconShiftDown: string := "\U{21E9}"
  const IconDelete: string := "\U{232B}"
  const IconEnter: string := "\U{23CE}"
  const IconSettings: string := "\U{2699}\U{FE0F}"

  const SimpleRow1: seq<string> := ["q", "w", "e", "r", "t", "y", "u", "i", "o", "p"]
  const SimpleRow2: seq<string> := ["a", "s", "d", "f", "g", "h", "j", "k", "l"]
  const SimpleRow3: seq<string> := [IconShiftUp, "z", "x", "c", "v", "b", "n", "m", IconDelete]

  const CapitalRow1: seq<string> := ["Q", "W", "E", "R", "T", "Y", "U", "I", "O", "P"]
  const CapitalRow2: seq<string> := ["A", "S", "D", "F", "G", "H", "J", "K", "L"]
  const CapitalRow3: seq<string> := [IconShiftDown, "Z", "X", "C", "V", "B", "N", "M", IconDelete]

  const NumberRow1: seq<string> := ["1", "2", "3", "4", "5", "6", "7", "8", "9", "0"]
  const NumberRow2: seq<string> := ["-", "/", ";", ":", "(", ")", "$", "&", "@", "\""]
  const NumberRow3: seq<string> := ["^", ".", ",", "?", "!", "#", "%", "*", IconDelete]

  const LetterBottomKeys: seq<string> := ["123", "Space", IconEnter, IconSettings]
  const NumberBottomKeys: seq<string> := ["ABC", "Space", IconEnter, IconSettings]

  /** The three letter rows for the given case; both cases have rows of 10, 9 and 9 keys. */
  function LetterTable(capital: bool): (t: seq<seq<string>>)
    ensures |t| == 3 && |t[0]| == 10 && |t[1]| == 9 && |t[2]| == 9
    ensures t[2][0] == (if capital then IconShiftDown else IconShiftUp) && t[2][8] == IconDelete
  {
    if capital then [CapitalRow1, CapitalRow2, CapitalRow3]
    else [SimpleRow1, SimpleRow2, SimpleRow3]
  }

  /** The three numeric rows: 10, 10 and 9 keys, the last one ending in delete. */
  function NumberTable(): (t: seq<seq<string>>)
    ensures |t| == 3 && |t[0]| == 10 && |t[1]| == 10 && |t[2]| == 9
    ensures t[2][8] == IconDelete
  {
    [NumberRow1, NumberRow2, NumberRow3]
  }

  predicate IsAsciiLower(c: char) { 'a' <= c <= 'z' }

  predicate IsAsciiUpper(c: char) { 'A' <= c <= 'Z' }

  /** `uppercase()` restricted to ASCII: a-z to A-Z, every other character kept. */
  function UpperAscii(c: char): (r: char)
    ensures IsAsciiLower(c) ==> IsAsciiUpper(r) && r as int - 'A' as int == c as int - 'a' as int
    ensures !IsAsciiLower(c) ==> r == c
  {
    if IsAsciiLower(c) then (c as int - 'a' as int + 'A' as int) as char else c
  }

  /** The letter keys: every position of a letter row except shift and delete. */
  predicate IsLetterPosition(r: nat, c: nat) {
    r < 3 && c < |LetterTable(false)[r]| && !(r == 2 && (c == 0 || c == 8))
  }

  /**
   * On every letter position the lower-case table holds one lower-case ASCII
   * letter and the capital table holds its upper case; on the other positions
   * of the third row the labels are icons.
   */
  lemma CapitalTableIsUppercase(r: nat, c: nat)
    requires IsLetterPosition(r, c)
    ensures |LetterTable(false)[r][c]| == 1 && IsAsciiLower(LetterTable(false)[r][c][0])
    ensures LetterTable(true)[r][c] == [UpperAscii(LetterTable(false)[r][c][0])]
  {
  }
}
