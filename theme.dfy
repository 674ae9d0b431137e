/**
 * The process-wide colour configuration of the keyboard service and its
 * fixed table of named themes (the companion object of MyKeyboardService).
 */
module Theme {

  /** Kotlin's `Long.toInt()`: keeps the low 32 bits, read as two's complement. */
  function ArgbToInt(argb: nat): (r: int)
    requires argb < 0x1_0000_0000
    ensures -0x8000_0000 <= r < 0x8000_0000
    ensures (argb - r) % 0x1_0000_0000 == 0
    ensures argb >= 0x8000_0000 <==> r < 0
  {
    if argb < 0x8000_0000 then argb else argb - 0x1_0000_0000
  }

  // android.graphics.Color constants, with their documented ARGB values.
  const Black: int := ArgbToInt(0xFF00_0000)
  const White: int := ArgbToInt(0xFFFF_FFFF)
  const LightGray: int := ArgbToInt(0xFFCC_CCCC)
  const DarkGray: int := ArgbToInt(0xFF44_4444)
  const Gray: int := ArgbToInt(0xFF88_8888)
  const Red: int := ArgbToInt(0xFFFF_0000)
  const Green: int := ArgbToInt(0xFF00_FF00)
  const Cyan: int := ArgbToInt(0xFF00_FFFF)

  /** (keyboard background, key background, key text) */
  type ThemeColors = (int, int, int)

  const Themes: map<string, ThemeColors> := map[
    "Dark" := (ArgbToInt(0xFF00_0000), ArgbToInt(0xFF21_2121), White),
    "Light" := (ArgbToInt(0xFF00_0000), LightGray, Black),
    "Dracula" := (ArgbToInt(0xFF00_0000), DarkGray, Red),
    "Gray" := (ArgbToInt(0xFF00_0000), Gray, Black),
    "SkyBlue" := (ArgbToInt(0xFF00_0000), Cyan, Black),
    "Forest" := (ArgbToInt(0xFF00_0000), Green, White),
    "Ocean Blue" := (ArgbToInt(0xFF00_0000), ArgbToInt(0xFF1E_90FF), White),
    "Fiery Red" := (ArgbToInt(0xFF00_0000), ArgbToInt(0xFFFF_4500), White),
    "Sunshine Yellow" := (ArgbToInt(0xFF00_0000), ArgbToInt(0xFFFF_D700), Black),
    "Soft Pink" := (ArgbToInt(0xFF00_0000), ArgbToInt(0xFFFF_C0CB), Black),
    "Mystic Purple" := (ArgbToInt(0xFF00_0000), ArgbToInt(0xFF80_0080), White),
    "Deep Blue" := (ArgbToInt(0xFF00_0000), ArgbToInt(0xFF00_008B), White)
  ]

  /** The theme names, as the map literal lists them; only the lemma below uses this list. */
  const ThemeNames: seq<string> := [
    "Dark", "Light", "Dracula", "Gray", "SkyBlue", "Forest",
    "Ocean Blue", "Fiery Red", "Sunshine Yellow", "Soft Pink",
    "Mystic Purple", "Deep Blue"
  ]

  const ActionChangeTheme: string := "com.simple_keybord.ACTION_CHANGE_THEME"
  const ExtraThemeName: string := "theme_name"

  /** A fact about the data: twelve distinct names, exactly the keys of the table. */
  lemma ThemeCatalog()
    ensures |ThemeNames| == 12
    ensures forall i, j :: 0 <= i < j < |ThemeNames| ==> ThemeNames[i] != ThemeNames[j]
    ensures forall name :: name in Themes <==> name in ThemeNames
  {
  }

  /** A fact about the data: every entry's keyboard background is the value of Color.BLACK. */
  lemma ThemesKeepBlackBackground()
    ensures forall name :: name in Themes ==> Themes[name].0 == Black
  {
  }
}
