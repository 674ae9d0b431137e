# Simple_Keybord: the keyboard state machine of MyKeyboardService

This project models the core of the soft keyboard `MyKeyboardService` in
Dafny. It covers:

- the shift flag `isCapital` and the numeric flag `isNumber`;
- the four colour fields of the companion object;
- the table of twelve named themes;
- the grid of rendered keys: three letter (or numeric) rows and a bottom row;
- the tap dispatcher `handleButtonClick`;
- the theme broadcast handler;
- the in-place relabel (`updateLetterButtons`) and restyle (`applyTheme`).

Each rendered key is a record `Button(text, boundKey, fill, stroke,
textColor)`. `text` is the label the button shows. `boundKey` is the key
string its click handler was created with. `createRow` fixes `boundKey` when
the row is built, and `updateLetterButtons` later rewrites only `text`. A tap
is a tap on the button at (row, column): rows 0-2 are the letter or numeric
rows and row 3 is the bottom row. A tap dispatches the button's `boundKey`.
Host calls go to an output log: `CommitText(s)`, `DeleteSurroundingText(1, 0)`,
`SendEnterKeyDown` and `OpenSettings`.

Files and modules:

- `theme.dfy` (module `Theme`): the Android colour constants, the `Long.toInt()`
  conversion of ARGB literals, the `themes` map literal, and the broadcast
  action and extra names.
- `layout.dfy` (module `Layout`): the icons, the simple, capital and numeric
  row tables, the two bottom rows, and ASCII upper-casing.
- `machine.dfy` (module `Machine`): the state as a value (`Keyboard`) and one
  function per operation: `CreateRow`, `ApplyTheme`, `UpdateLetterButtons`,
  `ShowLetters`, `ShowNumbers`, `Dispatch`, `Receive`, `TapAt` and `RunTaps`
  (a session of taps). It also holds `Inv`, the invariant every reachable
  state keeps.
- `service.dfy` (module `Service`): class `MyKeyboardService`. Its fields are
  the ones the service updates in place. Its methods, with their loops, are
  proved to compute exactly the matching `Machine` function.
- `properties.dfy` (module `Properties`): the guarantees. They cover theme
  broadcasts, restyling, shift, the numeric round trip, the control keys,
  committed text, and concrete sessions from the initial state.

The model follows the code as written, including where it is easy to misread:

- `isCapital` survives the numeric round trip (`NumericRoundTrip`); coming
  back from the numeric grid does not return to lower case. `showNumberKeys`
  never touches it, and `showLetterKeys` reads it to choose the tables.
- The shift branch of `handleButtonClick` has no `isNumber` guard. It cannot
  be reached from the numeric grid, which has no shift key
  (`NumericGridHasNoShift`).
- The broadcast action is `"com.simple_keybord.ACTION_CHANGE_THEME"`, the
  value of the constant `ACTION_CHANGE_THEME`.
- After shift, 123, ABC and shift, the first button shows "q" but is bound to
  "Q", and it commits "Q" (`ShiftSurvivesNumericRoundTrip`). A letter button
  commits exactly its label only when the rows were built in lower case
  (`LetterCommitsLabel`).

## Model

| member | source | states |
|---|---|---|
| `Theme.ArgbToInt` | app/src/main/java/com/simple_keybord/MyKeyboardService.kt:26 | `Long.toInt()` of an ARGB literal: the result is a 32-bit signed int, congruent to the literal modulo 2^32, and negative exactly when the alpha byte's top bit is set |
| `Theme.ThemeCatalog` | app/src/main/java/com/simple_keybord/MyKeyboardService.kt:36-49 | a fact about the table literal only (the service looks names up and never iterates the table): it holds twelve distinct names, exactly the keys of the map |
| `Theme.ThemesKeepBlackBackground` | app/src/main/java/com/simple_keybord/MyKeyboardService.kt:36-49 | a fact about the table literal only, which no other code relies on: every entry's keyboard background is `0xFF000000.toInt()`, the same value as `Color.BLACK` |
| `Layout.LetterTable` | app/src/main/java/com/simple_keybord/MyKeyboardService.kt:76-82 | the simple and capital tables both have rows of 10, 9 and 9 keys; the third row starts with the shift icon of its case and ends with delete |
| `Layout.NumberTable` | app/src/main/java/com/simple_keybord/MyKeyboardService.kt:136-138 | the numeric rows have 10, 10 and 9 keys, the last ending with delete |
| `Layout.CapitalTableIsUppercase` | app/src/main/java/com/simple_keybord/MyKeyboardService.kt:76-82 | at every letter position the simple table holds one lower-case ASCII letter and the capital table its upper case |
| `Layout.UpperAscii` | app/src/main/java/com/simple_keybord/MyKeyboardService.kt:206 | `uppercase()` on ASCII: a-z go to the letter at the same place in A-Z, every other character is kept |
| `Machine.CreateRow` | app/src/main/java/com/simple_keybord/MyKeyboardService.kt:166-191 | a fresh row shows and is bound to exactly the given keys, in order, each in the current key colours |
| `Machine.CreateRows` | app/src/main/java/com/simple_keybord/MyKeyboardService.kt:119-121 | the rows built from a table show and are bound to that table, in the current colours |
| `Machine.StyleRow` | app/src/main/java/com/simple_keybord/MyKeyboardService.kt:265-274 | restyling a row keeps every label and bound key and gives each button the key fill, border and text colours |
| `Machine.StyleRows` | app/src/main/java/com/simple_keybord/MyKeyboardService.kt:251-262 | the same for every letter row |
| `Machine.ApplyTheme` | app/src/main/java/com/simple_keybord/MyKeyboardService.kt:248-275 | after applyTheme the layout and every key of the letter rows and the bottom row carry the current colours; labels, bound keys, row and button counts, flags, colour fields and output are unchanged |
| `Machine.RelabelRow` | app/src/main/java/com/simple_keybord/MyKeyboardService.kt:221-224 | relabelling a row (no longer than its table) shows the table's first entries, keeps the bound keys and keeps the colours; each button differs from the old one in its label only |
| `Machine.Relabel` | app/src/main/java/com/simple_keybord/MyKeyboardService.kt:212-226 | relabelling the rows keeps the row count, the number of buttons in each row, the bound keys and the colours, and shows the table's prefix of each row's length; each button differs from the old one in its label only |
| `Machine.UpdateLetterButtons` | app/src/main/java/com/simple_keybord/MyKeyboardService.kt:212-226 | updateLetterButtons keeps the row count, the bound keys, both flags, the colours, the layout background, the bottom row and the output, and shows on each row the current case's table prefix of that row's length (each button's other fields are kept, by `Relabel`) |
| `Machine.ShowLetters` | app/src/main/java/com/simple_keybord/MyKeyboardService.kt:110-129 | showLetterKeys clears `isNumber`, keeps `isCapital`, colours and output, shows and binds the letter table of the retained case, builds the bottom row 123, Space, enter, settings, and leaves every key themed |
| `Machine.ShowNumbers` | app/src/main/java/com/simple_keybord/MyKeyboardService.kt:131-164 | showNumberKeys sets `isNumber`, keeps `isCapital`, colours and output, shows and binds the numeric rows, builds the bottom row ABC, Space, enter, settings, and leaves every key themed |
| `Machine.CommitChar` | app/src/main/java/com/simple_keybord/MyKeyboardService.kt:205-207 | the committed text differs from the key exactly when shift is on, the grid is not numeric and the key is one lower-case letter; it is then exactly `uppercase()` of that letter |
| `Machine.Dispatch` | app/src/main/java/com/simple_keybord/MyKeyboardService.kt:193-210 | handleButtonClick never changes the colours; it flips `isCapital` exactly for a shift key; 123 sets and ABC clears `isNumber`, every other key keeps it; shift, 123 and ABC leave the output alone, and every other key appends exactly one host action and keeps both rows. The action per key is in `ControlKeys`, `CommitChar`, `NumericCommitsVerbatim` and `LetterCommitsLabel`; the full shift post-state is in `ShiftRelabels` |
| `Machine.RequestedTheme` | app/src/main/java/com/simple_keybord/MyKeyboardService.kt:64-66 | a broadcast names a theme exactly when the intent is present, its action is the theme-change action, it has the name extra and the name is in the table; the theme is the table's entry |
| `Machine.Receive` | app/src/main/java/com/simple_keybord/MyKeyboardService.kt:62-73 | a broadcast never changes the flags, the output, the border colour, or any label or bound key. `RequestedTheme` decides whether it acts; `ReceiveIgnored` and `ReceiveKnownTheme` give the two outcomes and `ReceiveKeepsInv` the invariant |
| `Machine.NumericGridHasNoShift` | app/src/main/java/com/simple_keybord/MyKeyboardService.kt:136-159 | no button of the numeric grid is bound to a shift icon |
| `Machine.InvDispatchable` | app/src/main/java/com/simple_keybord/MyKeyboardService.kt:195-226 | in a reachable state a tap on a shift button happens only in letter mode with rows that fit the letter tables, so `keys[j]` stays in bounds |
| `Machine.ShiftRelabels` | app/src/main/java/com/simple_keybord/MyKeyboardService.kt:195-226 | a shift tap in letter mode flips `isCapital` and shows the other case's table on the same buttons: bound keys, row count, buttons per row, bottom row, colours and output unchanged |
| `Machine.DispatchOnlyOutputs` | app/src/main/java/com/simple_keybord/MyKeyboardService.kt:199-208 | every key other than shift, 123 and ABC only appends one host action to the output |
| `Machine.TapKeepsInv` | app/src/main/java/com/simple_keybord/MyKeyboardService.kt:193-210 | dispatching the key of any existing button keeps the invariant of reachable states |
| `Machine.TapAt` | app/src/main/java/com/simple_keybord/MyKeyboardService.kt:171-172 | a tap dispatches the key the button was created with and leads to a reachable state |
| `Machine.RunTaps` | app/src/main/java/com/simple_keybord/MyKeyboardService.kt:171-172 | a session of taps on existing buttons only visits reachable states |
| `Machine.Initial` | app/src/main/java/com/simple_keybord/MyKeyboardService.kt:85-97 | onCreateInputView with the initial field values gives a reachable state (`Inv`) in lower-case letter mode with an empty output; `InitialState` adds the colours and tables |
| `Machine.ReceiveKeepsInv` | app/src/main/java/com/simple_keybord/MyKeyboardService.kt:62-73 | a theme broadcast keeps the invariant of reachable states |
| `Service.MyKeyboardService.constructor` | app/src/main/java/com/simple_keybord/MyKeyboardService.kt:85-97 | onCreateInputView with the default colours gives the initial state, which is reachable |
| `Service.MyKeyboardService.CreateRow` | app/src/main/java/com/simple_keybord/MyKeyboardService.kt:166-176 | the loop builds one button per key, showing and bound to that key, in the current colours |
| `Service.MyKeyboardService.CreateBottomRow` | app/src/main/java/com/simple_keybord/MyKeyboardService.kt:228-246 | the bottom row shows and is bound to 123, Space, enter, settings, in the current colours |
| `Service.MyKeyboardService.ShowLetterKeys` | app/src/main/java/com/simple_keybord/MyKeyboardService.kt:110-129 | the new state is `ShowLetters` of the old one |
| `Service.MyKeyboardService.ShowNumberKeys` | app/src/main/java/com/simple_keybord/MyKeyboardService.kt:131-164 | the new state is `ShowNumbers` of the old one |
| `Service.MyKeyboardService.UpdateLetterButtons` | app/src/main/java/com/simple_keybord/MyKeyboardService.kt:212-226 | the nested loops rewrite only the button texts, to `Relabel` of the old rows with the current case's table |
| `Service.MyKeyboardService.ApplyTheme` | app/src/main/java/com/simple_keybord/MyKeyboardService.kt:248-275 | the nested loops restyle in place to exactly `Machine.ApplyTheme` of the old state |
| `Service.MyKeyboardService.HandleButtonClick` | app/src/main/java/com/simple_keybord/MyKeyboardService.kt:193-210 | the new state is `Dispatch` of the old state and the key |
| `Service.MyKeyboardService.Tap` | app/src/main/java/com/simple_keybord/MyKeyboardService.kt:189 | a click on an existing button gives `TapAt` of the old state and keeps the invariant |
| `Service.MyKeyboardService.OnReceive` | app/src/main/java/com/simple_keybord/MyKeyboardService.kt:62-73 | the new state is `Receive` of the old state and the intent, with the same early returns, and a broadcast keeps `Valid()` so taps can follow |
| `Properties.ReceiveIgnored` | app/src/main/java/com/simple_keybord/MyKeyboardService.kt:64-66 | a broadcast with another action, no name extra or an unknown name changes nothing at all |
| `Properties.ReceiveKnownTheme` | app/src/main/java/com/simple_keybord/MyKeyboardService.kt:66-70 | a known theme sets the three colour fields to its triple and keeps the border colour, both flags, the output and every label and bound key; every key then carries the new colours |
| `Properties.ThemedIsFixpoint` | app/src/main/java/com/simple_keybord/MyKeyboardService.kt:248-275 | applyTheme on a grid already in the current colours changes nothing |
| `Properties.ApplyThemeIdempotent` | app/src/main/java/com/simple_keybord/MyKeyboardService.kt:248-275 | a second applyTheme changes nothing |
| `Properties.ShiftButton` | app/src/main/java/com/simple_keybord/MyKeyboardService.kt:78-82 | in letter mode the first button of the third row exists and is bound to a shift icon |
| `Properties.ShiftTap` | app/src/main/java/com/simple_keybord/MyKeyboardService.kt:195-197 | a tap on the shift button flips the case and relabels to that case's table, keeping bound keys, bottom row, colours and output |
| `Properties.ShiftTaps` | app/src/main/java/com/simple_keybord/MyKeyboardService.kt:195-197 | after any number of shift taps the bound keys are those of the build and the labels are the table of the current case |
| `Properties.ShiftParity` | app/src/main/java/com/simple_keybord/MyKeyboardService.kt:195-197 | an even number of shift taps restores `isCapital`, an odd number flips it |
| `Properties.LetterCommitsLabel` | app/src/main/java/com/simple_keybord/MyKeyboardService.kt:193-226 | with rows built in lower case, after any number of shift taps, a letter button commits exactly the label it shows |
| `Properties.NumericCommitsVerbatim` | app/src/main/java/com/simple_keybord/MyKeyboardService.kt:205-207 | in numeric mode every key of the three rows except delete commits its label unchanged and changes nothing else |
| `Properties.NumericRoundTrip` | app/src/main/java/com/simple_keybord/MyKeyboardService.kt:110-117 | 123 then ABC rebuilds the letter rows in the case held before; `isCapital` is not reset |
| `Properties.ControlKeys` | app/src/main/java/com/simple_keybord/MyKeyboardService.kt:199-204 | delete, enter, settings and Space each append exactly one host action and change nothing else |
| `Properties.InitialState` | app/src/main/java/com/simple_keybord/MyKeyboardService.kt:19-34 | the initial state is lower-case letter mode with the default colours, an empty output and the simple tables |
| `Properties.ShiftThenLetter` | app/src/main/java/com/simple_keybord/MyKeyboardService.kt:195-207 | from the initial state, shift then the "a" button commits "A" |
| `Properties.NumbersThenDigit` | app/src/main/java/com/simple_keybord/MyKeyboardService.kt:131-143 | from the initial state, 123 shows the numeric rows and the "5" button commits "5" |
| `Properties.DeleteThenEnter` | app/src/main/java/com/simple_keybord/MyKeyboardService.kt:199-200 | from the initial state, delete then enter issue one deletion before the cursor and one ENTER key-down, and nothing else changes |
| `Properties.ShiftSurvivesNumericRoundTrip` | app/src/main/java/com/simple_keybord/MyKeyboardService.kt:110-117 | shift, 123, ABC, shift leaves lower-case labels on buttons bound to the capital table, and the "q" button commits "Q" |

## Left out

- Android view mechanics: `LinearLayout`, layout params and weights,
  `removeAllViews`/`addView`, `Drawable` objects. Rows are sequences of records.
- `dpToPx`/`dpToPxF`, the border width, corner radius, text size, key height
  and padding. They are floating-point conversions of constants and are the
  same for every button. Only the stroke colour is kept.
- Receiver registration in `onCreateInputView` and unregistration in
  `onDestroy`. These are platform lifecycle and broadcast delivery.
- `InputConnection`, `KeyEvent` and `startActivity`. Each becomes one entry of
  the output log. The cursor position argument `1` of `commitText` is not
  recorded.
- MainActivity.kt is not part of this model. It is a UI screen that only
  opens the system input-method settings.
- The companion colour fields are process-wide in the source. Here they are
  fields of one service instance, starting at their initialisers.
- The Android colour constants get their documented ARGB values. The one
  proof that depends on them is `Theme.ThemesKeepBlackBackground`, which
  needs `Color.BLACK` to be `0xFF000000`.
- `getStringExtra` returns null for a missing extra and for an extra that is
  not a string. The intent is modelled with its string extras only, so both
  cases are a missing key.
- The 123, ABC and Space buttons call `showNumberKeys`, `showLetterKeys` and
  `commitText` directly rather than through `handleButtonClick`. The effect
  is the same as dispatching their label, which the model does.
- A tap can only land on an existing button. `TapAt` requires a valid
  position, and `RunTaps` stops with None at the first invalid one.
- The state before `onCreateInputView`, when `keyboardLayout` is not yet
  initialised, is not modelled.
- Machine.Dispatch and Service.MyKeyboardService.HandleButtonClick require
  that a shift key is dispatched only while the rows fit the letter tables.
  Otherwise `keys[j]` in `updateLetterButtons` would be out of bounds and the
  source would throw. A tap never does this (`InvDispatchable`).
- Layout.UpperAscii: models Kotlin's `uppercase()` only on ASCII, because
  only the ASCII labels of the fixed tables reach it in letter mode.
