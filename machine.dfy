/**
 * The keyboard state machine as values: the state of MyKeyboardService
 * (shift and numeric flags, the colour fields, the rendered grid) and one
 * function per operation. The class in module Service is proved to compute
 * exactly these functions.
 */
module Machine {
  import opened Theme
  import opened Layout

  datatype Option<T> = None | Some(value: T)

  /**
   * A rendered key. `text` is the label shown; `boundKey` is the key string
   * its click handler was created with; the three colours are its fill, its
   * border colour and its text colour.
   */
  datatype Button = Button(text: string, boundKey: string, fill: int, stroke: int, textColor: int)

  /** The companion-object colour fields. */
  datatype Colors = Colors(keyboardBackground: int, keyBackground: int, keyText: int, keyBorder: int)

  /** What the service asks of its host, in order. */
  datatype HostAction =
    | CommitText(text: string)
    | DeleteSurroundingText(before: nat, after: nat)
    | SendEnterKeyDown
    | OpenSettings

  /** A broadcast intent: its action and its string extras. */
  datatype Intent = Intent(action: string, stringExtras: map<string, string>)

  /**
   * The whole observable state: the two flags, the colour fields, the
   * background of the keyboard layout, the three letter rows, the bottom row
   * and the host actions issued so far.
   */
  datatype Keyboard = Keyboard(
    isCapital: bool,
    isNumber: bool,
    colors: Colors,
    layoutBackground: int,
    letterRows: seq<seq<Button>>,
    bottomRow: seq<Button>,
    output: seq<HostAction>)

  const DefaultColors: Colors := Colors(ArgbToInt(0xFF00_0000), LightGray, Black, Black)

  // ----- Views of the grid -----

  function RowLabels(row: seq<Button>): seq<string> {
    seq(|row|, j requires 0 <= j < |row| => row[j].text)
  }

  function RowKeys(row: seq<Button>): seq<string> {
    seq(|row|, j requires 0 <= j < |row| => row[j].boundKey)
  }

  function GridLabels(rows: seq<seq<Button>>): seq<seq<string>> {
    seq(|rows|, i requires 0 <= i < |rows| => RowLabels(rows[i]))
  }

  function GridKeys(rows: seq<seq<Button>>): seq<seq<string>> {
    seq(|rows|, i requires 0 <= i < |rows| => RowKeys(rows[i]))
  }

  predicate Styled(b: Button, c: Colors) {
    b.fill == c.keyBackground && b.stroke == c.keyBorder && b.textColor == c.keyText
  }

  predicate RowStyled(row: seq<Button>, c: Colors) {
    forall j :: 0 <= j < |row| ==> Styled(row[j], c)
  }

  predicate GridStyled(rows: seq<seq<Button>>, c: Colors) {
    forall i :: 0 <= i < |rows| ==> RowStyled(rows[i], c)
  }

  /** Every rendered key and the layout carry the current colour fields. */
  predicate Themed(s: Keyboard) {
    s.layoutBackground == s.colors.keyboardBackground
    && GridStyled(s.letterRows, s.colors) && RowStyled(s.bottomRow, s.colors)
  }

  // ----- Building rows -----

  function CreateButton(key: string, c: Colors): Button {
    Button(key, key, c.keyBackground, c.keyBorder, c.keyText)
  }

  /** A fresh row: each key shown as, and bound to, its own string, in the current colours. */
  function CreateRow(keys: seq<string>, c: Colors): (row: seq<Button>)
    ensures RowLabels(row) == keys && RowKeys(row) == keys && RowStyled(row, c)
  {
    seq(|keys|, j requires 0 <= j < |keys| => CreateButton(keys[j], c))
  }

  function CreateRows(table: seq<seq<string>>, c: Colors): (rows: seq<seq<Button>>)
    ensures GridLabels(rows) == table && GridKeys(rows) == table && GridStyled(rows, c)
  {
    seq(|table|, i requires 0 <= i < |table| => CreateRow(table[i], c))
  }

  // ----- Restyling in place -----

  function StyleButton(b: Button, c: Colors): Button {
    b.(fill := c.keyBackground, stroke := c.keyBorder, textColor := c.keyText)
  }

  function StyleRow(row: seq<Button>, c: Colors): (r: seq<Button>)
    ensures RowLabels(r) == RowLabels(row) && RowKeys(r) == RowKeys(row) && RowStyled(r, c)
  {
    seq(|row|, j requires 0 <= j < |row| => StyleButton(row[j], c))
  }

  function StyleRows(rows: seq<seq<Button>>, c: Colors): (r: seq<seq<Button>>)
    ensures GridLabels(r) == GridLabels(rows) && GridKeys(r) == GridKeys(rows) && GridStyled(r, c)
  {
    seq(|rows|, i requires 0 <= i < |rows| => StyleRow(rows[i], c))
  }

  /**
   * applyTheme: the layout takes the keyboard background; every key of the
   * letter rows and of the bottom row takes the key colours. Labels, bound
   * keys, row counts, flags, colour fields and the output stay as they were.
   */
  function ApplyTheme(s: Keyboard): (t: Keyboard)
    ensures Themed(t)
    ensures GridLabels(t.letterRows) == GridLabels(s.letterRows) && GridKeys(t.letterRows) == GridKeys(s.letterRows)
    ensures RowLabels(t.bottomRow) == RowLabels(s.bottomRow) && RowKeys(t.bottomRow) == RowKeys(s.bottomRow)
    ensures t.isCapital == s.isCapital && t.isNumber == s.isNumber && t.colors == s.colors && t.output == s.output
  {
    s.(layoutBackground := s.colors.keyboardBackground,
       letterRows := StyleRows(s.letterRows, s.colors),
       bottomRow := StyleRow(s.bottomRow, s.colors))
  }

  // ----- Relabelling in place -----

  /** The source indexes `keys[j]` for every button j of the row: the row must not be longer. */
  function RelabelRow(row: seq<Button>, keys: seq<string>): (r: seq<Button>)
    requires |row| <= |keys|
    ensures RowLabels(r) == keys[..|row|] && RowKeys(r) == RowKeys(row)
    ensures forall j :: 0 <= j < |row| ==> r[j].(text := row[j].text) == row[j]
  {
    seq(|row|, j requires 0 <= j < |row| => row[j].(text := keys[j]))
  }

  /** The letter rows fit the letter tables, so that relabelling stays in bounds. */
  predicate LetterRowsFit(rows: seq<seq<Button>>) {
    |rows| <= 3 && forall i :: 0 <= i < |rows| ==> |rows[i]| <= |LetterTable(false)[i]|
  }

  function Relabel(rows: seq<seq<Button>>, table: seq<seq<string>>): (r: seq<seq<Button>>)
    requires |rows| <= |table| && forall i :: 0 <= i < |rows| ==> |rows[i]| <= |table[i]|
    ensures |r| == |rows| && GridKeys(r) == GridKeys(rows)
    ensures forall i :: 0 <= i < |rows| ==> RowLabels(r[i]) == table[i][..|rows[i]|]
    ensures forall i :: 0 <= i < |rows| ==> |r[i]| == |rows[i]|
    ensures forall i, j :: 0 <= i < |rows| && 0 <= j < |rows[i]| ==> r[i][j].(text := rows[i][j].text) == rows[i][j]
  {
    seq(|rows|, i requires 0 <= i < |rows| => RelabelRow(rows[i], table[i]))
  }

  /** updateLetterButtons: show the letter table of the current case on the existing buttons. */
  function UpdateLetterButtons(s: Keyboard): (t: Keyboard)
    requires LetterRowsFit(s.letterRows)
    ensures |t.letterRows| == |s.letterRows| && GridKeys(t.letterRows) == GridKeys(s.letterRows)
    ensures forall i :: 0 <= i < |s.letterRows| ==>
      RowLabels(t.letterRows[i]) == LetterTable(s.isCapital)[i][..|s.letterRows[i]|]
    ensures t.isCapital == s.isCapital && t.isNumber == s.isNumber && t.colors == s.colors
    ensures t.layoutBackground == s.layoutBackground && t.bottomRow == s.bottomRow && t.output == s.output
  {
    s.(letterRows := Relabel(s.letterRows, LetterTable(s.isCapital)))
  }

  // ----- Rebuilding the grid -----

  /**
   * showLetterKeys: clears `isNumber` and builds the letter rows from the
   * capital or simple tables as the retained `isCapital` says, then the
   * bottom row starting with 123, then restyles.
   */
  function ShowLetters(s: Keyboard): (t: Keyboard)
    ensures !t.isNumber && t.isCapital == s.isCapital && t.colors == s.colors && t.output == s.output
    ensures GridLabels(t.letterRows) == LetterTable(s.isCapital) && GridKeys(t.letterRows) == LetterTable(s.isCapital)
    ensures RowLabels(t.bottomRow) == LetterBottomKeys && RowKeys(t.bottomRow) == LetterBottomKeys
    ensures Themed(t)
  {
    ApplyTheme(s.(isNumber := false,
                  letterRows := CreateRows(LetterTable(s.isCapital), s.colors),
                  bottomRow := CreateRow(LetterBottomKeys, s.colors)))
  }

  /**
   * showNumberKeys: sets `isNumber` and builds the numeric rows and the
   * bottom row starting with ABC, then restyles; `isCapital` is untouched.
   */
  function ShowNumbers(s: Keyboard): (t: Keyboard)
    ensures t.isNumber && t.isCapital == s.isCapital && t.colors == s.colors && t.output == s.output
    ensures GridLabels(t.letterRows) == NumberTable() && GridKeys(t.letterRows) == NumberTable()
    ensures RowLabels(t.bottomRow) == NumberBottomKeys && RowKeys(t.bottomRow) == NumberBottomKeys
    ensures Themed(t)
  {
    ApplyTheme(s.(isNumber := true,
                  letterRows := CreateRows(NumberTable(), s.colors),
                  bottomRow := CreateRow(NumberBottomKeys, s.colors)))
  }

  // ----- Dispatch -----

  /**
   * The text committed for a key that is none of the control keys: its upper
   * case when shifted in letter mode and one character long, else itself.
   * Only a single lower-case ASCII letter is ever changed.
   */
  function CommitChar(isCapital: bool, isNumber: bool, key: string): (r: string)
    ensures |r| == |key|
    ensures r != key <==> isCapital && !isNumber && |key| == 1 && IsAsciiLower(key[0])
    ensures r != key ==> r == [UpperAscii(key[0])]
  {
    if isCapital && !isNumber && |key| == 1 then [UpperAscii(key[0])] else key
  }

  predicate IsShiftKey(key: string) {
    key == IconShiftUp || key == IconShiftDown
  }

  /** handleButtonClick: the response to a click on a button bound to `key`. */
  function Dispatch(s: Keyboard, key: string): (t: Keyboard)
    requires IsShiftKey(key) ==> LetterRowsFit(s.letterRows)
    ensures t.colors == s.colors
    ensures t.isCapital != s.isCapital <==> IsShiftKey(key)
    ensures t.isNumber == (if key == "123" then true else if key == "ABC" then false else s.isNumber)
    ensures IsShiftKey(key) || key == "123" || key == "ABC" ==> t.output == s.output
    ensures !(IsShiftKey(key) || key == "123" || key == "ABC") ==>
      |t.output| == |s.output| + 1 && t.output[..|s.output|] == s.output
      && t.letterRows == s.letterRows && t.bottomRow == s.bottomRow
  {
    if IsShiftKey(key) then UpdateLetterButtons(s.(isCapital := !s.isCapital))
    else if key == IconDelete then s.(output := s.output + [DeleteSurroundingText(1, 0)])
    else if key == IconEnter then s.(output := s.output + [SendEnterKeyDown])
    else if key == IconSettings then s.(output := s.output + [OpenSettings])
    else if key == "123" then ShowNumbers(s)
    else if key == "ABC" then ShowLetters(s)
    else if key == "Space" then s.(output := s.output + [CommitText(" ")])
    else s.(output := s.output + [CommitText(CommitChar(s.isCapital, s.isNumber, key))])
  }

  // ----- Theme broadcast -----

  /** The colour fields after a known theme: its triple replaces three of them, the border is kept. */
  function WithTheme(c: Colors, theme: ThemeColors): Colors {
    c.(keyboardBackground := theme.0, keyBackground := theme.1, keyText := theme.2)
  }

  /** The theme a broadcast names, when it is a theme-change broadcast for a known name. */
  function RequestedTheme(intent: Option<Intent>): (r: Option<ThemeColors>)
    ensures r.Some? <==> intent.Some? && intent.value.action == ActionChangeTheme
                         && ExtraThemeName in intent.value.stringExtras
                         && intent.value.stringExtras[ExtraThemeName] in Themes
    ensures r.Some? ==> r.value == Themes[intent.value.stringExtras[ExtraThemeName]]
  {
    if intent.Some? && intent.value.action == ActionChangeTheme then
      if ExtraThemeName in intent.value.stringExtras then
        var themeName := intent.value.stringExtras[ExtraThemeName];
        if themeName in Themes then Some(Themes[themeName]) else None
      else None
    else None
  }

  /** themeReceiver.onReceive */
  function Receive(s: Keyboard, intent: Option<Intent>): (t: Keyboard)
    ensures t.isCapital == s.isCapital && t.isNumber == s.isNumber && t.output == s.output
    ensures t.colors.keyBorder == s.colors.keyBorder
    ensures GridLabels(t.letterRows) == GridLabels(s.letterRows) && GridKeys(t.letterRows) == GridKeys(s.letterRows)
    ensures RowLabels(t.bottomRow) == RowLabels(s.bottomRow) && RowKeys(t.bottomRow) == RowKeys(s.bottomRow)
  {
    match RequestedTheme(intent)
    case None => s
    case Some(theme) => ApplyTheme(s.(colors := WithTheme(s.colors, theme)))
  }

  // ----- Taps -----

  /** Row indices 0-2 are the letter (or numeric) rows; the next one is the bottom row. */
  predicate ValidPosition(s: Keyboard, r: nat, c: nat) {
    (r < |s.letterRows| && c < |s.letterRows[r]|) || (r == |s.letterRows| && c < |s.bottomRow|)
  }

  function ButtonAt(s: Keyboard, r: nat, c: nat): Button
    requires ValidPosition(s, r, c)
  {
    if r < |s.letterRows| then s.letterRows[r][c] else s.bottomRow[c]
  }

  /**
   * The states the service can be in once its input view exists: three rows
   * bound to one table, labels and bottom row matching the mode, every key
   * styled with the current colours.
   */
  predicate Inv(s: Keyboard) {
    && |s.letterRows| == 3
    && Themed(s)
    && if s.isNumber then
         && GridLabels(s.letterRows) == NumberTable() && GridKeys(s.letterRows) == NumberTable()
         && RowLabels(s.bottomRow) == NumberBottomKeys && RowKeys(s.bottomRow) == NumberBottomKeys
       else
         && (GridKeys(s.letterRows) == LetterTable(false) || GridKeys(s.letterRows) == LetterTable(true))
         && GridLabels(s.letterRows) == LetterTable(s.isCapital)
         && RowLabels(s.bottomRow) == LetterBottomKeys && RowKeys(s.bottomRow) == LetterBottomKeys
  }

  lemma GridShape(s: Keyboard, table: seq<seq<string>>)
    requires GridKeys(s.letterRows) == table
    ensures |s.letterRows| == |table|
    ensures forall i :: 0 <= i < |table| ==> |s.letterRows[i]| == |table[i]|
    ensures forall i, j :: 0 <= i < |table| && 0 <= j < |table[i]| ==> s.letterRows[i][j].boundKey == table[i][j]
  {
    assert |GridKeys(s.letterRows)| == |s.letterRows|;
    forall i | 0 <= i < |table|
      ensures |s.letterRows[i]| == |table[i]|
      ensures forall j :: 0 <= j < |table[i]| ==> s.letterRows[i][j].boundKey == table[i][j]
    {
      assert RowKeys(s.letterRows[i]) == table[i];
    }
  }

  /** No key of the numeric grid is a shift key: the numeric grid has no shift button. */
  lemma NumericGridHasNoShift(s: Keyboard, r: nat, c: nat)
    requires Inv(s) && s.isNumber && ValidPosition(s, r, c)
    ensures !IsShiftKey(ButtonAt(s, r, c).boundKey)
  {
    if r < 3 {
      GridShape(s, NumberTable());
    } else {
      assert RowKeys(s.bottomRow)[c] == NumberBottomKeys[c];
    }
  }

  /** In a reachable state a click never indexes past a letter table. */
  lemma InvDispatchable(s: Keyboard, r: nat, c: nat)
    requires Inv(s) && ValidPosition(s, r, c)
    ensures IsShiftKey(ButtonAt(s, r, c).boundKey) ==> !s.isNumber && LetterRowsFit(s.letterRows)
  {
    if s.isNumber {
      NumericGridHasNoShift(s, r, c);
    } else if GridKeys(s.letterRows) == LetterTable(false) {
      GridShape(s, LetterTable(false));
    } else {
      GridShape(s, LetterTable(true));
    }
  }

  /** A tap on the button at (r, c) dispatches the key that button was created with. */
  function TapAt(s: Keyboard, r: nat, c: nat): (t: Keyboard)
    requires Inv(s) && ValidPosition(s, r, c)
    ensures Inv(t)
  {
    InvDispatchable(s, r, c);
    TapKeepsInv(s, r, c);
    Dispatch(s, ButtonAt(s, r, c).boundKey)
  }

  /**
   * A session of taps, each at (row, column); None as soon as a tap falls
   * outside the grid shown at that moment.
   */
  function RunTaps(s: Keyboard, taps: seq<(nat, nat)>): (r: Option<Keyboard>)
    requires Inv(s)
    ensures r.Some? ==> Inv(r.value)
    decreases |taps|
  {
    if taps == [] then Some(s)
    else if ValidPosition(s, taps[0].0, taps[0].1) then RunTaps(TapAt(s, taps[0].0, taps[0].1), taps[1..])
    else None
  }

  /** onCreateInputView: the layout takes the keyboard background, then the letter keys are shown. */
  function Initial(): (t: Keyboard)
    ensures Inv(t) && !t.isCapital && !t.isNumber && t.output == []
  {
    ShowLetters(Keyboard(false, false, DefaultColors, DefaultColors.keyboardBackground, [], [], []))
  }

  /** A row is determined by its labels, its bound keys and a common style. */
  lemma RowDetermined(a: seq<Button>, b: seq<Button>, c: Colors)
    requires RowLabels(a) == RowLabels(b) && RowKeys(a) == RowKeys(b)
    requires RowStyled(a, c) && RowStyled(b, c)
    ensures a == b
  {
    assert |a| == |RowLabels(a)| == |b|;
    forall j | 0 <= j < |a| ensures a[j] == b[j] {
      assert RowLabels(a)[j] == RowLabels(b)[j];
      assert RowKeys(a)[j] == RowKeys(b)[j];
    }
  }

  /** Tapping a shift key in letter mode shows the table of the other case on the same buttons. */
  lemma ShiftRelabels(s: Keyboard, key: string)
    requires Inv(s) && !s.isNumber && IsShiftKey(key)
    ensures LetterRowsFit(s.letterRows)
    ensures var t := Dispatch(s, key);
      && t.isCapital == !s.isCapital && t.isNumber == s.isNumber
      && GridLabels(t.letterRows) == LetterTable(!s.isCapital)
      && GridKeys(t.letterRows) == GridKeys(s.letterRows)
      && |t.letterRows| == |s.letterRows|
      && (forall i :: 0 <= i < |s.letterRows| ==> |t.letterRows[i]| == |s.letterRows[i]|)
      && t.bottomRow == s.bottomRow && t.colors == s.colors
      && t.layoutBackground == s.layoutBackground && t.output == s.output
      && Inv(t)
  {
    var table := LetterTable(!s.isCapital);
    if GridKeys(s.letterRows) == LetterTable(false) {
      GridShape(s, LetterTable(false));
    } else {
      GridShape(s, LetterTable(true));
    }
    var t := Dispatch(s, key);
    assert t.letterRows == Relabel(s.letterRows, table);
    forall i | 0 <= i < 3
      ensures |t.letterRows[i]| == |s.letterRows[i]|
      ensures GridLabels(t.letterRows)[i] == table[i]
    {
      assert |RowLabels(t.letterRows[i])| == |t.letterRows[i]|;
      assert table[i][..|s.letterRows[i]|] == table[i];
    }
    assert GridLabels(t.letterRows) == table;
  }

  /** Every key other than shift, 123 and ABC only appends to the output. */
  lemma DispatchOnlyOutputs(s: Keyboard, key: string)
    requires !IsShiftKey(key) && key != "123" && key != "ABC"
    ensures Dispatch(s, key) == s.(output := Dispatch(s, key).output)
    ensures |Dispatch(s, key).output| == |s.output| + 1 && Dispatch(s, key).output[..|s.output|] == s.output
  {
  }

  lemma InvIgnoresOutput(s: Keyboard, out: seq<HostAction>)
    requires Inv(s)
    ensures Inv(s.(output := out))
  {
  }

  /** Every tap on an existing button leads to another state of Inv. */
  lemma TapKeepsInv(s: Keyboard, r: nat, c: nat)
    requires Inv(s) && ValidPosition(s, r, c)
    ensures IsShiftKey(ButtonAt(s, r, c).boundKey) ==> LetterRowsFit(s.letterRows)
    ensures Inv(Dispatch(s, ButtonAt(s, r, c).boundKey))
  {
    var key := ButtonAt(s, r, c).boundKey;
    InvDispatchable(s, r, c);
    if IsShiftKey(key) {
      if s.isNumber {
        NumericGridHasNoShift(s, r, c);
      } else {
        ShiftRelabels(s, key);
      }
    } else if key == "123" {
      assert Dispatch(s, key) == ShowNumbers(s);
    } else if key == "ABC" {
      assert Dispatch(s, key) == ShowLetters(s);
    } else {
      DispatchOnlyOutputs(s, key);
      InvIgnoresOutput(s, Dispatch(s, key).output);
    }
  }

  /** A theme broadcast leads to another state of Inv. */
  lemma ReceiveKeepsInv(s: Keyboard, intent: Option<Intent>)
    requires Inv(s)
    ensures Inv(Receive(s, intent))
  {
  }
}
