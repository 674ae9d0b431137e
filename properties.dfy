/**
 * What the keyboard state machine guarantees over one event and over
 * sessions of taps: theme broadcasts, restyling, shift, the numeric round
 * trip, the control keys and the text committed for letter keys.
 */
module Properties {
  import opened Theme
  import opened Layout
  import opened Machine

  // ----- Theme broadcasts -----

  /** Not a theme change, no name extra, or an unknown name: nothing at all changes. */
  lemma ReceiveIgnored(s: Keyboard, intent: Option<Intent>)
    requires || intent.None?
             || intent.value.action != ActionChangeTheme
             || ExtraThemeName !in intent.value.stringExtras
             || intent.value.stringExtras[ExtraThemeName] !in Themes
    ensures Receive(s, intent) == s
  {
  }

  /**
   * A theme change naming a known theme sets the three colours of that
   * theme, keeps the border colour, both flags, every label and bound key,
   * and leaves every key styled with the new colours.
   */
  lemma ReceiveKnownTheme(s: Keyboard, action: string, extras: map<string, string>)
    requires action == ActionChangeTheme && ExtraThemeName in extras && extras[ExtraThemeName] in Themes
    ensures var t := Receive(s, Some(Intent(action, extras)));
      var theme := Themes[extras[ExtraThemeName]];
      && t.colors.keyboardBackground == theme.0
      && t.colors.keyBackground == theme.1
      && t.colors.keyText == theme.2
      && t.colors.keyBorder == s.colors.keyBorder
      && t.isCapital == s.isCapital && t.isNumber == s.isNumber && t.output == s.output
      && GridLabels(t.letterRows) == GridLabels(s.letterRows) && GridKeys(t.letterRows) == GridKeys(s.letterRows)
      && RowLabels(t.bottomRow) == RowLabels(s.bottomRow) && RowKeys(t.bottomRow) == RowKeys(s.bottomRow)
      && Themed(t)
  {
  }

  // ----- Restyling -----

  /** On a grid already in the current colours, applyTheme changes nothing. */
  lemma {:induction false} ThemedIsFixpoint(s: Keyboard)
    requires Themed(s)
    ensures ApplyTheme(s) == s
  {
    var c := s.colors;
    forall i | 0 <= i < |s.letterRows| ensures StyleRow(s.letterRows[i], c) == s.letterRows[i] {
      RowDetermined(StyleRow(s.letterRows[i], c), s.letterRows[i], c);
    }
    assert StyleRows(s.letterRows, c) == s.letterRows;
    RowDetermined(StyleRow(s.bottomRow, c), s.bottomRow, c);
  }

  /** A second applyTheme changes nothing. */
  lemma ApplyThemeIdempotent(s: Keyboard)
    ensures ApplyTheme(ApplyTheme(s)) == ApplyTheme(s)
  {
    ThemedIsFixpoint(ApplyTheme(s));
  }

  // ----- Where the keys are -----

  /** When the rows are bound to `table`, the button at (r, c) of the three rows is bound to the entry there. */
  lemma KeyAt(s: Keyboard, table: seq<seq<string>>, r: nat, c: nat)
    requires GridKeys(s.letterRows) == table && r < |table| && c < |table[r]|
    ensures ValidPosition(s, r, c) && ButtonAt(s, r, c).boundKey == table[r][c]
  {
    GridShape(s, table);
  }

  lemma LabelAt(s: Keyboard, table: seq<seq<string>>, r: nat, c: nat)
    requires GridLabels(s.letterRows) == table && r < |table| && c < |table[r]|
    ensures r < |s.letterRows| && c < |s.letterRows[r]| && s.letterRows[r][c].text == table[r][c]
  {
    assert |GridLabels(s.letterRows)| == |s.letterRows|;
    assert RowLabels(s.letterRows[r]) == table[r];
  }

  lemma BottomKeyAt(s: Keyboard, keys: seq<string>, c: nat)
    requires |s.letterRows| == 3 && RowKeys(s.bottomRow) == keys && c < |keys|
    ensures ValidPosition(s, 3, c) && ButtonAt(s, 3, c).boundKey == keys[c]
  {
    assert |RowKeys(s.bottomRow)| == |s.bottomRow|;
  }

  /** In letter mode the shift button is the first one of the third row. */
  lemma ShiftButton(s: Keyboard)
    requires Inv(s) && !s.isNumber
    ensures ValidPosition(s, 2, 0) && IsShiftKey(ButtonAt(s, 2, 0).boundKey)
  {
    if GridKeys(s.letterRows) == LetterTable(false) {
      KeyAt(s, LetterTable(false), 2, 0);
    } else {
      KeyAt(s, LetterTable(true), 2, 0);
    }
  }

  // ----- Shift -----

  /** One tap on the shift button: the other case on the same buttons. */
  function ShiftTap(s: Keyboard): (t: Keyboard)
    requires Inv(s) && !s.isNumber
    ensures ValidPosition(s, 2, 0) && t == TapAt(s, 2, 0)
    ensures Inv(t) && !t.isNumber && t.isCapital == !s.isCapital
    ensures GridKeys(t.letterRows) == GridKeys(s.letterRows) && GridLabels(t.letterRows) == LetterTable(t.isCapital)
    ensures t.bottomRow == s.bottomRow && t.colors == s.colors && t.output == s.output
  {
    ShiftButton(s);
    ShiftRelabels(s, ButtonAt(s, 2, 0).boundKey);
    TapAt(s, 2, 0)
  }

  /** n taps on the shift button, starting in letter mode. */
  function ShiftTaps(s: Keyboard, n: nat): (t: Keyboard)
    requires Inv(s) && !s.isNumber
    ensures Inv(t) && !t.isNumber
    ensures GridKeys(t.letterRows) == GridKeys(s.letterRows) && GridLabels(t.letterRows) == LetterTable(t.isCapital)
    ensures t.bottomRow == s.bottomRow && t.colors == s.colors && t.output == s.output
  {
    if n == 0 then s else ShiftTap(ShiftTaps(s, n - 1))
  }

  /** An even number of shift taps restores the case, an odd number flips it. */
  lemma {:induction false} ShiftParity(s: Keyboard, n: nat)
    requires Inv(s) && !s.isNumber
    ensures ShiftTaps(s, n).isCapital == (if n % 2 == 0 then s.isCapital else !s.isCapital)
  {
    if n > 0 {
      ShiftParity(s, n - 1);
      ShiftTapsStep(s, n);
      EvenStep(n);
    }
  }

  lemma EvenStep(n: nat)
    requires n > 0
    ensures (n % 2 == 0) == ((n - 1) % 2 != 0)
  {
  }

  /** The n-th shift tap flips the case left by the first n - 1. */
  lemma ShiftTapsStep(s: Keyboard, n: nat)
    requires Inv(s) && !s.isNumber && n > 0
    ensures ShiftTaps(s, n).isCapital == !ShiftTaps(s, n - 1).isCapital
  {
    assert ShiftTaps(s, n) == ShiftTap(ShiftTaps(s, n - 1));
  }

  /**
   * When the letter rows were built in lower case, a letter button commits
   * exactly the label it shows, however many times shift was tapped since.
   */
  lemma LetterCommitsLabel(s: Keyboard, n: nat, r: nat, c: nat)
    requires Inv(s) && !s.isNumber && GridKeys(s.letterRows) == LetterTable(false)
    requires IsLetterPosition(r, c)
    ensures var t := ShiftTaps(s, n);
      ValidPosition(t, r, c) && TapAt(t, r, c).output == t.output + [CommitText(t.letterRows[r][c].text)]
  {
    var t := ShiftTaps(s, n);
    KeyAt(t, LetterTable(false), r, c);
    LabelAt(t, LetterTable(t.isCapital), r, c);
    CapitalTableIsUppercase(r, c);
    var key := LetterTable(false)[r][c];
    assert key[0] != IconShiftUp[0] && key[0] != IconShiftDown[0] && key[0] != IconDelete[0];
    assert key[0] != IconEnter[0] && key[0] != IconSettings[0];
    assert TapAt(t, r, c) == t.(output := t.output + [CommitText(CommitChar(t.isCapital, false, key))]);
  }

  // ----- Numeric mode -----

  /** In numeric mode every key of the three rows except delete commits its label unchanged. */
  lemma NumericCommitsVerbatim(s: Keyboard, r: nat, c: nat)
    requires Inv(s) && s.isNumber && r < 3 && c < |NumberTable()[r]| && !(r == 2 && c == 8)
    ensures ValidPosition(s, r, c)
      && TapAt(s, r, c) == s.(output := s.output + [CommitText(s.letterRows[r][c].text)])
  {
    KeyAt(s, NumberTable(), r, c);
    LabelAt(s, NumberTable(), r, c);
    var key := NumberTable()[r][c];
    assert |key| == 1 && key != IconDelete && key != IconShiftUp && key != IconShiftDown;
    assert key != IconEnter && key != IconSettings;
  }

  /**
   * 123 then ABC rebuilds the letter rows in the case that was active before:
   * isCapital is not reset by the round trip.
   */
  lemma NumericRoundTrip(s: Keyboard)
    requires Inv(s) && !s.isNumber
    ensures var t := RunTaps(s, [(3, 0), (3, 0)]);
      && t.Some? && !t.value.isNumber && t.value.isCapital == s.isCapital
      && GridLabels(t.value.letterRows) == LetterTable(s.isCapital)
      && GridKeys(t.value.letterRows) == LetterTable(s.isCapital)
      && t.value.output == s.output
  {
    BottomKeyAt(s, LetterBottomKeys, 0);
    var n := TapAt(s, 3, 0);
    assert n == ShowNumbers(s);
    BottomKeyAt(n, NumberBottomKeys, 0);
    var l := TapAt(n, 3, 0);
    assert l == ShowLetters(n);
    assert RunTaps(l, []) == Some(l);
    assert [(3, 0), (3, 0)][1..] == [(3, 0)];
    assert [(3, 0)][1..] == [];
  }

  // ----- Control keys -----

  /** delete, enter, settings and Space each issue exactly one host action and change nothing else. */
  lemma ControlKeys(s: Keyboard)
    ensures Dispatch(s, IconDelete) == s.(output := s.output + [DeleteSurroundingText(1, 0)])
    ensures Dispatch(s, IconEnter) == s.(output := s.output + [SendEnterKeyDown])
    ensures Dispatch(s, IconSettings) == s.(output := s.output + [OpenSettings])
    ensures Dispatch(s, "Space") == s.(output := s.output + [CommitText(" ")])
  {
  }

  // ----- Sessions from the initial state -----

  lemma InitialState()
    ensures var s := Initial();
      && Inv(s) && !s.isCapital && !s.isNumber && s.output == [] && s.colors == DefaultColors
      && GridLabels(s.letterRows) == LetterTable(false) && GridKeys(s.letterRows) == LetterTable(false)
  {
  }

  /** Shift, then "a": the host receives "A". */
  lemma ShiftThenLetter()
    ensures RunTaps(Initial(), [(2, 0), (1, 0)]) == Some(TapAt(TapAt(Initial(), 2, 0), 1, 0))
    ensures TapAt(TapAt(Initial(), 2, 0), 1, 0).output == [CommitText("A")]
  {
    var s := Initial();
    var u := ShiftTap(s);
    LetterCommitsLabel(s, 1, 1, 0);
    assert ShiftTaps(s, 1) == u;
    LabelAt(u, LetterTable(true), 1, 0);
    KeyAt(u, LetterTable(false), 1, 0);
    assert [(2, 0), (1, 0)][1..] == [(1, 0)];
    assert [(1, 0)][1..] == [];
  }

  /** 123, then "5": the numeric rows are shown and the host receives "5". */
  lemma NumbersThenDigit()
    ensures var s := TapAt(Initial(), 3, 0);
      && s.isNumber && GridLabels(s.letterRows) == NumberTable()
      && TapAt(s, 0, 4).output == [CommitText("5")]
  {
    var s := Initial();
    BottomKeyAt(s, LetterBottomKeys, 0);
    var n := TapAt(s, 3, 0);
    assert n == ShowNumbers(s);
    NumericCommitsVerbatim(n, 0, 4);
    LabelAt(n, NumberTable(), 0, 4);
  }

  /** Delete, then enter: one deletion before the cursor, then one ENTER key-down. */
  lemma DeleteThenEnter()
    ensures var s := TapAt(Initial(), 2, 8);
      && s == Initial().(output := [DeleteSurroundingText(1, 0)])
      && TapAt(s, 3, 2) == Initial().(output := [DeleteSurroundingText(1, 0), SendEnterKeyDown])
  {
    var s := Initial();
    KeyAt(s, LetterTable(false), 2, 8);
    var d := TapAt(s, 2, 8);
    InvIgnoresOutput(s, [DeleteSurroundingText(1, 0)]);
    BottomKeyAt(d, LetterBottomKeys, 2);
  }

  /**
   * Shift, 123, ABC, shift: the shift survives the round trip, so the rows
   * are rebuilt bound to the capital table; the second shift shows the
   * lower-case table on them, and the button showing "q" commits "Q".
   */
  lemma ShiftSurvivesNumericRoundTrip()
    ensures var t := RunTaps(Initial(), [(2, 0), (3, 0), (3, 0), (2, 0)]);
      && t.Some? && !t.value.isCapital && !t.value.isNumber
      && GridLabels(t.value.letterRows) == LetterTable(false)
      && GridKeys(t.value.letterRows) == LetterTable(true)
      && TapAt(t.value, 0, 0).output == [CommitText("Q")]
  {
    var s1 := FirstShift();
    NumericRoundTrip(s1);
    var s3 := RunTaps(s1, [(3, 0), (3, 0)]).value;
    var s4 := ShiftOnce(s3);
    RunTapsAppend(Initial(), [(2, 0)], [(3, 0), (3, 0)]);
    assert [(2, 0)] + [(3, 0), (3, 0)] == [(2, 0), (3, 0), (3, 0)];
    RunTapsAppend(Initial(), [(2, 0), (3, 0), (3, 0)], [(2, 0)]);
    assert [(2, 0), (3, 0), (3, 0)] + [(2, 0)] == [(2, 0), (3, 0), (3, 0), (2, 0)];
    QButtonCommitsQ(s4);
  }

  /** The first shift tap from the initial state. */
  lemma FirstShift() returns (t: Keyboard)
    ensures RunTaps(Initial(), [(2, 0)]) == Some(t)
    ensures Inv(t) && t.isCapital && !t.isNumber && t.output == []
  {
    t := ShiftTap(Initial());
    assert [(2, 0)][1..] == [];
  }

  /** The shift tap of the scenario above, on rows bound to the capital table. */
  lemma ShiftOnce(s: Keyboard) returns (t: Keyboard)
    requires Inv(s) && s.isCapital && !s.isNumber && GridKeys(s.letterRows) == LetterTable(true) && s.output == []
    ensures RunTaps(s, [(2, 0)]) == Some(t)
    ensures Inv(t) && !t.isCapital && !t.isNumber && t.output == []
    ensures GridLabels(t.letterRows) == LetterTable(false) && GridKeys(t.letterRows) == LetterTable(true)
  {
    t := ShiftTap(s);
    assert [(2, 0)][1..] == [];
  }

  /** The first button of rows bound to the capital table commits "Q" when shift is off. */
  lemma QButtonCommitsQ(s: Keyboard)
    requires Inv(s) && !s.isCapital && !s.isNumber && GridKeys(s.letterRows) == LetterTable(true) && s.output == []
    ensures ValidPosition(s, 0, 0) && TapAt(s, 0, 0).output == [CommitText("Q")]
  {
    KeyAt(s, LetterTable(true), 0, 0);
    assert TapAt(s, 0, 0) == s.(output := [CommitText(CommitChar(false, false, "Q"))]);
  }

  /** A session split in two runs as its first part, then its second. */
  lemma {:induction false} RunTapsAppend(s: Keyboard, a: seq<(nat, nat)>, b: seq<(nat, nat)>)
    requires Inv(s)
    ensures RunTaps(s, a + b) == if RunTaps(s, a).Some? then RunTaps(RunTaps(s, a).value, b) else None
    decreases |a|
  {
    if a == [] {
      assert a + b == b;
    } else {
      assert (a + b)[1..] == a[1..] + b;
      assert (a + b)[0] == a[0];
      if ValidPosition(s, a[0].0, a[0].1) {
        RunTapsAppend(TapAt(s, a[0].0, a[0].1), a[1..], b);
      }
    }
  }
}
