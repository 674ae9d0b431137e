/**
 * MyKeyboardService as a class: the fields the service and its companion
 * object update in place, and one method per operation, each proved to
 * produce the state that the matching function of module Machine describes.
 * Host calls (commitText, deleteSurroundingText, sendKeyEvent, startActivity)
 * are appended to `output`.
 */
module Service {
  import opened Theme
  import opened Layout
  import opened Machine

  class MyKeyboardService {
    var isCapital: bool
    var isNumber: bool
    // companion-object colour fields
    var keyboardBackgroundColor: int
    var keyBackgroundColor: int
    var keyTextColor: int
    var keyBorderColor: int
    // the background of keyboardLayout
    var layoutBackground: int
    // letterRows and the last child of keyboardLayout
    var letterRows: seq<seq<Button>>
    var bottomRow: seq<Button>
    // the calls made on the host so far
    var output: seq<HostAction>

    function CurrentColors(): Colors
      reads this
    {
      Colors(keyboardBackgroundColor, keyBackgroundColor, keyTextColor, keyBorderColor)
    }

    function State(): Keyboard
      reads this
    {
      Keyboard(isCapital, isNumber, CurrentColors(), layoutBackground, letterRows, bottomRow, output)
    }

    predicate Valid()
      reads this
    {
      Inv(State())
    }

    /** Field initialisers and onCreateInputView: default colours, then the letter keys. */
    constructor ()
      ensures State() == Initial() && Valid()
    {
      isCapital, isNumber := false, false;
      keyboardBackgroundColor := ArgbToInt(0xFF00_0000);
      keyBackgroundColor := LightGray;
      keyTextColor := Black;
      keyBorderColor := Black;
      letterRows, bottomRow, output := [], [], [];
      new;
      layoutBackground := keyboardBackgroundColor;
      ShowLetterKeys();
    }

    /** createRow: one button per key, shown as and bound to that key, in the current colours. */
    method CreateRow(keys: seq<string>) returns (row: seq<Button>)
      ensures RowLabels(row) == keys && RowKeys(row) == keys && RowStyled(row, CurrentColors())
    {
      row := [];
      for k := 0 to |keys|
        invariant |row| == k
        invariant forall j :: 0 <= j < k ==> row[j] == CreateButton(keys[j], CurrentColors())
      {
        row := row + [CreateButton(keys[k], CurrentColors())];
      }
      assert row == Machine.CreateRow(keys, CurrentColors());
    }

    /** createBottomRow: 123, Space, enter, settings. */
    method CreateBottomRow() returns (row: seq<Button>)
      ensures RowLabels(row) == LetterBottomKeys && RowKeys(row) == LetterBottomKeys
      ensures RowStyled(row, CurrentColors())
    {
      var c := CurrentColors();
      var numberToggle := CreateButton("123", c);
      var spaceButton := CreateButton("Space", c);
      var enterButton := CreateButton(IconEnter, c);
      var settingsButton := CreateButton(IconSettings, c);
      row := [numberToggle, spaceButton, enterButton, settingsButton];
      assert row == Machine.CreateRow(LetterBottomKeys, c);
    }

    method ShowLetterKeys()
      modifies this
      ensures State() == ShowLetters(old(State()))
    {
      isNumber := false;
      letterRows := [];
      var rowKeys := LetterTable(isCapital);
      var row1 := CreateRow(rowKeys[0]);
      var row2 := CreateRow(rowKeys[1]);
      var row3 := CreateRow(rowKeys[2]);
      letterRows := [row1, row2, row3];
      bottomRow := CreateBottomRow();
      var c := CurrentColors();
      assert letterRows == CreateRows(rowKeys, c) by {
        RowDetermined(row1, Machine.CreateRow(rowKeys[0], c), c);
        RowDetermined(row2, Machine.CreateRow(rowKeys[1], c), c);
        RowDetermined(row3, Machine.CreateRow(rowKeys[2], c), c);
      }
      RowDetermined(bottomRow, Machine.CreateRow(LetterBottomKeys, c), c);
      ApplyTheme();
    }

    method ShowNumberKeys()
      modifies this
      ensures State() == ShowNumbers(old(State()))
    {
      isNumber := true;
      letterRows := [];
      var rowKeys := NumberTable();
      var row1 := CreateRow(rowKeys[0]);
      var row2 := CreateRow(rowKeys[1]);
      var row3 := CreateRow(rowKeys[2]);
      letterRows := [row1, row2, row3];
      var c := CurrentColors();
      var abcButton := CreateButton("ABC", c);
      var spaceButton := CreateButton("Space", c);
      var enterButton := CreateButton(IconEnter, c);
      var settingsButton := CreateButton(IconSettings, c);
      bottomRow := [abcButton, spaceButton, enterButton, settingsButton];
      assert letterRows == CreateRows(rowKeys, c) by {
        RowDetermined(row1, Machine.CreateRow(rowKeys[0], c), c);
        RowDetermined(row2, Machine.CreateRow(rowKeys[1], c), c);
        RowDetermined(row3, Machine.CreateRow(rowKeys[2], c), c);
      }
      assert bottomRow == Machine.CreateRow(NumberBottomKeys, c);
      ApplyTheme();
    }

    /** updateLetterButtons: rewrite the text of every letter button from the table of the current case. */
    method UpdateLetterButtons()
      requires LetterRowsFit(letterRows)
      modifies this
      ensures State() == Machine.UpdateLetterButtons(old(State()))
    {
      var allRows := LetterTable(isCapital);
      for i := 0 to |letterRows|
        invariant |letterRows| == |old(letterRows)|
        invariant forall k :: 0 <= k < i ==> letterRows[k] == RelabelRow(old(letterRows)[k], allRows[k])
        invariant forall k :: i <= k < |letterRows| ==> letterRows[k] == old(letterRows)[k]
        invariant isCapital == old(isCapital) && isNumber == old(isNumber) && CurrentColors() == old(CurrentColors())
        invariant layoutBackground == old(layoutBackground) && bottomRow == old(bottomRow) && output == old(output)
      {
        var row := letterRows[i];
        var keys := allRows[i];
        for j := 0 to |row|
          invariant |row| == |letterRows[i]|
          invariant forall k :: 0 <= k < j ==> row[k] == letterRows[i][k].(text := keys[k])
          invariant forall k :: j <= k < |row| ==> row[k] == letterRows[i][k]
        {
          row := row[j := row[j].(text := keys[j])];
        }
        assert row == RelabelRow(letterRows[i], keys);
        letterRows := letterRows[i := row];
      }
      assert letterRows == Relabel(old(letterRows), allRows);
    }

    /** applyTheme: restyle the layout, every letter-row key and every bottom-row key in place. */
    method ApplyTheme()
      modifies this
      ensures State() == Machine.ApplyTheme(old(State()))
    {
      layoutBackground := keyboardBackgroundColor;
      var c := CurrentColors();
      for i := 0 to |letterRows|
        invariant |letterRows| == |old(letterRows)|
        invariant forall k :: 0 <= k < i ==> letterRows[k] == StyleRow(old(letterRows)[k], c)
        invariant forall k :: i <= k < |letterRows| ==> letterRows[k] == old(letterRows)[k]
        invariant isCapital == old(isCapital) && isNumber == old(isNumber) && CurrentColors() == c
        invariant layoutBackground == c.keyboardBackground && bottomRow == old(bottomRow) && output == old(output)
      {
        var row := letterRows[i];
        for j := 0 to |row|
          invariant |row| == |letterRows[i]|
          invariant forall k :: 0 <= k < j ==> row[k] == StyleButton(letterRows[i][k], c)
          invariant forall k :: j <= k < |row| ==> row[k] == letterRows[i][k]
        {
          row := row[j := StyleButton(row[j], c)];
        }
        assert row == StyleRow(letterRows[i], c);
        letterRows := letterRows[i := row];
      }
      assert letterRows == StyleRows(old(letterRows), c);
      var bottom := bottomRow;
      for j := 0 to |bottom|
        invariant |bottom| == |bottomRow|
        invariant forall k :: 0 <= k < j ==> bottom[k] == StyleButton(bottomRow[k], c)
        invariant forall k :: j <= k < |bottom| ==> bottom[k] == bottomRow[k]
      {
        bottom := bottom[j := StyleButton(bottom[j], c)];
      }
      assert bottom == StyleRow(bottomRow, c);
      bottomRow := bottom;
    }

    /** handleButtonClick */
    method HandleButtonClick(key: string)
      requires IsShiftKey(key) ==> LetterRowsFit(letterRows)
      modifies this
      ensures State() == Dispatch(old(State()), key)
    {
      if key == IconShiftUp || key == IconShiftDown {
        isCapital := !isCapital;
        UpdateLetterButtons();
      } else if key == IconDelete {
        output := output + [DeleteSurroundingText(1, 0)];
      } else if key == IconEnter {
        output := output + [SendEnterKeyDown];
      } else if key == IconSettings {
        output := output + [OpenSettings];
      } else if key == "123" {
        ShowNumberKeys();
      } else if key == "ABC" {
        ShowLetterKeys();
      } else if key == "Space" {
        output := output + [CommitText(" ")];
      } else {
        var charToCommit := CommitChar(isCapital, isNumber, key);
        output := output + [CommitText(charToCommit)];
      }
    }

    /** A click on the button in row r (the bottom row is row 3), column c. */
    method Tap(r: nat, c: nat)
      requires Valid() && ValidPosition(State(), r, c)
      modifies this
      ensures State() == TapAt(old(State()), r, c) && Valid()
    {
      var button := if r < |letterRows| then letterRows[r][c] else bottomRow[c];
      InvDispatchable(State(), r, c);
      HandleButtonClick(button.boundKey);
    }

    /** themeReceiver.onReceive */
    method OnReceive(intent: Option<Intent>)
      requires Valid()
      modifies this
      ensures State() == Receive(old(State()), intent) && Valid()
    {
      ReceiveKeepsInv(State(), intent);
      if intent.Some? && intent.value.action == ActionChangeTheme {
        if ExtraThemeName !in intent.value.stringExtras {
          return;
        }
        var themeName := intent.value.stringExtras[ExtraThemeName];
        if themeName !in Themes {
          return;
        }
        var colors := Themes[themeName];
        keyboardBackgroundColor := colors.0;
        keyBackgroundColor := colors.1;
        keyTextColor := colors.2;
        ApplyTheme();
      }
    }
  }
}
