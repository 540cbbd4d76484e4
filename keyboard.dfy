/**
 * The keyboard manager: it binds a text field to a popup keyboard, shuffles the
 * digit keys each time the popup opens, edits the text at the cursor on each key
 * and decides per press whether the key preview bubble is shown.
 */
module KeyboardManager {
  import opened Results
  import opened KeyText
  import opened Keys

  // ---------------------------------------------------------------------------
  // Text edits made through `Editable`

  /** `editable.delete(start - 1, start)`: drop the unit just before the cursor. */
  function DeleteBefore(t: seq<Char16>, start: int): (r: seq<Char16>)
    requires 0 < start <= |t|
    ensures |r| == |t| - 1
    ensures r[..start - 1] == t[..start - 1]
    ensures r[start - 1..] == t[start..]
  {
    t[..start - 1] + t[start..]
  }

  /** `editable.insert(start, c)`: put one unit at the cursor. */
  function InsertAt(t: seq<Char16>, start: int, c: Char16): (r: seq<Char16>)
    requires 0 <= start <= |t|
    ensures |r| == |t| + 1
    ensures r[..start] == t[..start]
    ensures r[start] == c
    ensures r[start + 1..] == t[start..]
  {
    t[..start] + [c] + t[start..]
  }

  /** Typing a character and then pressing delete gives back the original text. */
  lemma InsertThenDelete(t: seq<Char16>, start: int, c: Char16)
    requires 0 <= start <= |t|
    ensures DeleteBefore(InsertAt(t, start, c), start + 1) == t
  {
    var r := InsertAt(t, start, c);
    assert r[..start] == t[..start];
    assert r[start + 1..] == t[start..];
    assert t == t[..start] + t[start..];
  }

  /** The text field the keyboard types into: its text and its selection start. */
  class EditField {
    var text: seq<Char16>
    var selStart: int

    /** Android keeps the selection start inside the text, or at -1 for no selection. */
    ghost predicate Valid()
      reads this
    {
      -1 <= selStart <= |text|
    }

    constructor (text: seq<Char16>, selStart: int)
      requires -1 <= selStart <= |text|
      ensures Valid() && this.text == text && this.selStart == selStart
    {
      this.text := text;
      this.selStart := selStart;
    }
  }

  /** The exception thrown when the manager is built without a text field. */
  datatype KeyboardError = NullEditText

  class CustomKeyboardManager {
    var editText: EditField
    /** `mKeyboard.getKeys()`: the layout's keys, in order. */
    var keys: array<Key>
    var isCapital: bool
    /** Whether the "hide" toggle view is selected. */
    var hideSelected: bool
    /** The keyboard view's preview flag. */
    var previewEnabled: bool
    /** Whether the popup dialog is showing. */
    var showing: bool
    /** Whether `subscribe` has wired the listeners. */
    var subscribed: bool
    /** `UN_PREVIEW_LIST`. */
    var unPreview: map<int, int>

    ghost predicate Valid()
      reads this, editText
    {
      && editText.Valid()
      && forall k :: SparseGet(unPreview, k) > 0 <==> NoPreviewCode(k)
    }

    constructor (e: EditField)
      requires e.Valid()
      ensures Valid() && editText == e
      ensures !isCapital && !showing && !subscribed && keys.Length == 0
    {
      var list := BuildUnPreviewList();
      editText := e;
      keys := new Key[0];
      isCapital := false;
      hideSelected := false;
      previewEnabled := true;
      showing := false;
      subscribed := false;
      unPreview := list;
    }

    /** The public constructor: a null text field throws. */
    static method Create(e: EditField?) returns (r: Result<CustomKeyboardManager, KeyboardError>)
      requires e != null ==> e.Valid()
      ensures r.Failure? <==> e == null
      ensures r.Success? ==> fresh(r.value) && r.value.Valid() && r.value.editText == e
      ensures r.Success? ==> !r.value.isCapital && !r.value.showing && !r.value.subscribed
    {
      if e == null {
        return Failure(NullEditText);
      }
      var m := new CustomKeyboardManager(e);
      return Success(m);
    }

    /** `subscribe`: load the layout, clear the hide toggle and listen to focus and keys. */
    method Subscribe(layout: seq<Key>)
      requires Valid()
      modifies this`keys, this`hideSelected, this`subscribed, this`previewEnabled
      ensures Valid() && subscribed && !hideSelected
      ensures fresh(keys) && keys[..] == layout
    {
      keys := new Key[|layout|](i requires 0 <= i < |layout| => layout[i]);
      // A newly inflated keyboard view: its preview flag is the platform default, promised nothing here.
      previewEnabled := true;
      hideSelected := false;
      subscribed := true;
    }

    /** The hide toggle's click listener. */
    method ClickHide()
      requires Valid() && subscribed
      modifies this`hideSelected
      ensures hideSelected == !old(hideSelected)
    {
      hideSelected := !hideSelected;
    }

    /**
     * `randomNumberKeys`: for `i` in 0..9 swap the (code, label) pair of key `i`
     * with that of key `i + rand[i]`, where `rand[i]` is the draw of
     * `random.nextInt(10 - i)`. A list shorter than ten keys throws part way.
     */
    method RandomNumberKeys(rand: seq<int>) returns (ok: bool)
      requires ValidDraws(rand)
      modifies keys
      ensures Shuffled(keys[..], ok) == ShuffleFrom(old(keys[..]), rand, 0)
      ensures ok <==> DigitKeys <= keys.Length
      ensures ok ==> multiset(keys[..DigitKeys]) == multiset(old(keys[..DigitKeys]))
      ensures ok ==> keys[DigitKeys..] == old(keys[DigitKeys..])
    {
      ghost var original := keys[..];
      ShuffleOkIff(original, rand);
      if DigitKeys <= keys.Length {
        ShufflePermutes(original, rand, 0);
      }
      var i := 0;
      while i < DigitKeys
        invariant 0 <= i <= DigitKeys
        invariant ShuffleFrom(keys[..], rand, i) == ShuffleFrom(original, rand, 0)
      {
        var swapIndex := rand[i] + i;
        if swapIndex >= keys.Length || i >= keys.Length {
          return false;
        }
        SwapKeys(i, swapIndex);
        i := i + 1;
      }
      return true;
    }

    /** One loop turn of `randomNumberKeys`: exchange the fields of keys `i` and `j` through temporaries. */
    method SwapKeys(i: nat, j: nat)
      requires i < keys.Length && j < keys.Length
      modifies keys
      ensures keys[..] == Swap(old(keys[..]), i, j)
    {
      var destLabel := keys[j].caption;
      var destCode := keys[j].code;
      keys[j] := keys[j].(code := keys[i].code);
      keys[j] := keys[j].(caption := keys[i].caption);
      keys[i] := keys[i].(caption := destLabel);
      keys[i] := keys[i].(code := destCode);
    }

    /** `shiftEnglish`: rewrite every letter key for the other case, then flip the flag. */
    method ShiftEnglish()
      modifies keys, this`isCapital
      ensures keys[..] == ShiftAll(old(keys[..]), old(isCapital))
      ensures isCapital == !old(isCapital)
    {
      var i := 0;
      while i < keys.Length
        invariant 0 <= i <= keys.Length
        invariant forall k :: 0 <= k < i ==> keys[k] == ShiftKey(old(keys[k]), isCapital)
        invariant forall k :: i <= k < keys.Length ==> keys[k] == old(keys[k])
        invariant isCapital == old(isCapital)
      {
        var key := keys[i];
        if key.caption.Text? && IsLetter(key.caption.text) {
          if isCapital {
            keys[i] := Key(key.code + CaseShift, Text(Lower(key.caption.text)));
          } else {
            keys[i] := Key(key.code - CaseShift, Text(Upper(key.caption.text)));
          }
        }
        i := i + 1;
      }
      isCapital := !isCapital;
    }

    /**
     * `onKey`: MODE_CHANGE does nothing, DELETE removes the unit before the
     * cursor, SHIFT toggles the case, DONE dismisses the popup, and every other
     * code inserts `(char) code` at the cursor. `ok` is false when the insert
     * throws because there is no selection.
     */
    method OnKey(code: int) returns (ok: bool)
      requires Valid() && subscribed
      modifies editText, keys, this`isCapital, this`showing
      ensures Valid()
      ensures code != KeycodeShift ==> keys[..] == old(keys[..]) && isCapital == old(isCapital)
      ensures code != KeycodeDone ==> showing == old(showing)
      ensures code == KeycodeModeChange ==> ok && unchanged(editText)
      ensures code == KeycodeDelete ==> (
        && ok
        && if |old(editText.text)| > 0 && old(editText.selStart) > 0 then
          && editText.text == DeleteBefore(old(editText.text), old(editText.selStart))
          && editText.selStart == old(editText.selStart) - 1
        else unchanged(editText))
      ensures code == KeycodeShift ==> (
        && ok && unchanged(editText)
        && keys[..] == ShiftAll(old(keys[..]), old(isCapital)) && isCapital == !old(isCapital))
      ensures code == KeycodeDone ==> ok && unchanged(editText) && !showing
      ensures code !in {KeycodeModeChange, KeycodeDelete, KeycodeShift, KeycodeDone} ==>
        && (ok <==> old(editText.selStart) >= 0)
        && if ok then
             && editText.text == InsertAt(old(editText.text), old(editText.selStart), CharOfCode(code))
             && editText.selStart == old(editText.selStart) + 1
           else unchanged(editText)
    {
      var t := editText.text;
      var start := editText.selStart;
      ok := true;
      if code == KeycodeModeChange {
      } else if code == KeycodeDelete {
        if |t| > 0 && start > 0 {
          editText.text := DeleteBefore(t, start);
          editText.selStart := start - 1;
        }
      } else if code == KeycodeShift {
        ShiftEnglish();
      } else if code == KeycodeDone {
        showing := false;
      } else if start >= 0 {
        editText.text := InsertAt(t, start, CharOfCode(code));
        editText.selStart := start + 1;
      } else {
        ok := false;
      }
    }

    /** `onPress` through `setPreview`: enable the preview bubble for this press or not. */
    method SetPreview(code: int)
      requires Valid() && subscribed
      modifies this`previewEnabled
      ensures previewEnabled == PreviewEnabled(hideSelected, unPreview, code)
      ensures previewEnabled <==> hideSelected && !NoPreviewCode(code)
    {
      PreviewRule(hideSelected, unPreview, code);
      previewEnabled := if hideSelected then !(SparseGet(unPreview, code) > 0) else false;
    }

    /**
     * The focus listener: gaining focus with the popup hidden shuffles the keys
     * and shows it (unless the shuffle threw); gaining focus while it shows does
     * nothing; losing focus dismisses it.
     */
    method OnFocusChange(hasFocus: bool, rand: seq<int>)
      requires Valid() && subscribed && ValidDraws(rand)
      modifies keys, this`showing
      ensures hasFocus && !old(showing) ==>
        && Shuffled(keys[..], showing) == ShuffleFrom(old(keys[..]), rand, 0)
        && (showing <==> DigitKeys <= keys.Length)
      ensures hasFocus && old(showing) ==> showing && keys[..] == old(keys[..])
      ensures !hasFocus ==> !showing && keys[..] == old(keys[..])
    {
      if hasFocus {
        if !showing {
          var ok := RandomNumberKeys(rand);
          if ok {
            showing := true;
          }
        }
      } else {
        if showing {
          showing := false;
        }
      }
    }
  }
}
