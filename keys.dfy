/**
 * The keys of the secure keyboard and the three pure rules the keyboard manager
 * applies to them: the partial swap shuffle of the ten digit keys, the caps
 * toggle over letter keys, and the list of codes that never show a preview.
 */
module Keys {
  import opened KeyText

  /** Android key codes the manager handles specially. */
  const KeycodeShift: int := -1
  const KeycodeModeChange: int := -2
  const KeycodeDone: int := -4
  const KeycodeDelete: int := -5
  const KeycodeSpace: int := 32

  /** A key label, which Android allows to be null. */
  datatype Label = NoLabel | Text(text: seq<Char16>)

  /** A keyboard key: its primary code `codes[0]` and its label (`caption`, since `label` is a Dafny keyword). */
  datatype Key = Key(code: int, caption: Label)

  /** The number of digit keys at the front of the layout that the shuffle permutes. */
  const DigitKeys: nat := 10

  // ---------------------------------------------------------------------------
  // Shuffle of the digit keys

  /** The ten draws of `random.nextInt(10 - i)`, one per loop turn. */
  ghost predicate ValidDraws(rand: seq<int>)
  {
    |rand| == DigitKeys && forall i :: 0 <= i < DigitKeys ==> 0 <= rand[i] < DigitKeys - i
  }

  /** Exchange the code and label of the keys at `i` and `j` (the same key when `i == j`). */
  function Swap(s: seq<Key>, i: nat, j: nat): (r: seq<Key>)
    requires i < |s| && j < |s|
    ensures |r| == |s|
  {
    s[i := s[j]][j := s[i]]
  }

  /** What turns `i` through 9 of the shuffle loop leave in the key list. */
  datatype Shuffled = Shuffled(keys: seq<Key>, ok: bool)

  /**
   * Turns `i`..9 of the loop: turn `i` swaps key `i` with key `i + rand[i]`; a
   * turn that reads past the end of the list throws, leaving the swaps done so
   * far in place (`ok` false).
   */
  function ShuffleFrom(s: seq<Key>, rand: seq<int>, i: nat): (r: Shuffled)
    requires |rand| == DigitKeys && i <= DigitKeys
    requires forall k :: 0 <= k < DigitKeys ==> 0 <= rand[k]
    decreases DigitKeys - i
  {
    if i == DigitKeys then Shuffled(s, true)
    else
      var j := i + rand[i];
      if j >= |s| || i >= |s| then Shuffled(s, false)
      else ShuffleFrom(Swap(s, i, j), rand, i + 1)
  }

  /** A swap inside the first ten keys permutes them and leaves the rest alone. */
  lemma SwapPermutesDigits(s: seq<Key>, i: nat, j: nat)
    requires i < DigitKeys && j < DigitKeys && DigitKeys <= |s|
    ensures multiset(Swap(s, i, j)[..DigitKeys]) == multiset(s[..DigitKeys])
    ensures Swap(s, i, j)[DigitKeys..] == s[DigitKeys..]
  {
    var d := s[..DigitKeys];
    assert Swap(s, i, j)[..DigitKeys] == d[i := d[j]][j := d[i]];
    assert Swap(s, i, j)[DigitKeys..] == s[DigitKeys..];
  }

  /**
   * With at least ten keys the shuffle never throws; afterwards the first ten
   * keys hold the original ten (code, label) pairs in some order and every
   * later key is untouched.
   */
  lemma {:induction false} ShufflePermutes(s: seq<Key>, rand: seq<int>, i: nat)
    requires ValidDraws(rand) && i <= DigitKeys && DigitKeys <= |s|
    ensures ShuffleFrom(s, rand, i).ok
    ensures |ShuffleFrom(s, rand, i).keys| == |s|
    ensures multiset(ShuffleFrom(s, rand, i).keys[..DigitKeys]) == multiset(s[..DigitKeys])
    ensures ShuffleFrom(s, rand, i).keys[DigitKeys..] == s[DigitKeys..]
    decreases DigitKeys - i
  {
    if i < DigitKeys {
      var j := i + rand[i];
      SwapPermutesDigits(s, i, j);
      ShufflePermutes(Swap(s, i, j), rand, i + 1);
    }
  }

  /** With fewer than ten keys some turn reads past the end, so the shuffle always throws. */
  lemma {:induction false} ShuffleFailsShort(s: seq<Key>, rand: seq<int>, i: nat)
    requires ValidDraws(rand) && i <= |s| < DigitKeys
    ensures !ShuffleFrom(s, rand, i).ok
    decreases DigitKeys - i
  {
    var j := i + rand[i];
    if i < |s| && j < |s| {
      ShuffleFailsShort(Swap(s, i, j), rand, i + 1);
    }
  }

  /** The whole shuffle succeeds exactly when the layout has at least ten keys. */
  lemma ShuffleOkIff(s: seq<Key>, rand: seq<int>)
    requires ValidDraws(rand)
    ensures ShuffleFrom(s, rand, 0).ok <==> DigitKeys <= |s|
  {
    if DigitKeys <= |s| {
      ShufflePermutes(s, rand, 0);
    } else {
      ShuffleFailsShort(s, rand, 0);
    }
  }

  // ---------------------------------------------------------------------------
  // Caps toggle of the letter keys

  /** A key that `shiftEnglish` rewrites: a non-null label that passes `isLetter`. */
  predicate IsLetterKey(k: Key)
  {
    k.caption.Text? && IsLetter(k.caption.text)
  }

  /** One key under the caps toggle, given the flag's value before the toggle. */
  function ShiftKey(k: Key, capital: bool): Key
  {
    if !IsLetterKey(k) then k
    else if capital then Key(k.code + CaseShift, Text(Lower(k.caption.text)))
    else Key(k.code - CaseShift, Text(Upper(k.caption.text)))
  }

  /** Every key under the caps toggle. */
  function ShiftAll(s: seq<Key>, capital: bool): (r: seq<Key>)
    ensures |r| == |s|
  {
    seq(|s|, i requires 0 <= i < |s| => ShiftKey(s[i], capital))
  }

  /** Every letter label is written in the case the flag names. */
  ghost predicate CaseMatches(s: seq<Key>, capital: bool)
  {
    forall i :: 0 <= i < |s| && IsLetterKey(s[i]) ==>
      s[i].caption.text == (if capital then Upper(s[i].caption.text) else Lower(s[i].caption.text))
  }

  /** Going to upper case subtracts 32 from a letter key's code, going back adds 32; other keys stay. */
  lemma ShiftKeyEffect(k: Key, capital: bool)
    ensures IsLetterKey(k) ==> IsLetterKey(ShiftKey(k, capital))
    ensures IsLetterKey(k) && !capital ==>
      ShiftKey(k, capital).code == k.code - 32 && ShiftKey(k, capital).caption.text == Upper(k.caption.text)
    ensures IsLetterKey(k) && capital ==>
      ShiftKey(k, capital).code == k.code + 32 && ShiftKey(k, capital).caption.text == Lower(k.caption.text)
    ensures !IsLetterKey(k) ==> ShiftKey(k, capital) == k
  {
    if IsLetterKey(k) {
      IsLetterCaseInvariant(k.caption.text);
    }
  }

  /** Toggling twice restores every key's code, whatever case its label was in. */
  lemma ShiftTwiceRestoresCodes(s: seq<Key>, capital: bool)
    ensures |ShiftAll(ShiftAll(s, capital), !capital)| == |s|
    ensures forall i :: 0 <= i < |s| ==>
      ShiftAll(ShiftAll(s, capital), !capital)[i].code == s[i].code
  {
    forall i | 0 <= i < |s|
      ensures ShiftAll(ShiftAll(s, capital), !capital)[i].code == s[i].code
    {
      ShiftKeyEffect(s[i], capital);
      ShiftKeyEffect(ShiftKey(s[i], capital), !capital);
    }
  }

  /** Upper-casing twice is upper-casing once. */
  lemma UpperIdempotent(t: seq<Char16>)
    ensures Upper(Upper(t)) == Upper(t)
  {
  }

  /** After a toggle every letter label is in the case of the new flag. */
  lemma ShiftMatchesCase(s: seq<Key>, capital: bool)
    ensures CaseMatches(ShiftAll(s, capital), !capital)
  {
    forall i | 0 <= i < |s| && IsLetterKey(ShiftAll(s, capital)[i])
      ensures ShiftAll(s, capital)[i].caption.text ==
        (if !capital then Upper(ShiftAll(s, capital)[i].caption.text) else Lower(ShiftAll(s, capital)[i].caption.text))
    {
      ShiftKeyEffect(s[i], capital);
      IsLetterCaseInvariant(s[i].caption.text);
      UpperIdempotent(s[i].caption.text);
      LowerOfUpper(s[i].caption.text);
    }
  }

  lemma LowerOfUpperWhenLower(t: seq<Char16>)
    requires t == Lower(t)
    ensures Lower(Upper(t)) == t
  {
    LowerOfUpper(t);
  }

  lemma UpperOfLowerWhenUpper(t: seq<Char16>)
    requires t == Upper(t)
    ensures Upper(Lower(t)) == t
  {
    assert forall i :: 0 <= i < |t| ==> UpperChar(LowerChar(t[i])) == UpperChar(t[i]);
  }

  /** When the labels are in the flag's case, toggling twice restores every key exactly. */
  lemma ShiftTwiceRestores(s: seq<Key>, capital: bool)
    requires CaseMatches(s, capital)
    ensures ShiftAll(ShiftAll(s, capital), !capital) == s
  {
    forall i | 0 <= i < |s| ensures ShiftAll(ShiftAll(s, capital), !capital)[i] == s[i] {
      ShiftKeyEffect(s[i], capital);
      ShiftKeyEffect(ShiftKey(s[i], capital), !capital);
      if IsLetterKey(s[i]) {
        if capital {
          UpperOfLowerWhenUpper(s[i].caption.text);
        } else {
          LowerOfUpperWhenLower(s[i].caption.text);
        }
      }
    }
  }

  // ---------------------------------------------------------------------------
  // Codes that never show a key preview

  /** MODE_CHANGE, DELETE, SHIFT, the space bar and the digits 0-9. */
  predicate NoPreviewCode(code: int)
  {
    code == KeycodeModeChange || code == KeycodeDelete || code == KeycodeShift
      || code == KeycodeSpace || 48 <= code <= 57
  }

  /** `SparseIntArray.get`: the stored value, or 0 for a missing key. */
  function SparseGet(m: map<int, int>, k: int): int
  {
    if k in m then m[k] else 0
  }

  /** The static initializer that fills `UN_PREVIEW_LIST`. */
  method BuildUnPreviewList() returns (m: map<int, int>)
    ensures forall k :: SparseGet(m, k) > 0 <==> NoPreviewCode(k)
  {
    m := map[];
    m := m[KeycodeModeChange := 1];
    m := m[KeycodeDelete := 1];
    m := m[KeycodeShift := 1];
    m := m[KeycodeSpace := 1];
    var i := 48;
    while i <= 57
      invariant 48 <= i <= 58
      invariant forall k :: SparseGet(m, k) > 0 <==>
        (k == KeycodeModeChange || k == KeycodeDelete || k == KeycodeShift || k == KeycodeSpace || 48 <= k < i)
    {
      ghost var before := m;
      m := m[i := 1];
      assert forall k :: SparseGet(m, k) == if k == i then 1 else SparseGet(before, k);
      i := i + 1;
    }
  }

  /** `setPreview`: the preview flag a key press leaves on the keyboard view. */
  function PreviewEnabled(hideSelected: bool, unPreview: map<int, int>, code: int): bool
  {
    if hideSelected then !(SparseGet(unPreview, code) > 0) else false
  }

  /** With the built list, a press previews exactly when the toggle is selected and the code is not excluded. */
  lemma PreviewRule(hideSelected: bool, unPreview: map<int, int>, code: int)
    requires forall k :: SparseGet(unPreview, k) > 0 <==> NoPreviewCode(k)
    ensures PreviewEnabled(hideSelected, unPreview, code) <==> hideSelected && !NoPreviewCode(code)
  {
  }
}
