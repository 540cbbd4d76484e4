/**
 * Java text as the keyboard manager sees it: a key label or the edited text is a
 * sequence of UTF-16 code units, and `isLetter` asks whether a lower-cased label
 * occurs in the string "abcdefghijklmnopqrstuvwxyz".
 */
module KeyText {

  /** A Java `char`: one UTF-16 code unit. */
  newtype Char16 = c: int | 0 <= c < 0x1_0000

  /** The Java narrowing cast `(char) code`: keep the low 16 bits. */
  function CharOfCode(code: int): (c: Char16)
    ensures (code - c as int) % 0x1_0000 == 0
    ensures 0 <= code < 0x1_0000 ==> c as int == code
  {
    (code % 0x1_0000) as Char16
  }

  const LowerA: Char16 := 97
  const LowerZ: Char16 := 122
  const UpperA: Char16 := 65
  const UpperZ: Char16 := 90

  /** The distance between an upper-case ASCII letter and its lower-case form. */
  const CaseShift: int := 32

  predicate IsLowerAscii(c: Char16) { LowerA <= c <= LowerZ }
  predicate IsUpperAscii(c: Char16) { UpperA <= c <= UpperZ }

  /** `Character.toLowerCase` restricted to ASCII. */
  function LowerChar(c: Char16): (r: Char16)
    ensures !IsUpperAscii(r)
    ensures IsLowerAscii(r) <==> IsLowerAscii(c) || IsUpperAscii(c)
  {
    if IsUpperAscii(c) then (c as int + CaseShift) as Char16 else c
  }

  /** `Character.toUpperCase` restricted to ASCII. */
  function UpperChar(c: Char16): (r: Char16)
    ensures !IsLowerAscii(r)
    ensures IsUpperAscii(r) <==> IsLowerAscii(c) || IsUpperAscii(c)
  {
    if IsLowerAscii(c) then (c as int - CaseShift) as Char16 else c
  }

  /** `String.toLowerCase`, one code unit at a time. */
  function Lower(s: seq<Char16>): (r: seq<Char16>)
    ensures |r| == |s|
    ensures forall i :: 0 <= i < |r| ==> !IsUpperAscii(r[i])
  {
    seq(|s|, i requires 0 <= i < |s| => LowerChar(s[i]))
  }

  /** `String.toUpperCase`, one code unit at a time. */
  function Upper(s: seq<Char16>): (r: seq<Char16>)
    ensures |r| == |s|
    ensures forall i :: 0 <= i < |r| ==> !IsLowerAscii(r[i])
  {
    seq(|s|, i requires 0 <= i < |s| => UpperChar(s[i]))
  }

  /** The string "abcdefghijklmnopqrstuvwxyz". */
  function Alphabet(): (r: seq<Char16>)
    ensures |r| == 26 && r[0] == LowerA && r[25] == LowerZ
    ensures AlphabetRun(r)
  {
    seq(26, i requires 0 <= i < 26 => (97 + i) as Char16)
  }

  /** `s.contains(t)`: `t` is a prefix of some suffix of `s`. */
  function Contains(s: seq<Char16>, t: seq<Char16>): bool
    decreases |s|
  {
    t <= s || (|s| > 0 && Contains(s[1..], t))
  }

  /** The independent reading of `contains`: `t` occurs at some offset of `s`. */
  ghost predicate OccursAt(s: seq<Char16>, t: seq<Char16>, k: int)
  {
    0 <= k && k + |t| <= |s| && s[k..k + |t|] == t
  }

  /** An occurrence at offset `k` is found by `contains`. */
  lemma {:induction false} OccursContains(s: seq<Char16>, t: seq<Char16>, k: int)
    requires OccursAt(s, t, k)
    ensures Contains(s, t)
    decreases k
  {
    if k == 0 {
      assert s[..|t|] == t;
    } else {
      assert s[1..][k - 1..k - 1 + |t|] == s[k..k + |t|];
      OccursContains(s[1..], t, k - 1);
    }
  }

  /** What `contains` finds occurs at some offset. */
  lemma {:induction false} ContainsOccurs(s: seq<Char16>, t: seq<Char16>) returns (k: int)
    requires Contains(s, t)
    ensures OccursAt(s, t, k)
    decreases |s|
  {
    if t <= s {
      k := 0;
    } else {
      var k' := ContainsOccurs(s[1..], t);
      assert s[k' + 1..k' + 1 + |t|] == s[1..][k'..k' + |t|];
      k := k' + 1;
    }
  }

  lemma ContainsIff(s: seq<Char16>, t: seq<Char16>)
    ensures Contains(s, t) <==> exists k :: OccursAt(s, t, k)
  {
    if Contains(s, t) {
      var k := ContainsOccurs(s, t);
    }
    forall k | OccursAt(s, t, k) ensures Contains(s, t) {
      OccursContains(s, t, k);
    }
  }

  /** `isLetter(key)`: the lower-cased label occurs in the alphabet. */
  function IsLetter(s: seq<Char16>): bool
  {
    Contains(Alphabet(), Lower(s))
  }

  /** A run of consecutive lower-case letters, such as "", "q" or "abc". */
  ghost predicate AlphabetRun(t: seq<Char16>)
  {
    && (forall i :: 0 <= i < |t| ==> IsLowerAscii(t[i]))
    && (forall i :: 0 <= i < |t| - 1 ==> t[i + 1] as int == t[i] as int + 1)
  }

  lemma {:induction false} RunFromStart(t: seq<Char16>, k: int)
    requires AlphabetRun(t) && 0 <= k < |t|
    ensures t[k] as int == t[0] as int + k
  {
    if k > 0 {
      RunFromStart(t, k - 1);
    }
  }

  /** A string occurs in the alphabet exactly when it is a run of consecutive letters. */
  lemma AlphabetOccursIff(t: seq<Char16>)
    ensures (exists k :: OccursAt(Alphabet(), t, k)) <==> AlphabetRun(t)
  {
    if exists k :: OccursAt(Alphabet(), t, k) {
      var k :| OccursAt(Alphabet(), t, k);
      forall i | 0 <= i < |t| ensures t[i] as int == 97 + k + i {
        assert t[i] == Alphabet()[k + i];
      }
    }
    if AlphabetRun(t) {
      var k := if |t| == 0 then 0 else t[0] as int - 97;
      if |t| > 0 {
        RunFromStart(t, |t| - 1);
        forall i | 0 <= i < |t| ensures Alphabet()[k..k + |t|][i] == t[i] {
          RunFromStart(t, i);
        }
      }
      assert Alphabet()[k..k + |t|] == t;
      assert OccursAt(Alphabet(), t, k);
    }
  }

  /** `isLetter` holds exactly for labels whose lower-cased form is a run of consecutive letters. */
  lemma IsLetterIff(s: seq<Char16>)
    ensures IsLetter(s) <==> AlphabetRun(Lower(s))
  {
    ContainsIff(Alphabet(), Lower(s));
    AlphabetOccursIff(Lower(s));
  }

  /** A one-unit label is a letter exactly when it is an ASCII letter of either case. */
  lemma IsLetterSingle(c: Char16)
    ensures IsLetter([c]) <==> IsLowerAscii(c) || IsUpperAscii(c)
  {
    IsLetterIff([c]);
    assert Lower([c])[0] == LowerChar(c);
  }

  /** The empty label passes, as does any run such as "abc" or "AB". */
  lemma IsLetterRuns()
    ensures IsLetter([])
    ensures IsLetter([97, 98, 99])
    ensures IsLetter([65, 66])
  {
    IsLetterIff([]);
    IsLetterIff([97, 98, 99]);
    assert Lower([65, 66]) == [97, 98];
    IsLetterIff([65, 66]);
  }

  /** Two letters that are not neighbours in the alphabet, such as "ac", do not pass. */
  lemma IsLetterGap()
    ensures !IsLetter([97, 99])
  {
    IsLetterIff([97, 99]);
    assert Lower([97, 99])[1] as int != Lower([97, 99])[0] as int + 1;
  }

  /** Case mapping back and forth leaves the lower-cased form alone. */
  lemma LowerOfUpper(s: seq<Char16>)
    ensures Lower(Upper(s)) == Lower(s)
    ensures Lower(Lower(s)) == Lower(s)
  {
  }

  /** Changing the case of a label never changes whether it is a letter. */
  lemma IsLetterCaseInvariant(s: seq<Char16>)
    ensures IsLetter(Upper(s)) == IsLetter(s)
    ensures IsLetter(Lower(s)) == IsLetter(s)
  {
    LowerOfUpper(s);
  }
}
