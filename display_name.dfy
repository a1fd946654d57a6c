/**
 * `formatDisplayName`: every "_" becomes a space, then every word character
 * that starts a word (the regex `\b\w`) is upper-cased.
 */
module DisplayName {
  import opened Strings

  /** The regex class `\w` (no Unicode flag): ASCII letters, digits and "_". */
  predicate IsWordChar(c: char) {
    IsAsciiLetter(c) || IsDigit(c) || c == '_'
  }

  /** A word character once underscores are gone: an ASCII letter or digit. */
  predicate IsAlnum(c: char) {
    IsAsciiLetter(c) || IsDigit(c)
  }

  /** `replace(/_/g, " ")`. */
  function SpacedUnderscores(s: string): (r: string)
    ensures |r| == |s|
    ensures forall i :: 0 <= i < |s| ==> r[i] == if s[i] == '_' then ' ' else s[i]
  {
    seq(|s|, i requires 0 <= i < |s| => if s[i] == '_' then ' ' else s[i])
  }

  /**
   * `replace(/\b\w/g, c => c.toUpperCase())` as a left-to-right scan;
   * `afterWord` says whether the character before `s` was a word character.
   */
  function CapitalizeWords(s: string, afterWord: bool): string
    decreases |s|
  {
    if s == [] then []
    else
      var c := s[0];
      [if IsWordChar(c) && !afterWord then ToUpperChar(c) else c] + CapitalizeWords(s[1..], IsWordChar(c))
  }

  /** `formatDisplayName`. */
  function FormatDisplayName(str: string): (r: string)
    ensures str == "" ==> r == ""
  {
    if str == "" then "" else CapitalizeWords(SpacedUnderscores(str), false)
  }

  /** A word boundary followed by a word character at position `i` of `t`. */
  predicate StartsWord(t: string, i: nat, afterWord: bool)
    requires i < |t|
  {
    IsWordChar(t[i]) && !(if i == 0 then afterWord else IsWordChar(t[i - 1]))
  }

  /** The scan changes exactly the characters that start a word, and only their case. */
  lemma {:induction false} CapitalizeWordsAt(t: string, afterWord: bool, i: nat)
    requires i < |t|
    ensures |CapitalizeWords(t, afterWord)| == |t|
    ensures CapitalizeWords(t, afterWord)[i] == if StartsWord(t, i, afterWord) then ToUpperChar(t[i]) else t[i]
    decreases |t|
  {
    CapitalizeWordsLength(t, afterWord);
    if i > 0 {
      CapitalizeWordsAt(t[1..], IsWordChar(t[0]), i - 1);
    }
  }

  lemma {:induction false} CapitalizeWordsLength(t: string, afterWord: bool)
    ensures |CapitalizeWords(t, afterWord)| == |t|
    decreases |t|
  {
    if t != [] {
      CapitalizeWordsLength(t[1..], IsWordChar(t[0]));
    }
  }

  /** An alphanumeric character not preceded by one. */
  predicate AtWordStart(s: string, i: nat)
    requires i < |s|
  {
    IsAlnum(s[i]) && (i == 0 || !IsAlnum(s[i - 1]))
  }

  /**
   * The whole transform, character by character in terms of the input: the
   * length is kept, "_" becomes a space, an ASCII letter or digit at the start
   * of the text or after any other character is upper-cased, and every other
   * character is kept as it is.
   */
  lemma FormatDisplayNameAt(s: string, i: nat)
    requires i < |s|
    ensures |FormatDisplayName(s)| == |s|
    ensures FormatDisplayName(s)[i] ==
      if s[i] == '_' then ' ' else if AtWordStart(s, i) then ToUpperChar(s[i]) else s[i]
  {
    var t := SpacedUnderscores(s);
    CapitalizeWordsAt(t, false, i);
    assert IsWordChar(t[i]) <==> IsAlnum(s[i]);
    if i > 0 {
      assert IsWordChar(t[i - 1]) <==> IsAlnum(s[i - 1]);
    }
  }

  /** The output never contains "_" and is as long as the input. */
  lemma FormatDisplayNameShape(s: string)
    ensures |FormatDisplayName(s)| == |s|
    ensures '_' !in FormatDisplayName(s)
  {
    if s != "" {
      FormatDisplayNameAt(s, 0);
      forall i | 0 <= i < |s| ensures FormatDisplayName(s)[i] != '_' {
        FormatDisplayNameAt(s, i);
      }
    }
  }

  /** Formatting a formatted name changes nothing. */
  lemma FormatDisplayNameIdempotent(s: string)
    ensures FormatDisplayName(FormatDisplayName(s)) == FormatDisplayName(s)
  {
    if s != "" {
      var r := FormatDisplayName(s);
      FormatDisplayNameShape(s);
      FormatDisplayNameShape(r);
      forall i | 0 <= i < |r| ensures IsAlnum(r[i]) <==> IsAlnum(s[i]) {
        FormatDisplayNameAt(s, i);
      }
      forall i | 0 <= i < |r| ensures FormatDisplayName(r)[i] == r[i] {
        FormatDisplayNameAt(s, i);
        FormatDisplayNameAt(r, i);
        assert r[i] != '_';
        if i > 0 {
          assert IsAlnum(r[i - 1]) <==> IsAlnum(s[i - 1]);
        }
      }
    }
  }

  /** The stored status "in_progress" is shown as "In Progress". */
  lemma FormatInProgressName(s: string)
    requires s == "in_progress"
    ensures FormatDisplayName(s) == "In Progress"
  {
    var expected := "In Progress";
    FormatDisplayNameShape(s);
    forall i | 0 <= i < |s| ensures FormatDisplayName(s)[i] == expected[i] {
      FormatDisplayNameAt(s, i);
    }
  }
}
