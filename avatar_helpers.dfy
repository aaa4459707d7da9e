/** The avatar helpers (src/avatar/helpers.ts): the corner radius of a
    rounding variant and the fallback initials of a name. Whitespace and
    upper-casing are those of ASCII. */
module AvatarHelpers {
  import opened Wrappers
  import opened AvatarConstants

  /** `getAvatarBorderRadius(rounded)`: the table radius, or 999 for a
      string that is no rounding key. */
  function AvatarBorderRadius(rounded: string): (r: real)
    ensures ParseRounding(rounded).Some? ==> r == AvatarBorderRadii(ParseRounding(rounded).value)
    ensures ParseRounding(rounded).None? ==> r == 999.0
  {
    match ParseRounding(rounded)
    case Some(k) => AvatarBorderRadii(k)
    case None => 999.0
  }

  /** Every rounding reaches its table radius, and an unknown rounding is
      drawn as if it were `full`. */
  lemma BorderRadiusLookup(k: AvatarRounding, other: string)
    requires ParseRounding(other).None?
    ensures AvatarBorderRadius(RoundingName(k)) == AvatarBorderRadii(k)
    ensures AvatarBorderRadius(other) == AvatarBorderRadius("full")
  {
    RoundingNameRoundTrip(k);
  }

  /** The characters `\s` matches within ASCII: space, tab, line feed,
      vertical tab, form feed and carriage return. */
  predicate IsSpace(c: char) {
    c == ' ' || c == '\t' || c == '\n' || c == '\r' || c as int == 11 || c as int == 12
  }

  predicate AllSpace(s: string) {
    forall i :: 0 <= i < |s| ==> IsSpace(s[i])
  }

  /** `toUpperCase` on one ASCII character. */
  function Upper(c: char): (u: char)
    ensures 'a' <= c <= 'z' ==> u as int == c as int - 32
    ensures !('a' <= c <= 'z') ==> u == c
  {
    if 'a' <= c <= 'z' then (c as int - 32) as char else c
  }

  /** Leading whitespace removed. A string that ends in a non-space
      character keeps that character. */
  function TrimStart(s: string): (t: string)
    ensures |t| <= |s|
    ensures t == [] || !IsSpace(t[0])
    ensures s != [] && !IsSpace(s[|s| - 1]) ==> t != [] && t[|t| - 1] == s[|s| - 1]
  {
    if s != [] && IsSpace(s[0]) then TrimStart(s[1..]) else s
  }

  /** Trailing whitespace removed. A string that starts with a non-space
      character keeps that character. */
  function TrimEnd(s: string): (t: string)
    ensures |t| <= |s|
    ensures t == [] || !IsSpace(t[|t| - 1])
    ensures s != [] && !IsSpace(s[0]) ==> t != [] && t[0] == s[0]
  {
    if s != [] && IsSpace(s[|s| - 1]) then TrimEnd(s[..|s| - 1]) else s
  }

  /** `String.prototype.trim`: neither end of the result is whitespace. */
  function Trim(s: string): (t: string)
    ensures t == [] || (!IsSpace(t[0]) && !IsSpace(t[|t| - 1]))
  {
    TrimEnd(TrimStart(s))
  }

  /** `s.split(/\s+/)`: the pieces between maximal runs of whitespace. An
      empty string gives one empty piece, and whitespace at either end
      gives an empty piece at that end. */
  function SplitWs(s: string): (parts: seq<string>)
    ensures |parts| >= 1
    ensures s != [] && !IsSpace(s[0]) ==> parts[0] != [] && parts[0][0] == s[0]
    decreases |s|
  {
    if s == [] then [[]]
    else if IsSpace(s[0]) then [[]] + SplitWs(TrimStart(s))
    else
      var rest := SplitWs(s[1..]);
      [[s[0]] + rest[0]] + rest[1..]
  }

  /** A string that does not end in whitespace splits into pieces that are
      all non-empty after the first. */
  lemma {:induction false} SplitTailNonEmpty(s: string)
    requires s == [] || !IsSpace(s[|s| - 1])
    ensures forall k :: 1 <= k < |SplitWs(s)| ==> SplitWs(s)[k] != []
    decreases |s|
  {
    if s == [] {
    } else if IsSpace(s[0]) {
      SplitTailNonEmpty(TrimStart(s));
    } else {
      SplitTailNonEmpty(s[1..]);
    }
  }

  /** The words of a name: the pieces of its trimmed form. */
  function Words(name: string): seq<string> {
    SplitWs(Trim(name))
  }

  /** The words of a name that is not blank are all non-empty, and the first
      starts with the name's first non-space character. */
  lemma WordsNonEmpty(name: string)
    ensures Trim(name) != [] ==> forall k :: 0 <= k < |Words(name)| ==> Words(name)[k] != []
    ensures Trim(name) != [] ==> Words(name)[0][0] == Trim(name)[0]
  {
    SplitTailNonEmpty(Trim(name));
  }

  /** `getFallbackInitials(name)`: the upper-cased first character of the
      first word, followed, when there are at least two words, by that of
      the last word. */
  function FallbackInitials(name: string): (r: string)
    ensures |r| <= 2
    ensures r == [] <==> Trim(name) == []
    ensures r != [] ==> r[0] == Upper(Trim(name)[0])
    ensures Trim(name) != [] ==> (|r| == 2 <==> |Words(name)| >= 2)
  {
    var parts := Words(name);
    var firstName := parts[0];
    var lastName := if |parts| > 1 then Some(parts[|parts| - 1]) else None;
    var firstInitial := if firstName != [] then [Upper(firstName[0])] else [];
    var lastInitial := if lastName.Some? && lastName.value != [] then [Upper(lastName.value[0])] else [];
    WordsNonEmpty(name);
    firstInitial + lastInitial
  }

  /** Middle words do not matter: with two or more words the initials are
      those of the first and the last word. */
  lemma InitialsOfFirstAndLast(name: string)
    requires Trim(name) != [] && |Words(name)| >= 2
    ensures var w := Words(name);
            w[0] != [] && w[|w| - 1] != [] &&
            FallbackInitials(name) == [Upper(w[0][0]), Upper(w[|w| - 1][0])]
  {
    WordsNonEmpty(name);
  }

  /** Removing leading whitespace is unaffected by more leading whitespace. */
  lemma {:induction false} TrimStartSkipsSpace(ws: string, s: string)
    requires AllSpace(ws)
    ensures TrimStart(ws + s) == TrimStart(s)
    decreases |ws|
  {
    if ws != [] {
      assert (ws + s)[0] == ws[0] && IsSpace(ws[0]);
      assert (ws + s)[1..] == ws[1..] + s;
      assert TrimStart(ws + s) == TrimStart(ws[1..] + s);
      TrimStartSkipsSpace(ws[1..], s);
    } else {
      assert ws + s == s;
    }
  }

  /** Removing trailing whitespace is unaffected by more trailing whitespace. */
  lemma {:induction false} TrimEndSkipsSpace(s: string, ws: string)
    requires AllSpace(ws)
    ensures TrimEnd(s + ws) == TrimEnd(s)
    decreases |ws|
  {
    if ws != [] {
      assert (s + ws)[|s + ws| - 1] == ws[|ws| - 1] && IsSpace(ws[|ws| - 1]);
      assert (s + ws)[..|s + ws| - 1] == s + ws[..|ws| - 1];
      assert TrimEnd(s + ws) == TrimEnd(s + ws[..|ws| - 1]);
      TrimEndSkipsSpace(s, ws[..|ws| - 1]);
    } else {
      assert s + ws == s;
    }
  }

  /** Once some non-space character is met, removing leading whitespace
      leaves the rest of the string alone. */
  lemma {:induction false} TrimStartAppend(s: string, t: string)
    requires !AllSpace(s)
    ensures TrimStart(s + t) == TrimStart(s) + t
    decreases |s|
  {
    if IsSpace(s[0]) {
      assert (s + t)[1..] == s[1..] + t;
      assert !AllSpace(s[1..]) by {
        var i :| 0 <= i < |s| && !IsSpace(s[i]);
        assert s[1..][i - 1] == s[i];
      }
      TrimStartAppend(s[1..], t);
    }
  }

  /** A blank string trims to nothing from the front. */
  lemma {:induction false} TrimStartOfBlank(s: string)
    requires AllSpace(s)
    ensures TrimStart(s) == []
    decreases |s|
  {
    if s != [] {
      TrimStartOfBlank(s[1..]);
    }
  }

  /** Whitespace before or after a name does not change its trimmed form. */
  lemma SurroundingSpaceTrimmed(before: string, name: string, after: string)
    requires AllSpace(before) && AllSpace(after)
    ensures Trim(before + name + after) == Trim(name)
  {
    assert before + name + after == before + (name + after);
    TrimStartSkipsSpace(before, name + after);
    if AllSpace(name) {
      assert AllSpace(name + after) by {
        forall i | 0 <= i < |name + after|
          ensures IsSpace((name + after)[i])
        {
          if i < |name| { assert (name + after)[i] == name[i]; }
          else { assert (name + after)[i] == after[i - |name|]; }
        }
      }
      TrimStartOfBlank(name + after);
      TrimStartOfBlank(name);
    } else {
      TrimStartAppend(name, after);
      TrimEndSkipsSpace(TrimStart(name), after);
    }
  }

  /** Hence whitespace around a name does not change its initials. */
  lemma SurroundingSpaceIgnored(before: string, name: string, after: string)
    requires AllSpace(before) && AllSpace(after)
    ensures FallbackInitials(before + name + after) == FallbackInitials(name)
  {
    SurroundingSpaceTrimmed(before, name, after);
  }

  /** A word: non-empty and free of whitespace. */
  predicate IsWord(w: string) {
    w != [] && !exists i :: 0 <= i < |w| && IsSpace(w[i])
  }

  /** A word at the front of a string joins the first piece of the rest. */
  lemma {:induction false} SplitAfterWord(w: string, rest: string)
    requires IsWord(w)
    ensures var r := SplitWs(rest);
            SplitWs(w + rest) == [w + r[0]] + r[1..]
    decreases |w|
  {
    assert (w + rest)[0] == w[0];
    assert (w + rest)[1..] == w[1..] + rest;
    if |w| > 1 {
      assert w[1..][0] == w[1];
      SplitAfterWord(w[1..], rest);
      assert [w[0]] + (w[1..] + SplitWs(rest)[0]) == w + SplitWs(rest)[0];
    } else {
      assert w[1..] + rest == rest;
      assert [w[0]] + SplitWs(rest)[0] == w + SplitWs(rest)[0];
    }
  }

  /** A single word is its own trimmed form and its only piece. */
  lemma OneWord(w: string)
    requires IsWord(w)
    ensures Trim(w) == w && Words(w) == [w]
  {
    assert TrimStart(w) == w;
    assert TrimEnd(w) == w;
    SplitAfterWord(w, []);
    assert w + [] == w;
  }

  /** Two words separated by whitespace are two pieces. */
  lemma TwoWords(a: string, gap: string, b: string)
    requires IsWord(a) && IsWord(b) && gap != [] && AllSpace(gap)
    ensures Trim(a + gap + b) == a + gap + b && Words(a + gap + b) == [a, b]
  {
    var s := a + gap + b;
    assert s[0] == a[0] && s[|s| - 1] == b[|b| - 1];
    assert TrimStart(s) == s;
    assert TrimEnd(s) == s;
    assert s == a + (gap + b);
    SplitAfterWord(a, gap + b);
    assert (gap + b)[0] == gap[0];
    TrimStartSkipsSpace(gap, b);
    assert TrimStart(b) == b;
    OneWord(b);
    assert SplitWs(b) == [b];
    assert SplitWs(gap + b) == [[]] + [b];
    assert a + [] == a;
    assert SplitWs(s) == [a, b];
  }

  /** A one-word name gives one initial. */
  lemma InitialOfOneWord(w: string)
    requires IsWord(w)
    ensures FallbackInitials(w) == [Upper(w[0])]
  {
    OneWord(w);
  }

  /** A two-word name gives the initials of both words. */
  lemma InitialsOfTwoWords(a: string, gap: string, b: string)
    requires IsWord(a) && IsWord(b) && gap != [] && AllSpace(gap)
    ensures FallbackInitials(a + gap + b) == [Upper(a[0]), Upper(b[0])]
  {
    TwoWords(a, gap, b);
  }

  /** The initials the component shows for some names. */
  lemma InitialsExamples()
    ensures FallbackInitials("John Doe") == "JD"
    ensures FallbackInitials("jane smith") == "JS"
  {
    assert "John Doe" == "John" + " " + "Doe";
    InitialsOfTwoWords("John", " ", "Doe");
    assert "jane smith" == "jane" + " " + "smith";
    InitialsOfTwoWords("jane", " ", "smith");
  }

  /** A single word, and the default name `'?'`, give one character. */
  lemma SingleInitialExamples()
    ensures FallbackInitials("John") == "J"
    ensures FallbackInitials("?") == "?"
  {
    InitialOfOneWord("John");
    InitialOfOneWord("?");
  }

  /** Extra whitespace around and between the words changes nothing. */
  lemma InitialsIgnoreExtraSpace()
    ensures FallbackInitials("  Alice   Bob  ") == "AB"
  {
    var words := "Alice" + "   " + "Bob";
    InitialsOfTwoWords("Alice", "   ", "Bob");
    assert "  Alice   Bob  " == "  " + words + "  ";
    SurroundingSpaceIgnored("  ", words, "  ");
  }
}
