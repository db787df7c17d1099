/**
 * The Python string built-ins the service relies on: `str.lower`, `str.title`,
 * `str.strip`, `str.split()`, `str.startswith`, the substring test `in`,
 * slicing with negative indices, `re.findall(r'\d+', s)[0]`, `int(digits)` and
 * `str(n)`. Text is ASCII: a character outside ASCII is never whitespace, never
 * a digit and has no case.
 */
module PyText {
  import opened Wrappers

  /** `c.isspace()` for ASCII: tab, line feed, vertical tab, form feed, carriage return,
      the four separators 0x1C..0x1F, and the space. */
  predicate IsSpace(c: char) {
    9 <= c as int <= 13 || 28 <= c as int <= 32
  }

  /** What the regular expression `\d` matches in ASCII text. */
  predicate IsDigit(c: char) {
    '0' <= c <= '9'
  }

  predicate IsUpper(c: char) {
    'A' <= c <= 'Z'
  }

  predicate IsLower(c: char) {
    'a' <= c <= 'z'
  }

  /** The cased characters of ASCII: the letters. */
  predicate IsLetter(c: char) {
    IsUpper(c) || IsLower(c)
  }

  function LowerChar(c: char): (r: char)
    ensures IsLetter(c) <==> IsLower(r)
    ensures !IsLetter(c) ==> r == c
  {
    if IsUpper(c) then (c as int + 32) as char else c
  }

  function UpperChar(c: char): (r: char)
    ensures IsLetter(c) <==> IsUpper(r)
    ensures !IsLetter(c) ==> r == c
  {
    if IsLower(c) then (c as int - 32) as char else c
  }

  // ---------------------------------------------------------------------------
  // Prefixes and substrings

  /** `s.startswith(p)`. */
  predicate StartsWith(s: string, p: string) {
    |p| <= |s| && s[..|p|] == p
  }

  /** `p in s` for two strings: `p` occurs in `s` at some offset. */
  predicate IsSubstring(p: string, s: string) {
    exists k | 0 <= k <= |s| - |p| :: OccursAt(p, s, k)
  }

  /** `p` occurs in `s` starting at offset `k`. */
  predicate OccursAt(p: string, s: string, k: nat)
    requires k + |p| <= |s|
  {
    s[k..k + |p|] == p
  }

  // ---------------------------------------------------------------------------
  // Case mapping

  /** `s.lower()`: every upper-case letter becomes its lower-case letter. */
  function Lower(s: string): (r: string)
    ensures |r| == |s|
    ensures forall i | 0 <= i < |s| :: r[i] == LowerChar(s[i])
  {
    if s == [] then [] else [LowerChar(s[0])] + Lower(s[1..])
  }

  /** `str.title` from a given state: a letter following a letter is lowered, any other
      letter is raised; `prevCased` says whether the character before `s` was a letter. */
  function TitleFrom(s: string, prevCased: bool): (r: string)
    ensures |r| == |s|
  {
    if s == [] then []
    else
      var c := if prevCased then LowerChar(s[0]) else UpperChar(s[0]);
      [c] + TitleFrom(s[1..], IsLetter(s[0]))
  }

  /** `s.title()`. */
  function Title(s: string): (r: string)
    ensures |r| == |s|
  {
    TitleFrom(s, false)
  }

  /** Within a run of letters that follows a letter, `title` is `lower`. */
  lemma {:induction false} TitleAfterLetter(s: string)
    requires forall i | 0 <= i < |s| :: IsLetter(s[i])
    ensures TitleFrom(s, true) == Lower(s)
  {
    if s != [] {
      TitleAfterLetter(s[1..]);
    }
  }

  /** A word whose lower-case form is a non-empty run of lower-case letters `k` is
      title-cased to `k` with its first letter raised: "CHICAGO".title() is "Chicago". */
  lemma TitleOfLetters(w: string, k: string)
    requires Lower(w) == k && k != []
    requires forall i | 0 <= i < |k| :: IsLower(k[i])
    ensures Title(w) == [UpperChar(k[0])] + k[1..]
  {
    assert forall i | 0 <= i < |w| :: LowerChar(w[i]) == k[i];
    assert forall i | 0 <= i < |w| :: IsLetter(w[i]);
    TitleAfterLetter(w[1..]);
    assert Lower(w[1..]) == k[1..];
  }

  // ---------------------------------------------------------------------------
  // Stripping and splitting on whitespace

  /** `s.lstrip()`: the leading whitespace is removed and nothing else. */
  function TrimStart(s: string): (r: string)
    ensures |r| <= |s|
    ensures r == [] || !IsSpace(r[0])
  {
    if s != [] && IsSpace(s[0]) then TrimStart(s[1..]) else s
  }

  /** `lstrip()` keeps a suffix of the text and everything it removes is whitespace. */
  lemma {:induction false} TrimStartRemovesSpace(s: string)
    ensures TrimStart(s) == s[|s| - |TrimStart(s)|..]
    ensures forall i | 0 <= i < |s| - |TrimStart(s)| :: IsSpace(s[i])
  {
    if s != [] && IsSpace(s[0]) {
      var r := TrimStart(s);
      TrimStartRemovesSpace(s[1..]);
      assert s[1..][|s| - 1 - |r|..] == s[|s| - |r|..];
      forall i | 0 <= i < |s| - |r| ensures IsSpace(s[i]) {
        if i > 0 {
          assert s[i] == s[1..][i - 1];
        }
      }
    }
  }

  /** `s.rstrip()`: the trailing whitespace is removed and nothing else. */
  function TrimEnd(s: string): (r: string)
    ensures |r| <= |s| && r == s[..|r|]
    ensures r == [] || !IsSpace(r[|r| - 1])
    ensures forall i | |r| <= i < |s| :: IsSpace(s[i])
  {
    if s != [] && IsSpace(s[|s| - 1]) then TrimEnd(s[..|s| - 1]) else s
  }

  /** `s.strip()`. */
  function Strip(s: string): (r: string)
    ensures |r| <= |s|
    ensures r == [] || (!IsSpace(r[0]) && !IsSpace(r[|r| - 1]))
  {
    TrimEnd(TrimStart(s))
  }

  /** A string that neither begins nor ends with whitespace is its own `strip()`. */
  lemma StripUnpadded(s: string)
    requires s == [] || (!IsSpace(s[0]) && !IsSpace(s[|s| - 1]))
    ensures Strip(s) == s
  {
  }

  /** The longest prefix of `s` without whitespace. */
  function NonSpacePrefix(s: string): (r: string)
    ensures |r| <= |s|
  {
    if s == [] || IsSpace(s[0]) then [] else [s[0]] + NonSpacePrefix(s[1..])
  }

  /** The prefix is a prefix of `s` that stops only at whitespace or at the end. */
  lemma {:induction false} NonSpacePrefixIsMaximal(s: string)
    ensures NonSpacePrefix(s) == s[..|NonSpacePrefix(s)|]
    ensures |NonSpacePrefix(s)| == |s| || IsSpace(s[|NonSpacePrefix(s)|])
  {
    if s != [] && !IsSpace(s[0]) {
      var r := NonSpacePrefix(s);
      NonSpacePrefixIsMaximal(s[1..]);
      assert r == [s[0]] + NonSpacePrefix(s[1..]);
      assert s[..|r|] == [s[0]] + s[1..][..|r| - 1];
      if |r| < |s| {
        assert s[|r|] == s[1..][|r| - 1];
      }
    }
  }

  /** The prefix holds no whitespace, and it is not empty when `s` starts with a non-space. */
  lemma {:induction false} NonSpacePrefixIsWord(s: string)
    requires s != [] && !IsSpace(s[0])
    ensures IsWord(NonSpacePrefix(s))
  {
    var r := NonSpacePrefix(s);
    assert r == [s[0]] + NonSpacePrefix(s[1..]);
    if |s| > 1 && !IsSpace(s[1]) {
      NonSpacePrefixIsWord(s[1..]);
      forall i | 0 <= i < |r| ensures !IsSpace(r[i]) {
        if i > 0 {
          assert r[i] == NonSpacePrefix(s[1..])[i - 1];
        }
      }
    } else {
      assert NonSpacePrefix(s[1..]) == [];
    }
  }

  /** A word: non-empty and free of whitespace. */
  predicate IsWord(w: string) {
    w != [] && forall j | 0 <= j < |w| :: !IsSpace(w[j])
  }

  /** `s.split()`: the maximal runs of non-whitespace characters, in order. */
  function Words(s: string): seq<string>
    decreases |s|
  {
    var t := TrimStart(s);
    if t == [] then []
    else
      var w := NonSpacePrefix(t);
      assert w != [] by { assert !IsSpace(t[0]); }
      [w] + Words(t[|w|..])
  }

  /** Every item of `split()` is a non-empty word without whitespace. */
  lemma {:induction false} WordsAreWords(s: string)
    ensures forall i | 0 <= i < |Words(s)| :: IsWord(Words(s)[i])
    decreases |s|
  {
    var t := TrimStart(s);
    if t != [] {
      var w := NonSpacePrefix(t);
      NonSpacePrefixIsWord(t);
      var rest := t[|w|..];
      WordsAreWords(rest);
      assert Words(s) == [w] + Words(rest);
      forall i | 0 <= i < |Words(s)| ensures IsWord(Words(s)[i]) {
        if i > 0 {
          assert Words(s)[i] == Words(rest)[i - 1];
        }
      }
    }
  }

  /** Words glued together with single spaces, the inverse of `split()` on such text. */
  function JoinSpace(ws: seq<string>): string {
    if ws == [] then []
    else if |ws| == 1 then ws[0]
    else ws[0] + " " + JoinSpace(ws[1..])
  }

  /** `" ".join(ws).split() == ws` for any list of words. */
  lemma WordsOfJoin(ws: seq<string>)
    requires forall i | 0 <= i < |ws| :: IsWord(ws[i])
    ensures Words(JoinSpace(ws)) == ws
  {
    WordsOfJoinFrom(ws, 0);
    assert ws[0..] == ws;
  }

  /** The same for the words from position `k` on. */
  lemma {:induction false} WordsOfJoinFrom(ws: seq<string>, k: nat)
    requires k <= |ws|
    requires forall i | 0 <= i < |ws| :: IsWord(ws[i])
    ensures Words(JoinSpace(ws[k..])) == ws[k..]
    decreases |ws| - k
  {
    if k < |ws| {
      var w := ws[k];
      assert IsWord(w);
      if k + 1 == |ws| {
        assert ws[k..] == [w];
        WordsOfWord(w);
      } else {
        var tail := ws[k..];
        assert tail[0] == w && tail[1..] == ws[k + 1..];
        assert JoinSpace(tail) == w + " " + JoinSpace(ws[k + 1..]);
        WordsCons(w, JoinSpace(ws[k + 1..]));
        WordsOfJoinFrom(ws, k + 1);
        assert tail == [w] + ws[k + 1..];
      }
    }
  }

  /** A single word splits into itself. */
  lemma WordsOfWord(w: string)
    requires IsWord(w)
    ensures Words(w) == [w]
  {
    WordsOfWordThen(w, []);
    assert w + [] == w;
  }

  /** A word, a space and more text split into the word followed by the split of the rest. */
  lemma WordsCons(w: string, rest: string)
    requires IsWord(w)
    ensures Words(w + " " + rest) == [w] + Words(rest)
  {
    assert w + " " + rest == w + (" " + rest);
    WordsOfWordThen(w, " " + rest);
    WordsAfterSpace(rest);
  }

  /** A word followed by whitespace (or nothing) is the first item of the split. */
  lemma WordsOfWordThen(w: string, t: string)
    requires IsWord(w)
    requires t == [] || IsSpace(t[0])
    ensures Words(w + t) == [w] + Words(t)
  {
    var s := w + t;
    assert s[0] == w[0];
    assert TrimStart(s) == s;
    NonSpacePrefixOf(w, t);
    assert s[|w|..] == t;
  }

  /** Leading whitespace does not change the split. */
  lemma WordsAfterSpace(t: string)
    ensures Words(" " + t) == Words(t)
  {
    assert TrimStart(" " + t) == TrimStart(t) by {
      assert (" " + t)[1..] == t;
    }
  }

  /** The run of non-whitespace at the head of `w + t` is `w` when `t` begins with whitespace. */
  lemma {:induction false} NonSpacePrefixOf(w: string, t: string)
    requires forall j | 0 <= j < |w| :: !IsSpace(w[j])
    requires t == [] || IsSpace(t[0])
    ensures NonSpacePrefix(w + t) == w
  {
    if w != [] {
      assert (w + t)[1..] == w[1..] + t;
      NonSpacePrefixOf(w[1..], t);
    }
  }

  // ---------------------------------------------------------------------------
  // Slicing

  /** The position a Python slice bound `i` stands for in a string of length `n`:
      a negative bound counts from the end, and either kind is clamped to 0..n. */
  function SliceBound(i: int, n: nat): (k: nat)
    ensures k <= n
    ensures 0 <= i <= n ==> k == i
    ensures -(n as int) <= i < 0 ==> k == n + i
  {
    if i < 0 then (if i + n < 0 then 0 else i + n)
    else if i > n then n
    else i
  }

  /** `s[start:stop]` with Python's semantics: never fails, empty when the bounds cross. */
  function PySlice(s: string, start: int, stop: int): (r: string)
    ensures |r| <= |s|
    ensures 0 <= start && stop < 0 ==>
      r == (if start <= |s| + stop then s[start..|s| + stop] else [])
  {
    var lo := SliceBound(start, |s|);
    var hi := SliceBound(stop, |s|);
    if lo < hi then s[lo..hi] else []
  }

  // ---------------------------------------------------------------------------
  // Runs of digits and decimal numbers

  predicate AllDigits(s: string) {
    forall i | 0 <= i < |s| :: IsDigit(s[i])
  }

  predicate NoDigit(s: string) {
    forall i | 0 <= i < |s| :: !IsDigit(s[i])
  }

  /** The longest prefix of `s` made of digits. */
  function DigitPrefix(s: string): (r: string)
    ensures |r| <= |s| && r == s[..|r|] && AllDigits(r)
    ensures |r| == |s| || !IsDigit(s[|r|])
  {
    if s == [] || !IsDigit(s[0]) then [] else [s[0]] + DigitPrefix(s[1..])
  }

  /** `re.findall(r'\d+', s)[0]`, or None when the list is empty: the first maximal run of digits. */
  function FirstDigitRun(s: string): (r: Option<string>)
    ensures r.None? <==> NoDigit(s)
    ensures r.Some? ==> r.value != [] && AllDigits(r.value)
  {
    if s == [] then None
    else if IsDigit(s[0]) then Some(DigitPrefix(s))
    else
      var r := FirstDigitRun(s[1..]);
      assert NoDigit(s[1..]) ==> NoDigit(s) by {
        if NoDigit(s[1..]) {
          forall i | 0 <= i < |s| ensures !IsDigit(s[i]) {
            if i > 0 { assert s[i] == s[1..][i - 1]; }
          }
        }
      }
      r
  }

  /** The first run of digits is a piece of the text, so it is never longer than the text. */
  lemma {:induction false} FirstDigitRunWithin(s: string)
    ensures FirstDigitRun(s).Some? ==> |FirstDigitRun(s).value| <= |s|
  {
    if s != [] && !IsDigit(s[0]) {
      FirstDigitRunWithin(s[1..]);
    }
  }

  /** A run of digits directly followed by a non-digit (or the end) is the digit prefix. */
  lemma {:induction false} DigitPrefixOf(d: string, t: string)
    requires AllDigits(d)
    requires t == [] || !IsDigit(t[0])
    ensures DigitPrefix(d + t) == d
  {
    if d != [] {
      assert (d + t)[1..] == d[1..] + t;
      DigitPrefixOf(d[1..], t);
    }
  }

  /** The first run of digits in `pre + d + post` is `d` when `pre` has no digit and `post`
      does not continue the run. */
  lemma {:induction false} FirstDigitRunOf(pre: string, d: string, post: string)
    requires NoDigit(pre)
    requires d != [] && AllDigits(d)
    requires post == [] || !IsDigit(post[0])
    ensures FirstDigitRun(pre + d + post) == Some(d)
  {
    var s := pre + d + post;
    if pre == [] {
      assert s == d + post;
      DigitPrefixOf(d, post);
    } else {
      assert s[0] == pre[0];
      assert s[1..] == pre[1..] + d + post;
      FirstDigitRunOf(pre[1..], d, post);
    }
  }

  function DigitValue(c: char): (v: nat)
    requires IsDigit(c)
    ensures v < 10
  {
    c as int - '0' as int
  }

  function DigitChar(v: nat): (c: char)
    requires v < 10
    ensures IsDigit(c) && DigitValue(c) == v
  {
    ('0' as int + v) as char
  }

  /** `int(d)` for a string of decimal digits (leading zeros allowed). */
  function DigitsValue(d: string): nat
    requires AllDigits(d)
  {
    if d == [] then 0 else DigitsValue(d[..|d| - 1]) * 10 + DigitValue(d[|d| - 1])
  }

  /** `str(n)` for a natural number: decimal digits without leading zeros. */
  function DecimalString(n: nat): (r: string)
    ensures r != [] && AllDigits(r)
    ensures r[0] == '0' ==> n == 0
  {
    if n < 10 then [DigitChar(n)] else DecimalString(n / 10) + [DigitChar(n % 10)]
  }

  /** `int(str(n)) == n`. */
  lemma {:induction false} DecimalRoundTrip(n: nat)
    ensures DigitsValue(DecimalString(n)) == n
  {
    if n >= 10 {
      var d := DecimalString(n);
      assert d[..|d| - 1] == DecimalString(n / 10);
      DecimalRoundTrip(n / 10);
    }
  }
}
