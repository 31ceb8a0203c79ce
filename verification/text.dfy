/** Character classes and string helpers with the meaning Python's `str`
    methods give them: `isspace`, `strip`, `split()`, `isalpha`, `lower`,
    code-point ordering of strings, and substring search. */
module Text {
  import opened Outcome

  // ---------------------------------------------------------------------
  // Whitespace, strip and split
  // ---------------------------------------------------------------------

  /** Python's `str.isspace` for one character: the Unicode whitespace set
      plus the ASCII information separators 0x1C..0x1F. */
  predicate IsSpace(c: char) {
    || ('\t' <= c <= '\r')
    || ('\U{1C}' <= c <= '\U{20}')
    || c == '\U{85}' || c == '\U{A0}' || c == '\U{1680}'
    || ('\U{2000}' <= c <= '\U{200A}')
    || c == '\U{2028}' || c == '\U{2029}' || c == '\U{202F}' || c == '\U{205F}'
    || c == '\U{3000}'
  }

  predicate AllSpace(s: string) {
    forall i :: 0 <= i < |s| ==> IsSpace(s[i])
  }

  predicate NoSpace(s: string) {
    forall i :: 0 <= i < |s| ==> !IsSpace(s[i])
  }

  /** Whitespace from position `i` up to (not including) `j`. */
  predicate SpaceBetween(s: string, i: int, j: int) {
    forall k :: i <= k < j && 0 <= k < |s| ==> IsSpace(s[k])
  }

  /** The first position at or after `i` that is not whitespace (or `|s|`). */
  function SkipSpace(s: string, i: nat): (j: nat)
    requires i <= |s|
    ensures i <= j <= |s| && SpaceBetween(s, i, j)
    ensures j == |s| || !IsSpace(s[j])
    decreases |s| - i
  {
    if i < |s| && IsSpace(s[i]) then SkipSpace(s, i + 1) else i
  }

  /** The position just after the last non-whitespace character in
      `s[lo..j]` (or `lo`). */
  function BackSpace(s: string, lo: nat, j: nat): (i: nat)
    requires lo <= j <= |s|
    ensures lo <= i <= j && SpaceBetween(s, i, j)
    ensures i == lo || !IsSpace(s[i - 1])
    decreases j
  {
    if lo < j && IsSpace(s[j - 1]) then BackSpace(s, lo, j - 1) else j
  }

  /** Where `strip()` cuts: whitespace before `a` and from `b` on, and the
      kept slice `s[a..b]` neither starts nor ends with whitespace. */
  function StripBounds(s: string): (ab: (nat, nat))
    ensures ab.0 <= ab.1 <= |s|
    ensures SpaceBetween(s, 0, ab.0) && SpaceBetween(s, ab.1, |s|)
    ensures ab.0 < ab.1 ==> !IsSpace(s[ab.0]) && !IsSpace(s[ab.1 - 1])
  {
    var a := SkipSpace(s, 0);
    (a, BackSpace(s, a, |s|))
  }

  /** Python's `str.strip()`. */
  function Strip(s: string): string {
    s[StripBounds(s).0..StripBounds(s).1]
  }

  /** Stripping leaves nothing exactly when the string is all whitespace. */
  lemma {:induction false} StripEmptyIffAllSpace(s: string)
    ensures Strip(s) == [] <==> AllSpace(s)
  {
    var (a, b) := StripBounds(s);
    if a < b {
      assert s[a] == Strip(s)[0];
    }
  }

  /** Length of the run of non-whitespace characters that starts `s`. */
  function RunLength(s: string): (n: nat)
    ensures n <= |s|
    ensures NoSpace(s[..n])
    ensures n < |s| ==> IsSpace(s[n])
  {
    if |s| == 0 || IsSpace(s[0]) then 0
    else
      var n := RunLength(s[1..]);
      assert s[..n + 1] == [s[0]] + s[1..][..n];
      n + 1
  }

  /** The characters of `s` that are not whitespace, in order. */
  function NonSpace(s: string): string {
    if |s| == 0 then []
    else (if IsSpace(s[0]) then [] else [s[0]]) + NonSpace(s[1..])
  }

  function Concat(ws: seq<string>): string {
    if |ws| == 0 then [] else ws[0] + Concat(ws[1..])
  }

  lemma {:induction false} NonSpaceAppend(a: string, b: string)
    ensures NonSpace(a + b) == NonSpace(a) + NonSpace(b)
  {
    if |a| == 0 {
      assert a + b == b;
    } else {
      assert (a + b)[1..] == a[1..] + b;
      NonSpaceAppend(a[1..], b);
    }
  }

  lemma {:induction false} NonSpaceOfWord(w: string)
    requires NoSpace(w)
    ensures NonSpace(w) == w
  {
    if |w| > 0 {
      NonSpaceOfWord(w[1..]);
    }
  }

  /** Python's `str.split()` with no separator: the maximal runs of
      non-whitespace characters. Every word is non-empty and free of
      whitespace, and together they hold every non-whitespace character. */
  function Words(s: string): (ws: seq<string>)
    ensures forall i :: 0 <= i < |ws| ==> |ws[i]| > 0 && NoSpace(ws[i])
    ensures Concat(ws) == NonSpace(s)
    decreases |s|
  {
    if |s| == 0 then []
    else if IsSpace(s[0]) then
      Words(s[1..])
    else
      var n := RunLength(s);
      var rest := Words(s[n..]);
      assert s == s[..n] + s[n..];
      NonSpaceAppend(s[..n], s[n..]);
      NonSpaceOfWord(s[..n]);
      [s[..n]] + rest
  }

  /** Number of word starts in `s`: non-whitespace characters that begin the
      string (when `afterSpace`) or follow a whitespace character. This is an
      independent definition of the word count. */
  function WordStarts(s: string, afterSpace: bool): nat {
    if |s| == 0 then 0
    else (if afterSpace && !IsSpace(s[0]) then 1 else 0) + WordStarts(s[1..], IsSpace(s[0]))
  }

  lemma {:induction false} WordStartsSkipRun(s: string, n: nat)
    requires 0 < n <= |s| && NoSpace(s[..n])
    ensures WordStarts(s[1..], false) == WordStarts(s[n..], false)
  {
    if n > 1 {
      assert s[1..][..n - 1] == s[1..n];
      assert !IsSpace(s[1]) by { assert s[..n][1] == s[1]; }
      WordStartsSkipRun(s[1..], n - 1);
      assert s[1..][n - 1..] == s[n..];
    }
  }

  /** `split()` yields exactly one word per word start. */
  lemma {:induction false} WordsCountsWordStarts(s: string)
    ensures |Words(s)| == WordStarts(s, true)
    decreases |s|
  {
    if |s| == 0 {
    } else if IsSpace(s[0]) {
      WordsCountsWordStarts(s[1..]);
    } else {
      var n := RunLength(s);
      WordsCountsWordStarts(s[n..]);
      WordStartsSkipRun(s, n);
      if n < |s| {
        assert IsSpace(s[n..][0]);
      }
    }
  }

  // ---------------------------------------------------------------------
  // Letters, lower-casing and vowels
  // ---------------------------------------------------------------------

  /** Python's `str.isalpha` restricted to the Basic Latin, Latin-1 Supplement
      and Latin Extended-A blocks; characters of other blocks count as
      non-letters in this model. */
  predicate IsLetter(c: char) {
    || ('A' <= c <= 'Z') || ('a' <= c <= 'z')
    || c == '\U{AA}' || c == '\U{B5}' || c == '\U{BA}'
    || ('\U{C0}' <= c <= '\U{D6}') || ('\U{D8}' <= c <= '\U{F6}')
    || ('\U{F8}' <= c <= '\U{17F}')
  }

  /** Python's full lower-case mapping of one character within the modelled
      blocks. Capital I with dot above (U+0130) lower-cases to two characters,
      `i` followed by a combining dot. */
  function Lower(c: char): string {
    if ('A' <= c <= 'Z') || ('\U{C0}' <= c <= '\U{DE}' && c != '\U{D7}') then
      [(c as int + 32) as char]
    else if c == '\U{130}' then
      ['i', '\U{307}']
    else if || ('\U{100}' <= c <= '\U{137}' && c as int % 2 == 0)
            || ('\U{139}' <= c <= '\U{148}' && c as int % 2 == 1)
            || ('\U{14A}' <= c <= '\U{177}' && c as int % 2 == 0)
            || ('\U{179}' <= c <= '\U{17E}' && c as int % 2 == 1) then
      [(c as int + 1) as char]
    else if c == '\U{178}' then
      ['\U{FF}']
    else
      [c]
  }

  /** `"".join(filter(str.isalpha, text)).lower()`. */
  function AlphaLower(text: string): string {
    if |text| == 0 then []
    else (if IsLetter(text[0]) then Lower(text[0]) else []) + AlphaLower(text[1..])
  }

  predicate IsVowel(c: char) {
    c in "aeiou"
  }

  function CountVowels(s: string): nat {
    if |s| == 0 then 0 else (if IsVowel(s[0]) then 1 else 0) + CountVowels(s[1..])
  }

  /** How many characters a letter contributes to the lower-cased letter
      string: one, except U+0130 which contributes two. */
  function LetterWeight(c: char): nat {
    if !IsLetter(c) then 0 else if c == '\U{130}' then 2 else 1
  }

  /** Whether a character yields a vowel of `aeiou` once lower-cased: the
      ten ASCII vowels and U+0130. Accented vowels such as `ã` or `é` are
      letters but never vowels. */
  function VowelWeight(c: char): nat {
    if c in "aeiouAEIOU" || c == '\U{130}' then 1 else 0
  }

  function LetterCount(text: string): nat {
    if |text| == 0 then 0 else LetterWeight(text[0]) + LetterCount(text[1..])
  }

  function VowelCount(text: string): nat {
    if |text| == 0 then 0 else VowelWeight(text[0]) + VowelCount(text[1..])
  }

  lemma {:induction false} CountVowelsAppend(a: string, b: string)
    ensures CountVowels(a + b) == CountVowels(a) + CountVowels(b)
  {
    if |a| == 0 {
      assert a + b == b;
    } else {
      assert (a + b)[1..] == a[1..] + b;
      CountVowelsAppend(a[1..], b);
    }
  }

  lemma LowerCounts(c: char)
    requires IsLetter(c)
    ensures |Lower(c)| == LetterWeight(c)
    ensures CountVowels(Lower(c)) == VowelWeight(c)
  {
    if 'A' <= c <= 'Z' {
      var d := (c as int + 32) as char;
      assert Lower(c) == [d];
      assert IsVowel(d) <==> c in "AEIOU";
    } else if c == '\U{130}' {
      assert Lower(c) == ['i', '\U{307}'];
      assert IsVowel('i') && !IsVowel('\U{307}');
      assert CountVowels(['\U{307}']) == 0;
    } else {
      var l := Lower(c);
      assert |l| == 1 && ('a' <= c <= 'z' ==> l[0] == c) && (c > 'z' ==> l[0] > 'z');
      assert IsVowel(l[0]) <==> c in "aeiou";
    }
  }

  /** The lower-cased letter string has one character per letter (two for
      U+0130) and one vowel per ASCII vowel of either case (and per U+0130). */
  lemma {:induction false} AlphaLowerCounts(text: string)
    ensures |AlphaLower(text)| == LetterCount(text)
    ensures CountVowels(AlphaLower(text)) == VowelCount(text)
  {
    if |text| > 0 {
      AlphaLowerCounts(text[1..]);
      var head := if IsLetter(text[0]) then Lower(text[0]) else [];
      CountVowelsAppend(head, AlphaLower(text[1..]));
      if IsLetter(text[0]) {
        LowerCounts(text[0]);
      } else {
        assert VowelWeight(text[0]) == 0;
      }
    }
  }

  // ---------------------------------------------------------------------
  // Code-point order of strings (Python's `<=` on `str`)
  // ---------------------------------------------------------------------

  predicate StrLe(a: string, b: string) {
    |a| == 0 || (|b| > 0 && (a[0] < b[0] || (a[0] == b[0] && StrLe(a[1..], b[1..]))))
  }

  lemma {:induction false} StrLeTotal(a: string, b: string)
    ensures StrLe(a, b) || StrLe(b, a)
  {
    if |a| > 0 && |b| > 0 && a[0] == b[0] {
      StrLeTotal(a[1..], b[1..]);
    }
  }

  lemma {:induction false} StrLeTransitive(a: string, b: string, c: string)
    requires StrLe(a, b) && StrLe(b, c)
    ensures StrLe(a, c)
  {
    if |a| > 0 && a[0] == b[0] && b[0] == c[0] {
      StrLeTransitive(a[1..], b[1..], c[1..]);
    }
  }

  // ---------------------------------------------------------------------
  // Substring search
  // ---------------------------------------------------------------------

  predicate OccursAt(s: string, pat: string, i: int) {
    0 <= i && i + |pat| <= |s| && s[i..i + |pat|] == pat
  }

  predicate Contains(s: string, pat: string) {
    exists i :: 0 <= i <= |s| && OccursAt(s, pat, i)
  }

  /** The first position at or after `from` where `pat` occurs in `s`. */
  function FindFrom(s: string, pat: string, from: nat): (r: Option<nat>)
    ensures r.Some? ==> from <= r.value && OccursAt(s, pat, r.value)
    ensures r.Some? ==> forall j :: from <= j < r.value ==> !OccursAt(s, pat, j)
    ensures r.None? ==> forall j :: from <= j ==> !OccursAt(s, pat, j)
    decreases |s| - from
  {
    if from + |pat| > |s| then None
    else if s[from..from + |pat|] == pat then Some(from)
    else FindFrom(s, pat, from + 1)
  }
}
