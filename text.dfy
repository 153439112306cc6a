/** String operations of JavaScript's `String.prototype` that the front end
    uses, on strings as sequences of Unicode characters. */
module Text {

  /** The characters that `\s` matches and that `trim` removes:
      ECMAScript WhiteSpace and LineTerminator. */
  predicate IsSpace(c: char) {
    || c == '\t' || c == '\n' || c == '\U{000B}' || c == '\U{000C}' || c == '\r'
    || c == ' ' || c == '\U{00A0}' || c == '\U{1680}'
    || ('\U{2000}' <= c <= '\U{200A}')
    || c == '\U{2028}' || c == '\U{2029}' || c == '\U{202F}' || c == '\U{205F}'
    || c == '\U{3000}' || c == '\U{FEFF}'
  }

  predicate IsDigit(c: char) {
    '0' <= c <= '9'
  }

  predicate IsAsciiLetter(c: char) {
    ('a' <= c <= 'z') || ('A' <= c <= 'Z')
  }

  /** `trimStart`: drops the leading run of white space, nothing else. */
  function TrimStart(s: string): (r: string)
    ensures |r| <= |s| && r == s[|s| - |r|..]
    ensures r == [] || !IsSpace(r[0])
    ensures forall i :: 0 <= i < |s| - |r| ==> IsSpace(s[i])
    decreases |s|
  {
    if s != [] && IsSpace(s[0]) then TrimStart(s[1..]) else s
  }

  /** `trimEnd`: drops the trailing run of white space, nothing else. */
  function TrimEnd(s: string): (r: string)
    ensures |r| <= |s| && r == s[..|r|]
    ensures r == [] || !IsSpace(r[|r| - 1])
    ensures forall i :: |r| <= i < |s| ==> IsSpace(s[i])
    decreases |s|
  {
    if s != [] && IsSpace(s[|s| - 1]) then TrimEnd(s[..|s| - 1]) else s
  }

  /** `trim`: a contiguous part of `s` that neither starts nor ends with
      white space, obtained by dropping only white space. */
  function Trim(s: string): (r: string)
    ensures r == [] || (!IsSpace(r[0]) && !IsSpace(r[|r| - 1]))
    ensures |s| - |TrimStart(s)| + |r| <= |s|
    ensures r == s[|s| - |TrimStart(s)|..|s| - |TrimStart(s)| + |r|]
  {
    TrimEnd(TrimStart(s))
  }

  predicate StartsWith(s: string, prefix: string) {
    |prefix| <= |s| && s[..|prefix|] == prefix
  }

  /** `s.includes(sub)` */
  predicate Contains(s: string, sub: string)
    decreases |s|
  {
    StartsWith(s, sub) || (s != [] && Contains(s[1..], sub))
  }

  /** `s.split(sep)` for a one-character separator. */
  function Split(s: string, sep: char): (parts: seq<string>)
    ensures |parts| >= 1
    ensures forall i :: 0 <= i < |parts| ==> sep !in parts[i]
    decreases |s|
  {
    if s == [] then [""]
    else
      var rest := Split(s[1..], sep);
      if s[0] == sep then [""] + rest else [[s[0]] + rest[0]] + rest[1..]
  }

  /** `parts.join(sep)` */
  function Join(parts: seq<string>, sep: char): string
    decreases |parts|
  {
    if parts == [] then ""
    else if |parts| == 1 then parts[0]
    else parts[0] + [sep] + Join(parts[1..], sep)
  }

  /** `s.replace(/pat/g, rep)` for a literal pattern: non-overlapping
      occurrences, found left to right. */
  function ReplaceAll(s: string, pat: string, rep: string): string
    requires pat != []
    decreases |s|
  {
    if |s| < |pat| then s
    else if s[..|pat|] == pat then rep + ReplaceAll(s[|pat|..], pat, rep)
    else [s[0]] + ReplaceAll(s[1..], pat, rep)
  }

  /** `s.replace(/[...]/g, "")`: every character of the class removed. */
  function RemoveChars(s: string, cs: set<char>): (r: string)
    ensures forall i :: 0 <= i < |r| ==> r[i] !in cs
    ensures forall i :: 0 <= i < |r| ==> r[i] in s
    decreases |s|
  {
    if s == [] then ""
    else if s[0] in cs then RemoveChars(s[1..], cs)
    else [s[0]] + RemoveChars(s[1..], cs)
  }

  predicate NoAsciiLower(s: string) {
    forall i :: 0 <= i < |s| ==> !('a' <= s[i] <= 'z')
  }

  predicate NoAsciiUpper(s: string) {
    forall i :: 0 <= i < |s| ==> !('A' <= s[i] <= 'Z')
  }

  /** What `toUpperCase` makes of one character, for every character whose
      upper case is or contains an ASCII letter: the ASCII letters, the
      dotless i, the long s, the sharp s, the Latin ligatures, and the
      letters whose upper case is an ASCII letter with a mark. Any other
      character is kept. */
  function UpperChar(c: char): (r: string)
    ensures 1 <= |r| <= 3
  {
    if 'a' <= c <= 'z' then [(c as int - 32) as char]
    else if c == '\U{0131}' then "I"
    else if c == '\U{017F}' then "S"
    else if c == '\U{00DF}' then "SS"
    else if c == '\U{FB00}' then "FF"
    else if c == '\U{FB01}' then "FI"
    else if c == '\U{FB02}' then "FL"
    else if c == '\U{FB03}' then "FFI"
    else if c == '\U{FB04}' then "FFL"
    else if c == '\U{FB05}' || c == '\U{FB06}' then "ST"
    else if c == '\U{0149}' then "\U{02BC}N"
    else if c == '\U{01F0}' then "J\U{030C}"
    else if c == '\U{1E96}' then "H\U{0331}"
    else if c == '\U{1E97}' then "T\U{0308}"
    else if c == '\U{1E98}' then "W\U{030A}"
    else if c == '\U{1E99}' then "Y\U{030A}"
    else if c == '\U{1E9A}' then "A\U{02BE}"
    else [c]
  }

  /** What `toLowerCase` makes of one character, for every character whose
      lower case is or contains an ASCII letter: the ASCII capitals, the
      Kelvin sign, and the dotted capital I (an i with a combining dot).
      Any other character is kept. */
  function LowerChar(c: char): (r: string)
    ensures 1 <= |r| <= 2
  {
    if 'A' <= c <= 'Z' then [(c as int + 32) as char]
    else if c == '\U{212A}' then "k"
    else if c == '\U{0130}' then "i\U{0307}"
    else [c]
  }

  /** `toUpperCase`: each character replaced by its upper case. No ASCII
      small letter is left, and the text never gets shorter. */
  function UpperCase(s: string): (r: string)
    ensures NoAsciiLower(r) && |r| >= |s|
    decreases |s|
  {
    if s == [] then "" else UpperChar(s[0]) + UpperCase(s[1..])
  }

  /** `toLowerCase`: each character replaced by its lower case. No ASCII
      capital is left, and the text never gets shorter. */
  function LowerCase(s: string): (r: string)
    ensures NoAsciiUpper(r) && |r| >= |s|
    decreases |s|
  {
    if s == [] then "" else LowerChar(s[0]) + LowerCase(s[1..])
  }

  /** Case mapping works character by character. */
  lemma {:induction false} UpperCaseAppend(a: string, b: string)
    ensures UpperCase(a + b) == UpperCase(a) + UpperCase(b)
    decreases |a|
  {
    if a != [] {
      assert (a + b)[0] == a[0] && (a + b)[1..] == a[1..] + b;
      UpperCaseAppend(a[1..], b);
      calc {
        UpperCase(a + b);
        UpperChar(a[0]) + UpperCase(a[1..] + b);
        UpperChar(a[0]) + (UpperCase(a[1..]) + UpperCase(b));
        (UpperChar(a[0]) + UpperCase(a[1..])) + UpperCase(b);
      }
    } else {
      assert a + b == b;
    }
  }

  lemma {:induction false} LowerCaseAppend(a: string, b: string)
    ensures LowerCase(a + b) == LowerCase(a) + LowerCase(b)
    decreases |a|
  {
    if a != [] {
      assert (a + b)[0] == a[0] && (a + b)[1..] == a[1..] + b;
      LowerCaseAppend(a[1..], b);
      calc {
        LowerCase(a + b);
        LowerChar(a[0]) + LowerCase(a[1..] + b);
        LowerChar(a[0]) + (LowerCase(a[1..]) + LowerCase(b));
        (LowerChar(a[0]) + LowerCase(a[1..])) + LowerCase(b);
      }
    } else {
      assert a + b == b;
    }
  }

  /** Upper-casing an upper-cased text changes nothing. */
  lemma {:induction false} UpperCaseIdempotent(s: string)
    ensures UpperCase(UpperCase(s)) == UpperCase(s)
    decreases |s|
  {
    if s != [] {
      var u := UpperChar(s[0]);
      assert UpperCase(u) == u by {
        forall i | 0 <= i < |u| ensures UpperChar(u[i]) == [u[i]] {}
        UpperCaseOfFixed(u);
      }
      UpperCaseAppend(u, UpperCase(s[1..]));
      UpperCaseIdempotent(s[1..]);
    }
  }

  lemma {:induction false} UpperCaseOfFixed(s: string)
    requires forall i :: 0 <= i < |s| ==> UpperChar(s[i]) == [s[i]]
    ensures UpperCase(s) == s
    decreases |s|
  {
    if s != [] {
      UpperCaseOfFixed(s[1..]);
    }
  }

  /** On ASCII text both mappings keep the length and change only the
      letters' case. */
  lemma {:induction false} CaseOfAscii(s: string)
    requires forall i :: 0 <= i < |s| ==> s[i] < '\U{0080}'
    ensures |UpperCase(s)| == |s| && |LowerCase(s)| == |s|
    ensures forall i :: 0 <= i < |s| ==> UpperCase(s)[i] == UpperChar(s[i])[0] && LowerCase(s)[i] == LowerChar(s[i])[0]
    decreases |s|
  {
    if s != [] {
      CaseOfAscii(s[1..]);
    }
  }

  predicate NoSpace(s: string) {
    forall i :: 0 <= i < |s| ==> !IsSpace(s[i])
  }

  /** The length of the run of white space that `s` starts with. */
  function SpaceRun(s: string): (n: nat)
    ensures n <= |s|
    ensures forall i :: 0 <= i < n ==> IsSpace(s[i])
    ensures n < |s| ==> !IsSpace(s[n])
    decreases |s|
  {
    if s != [] && IsSpace(s[0]) then 1 + SpaceRun(s[1..]) else 0
  }

  /** `s.replace(/\s{minLen,}/g, rep)` (for `minLen` 1 this is `/\s+/g`):
      every maximal run of at least `minLen` white-space characters is
      replaced by `rep`; shorter runs are kept. */
  function ReplaceSpaceRuns(s: string, minLen: nat, rep: string): (r: string)
    ensures s != [] && rep != [] ==> r != []
    ensures forall i :: 0 <= i < |r| ==> r[i] in s || r[i] in rep
    decreases |s|
  {
    if s == [] then []
    else if IsSpace(s[0]) then
      var n := SpaceRun(s);
      (if n >= minLen then rep else s[..n]) + ReplaceSpaceRuns(s[n..], minLen, rep)
    else [s[0]] + ReplaceSpaceRuns(s[1..], minLen, rep)
  }

  predicate IsWordChar(c: char) {
    IsAsciiLetter(c) || IsDigit(c) || c == '_'
  }

  /** `s.replace(/[^a-zA-Z0-9_]/g, "")`: only ASCII letters, digits and `_`
      are kept, in order. */
  function KeepWordChars(s: string): (r: string)
    ensures forall i :: 0 <= i < |r| ==> IsWordChar(r[i])
    ensures |r| <= |s|
    decreases |s|
  {
    if s == [] then ""
    else if IsWordChar(s[0]) then [s[0]] + KeepWordChars(s[1..])
    else KeepWordChars(s[1..])
  }

  // ---- properties ----

  lemma {:induction false} TrimStartOfTrimmed(s: string)
    requires s == [] || !IsSpace(s[0])
    ensures TrimStart(s) == s
  {
  }

  lemma {:induction false} TrimEndOfTrimmed(s: string)
    requires s == [] || !IsSpace(s[|s| - 1])
    ensures TrimEnd(s) == s
  {
  }

  /** Trimming twice trims nothing more. */
  lemma TrimIdempotent(s: string)
    ensures Trim(Trim(s)) == Trim(s)
  {
    var t := Trim(s);
    TrimStartOfTrimmed(t);
    TrimEndOfTrimmed(t);
  }

  /** Trimming only removes characters: a class absent from `s` stays
      absent. */
  lemma TrimAvoids(s: string, cs: set<char>)
    requires forall i :: 0 <= i < |s| ==> s[i] !in cs
    ensures forall i :: 0 <= i < |Trim(s)| ==> Trim(s)[i] !in cs
  {
    var r := Trim(s);
    var off := |s| - |TrimStart(s)|;
    forall i | 0 <= i < |r|
      ensures r[i] !in cs
    {
      assert r[i] == s[off + i];
    }
  }

  /** Splitting and re-joining on the same separator gives the string back. */
  lemma {:induction false} JoinSplit(s: string, sep: char)
    ensures Join(Split(s, sep), sep) == s
    decreases |s|
  {
    if s != [] {
      JoinSplit(s[1..], sep);
      var rest := Split(s[1..], sep);
      if s[0] == sep {
        assert Split(s, sep) == [""] + rest;
      } else {
        var parts := Split(s, sep);
        assert parts == [[s[0]] + rest[0]] + rest[1..];
        if |rest| == 1 {
          assert Join(parts, sep) == [s[0]] + rest[0];
        } else {
          assert parts[1..] == rest[1..];
          assert Join(parts, sep) == [s[0]] + rest[0] + [sep] + Join(rest[1..], sep);
        }
      }
    }
  }

  /** The pieces of `s.split(sep)` are the maximal separator-free runs: the
      first piece is everything before the first separator. */
  lemma {:induction false} SplitFirst(s: string, sep: char, i: nat)
    requires i <= |s| && sep !in s[..i] && (i == |s| || s[i] == sep)
    ensures Split(s, sep)[0] == s[..i]
    ensures i < |s| ==> Split(s, sep)[1..] == Split(s[i + 1..], sep)
    ensures i == |s| ==> |Split(s, sep)| == 1
    decreases i
  {
    if i > 0 {
      assert s[1..][..i - 1] == s[1..i];
      assert s[1..][i - 1..] == s[i..];
      SplitFirst(s[1..], sep, i - 1);
      if i < |s| { assert s[1..][i..] == s[i + 1..]; }
    }
  }

  /** With every run replaced by a text free of white space, no white
      space is left. */
  lemma {:induction false} ReplaceSpaceRunsNoSpace(s: string, rep: string)
    requires NoSpace(rep)
    ensures NoSpace(ReplaceSpaceRuns(s, 1, rep))
    decreases |s|
  {
    if s != [] {
      if IsSpace(s[0]) {
        ReplaceSpaceRunsNoSpace(s[SpaceRun(s)..], rep);
      } else {
        ReplaceSpaceRunsNoSpace(s[1..], rep);
      }
    }
  }

  /** A text without white space is left as it is. */
  lemma {:induction false} ReplaceSpaceRunsNoop(s: string, minLen: nat, rep: string)
    requires NoSpace(s)
    ensures ReplaceSpaceRuns(s, minLen, rep) == s
    decreases |s|
  {
    if s != [] {
      ReplaceSpaceRunsNoop(s[1..], minLen, rep);
    }
  }

  /** A run `w` of white space between a word `x` and a text `y` that does
      not start with white space becomes exactly one `rep`. */
  lemma {:induction false} ReplaceSpaceRunsBetween(x: string, w: string, y: string, minLen: nat, rep: string)
    requires NoSpace(x) && w != [] && |w| >= minLen
    requires forall i :: 0 <= i < |w| ==> IsSpace(w[i])
    requires y == [] || !IsSpace(y[0])
    ensures ReplaceSpaceRuns(x + w + y, minLen, rep) == x + rep + ReplaceSpaceRuns(y, minLen, rep)
    decreases |x|
  {
    var s := x + w + y;
    if x == [] {
      assert s == w + y;
      ReplaceLeadingRun(w, y, minLen, rep);
    } else {
      assert s[0] == x[0] && !IsSpace(s[0]);
      assert s[1..] == x[1..] + w + y;
      ReplaceSpaceRunsBetween(x[1..], w, y, minLen, rep);
      assert ReplaceSpaceRuns(s, minLen, rep) == [x[0]] + ReplaceSpaceRuns(s[1..], minLen, rep);
      assert x == [x[0]] + x[1..];
    }
  }

  /** A leading run `w` of white space, followed by a text that does not
      start with white space, becomes one `rep`. */
  lemma ReplaceLeadingRun(w: string, y: string, minLen: nat, rep: string)
    requires w != [] && |w| >= minLen
    requires forall i :: 0 <= i < |w| ==> IsSpace(w[i])
    requires y == [] || !IsSpace(y[0])
    ensures ReplaceSpaceRuns(w + y, minLen, rep) == rep + ReplaceSpaceRuns(y, minLen, rep)
  {
    var s := w + y;
    SpaceRunOf(w, y);
    assert s[|w|..] == y;
    assert IsSpace(s[0]);
  }

  lemma {:induction false} SpaceRunOf(w: string, y: string)
    requires forall i :: 0 <= i < |w| ==> IsSpace(w[i])
    requires y == [] || !IsSpace(y[0])
    ensures SpaceRun(w + y) == |w|
    decreases |w|
  {
    if w != [] {
      assert (w + y)[1..] == w[1..] + y;
      SpaceRunOf(w[1..], y);
    }
  }

  /** Keeping the word characters a second time keeps everything. */
  lemma {:induction false} KeepWordCharsIdempotent(s: string)
    ensures KeepWordChars(KeepWordChars(s)) == KeepWordChars(s)
    decreases |s|
  {
    if s != [] {
      KeepWordCharsIdempotent(s[1..]);
    }
  }

  lemma {:induction false} KeepWordCharsAppend(a: string, b: string)
    ensures KeepWordChars(a + b) == KeepWordChars(a) + KeepWordChars(b)
    decreases |a|
  {
    if a == [] {
      assert a + b == b;
    } else {
      assert (a + b)[1..] == a[1..] + b;
      KeepWordCharsAppend(a[1..], b);
    }
  }

  /** A text made only of word characters is kept whole. */
  lemma {:induction false} KeepWordCharsOfWords(s: string)
    requires forall i :: 0 <= i < |s| ==> IsWordChar(s[i])
    ensures KeepWordChars(s) == s
    decreases |s|
  {
    if s != [] {
      KeepWordCharsOfWords(s[1..]);
    }
  }
}
