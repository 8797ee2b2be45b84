/** The JavaScript string operations the handlers use: `trim`, case mapping,
    `includes`, `split` on one character, replace-all of a literal pattern,
    `slice`, and the "first letter of each word" initials. */
module Text {
  import opened Js

  /** ECMAScript LineTerminator: what `.` in a regular expression does not match. */
  predicate IsLineTerminator(c: char)
  {
    c == '\n' || c == '\r' || c == '\U{2028}' || c == '\U{2029}'
  }

  /** ECMAScript WhiteSpace or LineTerminator: what `trim` removes. */
  predicate IsWhitespace(c: char)
  {
    || c == '\t' || c == '\U{B}' || c == '\U{C}' || c == ' ' || c == '\U{A0}' || c == '\U{FEFF}'
    || c == '\U{1680}' || ('\U{2000}' <= c <= '\U{200A}') || c == '\U{202F}' || c == '\U{205F}'
    || c == '\U{3000}' || IsLineTerminator(c)
  }

  predicate AllWhitespace(s: string)
  {
    forall i :: 0 <= i < |s| ==> IsWhitespace(s[i])
  }

  /** The length of the leading white space of `s`. */
  function LeadingSpace(s: string): (n: nat)
    ensures n <= |s|
    ensures forall k :: 0 <= k < n ==> IsWhitespace(s[k])
    ensures n < |s| ==> !IsWhitespace(s[n])
  {
    if s == [] || !IsWhitespace(s[0]) then 0 else 1 + LeadingSpace(s[1..])
  }

  /** Where the trailing white space of `s` begins, looking no further left than `lo`. */
  function TrailingStart(s: string, lo: nat): (m: nat)
    requires lo <= |s|
    ensures lo <= m <= |s|
    ensures forall k :: m <= k < |s| ==> IsWhitespace(s[k])
    ensures lo < m ==> !IsWhitespace(s[m - 1])
  {
    if |s| == lo || !IsWhitespace(s[|s| - 1]) then |s|
    else
      var m := TrailingStart(s[..|s| - 1], lo);
      assert forall k :: m <= k < |s| - 1 ==> s[k] == s[..|s| - 1][k];
      m
  }

  /** `s.trim()`: the part of `s` between its leading and trailing white space. */
  function Trim(s: string): (r: string)
    ensures |r| <= |s|
    ensures r != [] ==> !IsWhitespace(r[0]) && !IsWhitespace(r[|r| - 1])
  {
    s[LeadingSpace(s)..TrailingStart(s, LeadingSpace(s))]
  }

  /** The trimmed text occurs in the original, right after its leading white space. */
  lemma TrimOccurs(s: string)
    ensures OccursAt(s, Trim(s), LeadingSpace(s))
    ensures Includes(s, Trim(s))
  {
    assert OccursAt(s, Trim(s), LeadingSpace(s));
  }

  /** Trimming leaves nothing exactly when the text is all white space. */
  lemma TrimEmptyIff(s: string)
    ensures Trim(s) == [] <==> AllWhitespace(s)
  {
    var i := LeadingSpace(s);
    var j := TrailingStart(s, i);
    if i == j {
      assert forall k :: 0 <= k < |s| ==> IsWhitespace(s[k]);
    } else {
      assert !IsWhitespace(s[i]);
    }
  }

  /** Trimming twice is trimming once. */
  lemma TrimIdempotent(s: string)
    ensures Trim(Trim(s)) == Trim(s)
  {
    var r := Trim(s);
    if r != [] {
      assert LeadingSpace(r) == 0;
      assert TrailingStart(r, 0) == |r|;
    }
  }

  /** `toLowerCase` on one character: ASCII and Latin-1 capitals. */
  function LowerChar(c: char): char
  {
    if 'A' <= c <= 'Z' || ('\U{C0}' <= c <= '\U{DE}' && c != '\U{D7}') then (c as int + 32) as char else c
  }

  /** The first character of `toUpperCase` on one character: ASCII and
      Latin-1 small letters, with `ÿ` and the micro sign going outside Latin-1
      and `ß` opening its two-letter `SS`. */
  function UpperChar(c: char): char
  {
    if 'a' <= c <= 'z' || ('\U{E0}' <= c <= '\U{FE}' && c != '\U{F7}') then (c as int - 32) as char
    else if c == '\U{FF}' then '\U{178}'
    else if c == '\U{B5}' then '\U{39C}'
    else if c == '\U{DF}' then 'S'
    else c
  }

  /** `toUpperCase` on one character: `ß` becomes `SS`, every other
      character one character. */
  function UpperOf(c: char): (r: string)
    ensures 1 <= |r| <= 2 && r[0] == UpperChar(c)
    ensures c != '\U{DF}' ==> r == [UpperChar(c)]
  {
    if c == '\U{DF}' then "SS" else [UpperChar(c)]
  }

  function ToLower(s: string): (r: string)
    ensures |r| == |s| && forall i :: 0 <= i < |s| ==> r[i] == LowerChar(s[i])
  {
    if s == [] then [] else [LowerChar(s[0])] + ToLower(s[1..])
  }

  /** `s.toUpperCase()`: character by character, so that only `ß` lengthens
      the text. */
  function ToUpper(s: string): (r: string)
    ensures |s| <= |r| <= 2 * |s|
    ensures s != [] ==> r[0] == UpperChar(s[0])
    ensures '\U{DF}' !in s ==> |r| == |s| && forall i :: 0 <= i < |s| ==> r[i] == UpperChar(s[i])
  {
    if s == [] then []
    else
      var rest := ToUpper(s[1..]);
      assert '\U{DF}' !in s ==> '\U{DF}' !in s[1..];
      UpperOf(s[0]) + rest
  }

  /** `sub` occurs in `s` starting at index `i`. */
  predicate OccursAt(s: string, sub: string, i: int)
  {
    0 <= i <= |s| - |sub| && s[i..i + |sub|] == sub
  }

  /** `s.includes(sub)`. */
  predicate Includes(s: string, sub: string)
  {
    exists i | 0 <= i <= |s| - |sub| :: OccursAt(s, sub, i)
  }

  /** `s.startsWith(p)`. */
  predicate StartsWith(s: string, p: string)
  {
    |p| <= |s| && s[..|p|] == p
  }

  /** `s.endsWith(p)`. */
  predicate EndsWith(s: string, p: string)
  {
    |p| <= |s| && s[|s| - |p|..] == p
  }

  /** An occurrence in the tail is an occurrence in the whole. */
  lemma IncludesTail(s: string, sub: string)
    requires s != [] && Includes(s[1..], sub)
    ensures Includes(s, sub)
  {
    var i :| 0 <= i <= |s| - 1 - |sub| && OccursAt(s[1..], sub, i);
    assert s[i + 1..i + 1 + |sub|] == s[1..][i..i + |sub|];
    assert OccursAt(s, sub, i + 1);
  }

  /** Every string includes the empty string. */
  lemma IncludesEmpty(s: string)
    ensures Includes(s, "")
  {
    assert OccursAt(s, "", 0);
  }

  /** Lower-casing the haystack and the needle keeps a match. */
  lemma IncludesToLower(s: string, sub: string)
    requires Includes(s, sub)
    ensures Includes(ToLower(s), ToLower(sub))
  {
    var i :| 0 <= i <= |s| - |sub| && OccursAt(s, sub, i);
    assert ToLower(s)[i..i + |sub|] == ToLower(sub);
    assert OccursAt(ToLower(s), ToLower(sub), i);
  }

  /** `s.split(sep)` for a one-character separator. */
  function Split(s: string, sep: char): (r: seq<string>)
    ensures |r| >= 1
    ensures forall k :: 0 <= k < |r| ==> sep !in r[k]
    ensures |r[0]| <= |s| && r[0] == s[..|r[0]|]
  {
    if s == [] then [""]
    else
      var rest := Split(s[1..], sep);
      if s[0] == sep then [""] + rest else [[s[0]] + rest[0]] + rest[1..]
  }

  /** `parts.join(sep)`. */
  function Join(parts: seq<string>, sep: char): string
  {
    if parts == [] then ""
    else if |parts| == 1 then parts[0]
    else parts[0] + [sep] + Join(parts[1..], sep)
  }

  /** Splitting and joining back gives the original string. */
  lemma {:induction false} JoinSplit(s: string, sep: char)
    ensures Join(Split(s, sep), sep) == s
  {
    if s != [] {
      var rest := Split(s[1..], sep);
      JoinSplit(s[1..], sep);
      if s[0] != sep && |rest| > 1 {
        assert ([[s[0]] + rest[0]] + rest[1..])[1..] == rest[1..];
      }
    }
  }

  /** `s.replace(/pat/g, rep)` for a literal, non-empty pattern: occurrences are
      found left to right and never overlap. */
  function ReplaceAll(s: string, pat: string, rep: string): string
    requires pat != []
    decreases |s|
  {
    if |s| < |pat| then s
    else if s[..|pat|] == pat then rep + ReplaceAll(s[|pat|..], pat, rep)
    else [s[0]] + ReplaceAll(s[1..], pat, rep)
  }

  /** Replacing never brings in a character that was in neither the text nor the replacement. */
  lemma {:induction false} ReplaceAllChars(s: string, pat: string, rep: string, c: char)
    requires pat != []
    requires c !in s && c !in rep
    ensures c !in ReplaceAll(s, pat, rep)
    decreases |s|
  {
    if |s| >= |pat| {
      if s[..|pat|] == pat {
        assert forall k :: 0 <= k < |s| - |pat| ==> s[|pat|..][k] == s[k + |pat|];
        ReplaceAllChars(s[|pat|..], pat, rep, c);
      } else {
        assert forall k :: 0 <= k < |s| - 1 ==> s[1..][k] == s[k + 1];
        ReplaceAllChars(s[1..], pat, rep, c);
      }
    }
  }

  /** Replacing every occurrence of a one-character pattern leaves none behind,
      when the replacement does not contain it. */
  lemma {:induction false} ReplaceAllRemoves(s: string, c: char, rep: string)
    requires c !in rep
    ensures c !in ReplaceAll(s, [c], rep)
    decreases |s|
  {
    if |s| >= 1 {
      ReplaceAllRemoves(s[1..], c, rep);
    }
  }

  /** Text without an occurrence of the pattern comes through unchanged. */
  lemma {:induction false} ReplaceAllAbsent(s: string, pat: string, rep: string)
    requires pat != []
    requires !Includes(s, pat)
    ensures ReplaceAll(s, pat, rep) == s
    decreases |s|
  {
    if |s| >= |pat| {
      assert s[0..|pat|] == s[..|pat|];
      assert !OccursAt(s, pat, 0);
      if Includes(s[1..], pat) {
        IncludesTail(s, pat);
      }
      ReplaceAllAbsent(s[1..], pat, rep);
    }
  }

  /** Text that cannot start an occurrence passes through `ReplaceAll` unchanged. */
  lemma {:induction false} ReplaceAllSkip(a: string, rest: string, pat: string, rep: string)
    requires pat != [] && pat[0] !in a
    ensures ReplaceAll(a + rest, pat, rep) == a + ReplaceAll(rest, pat, rep)
    decreases |a|
  {
    if a != [] {
      var s := a + rest;
      assert s[1..] == a[1..] + rest;
      ReplaceAllSkip(a[1..], rest, pat, rep);
      if |s| >= |pat| {
        assert s[..|pat|][0] == a[0] != pat[0];
        assert ReplaceAll(s, pat, rep) == [a[0]] + (a[1..] + ReplaceAll(rest, pat, rep));
        assert [a[0]] + a[1..] == a;
      } else {
        assert ReplaceAll(rest, pat, rep) == rest;
      }
    } else {
      assert a + rest == rest;
    }
  }

  /** `s.slice(0, n)`. */
  function Take(s: string, n: nat): (r: string)
    ensures |r| == (if |s| <= n then |s| else n)
    ensures r == s[..|r|]
    ensures |s| <= n ==> r == s
  {
    if |s| <= n then s else s[..n]
  }

  /** `s.slice(-2)`: the last two characters, or all of a shorter string. */
  function LastTwo(s: string): (r: string)
    ensures |s| >= 2 ==> |r| == 2
    ensures |s| < 2 ==> r == s
    ensures r == s[|s| - |r|..]
  {
    if |s| <= 2 then s else s[|s| - 2..]
  }

  /** `words.map(w => w[0]).join('')`: `w[0]` of an empty word is `undefined`,
      which `join` prints as nothing. */
  function FirstLetters(words: seq<string>): (r: string)
    ensures |r| <= |words|
    ensures words != [] && words[0] != [] ==> r != [] && r[0] == words[0][0]
  {
    if words == [] then []
    else (if words[0] == [] then [] else [words[0][0]]) + FirstLetters(words[1..])
  }

  /** `name.split(' ').map(n => n[0]).join('').toUpperCase().slice(0, 2)`. */
  function Initials(name: string): (r: string)
    ensures |r| <= 2
    ensures name != [] && name[0] != ' ' ==> |r| >= 1 && r[0] == UpperChar(name[0])
  {
    var words := Split(name, ' ');
    assert name != [] && name[0] != ' ' ==> words[0] != [] && words[0][0] == name[0];
    Take(ToUpper(FirstLetters(words)), 2)
  }

  /** The first letters are empty exactly when every word is. */
  lemma {:induction false} FirstLettersEmpty(words: seq<string>)
    ensures FirstLetters(words) == [] <==> forall k :: 0 <= k < |words| ==> words[k] == []
  {
    if words != [] {
      FirstLettersEmpty(words[1..]);
      assert forall k :: 1 <= k < |words| ==> words[k] == words[1..][k - 1];
    }
  }

  /** A string made only of separators splits into empty pieces. */
  lemma {:induction false} SplitAllSeparators(s: string, sep: char)
    requires forall i :: 0 <= i < |s| ==> s[i] == sep
    ensures forall k :: 0 <= k < |Split(s, sep)| ==> Split(s, sep)[k] == []
  {
    if s != [] {
      SplitAllSeparators(s[1..], sep);
    }
  }

  /** Joining empty pieces gives a string made only of separators. */
  lemma {:induction false} JoinEmptyParts(parts: seq<string>, sep: char)
    requires forall k :: 0 <= k < |parts| ==> parts[k] == []
    ensures forall i :: 0 <= i < |Join(parts, sep)| ==> Join(parts, sep)[i] == sep
  {
    if |parts| > 1 {
      JoinEmptyParts(parts[1..], sep);
      assert Join(parts, sep) == [sep] + Join(parts[1..], sep);
    }
  }

  /** The initials are empty exactly when the name holds nothing but spaces
      (the empty name included): that is when the callers fall back to `'??'`. */
  lemma InitialsEmptyIff(name: string)
    ensures Initials(name) == [] <==> forall i :: 0 <= i < |name| ==> name[i] == ' '
  {
    var words := Split(name, ' ');
    FirstLettersEmpty(words);
    if forall i :: 0 <= i < |name| ==> name[i] == ' ' {
      SplitAllSeparators(name, ' ');
    } else if forall k :: 0 <= k < |words| ==> words[k] == [] {
      JoinEmptyParts(words, ' ');
      JoinSplit(name, ' ');
    }
  }

  /** `name?.split(' ').map(n => n[0]).join('').toUpperCase().slice(0, 2) || '??'`:
      the initials of the name, or `'??'` when there is no name or it yields none. */
  function InitialsOr(name: Option<string>): (r: string)
    ensures 1 <= |r| <= 2
    ensures name.None? || (forall i :: 0 <= i < |name.value| ==> name.value[i] == ' ') ==> r == "??"
    ensures name.Some? && (exists i :: 0 <= i < |name.value| && name.value[i] != ' ') ==> r == Initials(name.value)
    ensures name.Some? && name.value != [] && name.value[0] != ' ' ==> r[0] == UpperChar(name.value[0])
  {
    if name.None? then "??"
    else
      InitialsEmptyIff(name.value);
      var initials := Initials(name.value);
      if initials == "" then "??" else initials
  }
}
