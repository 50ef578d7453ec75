/**
 * `slugify`: lower-case, decompose accented letters and drop the combining
 * diacritical marks, trim, turn each whitespace run into a hyphen, drop
 * everything that is not a word character or a hyphen, and squeeze hyphen
 * runs. Each `replace(/.../g, ...)` is a function over the string.
 */
module Slug {

  /** JavaScript's `\s` and the characters `trim` removes. */
  predicate IsSpace(c: char)
    // whitespace is never kept by the word-character filter
    ensures IsSpace(c) ==> !IsWordChar(c) && c != '-' && !IsMark(c)
  {
    c == ' ' || c == '\t' || c == '\n' || c == '\r' || c == '\U{000B}' || c == '\U{000C}' ||
    c == '\U{00A0}' || c == '\U{1680}' || ('\U{2000}' <= c <= '\U{200A}') ||
    c == '\U{2028}' || c == '\U{2029}' || c == '\U{202F}' || c == '\U{205F}' ||
    c == '\U{3000}' || c == '\U{FEFF}'
  }

  predicate IsUpper(c: char) { 'A' <= c <= 'Z' }

  /** The combining diacritical marks `[̀-ͯ]`. */
  predicate IsMark(c: char)
    ensures IsMark(c) ==> !IsWordChar(c) && c != '-'
  {
    '\U{0300}' <= c <= '\U{036F}'
  }

  /** JavaScript's `\w`: `[A-Za-z0-9_]`. */
  predicate IsWordChar(c: char)
    // a word character lowers to a slug character
    ensures IsWordChar(c) ==> IsSlugChar(ToLower(c))
    ensures IsWordChar(c) ==> c as int < 128
  {
    ('a' <= c <= 'z') || ('A' <= c <= 'Z') || ('0' <= c <= '9') || c == '_'
  }

  /** What a slug is made of: `[a-z0-9_-]`. */
  predicate IsSlugChar(c: char)
  {
    ('a' <= c <= 'z') || ('0' <= c <= '9') || c == '_' || c == '-'
  }

  predicate NoDoubleHyphen(s: seq<char>)
  {
    forall i | 0 <= i < |s| - 1 :: !(s[i] == '-' && s[i + 1] == '-')
  }

  /** An upper-case Latin-1 letter with a lower-case partner 32 code points up. */
  predicate IsLatin1Upper(c: char)
  {
    '\U{00C0}' <= c <= '\U{00DE}' && c != '\U{00D7}'
  }

  predicate NoUpper(s: seq<char>)
  {
    forall i | 0 <= i < |s| :: !IsUpper(s[i])
  }

  /** `toLowerCase` on ASCII and Latin-1 letters. */
  function ToLower(c: char): (r: char)
    ensures !IsUpper(r) && !IsLatin1Upper(r)
  {
    if IsUpper(c) || IsLatin1Upper(c) then (c as int + 32) as char else c
  }

  /** The lower-case Latin-1 letters with a canonical decomposition: `à` to
      `ÿ` except `æ`, `ð`, `÷`, `ø` and `þ`. */
  predicate HasDecomposition(c: char)
  {
    '\U{00E0}' <= c <= '\U{00FF}' &&
    c != '\U{00E6}' && c != '\U{00F0}' && c != '\U{00F7}' && c != '\U{00F8}' && c != '\U{00FE}'
  }

  /** The canonical decomposition of the lower-case Latin-1 letters that have one:
      the base letter followed by its combining mark. */
  function Decompose(c: char): (r: seq<char>)
    ensures HasDecomposition(c) ==> |r| == 2 && 'a' <= r[0] <= 'z' && IsMark(r[1])
    ensures !HasDecomposition(c) ==> r == [c]
    // the base letters: à-å, ç, è-ë, ì-ï, ñ, ò-ö, ù-ü, ý and ÿ
    ensures '\U{00E0}' <= c <= '\U{00E5}' ==> r[0] == 'a'
    ensures c == '\U{00E7}' ==> r[0] == 'c'
    ensures '\U{00E8}' <= c <= '\U{00EB}' ==> r[0] == 'e'
    ensures '\U{00EC}' <= c <= '\U{00EF}' ==> r[0] == 'i'
    ensures c == '\U{00F1}' ==> r[0] == 'n'
    ensures '\U{00F2}' <= c <= '\U{00F6}' ==> r[0] == 'o'
    ensures '\U{00F9}' <= c <= '\U{00FC}' ==> r[0] == 'u'
    ensures c == '\U{00FD}' || c == '\U{00FF}' ==> r[0] == 'y'
    // the marks: grave, acute, circumflex, tilde, diaeresis, ring and cedilla
    ensures c in {'\U{00E0}', '\U{00E8}', '\U{00EC}', '\U{00F2}', '\U{00F9}'} ==> r[1] == '\U{0300}'
    ensures c in {'\U{00E1}', '\U{00E9}', '\U{00ED}', '\U{00F3}', '\U{00FA}', '\U{00FD}'} ==> r[1] == '\U{0301}'
    ensures c in {'\U{00E2}', '\U{00EA}', '\U{00EE}', '\U{00F4}', '\U{00FB}'} ==> r[1] == '\U{0302}'
    ensures c in {'\U{00E3}', '\U{00F1}', '\U{00F5}'} ==> r[1] == '\U{0303}'
    ensures c in {'\U{00E4}', '\U{00EB}', '\U{00EF}', '\U{00F6}', '\U{00FC}', '\U{00FF}'} ==> r[1] == '\U{0308}'
    ensures c == '\U{00E5}' ==> r[1] == '\U{030A}'
    ensures c == '\U{00E7}' ==> r[1] == '\U{0327}'
  {
    match c
    case '\U{00E0}' => ['a', '\U{0300}']
    case '\U{00E1}' => ['a', '\U{0301}']
    case '\U{00E2}' => ['a', '\U{0302}']
    case '\U{00E3}' => ['a', '\U{0303}']
    case '\U{00E4}' => ['a', '\U{0308}']
    case '\U{00E5}' => ['a', '\U{030A}']
    case '\U{00E7}' => ['c', '\U{0327}']
    case '\U{00E8}' => ['e', '\U{0300}']
    case '\U{00E9}' => ['e', '\U{0301}']
    case '\U{00EA}' => ['e', '\U{0302}']
    case '\U{00EB}' => ['e', '\U{0308}']
    case '\U{00EC}' => ['i', '\U{0300}']
    case '\U{00ED}' => ['i', '\U{0301}']
    case '\U{00EE}' => ['i', '\U{0302}']
    case '\U{00EF}' => ['i', '\U{0308}']
    case '\U{00F1}' => ['n', '\U{0303}']
    case '\U{00F2}' => ['o', '\U{0300}']
    case '\U{00F3}' => ['o', '\U{0301}']
    case '\U{00F4}' => ['o', '\U{0302}']
    case '\U{00F5}' => ['o', '\U{0303}']
    case '\U{00F6}' => ['o', '\U{0308}']
    case '\U{00F9}' => ['u', '\U{0300}']
    case '\U{00FA}' => ['u', '\U{0301}']
    case '\U{00FB}' => ['u', '\U{0302}']
    case '\U{00FC}' => ['u', '\U{0308}']
    case '\U{00FD}' => ['y', '\U{0301}']
    case '\U{00FF}' => ['y', '\U{0308}']
    case _ => [c]
  }

  // ---------------------------------------------------------------------------
  // The stages
  // ---------------------------------------------------------------------------

  /** `toLowerCase()` on ASCII and Latin-1 letters. */
  function Lowercase(s: seq<char>): (r: seq<char>)
    ensures |r| == |s|
    ensures forall i | 0 <= i < |s| :: r[i] == ToLower(s[i]) && !IsUpper(r[i])
  {
    if s == [] then [] else [ToLower(s[0])] + Lowercase(s[1..])
  }

  /** `normalize('NFD')` on the Latin-1 letters; other characters are kept as they are. */
  function Nfd(s: seq<char>): (r: seq<char>)
    ensures forall i | 0 <= i < |r| :: r[i] in s || ('a' <= r[i] <= 'z') || IsMark(r[i])
  {
    if s == [] then [] else Decompose(s[0]) + Nfd(s[1..])
  }

  /** `replace(/[\u0300-\u036f]/g, '')`. */
  function StripMarks(s: seq<char>): (r: seq<char>)
    ensures forall i | 0 <= i < |r| :: r[i] in s && !IsMark(r[i])
  {
    if s == [] then []
    else if IsMark(s[0]) then StripMarks(s[1..])
    else [s[0]] + StripMarks(s[1..])
  }

  function TrimStart(s: seq<char>): (r: seq<char>)
    ensures |r| <= |s| && r == s[|s| - |r|..]
    ensures r == [] || !IsSpace(r[0])
  {
    if s != [] && IsSpace(s[0]) then TrimStart(s[1..]) else s
  }

  function TrimEnd(s: seq<char>): (r: seq<char>)
    ensures |r| <= |s| && r == s[..|r|]
    ensures r == [] || !IsSpace(r[|r| - 1])
  {
    if s != [] && IsSpace(s[|s| - 1]) then TrimEnd(s[..|s| - 1]) else s
  }

  /** `trim()`. */
  function Trim(s: seq<char>): (r: seq<char>)
    ensures |r| <= |s|
    ensures r == [] || (!IsSpace(r[0]) && !IsSpace(r[|r| - 1]))
    ensures (forall i | 0 <= i < |s| :: IsSpace(s[i])) ==> r == []
  {
    TrimEnd(TrimStart(s))
  }

  /** `replace(/\s+/g, '-')`; `inRun` says the previous character was whitespace. */
  function SpacesToHyphens(s: seq<char>, inRun: bool): (r: seq<char>)
    ensures forall i | 0 <= i < |r| :: (r[i] == '-' || r[i] in s) && !IsSpace(r[i])
  {
    if s == [] then []
    else if IsSpace(s[0]) then (if inRun then [] else ['-']) + SpacesToHyphens(s[1..], true)
    else [s[0]] + SpacesToHyphens(s[1..], false)
  }

  /** `replace(/[^\w-]+/g, '')`. */
  function KeepWordChars(s: seq<char>): (r: seq<char>)
    ensures forall i | 0 <= i < |r| :: r[i] in s && (IsWordChar(r[i]) || r[i] == '-')
  {
    if s == [] then []
    else if IsWordChar(s[0]) || s[0] == '-' then [s[0]] + KeepWordChars(s[1..])
    else KeepWordChars(s[1..])
  }

  /** `replace(/--+/g, '-')`, which is the same as squeezing every hyphen run to
      one hyphen; `afterHyphen` says the previous character was a hyphen. */
  function SqueezeHyphens(s: seq<char>, afterHyphen: bool): (r: seq<char>)
    ensures forall i | 0 <= i < |r| :: r[i] in s
    ensures afterHyphen && r != [] ==> r[0] != '-'
    ensures NoDoubleHyphen(r)
  {
    if s == [] then []
    else if s[0] == '-' then (if afterHyphen then [] else ['-']) + SqueezeHyphens(s[1..], true)
    else [s[0]] + SqueezeHyphens(s[1..], false)
  }

  function Slugify(text: seq<char>): (r: seq<char>)
    ensures forall i | 0 <= i < |r| :: IsSlugChar(r[i])
    ensures NoDoubleHyphen(r)
  {
    var lowered := Lowercase(text);
    var decomposed := Nfd(lowered);
    NoUpperKept(decomposed, lowered);
    var stripped := StripMarks(decomposed);
    NoUpperKept(stripped, decomposed);
    var trimmed := Trim(stripped);
    NoUpperKept(TrimStart(stripped), stripped);
    NoUpperKept(trimmed, TrimStart(stripped));
    var hyphenated := SpacesToHyphens(trimmed, false);
    NoUpperKept(hyphenated, trimmed);
    var kept := KeepWordChars(hyphenated);
    NoUpperKept(kept, hyphenated);
    SlugCharsKept(SqueezeHyphens(kept, false), kept);
    SqueezeHyphens(kept, false)
  }

  /** A string whose characters come from one without upper-case letters, or
      are not upper-case themselves, has no upper-case letters. */
  lemma NoUpperKept(r: seq<char>, s: seq<char>)
    requires NoUpper(s)
    requires forall i | 0 <= i < |r| :: r[i] in s || !IsUpper(r[i])
    ensures NoUpper(r)
  {
    forall i | 0 <= i < |r| ensures !IsUpper(r[i]) {
      if r[i] in s {
        var j :| 0 <= j < |s| && s[j] == r[i];
      }
    }
  }

  /** A string made of the characters of a string without upper-case letters
      whose every character is a word character or a hyphen is made of slug characters. */
  lemma SlugCharsKept(r: seq<char>, s: seq<char>)
    requires NoUpper(s)
    requires forall i | 0 <= i < |s| :: IsWordChar(s[i]) || s[i] == '-'
    requires forall i | 0 <= i < |r| :: r[i] in s
    ensures forall i | 0 <= i < |r| :: IsSlugChar(r[i])
  {
    forall i | 0 <= i < |r| ensures IsSlugChar(r[i]) {
      var j :| 0 <= j < |s| && s[j] == r[i];
    }
  }

  // ---------------------------------------------------------------------------
  // Properties
  // ---------------------------------------------------------------------------

  /** Leading and trailing whitespace contributes nothing. */
  lemma TrimSurrounding(w1: seq<char>, s: seq<char>, w2: seq<char>)
    requires forall c | c in w1 :: IsSpace(c)
    requires forall c | c in w2 :: IsSpace(c)
    requires s == [] || (!IsSpace(s[0]) && !IsSpace(s[|s| - 1]))
    ensures Trim(w1 + s + w2) == s
  {
    if s == [] {
      TrimOnlySpaces(w1, w2);
      assert w1 + s + w2 == w1 + w2;
    } else {
      TrimAroundWord(w1, s, w2);
    }
  }

  lemma TrimOnlySpaces(w1: seq<char>, w2: seq<char>)
    requires forall c | c in w1 :: IsSpace(c)
    requires forall c | c in w2 :: IsSpace(c)
    ensures Trim(w1 + w2) == []
  {
    assert w1 + w2 == (w1 + w2) + [];
    TrimStartSpaces(w1 + w2, []);
  }

  lemma TrimAroundWord(w1: seq<char>, s: seq<char>, w2: seq<char>)
    requires forall c | c in w1 :: IsSpace(c)
    requires forall c | c in w2 :: IsSpace(c)
    requires s != [] && !IsSpace(s[0]) && !IsSpace(s[|s| - 1])
    ensures Trim(w1 + s + w2) == s
  {
    assert w1 + s + w2 == w1 + (s + w2);
    TrimStartSpaces(w1, s + w2);
    assert (s + w2)[0] == s[0];
    TrimEndSpaces(s, w2);
  }

  lemma {:induction false} TrimStartSpaces(w: seq<char>, s: seq<char>)
    requires forall c | c in w :: IsSpace(c)
    requires s == [] || !IsSpace(s[0])
    ensures TrimStart(w + s) == s
  {
    if w == [] {
      assert w + s == s;
    } else {
      assert (w + s)[1..] == w[1..] + s;
      assert w[0] in w;
      TrimStartSpaces(w[1..], s);
    }
  }

  lemma {:induction false} TrimEndSpaces(s: seq<char>, w: seq<char>)
    requires forall c | c in w :: IsSpace(c)
    requires s == [] || !IsSpace(s[|s| - 1])
    ensures TrimEnd(s + w) == s
  {
    if w == [] {
      assert s + w == s;
    } else {
      var w' := w[..|w| - 1];
      assert (s + w)[..|s + w| - 1] == s + w';
      assert w[|w| - 1] in w;
      TrimEndSpaces(s, w');
    }
  }

  /** Which state a whitespace scan is in after reading `x` from state `inRun`. */
  function EndsInRun(x: seq<char>, inRun: bool): bool
  {
    if x == [] then inRun else IsSpace(x[|x| - 1])
  }

  /** The whitespace replacement works piecewise. */
  lemma {:induction false} SpacesAppend(x: seq<char>, y: seq<char>, inRun: bool)
    ensures SpacesToHyphens(x + y, inRun) == SpacesToHyphens(x, inRun) + SpacesToHyphens(y, EndsInRun(x, inRun))
  {
    if x == [] {
      assert x + y == y;
    } else {
      var x' := x[1..];
      var run := IsSpace(x[0]);
      assert (x + y)[0] == x[0];
      assert (x + y)[1..] == x' + y;
      SpacesAppend(x', y, run);
      EndsInRunTail(x, inRun);
    }
  }

  lemma EndsInRunTail(x: seq<char>, inRun: bool)
    requires x != []
    ensures EndsInRun(x[1..], IsSpace(x[0])) == EndsInRun(x, inRun)
  {
    if |x| > 1 {
      assert x[1..][|x| - 2] == x[|x| - 1];
    }
  }

  /** A run of whitespace becomes one hyphen, or nothing when it continues a run. */
  lemma {:induction false} SpaceRun(w: seq<char>, inRun: bool)
    requires w != [] && forall c | c in w :: IsSpace(c)
    ensures SpacesToHyphens(w, inRun) == if inRun then [] else ['-']
  {
    assert w[0] in w;
    if |w| > 1 {
      assert forall c | c in w[1..] :: c in w;
      SpaceRun(w[1..], true);
    } else {
      assert w[1..] == [];
    }
  }

  /** Without a leading whitespace character the scan state does not matter. */
  lemma SpacesStartWord(y: seq<char>)
    requires y == [] || !IsSpace(y[0])
    ensures SpacesToHyphens(y, true) == SpacesToHyphens(y, false)
  {
  }

  /** Each maximal whitespace run between two words becomes exactly one hyphen. */
  lemma InteriorRun(a: seq<char>, w: seq<char>, b: seq<char>)
    requires a == [] || !IsSpace(a[|a| - 1])
    requires b == [] || !IsSpace(b[0])
    requires w != [] && forall c | c in w :: IsSpace(c)
    ensures SpacesToHyphens(a + w + b, false) == SpacesToHyphens(a, false) + ['-'] + SpacesToHyphens(b, false)
  {
    SpacesAppend(a + w, b, false);
    SpacesAppend(a, w, false);
    SpaceRun(w, false);
    SpaceRun(w, true);
    assert EndsInRun(a + w, false) by {
      assert (a + w)[|a + w| - 1] == w[|w| - 1];
      assert w[|w| - 1] in w;
    }
    SpacesStartWord(b);
  }

  // Each stage leaves a slug as it is.

  lemma {:induction false} LowercaseKeeps(s: seq<char>)
    requires forall i | 0 <= i < |s| :: IsSlugChar(s[i])
    ensures Lowercase(s) == s
  {
    var r := Lowercase(s);
    assert forall i | 0 <= i < |s| :: r[i] == s[i];
  }

  lemma {:induction false} NfdKeeps(s: seq<char>)
    requires forall i | 0 <= i < |s| :: IsSlugChar(s[i])
    ensures Nfd(s) == s
  {
    if s != [] {
      NfdKeeps(s[1..]);
      DecomposeKeeps(s[0]);
      assert s == [s[0]] + s[1..];
    }
  }

  /** A slug character has no decomposition. */
  lemma DecomposeKeeps(c: char)
    requires IsSlugChar(c)
    ensures Decompose(c) == [c]
  {
  }

  lemma {:induction false} StripMarksKeeps(s: seq<char>)
    requires forall i | 0 <= i < |s| :: IsSlugChar(s[i])
    ensures StripMarks(s) == s
  {
    if s != [] {
      StripMarksKeeps(s[1..]);
      assert s == [s[0]] + s[1..];
    }
  }

  lemma {:induction false} SpacesKeep(s: seq<char>, inRun: bool)
    requires forall i | 0 <= i < |s| :: IsSlugChar(s[i])
    ensures SpacesToHyphens(s, inRun) == s
  {
    if s != [] {
      SpacesKeep(s[1..], false);
      assert s == [s[0]] + s[1..];
    }
  }

  lemma {:induction false} KeepWordCharsKeeps(s: seq<char>)
    requires forall i | 0 <= i < |s| :: IsSlugChar(s[i])
    ensures KeepWordChars(s) == s
  {
    if s != [] {
      KeepWordCharsKeeps(s[1..]);
      assert s == [s[0]] + s[1..];
    }
  }

  lemma {:induction false} SqueezeKeeps(s: seq<char>, afterHyphen: bool)
    requires NoDoubleHyphen(s)
    requires afterHyphen ==> s == [] || s[0] != '-'
    ensures SqueezeHyphens(s, afterHyphen) == s
  {
    if s != [] {
      assert NoDoubleHyphen(s[1..]) by {
        forall i | 0 <= i < |s[1..]| - 1 ensures !(s[1..][i] == '-' && s[1..][i + 1] == '-') {
          assert s[1..][i] == s[i + 1] && s[1..][i + 1] == s[i + 2];
        }
      }
      if |s| > 1 {
        assert !(s[0] == '-' && s[1] == '-');
      }
      SqueezeKeeps(s[1..], s[0] == '-');
      assert s == [s[0]] + s[1..];
    }
  }

  /** A slug is left as it is. */
  lemma SlugIsFixed(t: seq<char>)
    requires forall i | 0 <= i < |t| :: IsSlugChar(t[i])
    requires NoDoubleHyphen(t)
    ensures Slugify(t) == t
  {
    var a := Lowercase(t);
    LowercaseKeeps(t);
    var b := Nfd(a);
    NfdKeeps(t);
    var c := StripMarks(b);
    StripMarksKeeps(t);
    var d := Trim(c);
    TrimKeeps(t);
    var e := SpacesToHyphens(d, false);
    SpacesKeep(t, false);
    var f := KeepWordChars(e);
    KeepWordCharsKeeps(t);
    SqueezeKeeps(t, false);
    assert Slugify(t) == SqueezeHyphens(f, false);
  }

  lemma TrimKeeps(t: seq<char>)
    requires forall i | 0 <= i < |t| :: IsSlugChar(t[i])
    ensures Trim(t) == t
  {
    if t != [] {
      assert !IsSpace(t[0]) && !IsSpace(t[|t| - 1]);
    }
  }

  /** `slugify` is idempotent. */
  lemma SlugifyIdempotent(text: seq<char>)
    ensures Slugify(Slugify(text)) == Slugify(text)
  {
    SlugIsFixed(Slugify(text));
  }

  // ---------------------------------------------------------------------------
  // Each stage, character by character
  // ---------------------------------------------------------------------------

  /** `normalize('NFD')` decomposes each character on its own. */
  lemma {:induction false} NfdAppend(a: seq<char>, b: seq<char>)
    ensures Nfd(a + b) == Nfd(a) + Nfd(b)
  {
    if a == [] {
      assert a + b == b;
    } else {
      assert (a + b)[0] == a[0];
      assert (a + b)[1..] == a[1..] + b;
      NfdAppend(a[1..], b);
    }
  }

  lemma NfdSingle(c: char)
    ensures Nfd([c]) == Decompose(c)
  {
    assert [c][1..] == [];
  }

  /** Mark stripping drops exactly the marks, keeping the rest in order. */
  lemma {:induction false} StripMarksAppend(a: seq<char>, b: seq<char>)
    ensures StripMarks(a + b) == StripMarks(a) + StripMarks(b)
  {
    if a == [] {
      assert a + b == b;
    } else {
      assert (a + b)[0] == a[0];
      assert (a + b)[1..] == a[1..] + b;
      StripMarksAppend(a[1..], b);
    }
  }

  lemma StripMarksSingle(c: char)
    ensures StripMarks([c]) == if IsMark(c) then [] else [c]
  {
    assert [c][1..] == [];
  }

  /** A whitespace character starts a hyphen unless it continues a run; any
      other character is kept. */
  lemma SpacesSingle(c: char, inRun: bool)
    ensures SpacesToHyphens([c], inRun) == if !IsSpace(c) then [c] else if inRun then [] else ['-']
  {
    assert [c][1..] == [];
  }

  /** The filter drops exactly the characters that are neither word characters
      nor hyphens, keeping the rest in order. */
  lemma {:induction false} KeepWordCharsAppend(a: seq<char>, b: seq<char>)
    ensures KeepWordChars(a + b) == KeepWordChars(a) + KeepWordChars(b)
  {
    if a == [] {
      assert a + b == b;
    } else {
      assert (a + b)[0] == a[0];
      assert (a + b)[1..] == a[1..] + b;
      KeepWordCharsAppend(a[1..], b);
    }
  }

  lemma KeepWordCharsSingle(c: char)
    ensures KeepWordChars([c]) == if IsWordChar(c) || c == '-' then [c] else []
  {
    assert [c][1..] == [];
  }

  /** Squeezing goes character by character: a character other than a hyphen
      is kept, a hyphen is kept unless it follows one. */
  lemma SqueezeStep(c: char, y: seq<char>, afterHyphen: bool)
    ensures SqueezeHyphens([c] + y, afterHyphen) ==
      (if c != '-' then [c] else if afterHyphen then [] else ['-']) + SqueezeHyphens(y, c == '-')
  {
    assert ([c] + y)[0] == c;
    assert ([c] + y)[1..] == y;
  }

  /** A run of hyphens followed by text becomes one hyphen (none after a hyphen)
      followed by the squeezed text. */
  lemma {:induction false} HyphenRunThen(w: seq<char>, y: seq<char>, afterHyphen: bool)
    requires w != [] && forall i | 0 <= i < |w| :: w[i] == '-'
    ensures SqueezeHyphens(w + y, afterHyphen) == (if afterHyphen then [] else ['-']) + SqueezeHyphens(y, true)
  {
    var rest := w[1..] + y;
    assert SqueezeHyphens(rest, true) == SqueezeHyphens(y, true) by {
      if |w| > 1 {
        HyphenRunThen(w[1..], y, true);
      } else {
        assert rest == y;
      }
    }
    assert w + y == [w[0]] + rest;
    SqueezeStep(w[0], rest, afterHyphen);
  }

  /** Accents come off: `Café` lowers, decomposes and strips to `cafe`. */
  lemma AccentExample()
    ensures StripMarks(Nfd(Lowercase("Caf\U{00C9}"))) == "cafe"
  {
    LowercaseExample();
    NfdExample();
    StripMarksExample();
  }

  /** The whole of `slugify`: `café` becomes `cafe`. */
  lemma SlugifyExample()
    ensures Slugify("caf\U{00E9}") == "cafe"
  {
    assert "caf\U{00E9}" == "caf" + ['\U{00E9}'];
    assert "cafe" == "caf" + ['e'];
    SlugifyFoldsAccent("caf", '\U{00E9}');
  }

  /** A slug followed by an accented letter slugifies to the slug followed by
      the letter's base letter. */
  lemma SlugifyFoldsAccent(p: seq<char>, c: char)
    requires forall i | 0 <= i < |p| :: IsSlugChar(p[i])
    requires NoDoubleHyphen(p)
    requires HasDecomposition(c)
    ensures Slugify(p + [c]) == p + [Decompose(c)[0]]
  {
    var t := p + [Decompose(c)[0]];
    AccentFolds(p, c);
    LetterKeepsSlug(p, Decompose(c)[0]);
    SlugTail(t);
    assert Slugify(p + [c]) == SlugTailOf(StripMarks(Nfd(Lowercase(p + [c]))));
  }

  /** Lowering, decomposing and stripping marks turn an accented letter after a
      slug into its base letter. */
  lemma AccentFolds(p: seq<char>, c: char)
    requires forall i | 0 <= i < |p| :: IsSlugChar(p[i])
    requires HasDecomposition(c)
    ensures StripMarks(Nfd(Lowercase(p + [c]))) == p + [Decompose(c)[0]]
  {
    LowercaseAccent(p, c);
    StripDecomposed(p, c);
  }

  lemma LowercaseAccent(p: seq<char>, c: char)
    requires forall i | 0 <= i < |p| :: IsSlugChar(p[i])
    requires HasDecomposition(c)
    ensures Lowercase(p + [c]) == p + [c]
  {
    var x := p + [c];
    forall i | 0 <= i < |x| ensures ToLower(x[i]) == x[i] {
      if i < |p| {
        assert x[i] == p[i];
      }
      LowerKeeps(x[i]);
    }
    LowercaseFixed(x);
  }

  lemma LowerKeeps(c: char)
    requires IsSlugChar(c) || HasDecomposition(c)
    ensures ToLower(c) == c
  {
  }

  lemma LowercaseFixed(x: seq<char>)
    requires forall i | 0 <= i < |x| :: ToLower(x[i]) == x[i]
    ensures Lowercase(x) == x
  {
  }

  /** Decomposing an accented letter after a slug and dropping the mark leaves
      its base letter. */
  lemma StripDecomposed(p: seq<char>, c: char)
    requires forall i | 0 <= i < |p| :: IsSlugChar(p[i])
    requires HasDecomposition(c)
    ensures StripMarks(Nfd(p + [c])) == p + [Decompose(c)[0]]
  {
    var d := Decompose(c);
    NfdAfterSlug(p, c);
    SplitPair(p, d);
    LetterAfterSlug(p, d[0]);
    StripMarksAfterSlug(p + [d[0]], d[1]);
  }

  lemma LetterAfterSlug(p: seq<char>, b: char)
    requires forall i | 0 <= i < |p| :: IsSlugChar(p[i])
    requires 'a' <= b <= 'z'
    ensures forall i | 0 <= i < |p + [b]| :: IsSlugChar((p + [b])[i])
  {
  }

  lemma SplitPair(p: seq<char>, d: seq<char>)
    requires |d| == 2
    ensures p + d == p + [d[0]] + [d[1]]
  {
    assert d == [d[0]] + [d[1]];
  }

  /** A slug followed by a letter is a slug. */
  lemma LetterKeepsSlug(p: seq<char>, b: char)
    requires forall i | 0 <= i < |p| :: IsSlugChar(p[i])
    requires NoDoubleHyphen(p)
    requires 'a' <= b <= 'z'
    ensures var t := p + [b]; (forall i | 0 <= i < |t| :: IsSlugChar(t[i])) && NoDoubleHyphen(t)
  {
    var t := p + [b];
    forall i | 0 <= i < |t| - 1 ensures !(t[i] == '-' && t[i + 1] == '-') {
      if i < |p| - 1 {
        assert t[i] == p[i] && t[i + 1] == p[i + 1];
      }
    }
  }

  /** The stages after mark stripping. */
  function SlugTailOf(t: seq<char>): seq<char>
  {
    SqueezeHyphens(KeepWordChars(SpacesToHyphens(Trim(t), false)), false)
  }

  /** The stages after mark stripping leave a slug as it is. */
  lemma SlugTail(t: seq<char>)
    requires forall i | 0 <= i < |t| :: IsSlugChar(t[i])
    requires NoDoubleHyphen(t)
    ensures SlugTailOf(t) == t
  {
    TrimKeeps(t);
    SpacesKeep(t, false);
    KeepWordCharsKeeps(t);
    SqueezeKeeps(t, false);
  }

  lemma LowercaseExample()
    ensures Lowercase("Caf\U{00C9}") == "caf\U{00E9}"
  {
  }

  lemma NfdExample()
    ensures Nfd("caf\U{00E9}") == "cafe\U{0301}"
  {
    NfdAfterSlug("caf", '\U{00E9}');
    assert "caf\U{00E9}" == "caf" + ['\U{00E9}'];
  }

  /** After a slug, one more character contributes its decomposition. */
  lemma NfdAfterSlug(p: seq<char>, c: char)
    requires forall i | 0 <= i < |p| :: IsSlugChar(p[i])
    ensures Nfd(p + [c]) == p + Decompose(c)
  {
    NfdAppend(p, [c]);
    NfdSingle(c);
    NfdKeeps(p);
  }

  lemma StripMarksExample()
    ensures StripMarks("cafe\U{0301}") == "cafe"
  {
    StripMarksAfterSlug("cafe", '\U{0301}');
    assert "cafe\U{0301}" == "cafe" + ['\U{0301}'];
  }

  /** A mark after a slug is dropped. */
  lemma StripMarksAfterSlug(p: seq<char>, m: char)
    requires forall i | 0 <= i < |p| :: IsSlugChar(p[i])
    requires IsMark(m)
    ensures StripMarks(p + [m]) == p
  {
    StripMarksAppend(p, [m]);
    StripMarksSingle(m);
    StripMarksKeeps(p);
  }

  /** ` a b ` trims to `a b`: the inner space stays. */
  lemma TrimExample()
    ensures Trim(" a b ") == "a b"
  {
    assert " a b " == " " + "a b" + " ";
    TrimSurrounding(" ", "a b", " ");
  }

  /** `a  b` becomes `a-b`: the run of two spaces is one hyphen. */
  lemma SpacesExample()
    ensures SpacesToHyphens("a  b", false) == "a-b"
  {
    assert "a  b" == "a" + "  " + "b";
    SpacesBetweenSlugs("a", "  ", "b");
  }

  /** A whitespace run between two slugs becomes one hyphen. */
  lemma SpacesBetweenSlugs(a: seq<char>, w: seq<char>, b: seq<char>)
    requires forall i | 0 <= i < |a| :: IsSlugChar(a[i])
    requires forall i | 0 <= i < |b| :: IsSlugChar(b[i])
    requires w != [] && forall c | c in w :: IsSpace(c)
    ensures SpacesToHyphens(a + w + b, false) == a + ['-'] + b
  {
    InteriorRun(a, w, b);
    SpacesKeep(a, false);
    SpacesKeep(b, false);
  }

  /** `a!b` loses the `!`. */
  lemma KeepWordCharsExample()
    ensures KeepWordChars("a!b") == "ab"
  {
    KeepWordCharsAppend("a", "!b");
    KeepWordCharsAppend("!", "b");
    KeepWordCharsSingle('a');
    KeepWordCharsSingle('!');
    KeepWordCharsSingle('b');
  }

  /** `a--b` squeezes to `a-b`. */
  lemma SqueezeExample()
    ensures SqueezeHyphens("a--b", false) == "a-b"
  {
    assert "a--b" == ['a'] + "--b" && "--b" == "--" + "b" && "b" == ['b'] + [];
    SqueezeStep('a', "--b", false);
    HyphenRunThen("--", "b", false);
    SqueezeStep('b', [], true);
  }
}
