/**
  Name normalisation used by the insights summary: a service name is trimmed
  of surrounding whitespace and lower-cased before it is used as a grouping
  key (`strip().lower()` in main.py).

  The functions are plain definitions; what they guarantee is
  stated by the lemmas that follow them.
 */
module Text {

  /** The characters Python's `str.strip()` removes when given no argument
      (exactly those for which `str.isspace()` holds). */
  predicate IsSpace(c: char) {
    || c == ' '
    || ('\t' <= c <= '\r')             // tab, line feed, vertical tab, form feed, carriage return
    || ('\U{1C}' <= c <= '\U{1F}')     // file, group, record and unit separators
    || c == '\U{85}'                   // next line
    || c == '\U{A0}'                   // no-break space
    || c == '\U{1680}'                 // ogham space mark
    || ('\U{2000}' <= c <= '\U{200A}') // en quad .. hair space
    || c == '\U{2028}' || c == '\U{2029}'
    || c == '\U{202F}' || c == '\U{205F}' || c == '\U{3000}'
  }

  predicate AllSpace(s: string) {
    forall j :: 0 <= j < |s| ==> IsSpace(s[j])
  }

  predicate IsUpper(c: char) {
    'A' <= c <= 'Z'
  }

  /** Lower-cases one character. Only the ASCII letters are mapped. */
  function LowerChar(c: char): char {
    if IsUpper(c) then (c as int + 32) as char else c
  }

  /** `str.lower()`: each character lower-cased on its own. */
  function Lower(s: string): string {
    seq(|s|, j requires 0 <= j < |s| => LowerChar(s[j]))
  }

  /** `str.lstrip()`: drops leading whitespace. */
  function TrimStart(s: string): string {
    if s != [] && IsSpace(s[0]) then TrimStart(s[1..]) else s
  }

  /** `str.rstrip()`: drops trailing whitespace. */
  function TrimEnd(s: string): string {
    if s != [] && IsSpace(s[|s| - 1]) then TrimEnd(s[..|s| - 1]) else s
  }

  /** `str.strip()` with no argument. */
  function Strip(s: string): string {
    TrimEnd(TrimStart(s))
  }

  /** The grouping key of a service name: `name.strip().lower()`. */
  function Normalise(s: string): string {
    Lower(Strip(s))
  }

  /** `s[i..j]` is what stripping `s` leaves: everything outside it is
      whitespace, and it neither starts nor ends with whitespace. */
  ghost predicate StrippedAt(s: string, i: int, j: int) {
    && 0 <= i <= j <= |s|
    && (forall k :: 0 <= k < i ==> IsSpace(s[k]))
    && (forall k :: j <= k < |s| ==> IsSpace(s[k]))
    && (i < j ==> !IsSpace(s[i]) && !IsSpace(s[j - 1]))
  }

  /** Lower-casing maps each character on its own: a letter to its small
      form, whitespace to whitespace. */
  lemma LowerCharFacts(c: char)
    ensures !IsUpper(LowerChar(c))
    ensures IsSpace(LowerChar(c)) <==> IsSpace(c)
    ensures IsUpper(c) ==> LowerChar(c) as int == c as int + 32
    ensures !IsUpper(c) ==> LowerChar(c) == c
  {
  }

  /** What `lstrip` leaves is a suffix of `s`; everything it dropped is
      whitespace, and what is left does not start with whitespace. */
  lemma {:induction false} TrimStartIsSuffix(s: string)
    ensures |TrimStart(s)| <= |s|
    ensures TrimStart(s) == s[|s| - |TrimStart(s)|..]
    ensures forall k :: 0 <= k < |s| - |TrimStart(s)| ==> IsSpace(s[k])
    ensures TrimStart(s) != [] ==> !IsSpace(TrimStart(s)[0])
  {
    if s != [] && IsSpace(s[0]) {
      var t := s[1..];
      TrimStartIsSuffix(t);
      assert TrimStart(s) == TrimStart(t);
      assert t[|t| - |TrimStart(t)|..] == s[|s| - |TrimStart(s)|..];
    }
  }

  /** What `rstrip` leaves is a prefix of `s`; everything it dropped is
      whitespace, and what is left does not end with whitespace. */
  lemma {:induction false} TrimEndIsPrefix(s: string)
    ensures |TrimEnd(s)| <= |s|
    ensures TrimEnd(s) == s[..|TrimEnd(s)|]
    ensures forall k :: |TrimEnd(s)| <= k < |s| ==> IsSpace(s[k])
    ensures TrimEnd(s) != [] ==> !IsSpace(TrimEnd(s)[|TrimEnd(s)| - 1])
  {
    if s != [] && IsSpace(s[|s| - 1]) {
      var t := s[..|s| - 1];
      TrimEndIsPrefix(t);
      assert TrimEnd(s) == TrimEnd(t);
      assert t[..|TrimEnd(t)|] == s[..|TrimEnd(s)|];
    }
  }

  /** Stripping cuts `s` down to the infix `s[i..j]` that StrippedAt
      describes. */
  lemma StripAt(s: string) returns (i: nat, j: nat)
    ensures StrippedAt(s, i, j) && Strip(s) == s[i..j]
  {
    var t := TrimStart(s);
    TrimStartIsSuffix(s);
    TrimEndIsPrefix(t);
    var r := TrimEnd(t);
    i, j := |s| - |t|, |s| - |t| + |r|;
    assert r == s[i..j];
    if i < j {
      assert s[i] == t[0] == r[0];
    }
  }

  /** Any decomposition satisfying StrippedAt is the one Strip finds. */
  lemma StripUnique(s: string, i: int, j: int)
    requires StrippedAt(s, i, j)
    ensures Strip(s) == s[i..j]
  {
    var i', j' := StripAt(s);
    if i < j {
      // The first and last non-whitespace characters of s sit at i and j - 1.
      assert !IsSpace(s[i]) && !IsSpace(s[j - 1]);
      assert i' <= i && j <= j';
      assert i' < j';
      assert i <= i' && j' <= j;
    } else {
      assert AllSpace(s);
    }
  }

  /** A name strips to nothing exactly when it is whitespace only. */
  lemma StripEmptyIffBlank(s: string)
    ensures Strip(s) == [] <==> AllSpace(s)
  {
    var i, j := StripAt(s);
    if AllSpace(s) {
      StripUnique(s, 0, 0);
    }
  }

  /** Stripping twice is stripping once. */
  lemma StripIdempotent(s: string)
    ensures Strip(Strip(s)) == Strip(s)
  {
    var i, j := StripAt(s);
    var r := Strip(s);
    assert StrippedAt(r, 0, |r|);
    StripUnique(r, 0, |r|);
  }

  /** Where each character of a padded string comes from. */
  lemma PaddedAt(pre: string, s: string, post: string, k: int)
    requires 0 <= k < |pre + s + post|
    ensures k < |pre| ==> (pre + s + post)[k] == pre[k]
    ensures |pre| <= k < |pre| + |s| ==> (pre + s + post)[k] == s[k - |pre|]
    ensures |pre| + |s| <= k ==> (pre + s + post)[k] == post[k - |pre| - |s|]
  {
  }

  /** Padding with whitespace shifts where the text sits and nothing else. */
  lemma StrippedAtPadded(pre: string, s: string, post: string, i: int, j: int)
    requires AllSpace(pre) && AllSpace(post)
    requires StrippedAt(s, i, j) && i < j
    ensures StrippedAt(pre + s + post, |pre| + i, |pre| + j)
  {
    var u := pre + s + post;
    forall k | 0 <= k < |pre| + i ensures IsSpace(u[k]) {
      PaddedAt(pre, s, post, k);
    }
    forall k | |pre| + j <= k < |u| ensures IsSpace(u[k]) {
      PaddedAt(pre, s, post, k);
    }
    PaddedAt(pre, s, post, |pre| + i);
    PaddedAt(pre, s, post, |pre| + j - 1);
  }

  lemma SliceOfPadded(pre: string, s: string, post: string, i: int, j: int)
    requires 0 <= i <= j <= |s|
    ensures (pre + s + post)[|pre| + i..|pre| + j] == s[i..j]
  {
    var u := pre + s + post;
    forall k | 0 <= k < j - i ensures u[|pre| + i..|pre| + j][k] == s[i..j][k] {
      PaddedAt(pre, s, post, |pre| + i + k);
    }
  }

  /** A whitespace-only name stays whitespace-only when padded. */
  lemma AllSpacePadded(pre: string, s: string, post: string)
    requires AllSpace(pre) && AllSpace(s) && AllSpace(post)
    ensures AllSpace(pre + s + post)
  {
    forall k | 0 <= k < |pre + s + post| ensures IsSpace((pre + s + post)[k]) {
      PaddedAt(pre, s, post, k);
    }
  }

  /** Whitespace around a name is ignored: padding a name with whitespace on
      either side does not change what it strips to. */
  lemma StripIgnoresPadding(pre: string, s: string, post: string)
    requires AllSpace(pre) && AllSpace(post)
    ensures Strip(pre + s + post) == Strip(s)
  {
    var u := pre + s + post;
    var i, j := StripAt(s);
    if i < j {
      StrippedAtPadded(pre, s, post, i, j);
      StripUnique(u, |pre| + i, |pre| + j);
      SliceOfPadded(pre, s, post, i, j);
    } else {
      assert AllSpace(s);
      AllSpacePadded(pre, s, post);
      StripEmptyIffBlank(u);
    }
  }

  /** Lower-casing never touches whitespace, so it commutes with stripping. */
  lemma StripLowerCommute(s: string)
    ensures Strip(Lower(s)) == Lower(Strip(s))
  {
    var i, j := StripAt(s);
    var l := Lower(s);
    forall c { LowerCharFacts(c); }
    assert StrippedAt(l, i, j);
    StripUnique(l, i, j);
    assert l[i..j] == Lower(s[i..j]);
  }

  /** Lower-casing twice is lower-casing once. */
  lemma LowerIdempotent(s: string)
    ensures Lower(Lower(s)) == Lower(s)
  {
    forall c { LowerCharFacts(c); }
  }

  /** A grouping key is trimmed, has no capital letters, is no longer than
      the name, and is empty exactly when the name is whitespace only. */
  lemma NormaliseShape(s: string)
    ensures |Normalise(s)| <= |s|
    ensures forall j :: 0 <= j < |Normalise(s)| ==> !IsUpper(Normalise(s)[j])
    ensures Normalise(s) != [] ==> !IsSpace(Normalise(s)[0]) && !IsSpace(Normalise(s)[|Normalise(s)| - 1])
    ensures Normalise(s) == [] <==> AllSpace(s)
  {
    var i, j := StripAt(s);
    var t := Strip(s);
    forall c { LowerCharFacts(c); }
    StripEmptyIffBlank(s);
  }

  /** A grouping key is its own grouping key. */
  lemma NormaliseIdempotent(s: string)
    ensures Normalise(Normalise(s)) == Normalise(s)
  {
    var t := Strip(s);
    StripLowerCommute(t);
    StripIdempotent(s);
    LowerIdempotent(t);
  }

  /** Names that differ only in letter case and surrounding whitespace have
      the same grouping key. */
  lemma SameKeyUpToCaseAndPadding(pre: string, a: string, post: string, b: string)
    requires AllSpace(pre) && AllSpace(post)
    requires Lower(a) == Lower(b)
    ensures Normalise(pre + a + post) == Normalise(b)
  {
    StripIgnoresPadding(pre, a, post);
    StripLowerCommute(a);
    StripLowerCommute(b);
  }
}
