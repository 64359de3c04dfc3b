/**
 * String helpers shared by both scripts: ASCII lower-casing (what
 * Python's `str.lower` does to the letters the scripts compare against),
 * suffix tests, and `os.path.basename` for a single fixed separator.
 */
module Text {

  /** The path separator of the model (POSIX `os.path.sep`). */
  const Sep: char := '/'

  function LowerChar(c: char): char
  {
    if 'A' <= c <= 'Z' then (c as int - 'A' as int + 'a' as int) as char else c
  }

  /** `s.lower()` restricted to ASCII letters. */
  function Lower(s: string): string
  {
    seq(|s|, i requires 0 <= i < |s| => LowerChar(s[i]))
  }

  /** Lower-casing works character by character. */
  lemma LowerAppend(a: string, b: string)
    ensures Lower(a + b) == Lower(a) + Lower(b)
  {
  }

  /** A string without upper-case letters is its own lower-case form. */
  lemma LowerOfLowerCase(s: string)
    requires forall i :: 0 <= i < |s| ==> !('A' <= s[i] <= 'Z')
    ensures Lower(s) == s
  {
  }

  predicate EndsWith(s: string, suffix: string)
  {
    |suffix| <= |s| && s[|s| - |suffix|..] == suffix
  }

  /** `os.path.basename(p)`: everything after the last separator. */
  function Basename(p: string): string
  {
    if p == [] || p[|p| - 1] == Sep then [] else Basename(p[..|p| - 1]) + [p[|p| - 1]]
  }

  /** The basename is the longest suffix of `p` free of separators. */
  lemma BasenameShape(p: string)
    ensures Sep !in Basename(p)
    ensures EndsWith(p, Basename(p))
    ensures |Basename(p)| < |p| ==> p[|p| - |Basename(p)| - 1] == Sep
  {
    BasenameHasNoSep(p);
    BasenameIsSuffix(p);
  }

  lemma {:induction false} BasenameHasNoSep(p: string)
    ensures Sep !in Basename(p)
  {
    if p != [] && p[|p| - 1] != Sep {
      BasenameHasNoSep(p[..|p| - 1]);
    }
  }

  /** The basename ends the path, and whatever precedes it is a separator. */
  lemma {:induction false} BasenameIsSuffix(p: string)
    ensures EndsWith(p, Basename(p))
    ensures |Basename(p)| < |p| ==> p[|p| - |Basename(p)| - 1] == Sep
  {
    if p != [] && p[|p| - 1] != Sep {
      var init, last := p[..|p| - 1], p[|p| - 1];
      BasenameIsSuffix(init);
      var b := Basename(init);
      assert Basename(p) == b + [last];
      assert p[|p| - |b| - 1..] == init[|init| - |b|..] + [last];
      if |b| < |init| {
        assert p[|p| - |b| - 2] == init[|init| - |b| - 1];
      }
    }
  }

  /**
   * `os.path.join(a, b)`: a component that starts with a separator
   * replaces what came before; otherwise a separator is put between the
   * two unless `a` is empty or already ends with one.
   */
  function Join(a: string, b: string): (r: string)
    ensures EndsWith(r, b)
    ensures |b| > 0 && b[0] == Sep ==> r == b
  {
    if |b| > 0 && b[0] == Sep then b
    else if a == [] || a[|a| - 1] == Sep then a + b
    else a + [Sep] + b
  }

  /** The three facts of `BasenameShape` determine the basename. */
  lemma BasenameUnique(p: string, b: string)
    requires Sep !in b && EndsWith(p, b)
    requires |b| < |p| ==> p[|p| - |b| - 1] == Sep
    ensures Basename(p) == b
  {
    BasenameShape(p);
    SuffixSep(p, b, Basename(p));
    SuffixSep(p, Basename(p), b);
  }

  /** Of two suffixes of a path, the longer holds the character in front of the shorter. */
  lemma SuffixSep(p: string, b: string, c: string)
    requires EndsWith(p, b) && EndsWith(p, c)
    ensures |c| < |b| ==> b[|b| - |c| - 1] == p[|p| - |c| - 1]
  {
  }

  /** A suffix free of separators is shorter than a path that holds one. */
  lemma ShorterThanPath(s: string, b: string)
    requires Sep !in b && EndsWith(s, b) && Sep in s
    ensures |b| < |s|
  {
    assert s[|s| - |b|..] == b;
  }

  /** A path ends with a separator followed by `b` iff it ends with `b` preceded by a separator. */
  lemma SepSuffix(s: string, b: string)
    ensures EndsWith(s, [Sep] + b) <==> |b| < |s| && EndsWith(s, b) && s[|s| - |b| - 1] == Sep
  {
    var n := |s|;
    if EndsWith(s, [Sep] + b) {
      assert s[n - |b|..] == s[n - |b| - 1..][1..];
    }
    if |b| < n && EndsWith(s, b) && s[n - |b| - 1] == Sep {
      assert s[n - |b| - 1..] == [s[n - |b| - 1]] + s[n - |b|..];
    }
  }
}
