/**
 * The file-name rules of the collection-poster script: the `clean`
 * argument, which folder entries count as posters, how a collection title
 * is stripped of the characters a file name cannot hold, and the stem a
 * poster file is compared by.
 */
module PosterFiles {
  import opened Wrappers
  import opened Seqs
  import opened Text

  /** argparse refuses a value outside `choices` (exit status 2). */
  datatype UsageError = InvalidChoice

  const CleanToken: string := "clean"

  /**
   * The optional positional argument: lower-cased by `type=str.lower`,
   * then checked against `choices=['clean']`; absent, clean mode is off.
   */
  function CleanFlag(arg: Option<string>): (r: Result<bool, UsageError>)
    ensures r == Ok(true) <==> arg.Some? && Lower(arg.value) == CleanToken
    ensures r == Ok(false) <==> arg.None?
    ensures r.Err? <==> arg.Some? && Lower(arg.value) != CleanToken
  {
    match arg
    case None => Ok(false)
    case Some(a) => if Lower(a) == CleanToken then Ok(true) else Err(InvalidChoice)
  }

  /** Upper-case spellings are accepted; anything else is refused. */
  lemma CleanFlagExamples()
    ensures CleanFlag(Some("CLEAN")) == Ok(true) && CleanFlag(Some("Clean")) == Ok(true)
    ensures CleanFlag(Some("cleaner")).Err? && CleanFlag(Some("")).Err?
  {
    assert Lower("CLEAN") == CleanToken;
    assert Lower("Clean") == CleanToken;
  }

  /** The image extensions Plex accepts, as the script lists them. */
  const PosterExtensions: seq<string> := [".bmp", ".gif", ".jpe", ".jpeg", ".jpg", ".png", ".tbn", ".tif", ".tiff", ".webp"]

  /** A folder entry is a user poster iff its lower-cased name ends with one of the extensions. */
  predicate IsUserPoster(name: string)
  {
    exists i :: 0 <= i < |PosterExtensions| && EndsWith(Lower(name), PosterExtensions[i])
  }

  /** The user posters of a folder listing, in listing order. */
  function UserPosters(entries: seq<string>): seq<string>
  {
    Filter(entries, IsUserPoster)
  }

  /** A name is collected iff it is in the listing and has a poster extension in any case. */
  lemma UserPostersMember(entries: seq<string>, name: string)
    ensures name in UserPosters(entries) <==> name in entries && IsUserPoster(name)
  {
    FilterMember(entries, IsUserPoster, name);
  }

  /** Extensions match regardless of case. */
  lemma UserPosterExamples()
    ensures IsUserPoster("Bebop.PNG") && IsUserPoster("a.Jpeg")
  {
    assert Lower("Bebop.PNG") == "bebop.png";
    assert EndsWith(Lower("Bebop.PNG"), PosterExtensions[5]);
    assert Lower("a.Jpeg") == "a.jpeg";
    assert EndsWith(Lower("a.Jpeg"), PosterExtensions[3]);
  }

  /** Only the end of the name counts: an image extension followed by another one is not a poster. */
  lemma NotUserPosterExample()
    ensures !IsUserPoster("a.png.txt")
  {
    assert Lower("a.png.txt") == "a.png.txt";
  }

  /** The loop that appends every poster file of the folder listing. */
  method CollectUserPosters(entries: seq<string>) returns (posters: seq<string>)
    ensures posters == UserPosters(entries)
  {
    posters := [];
    var i := 0;
    while i < |entries|
      invariant 0 <= i <= |entries|
      invariant posters == Filter(entries[..i], IsUserPoster)
    {
      FilterStep(entries, i, IsUserPoster);
      var isPoster := IsPosterName(entries[i]);
      if isPoster {
        posters := posters + [entries[i]];
      }
      i := i + 1;
    }
    assert entries[..i] == entries;
  }

  /** `file.lower().endswith(file_formats)`, one extension at a time. */
  method IsPosterName(name: string) returns (b: bool)
    ensures b == IsUserPoster(name)
  {
    var lowered := Lower(name);
    var k := 0;
    while k < |PosterExtensions|
      invariant 0 <= k <= |PosterExtensions|
      invariant forall j :: 0 <= j < k ==> !EndsWith(lowered, PosterExtensions[j])
    {
      if EndsWith(lowered, PosterExtensions[k]) {
        return true;
      }
      k := k + 1;
    }
    return false;
  }

  /** Every listed extension is already lower-case, so a lower-cased name can end with it. */
  lemma ExtensionsLowerCase(e: nat)
    requires e < |PosterExtensions|
    ensures Lower(PosterExtensions[e]) == PosterExtensions[e]
    ensures |PosterExtensions[e]| >= 1 && PosterExtensions[e][0] == '.' && '.' !in PosterExtensions[e][1..]
    ensures Sep !in PosterExtensions[e]
  {
    LowerOfLowerCase(PosterExtensions[e]);
  }

  /** The characters a file name cannot hold, each removed by its own `re.sub`. */
  const Forbidden: seq<char> := ['\\', '/', ':', '*', '?', '"', '<', '>', '|']

  /** The test "not one of `cs`". */
  function Outside(cs: seq<char>): char -> bool
  {
    c => c !in cs
  }

  /** The title with every forbidden character removed and the others kept in order. */
  function Sanitized(title: string): string
  {
    Filter(title, Outside(Forbidden))
  }

  /** `re.sub(key, '', s)`: every occurrence of `c` removed. */
  function Removed(s: string, c: char): string
  {
    Filter(s, Outside([c]))
  }

  /**
   * The loop of `re.sub` calls over the nine keys, one character at a
   * time, leaves the title with all nine removed at once.
   */
  method SanitizeTitle(title: string) returns (formatted: string)
    ensures formatted == Sanitized(title)
  {
    formatted := title;
    FilterKeepsAll(title, Outside([]));
    var i := 0;
    while i < |Forbidden|
      invariant 0 <= i <= |Forbidden|
      invariant formatted == Filter(title, Outside(Forbidden[..i]))
    {
      FilterTwice(title, Outside(Forbidden[..i]), Outside([Forbidden[i]]), Outside(Forbidden[..i + 1]));
      formatted := Removed(formatted, Forbidden[i]);
      i := i + 1;
    }
    assert Forbidden[..i] == Forbidden;
  }

  /** A sanitised title holds exactly the title's characters that are not forbidden. */
  lemma SanitizedChars(title: string, c: char)
    ensures c in Sanitized(title) <==> c in title && c !in Forbidden
  {
    FilterMember(title, Outside(Forbidden), c);
  }

  /** Sanitising twice is sanitising once; a title free of forbidden characters is left as it is. */
  lemma SanitizedIdempotent(title: string)
    ensures Sanitized(Sanitized(title)) == Sanitized(title)
    ensures (forall i :: 0 <= i < |title| ==> title[i] !in Forbidden) ==> Sanitized(title) == title
  {
    var s := Sanitized(title);
    forall i | 0 <= i < |s| ensures s[i] !in Forbidden {
      SanitizedChars(title, s[i]);
    }
    FilterKeepsAll(s, Outside(Forbidden));
    if forall i :: 0 <= i < |title| ==> title[i] !in Forbidden {
      FilterKeepsAll(title, Outside(Forbidden));
    }
  }

  /** Each piece of a title is sanitised on its own: nothing is reordered or merged. */
  lemma SanitizedAppend(a: string, b: string)
    ensures Sanitized(a + b) == Sanitized(a) + Sanitized(b)
  {
    FilterAppend(a, b, Outside(Forbidden));
  }

  /** The last index of `c` in `s`, or -1. */
  function LastIndex(s: string, c: char): (r: int)
    ensures -1 <= r < |s|
  {
    if s == [] then -1
    else if s[|s| - 1] == c then |s| - 1
    else LastIndex(s[..|s| - 1], c)
  }

  /** The last index holds `c` and nothing after it does; -1 means `c` does not occur. */
  lemma {:induction false} LastIndexFound(s: string, c: char)
    ensures LastIndex(s, c) >= 0 ==> s[LastIndex(s, c)] == c
    ensures forall j :: LastIndex(s, c) < j < |s| ==> s[j] != c
    ensures LastIndex(s, c) < 0 ==> c !in s
  {
    if s != [] && s[|s| - 1] != c {
      LastIndexFound(s[..|s| - 1], c);
      assert s == s[..|s| - 1] + [s[|s| - 1]];
    }
  }

  /**
   * `os.path.splitext(name)[0]`: the name without its last extension, where
   * dots that only lead the file name do not start an extension.
   */
  function Stem(name: string): string
  {
    var sepIndex := LastIndex(name, Sep);
    var dotIndex := LastIndex(name, '.');
    if dotIndex > sepIndex && exists i :: sepIndex < i < dotIndex && name[i] != '.' then name[..dotIndex]
    else name
  }

  /**
   * A file named `t` plus an extension has stem `t`, as long as `t` holds
   * no separator and something other than dots.
   */
  lemma StemOfNamed(t: string, ext: string)
    requires Sep !in t && (exists i :: 0 <= i < |t| && t[i] != '.')
    requires |ext| >= 1 && ext[0] == '.' && '.' !in ext[1..] && Sep !in ext
    ensures Stem(t + ext) == t
  {
    var name := t + ext;
    LastIndexFound(name, '.');
    LastIndexFound(name, Sep);
    var i :| 0 <= i < |t| && t[i] != '.';
    assert name[|t|] == '.' && name[i] != '.';
    assert forall j :: |t| < j < |name| ==> name[j] == ext[1..][j - |t| - 1];
    assert LastIndex(name, '.') == |t|;
    assert name[..|t|] == t;
  }

  /** A file name made only of leading dots and one extension has no extension at all. */
  lemma StemOfDotFile()
    ensures Stem(".png") == ".png"
  {
    LastIndexFound(".png", '.');
    LastIndexFound(".png", Sep);
  }

  /**
   * A poster file named after the sanitised title, with any of the listed
   * extensions, is collected and matches the collection.
   */
  lemma PosterNamedAfterTitle(title: string, e: nat)
    requires e < |PosterExtensions|
    requires exists i :: 0 <= i < |Sanitized(title)| && Sanitized(title)[i] != '.'
    ensures IsUserPoster(Sanitized(title) + PosterExtensions[e])
    ensures Stem(Sanitized(title) + PosterExtensions[e]) == Sanitized(title)
  {
    var t, ext := Sanitized(title), PosterExtensions[e];
    SanitizedChars(title, Sep);
    LowerAppend(t, ext);
    ExtensionsLowerCase(e);
    assert (Lower(t) + ext)[|Lower(t)|..] == ext;
    assert EndsWith(Lower(t + ext), PosterExtensions[e]);
    StemOfNamed(t, ext);
  }
}
