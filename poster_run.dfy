/**
 * One run of the collection-poster script: read the `clean` argument,
 * connect to Plex, then for every configured library either remove the
 * old uploaded posters of its collections or apply user and Shoko
 * posters to them.
 */
module PosterRun {
  import opened Wrappers
  import opened Seqs
  import opened PosterFiles
  import opened PosterApply
  import opened PosterClean

  /** How a run ends: normally, or at one of the points where the script exits early. */
  datatype Stop =
    | Completed
    | InvalidArgument   // argparse refuses the argument (exit status 2)
    | PlexUnavailable   // the plex.tv login or the server connection fails, exit(1)
    | ShokoUnavailable  // Shoko's auth endpoint is unreachable or refuses the credentials, exit(1)
    | FolderUnreadable  // `os.listdir(PostersFolder)` raises, exit(1)

  /** The events issued before the run stopped, and why it stopped. */
  datatype Outcome = Outcome(events: seq<PosterEvent>, stop: Stop)

  /** The configuration the script reads: library names, Plex's data folder, the posters folder ("" when unset). */
  datatype Settings = Settings(libraries: seq<string>, dataFolder: string, postersFolder: string)

  /**
   * What the outside world answers: whether Plex can be reached, the
   * collections of each library section the server has, whether Shoko
   * accepts the login, the listing of the posters folder (None when it
   * cannot be read), the entries of each uploaded-posters directory that
   * can be listed, Shoko's group search, and which uploads succeed.
   */
  datatype World = World(
    plexUp: bool,
    sections: map<string, seq<Collection>>,
    shokoUp: bool,
    listing: Option<seq<string>>,
    dirs: map<string, seq<PosterFile>>,
    groups: string -> Option<ShokoPoster>,
    accepts: (string, PosterSource) -> bool)

  function After(events: seq<PosterEvent>, o: Outcome): Outcome
  {
    Outcome(events + o.events, o.stop)
  }

  /** A posters folder is configured but cannot be listed. */
  predicate FolderBroken(s: Settings, w: World)
  {
    s.postersFolder != [] && w.listing.None?
  }

  /** The user posters the apply pass uses: none when no folder is configured. */
  function UserPostersOf(s: Settings, w: World): Option<seq<string>>
  {
    if s.postersFolder == [] || w.listing.None? then None else Some(UserPosters(w.listing.value))
  }

  /**
   * One library: a missing section is reported and skipped; in apply mode
   * the Shoko login and the posters-folder listing come first, and either
   * failing ends the script.
   */
  function LibraryOutcome(clean: bool, lib: string, s: Settings, w: World): Outcome
  {
    if lib !in w.sections then Outcome([SectionMissing(lib)], Completed)
    else if clean then Outcome(CleanCollections(w.sections[lib], s.dataFolder, w.dirs, lib), Completed)
    else if !w.shokoUp then Outcome([], ShokoUnavailable)
    else if FolderBroken(s, w) then Outcome([], FolderUnreadable)
    else Outcome(ApplyCollections(w.sections[lib], UserPostersOf(s, w), w.groups, w.accepts), Completed)
  }

  /** The loop over the configured libraries, up to the first one that ends the script. */
  function RunLibraries(clean: bool, libs: seq<string>, s: Settings, w: World): Outcome
    decreases |libs|
  {
    if libs == [] then Outcome([], Completed)
    else
      var o := LibraryOutcome(clean, libs[0], s, w);
      if o.stop != Completed then o else After(o.events, RunLibraries(clean, libs[1..], s, w))
  }

  /** The whole run for the command-line argument `arg` (None when absent). */
  function Run(arg: Option<string>, s: Settings, w: World): Outcome
  {
    match CleanFlag(arg)
    case Err(_) => Outcome([], InvalidArgument)
    case Ok(clean) => if !w.plexUp then Outcome([], PlexUnavailable) else RunLibraries(clean, s.libraries, s, w)
  }

  /** The events of one library in a run that goes through. */
  function LibraryEvents(clean: bool, s: Settings, w: World): string -> seq<PosterEvent>
  {
    lib => LibraryOutcome(clean, lib, s, w).events
  }

  /** Apply mode cannot get past its first library: Shoko refuses the login or the posters folder cannot be listed. */
  predicate ApplyBlocked(clean: bool, s: Settings, w: World)
  {
    !clean && (!w.shokoUp || FolderBroken(s, w))
  }

  /**
   * A run whose libraries are not blocked (clean mode never is) goes
   * through every library in order and completes.
   */
  lemma {:induction false} RunCompletes(clean: bool, libs: seq<string>, s: Settings, w: World)
    requires !ApplyBlocked(clean, s, w) || forall i :: 0 <= i < |libs| ==> libs[i] !in w.sections
    ensures RunLibraries(clean, libs, s, w) == Outcome(Concat(libs, LibraryEvents(clean, s, w)), Completed)
    decreases |libs|
  {
    if libs != [] {
      var tail := libs[1..];
      assert forall i :: 0 <= i < |tail| ==> tail[i] == libs[i + 1];
      RunCompletes(clean, tail, s, w);
      ConcatCons(libs, LibraryEvents(clean, s, w));
    }
  }

  /**
   * A blocked apply run stops at the first library whose section exists,
   * having reported every library before it as missing.
   */
  lemma {:induction false} BlockedStopsAt(clean: bool, libs: seq<string>, s: Settings, w: World, j: nat)
    requires ApplyBlocked(clean, s, w)
    requires j < |libs| && libs[j] in w.sections
    requires forall i :: 0 <= i < j ==> libs[i] !in w.sections
    ensures RunLibraries(clean, libs, s, w) ==
      Outcome(Missing(libs[..j]), if !w.shokoUp then ShokoUnavailable else FolderUnreadable)
    decreases |libs|
  {
    if j > 0 {
      var tail := libs[1..];
      assert forall i :: 0 <= i < j - 1 ==> tail[i] == libs[i + 1];
      BlockedStopsAt(clean, tail, s, w, j - 1);
      assert libs[..j] == [libs[0]] + tail[..j - 1];
    }
  }

  /** One `SectionMissing` report per library. */
  function Missing(libs: seq<string>): seq<PosterEvent>
  {
    seq(|libs|, i requires 0 <= i < |libs| => SectionMissing(libs[i]))
  }

  /** Libraries split in two: the second part runs only if the first completes. */
  lemma {:induction false} RunLibrariesAppend(clean: bool, a: seq<string>, b: seq<string>, s: Settings, w: World)
    ensures var first := RunLibraries(clean, a, s, w);
      RunLibraries(clean, a + b, s, w) ==
        if first.stop == Completed then After(first.events, RunLibraries(clean, b, s, w)) else first
    decreases |a|
  {
    if a == [] {
      assert a + b == b;
    } else {
      assert (a + b)[0] == a[0] && (a + b)[1..] == a[1..] + b;
      RunLibrariesAppend(clean, a[1..], b, s, w);
    }
  }

  /**
   * A library whose section the server does not have is reported and
   * changes nothing else: the run is the run without it, with the report
   * inserted where the library was.
   */
  lemma MissingSectionSkipsOnlyIt(clean: bool, a: seq<string>, lib: string, b: seq<string>, s: Settings, w: World)
    requires lib !in w.sections
    ensures var first := RunLibraries(clean, a, s, w);
      var rest := RunLibraries(clean, b, s, w);
      && RunLibraries(clean, a + b, s, w) == (if first.stop == Completed then After(first.events, rest) else first)
      && RunLibraries(clean, a + [lib] + b, s, w) ==
           (if first.stop == Completed then After(first.events + [SectionMissing(lib)], rest) else first)
  {
    RunLibrariesAppend(clean, a, b, s, w);
    RunLibrariesAppend(clean, a, [lib] + b, s, w);
    assert a + [lib] + b == a + ([lib] + b);
    assert ([lib] + b)[0] == lib && ([lib] + b)[1..] == b;
  }

  /**
   * Clean mode only removes files (or reports a library it could not
   * finish), never uploads, and always reaches the end of the libraries.
   */
  lemma CleanRunOnlyRemoves(arg: Option<string>, s: Settings, w: World)
    requires CleanFlag(arg) == Ok(true)
    ensures Run(arg, s, w).stop == Completed || Run(arg, s, w).stop == PlexUnavailable
    ensures forall e :: e in Run(arg, s, w).events ==> e.Removing? || e.CleanAborted? || e.SectionMissing?
  {
    if w.plexUp {
      var f := LibraryEvents(true, s, w);
      RunCompletes(true, s.libraries, s, w);
      forall i, e | 0 <= i < |s.libraries| && e in f(s.libraries[i])
        ensures e.Removing? || e.CleanAborted? || e.SectionMissing?
      {
        var lib := s.libraries[i];
        if lib in w.sections {
          CleanOnlyCrowded(w.sections[lib], s.dataFolder, w.dirs, lib);
        }
      }
      ConcatAll(s.libraries, f, (e: PosterEvent) => e.Removing? || e.CleanAborted? || e.SectionMissing?);
    }
  }

  /** Apply mode never removes a file. */
  lemma {:induction false} ApplyRunNeverRemoves(libs: seq<string>, s: Settings, w: World)
    ensures forall e :: e in RunLibraries(false, libs, s, w).events ==> !e.Removing? && !e.CleanAborted?
    decreases |libs|
  {
    if libs != [] {
      var lib := libs[0];
      ApplyRunNeverRemoves(libs[1..], s, w);
      if lib in w.sections {
        ApplyCollectionsKinds(w.sections[lib], UserPostersOf(s, w), w.groups, w.accepts);
      }
    }
  }

  /** The loop resumed at library `i`: that library, then the rest if it lets the script go on. */
  lemma RunLibrariesAt(clean: bool, libs: seq<string>, i: nat, s: Settings, w: World)
    requires i < |libs|
    ensures var o := LibraryOutcome(clean, libs[i], s, w);
      RunLibraries(clean, libs[i..], s, w) ==
        if o.stop != Completed then o else After(o.events, RunLibraries(clean, libs[i + 1..], s, w))
  {
    assert libs[i..][0] == libs[i] && libs[i..][1..] == libs[i + 1..];
  }

  lemma AfterAfter(a: seq<PosterEvent>, b: seq<PosterEvent>, o: Outcome)
    ensures After(a, After(b, o)) == After(a + b, o)
  {
    assert a + (b + o.events) == a + b + o.events;
  }

  /** One library, as the script runs it. */
  method PosterLibrary(clean: bool, lib: string, s: Settings, w: World) returns (o: Outcome)
    ensures o == LibraryOutcome(clean, lib, s, w)
  {
    if lib !in w.sections {
      return Outcome([SectionMissing(lib)], Completed);
    }
    var cols := w.sections[lib];
    if clean {
      var removed := CleanLibrary(cols, s.dataFolder, w.dirs, lib);
      return Outcome(removed, Completed);
    }
    if !w.shokoUp {
      return Outcome([], ShokoUnavailable);
    }
    var posters: Option<seq<string>> := None;
    if s.postersFolder != [] {
      if w.listing.None? {
        return Outcome([], FolderUnreadable);
      }
      var collected := CollectUserPosters(w.listing.value);
      posters := Some(collected);
    }
    var applied := ApplyLibrary(cols, posters, w.groups, w.accepts);
    o := Outcome(applied, Completed);
  }

  /** The loop over the configured libraries. */
  method PosterLibraries(clean: bool, s: Settings, w: World) returns (outcome: Outcome)
    ensures outcome == RunLibraries(clean, s.libraries, s, w)
  {
    var libs := s.libraries;
    ghost var total := RunLibraries(clean, libs, s, w);
    var events: seq<PosterEvent> := [];
    var i := 0;
    while i < |libs|
      invariant 0 <= i <= |libs|
      invariant total == After(events, RunLibraries(clean, libs[i..], s, w))
    {
      RunLibrariesAt(clean, libs, i, s, w);
      var o := PosterLibrary(clean, libs[i], s, w);
      if o.stop != Completed {
        return Outcome(events + o.events, o.stop);
      }
      AfterAfter(events, o.events, RunLibraries(clean, libs[i + 1..], s, w));
      events := events + o.events;
      i := i + 1;
    }
    outcome := Outcome(events, Completed);
  }

  /** The script from top to bottom. */
  method RunPosters(arg: Option<string>, s: Settings, w: World) returns (outcome: Outcome)
    ensures outcome == Run(arg, s, w)
  {
    var flag := CleanFlag(arg);
    if flag.Err? {
      return Outcome([], InvalidArgument);
    }
    if !w.plexUp {
      return Outcome([], PlexUnavailable);
    }
    outcome := PosterLibraries(flag.value, s, w);
  }
}
