/**
 * The reconciliation rules of the watched-state sync, one Plex library at
 * a time. Plex and Shoko are replaced by their answers (the episodes of a
 * library section, Shoko's reply to a PathEndsWith query) and by the
 * sequence of events the script issues: the two writes (`markPlayed`,
 * `Watched/true`) and the lines it reports.
 */
module SyncEngine {
  import opened Wrappers
  import opened Text
  import opened SyncArgs
  import opened SyncAccounts
  import opened Seqs

  /** A Plex episode as one account sees it: rating key, title, the files of its parts, watched state. */
  datatype Episode = Episode(key: nat, title: string, parts: seq<string>, watched: bool)

  /** One file of a PathEndsWith answer: its `Watched` value and the `EpisodeIDs` of each `SeriesIDs` grouping. */
  datatype FileRecord = FileRecord(watched: Option<bool>, seriesEpisodeIds: seq<seq<nat>>)

  /** Shoko's answer to PathEndsWith: a list of files, or a JSON object (an error status) that cannot be indexed by 0. */
  datatype Reply = Files(records: seq<FileRecord>) | NotAList

  /** An episode of Shoko's watched list: the relative path of every location of every file. */
  datatype ShokoEpisode = ShokoEpisode(fileLocations: seq<seq<string>>)

  datatype Event =
    | MarkPlayed(account: Account, episode: nat)  // `episode.markPlayed()` in Plex
    | SetWatched(episodeId: nat)                  // POST `Episode/{id}/Watched/true` to Shoko
    | Relaying(key: string, title: string)        // "Relaying: key -> title"
    | Importing(fileName: string)                 // "Importing: file name"
    | MatchFailed(key: string)                    // "Failed: make sure that key is matched by Shoko"
    | SectionMissing(library: string)             // the library section lookup raised

  /**
   * The export match key: one separator, then the file name. Prefixing the
   * separator keeps a file name from matching the tail of a longer one.
   */
  function MatchKey(path: string): string
  {
    [Sep] + Basename(path)
  }

  /** The key is one separator followed by a separator-free file name, and it ends the path with a separator put in front. */
  lemma MatchKeyShape(path: string)
    ensures MatchKey(path)[0] == Sep && Sep !in MatchKey(path)[1..]
    ensures EndsWith([Sep] + path, MatchKey(path))
  {
    var b := Basename(path);
    var s := [Sep] + path;
    BasenameShape(path);
    assert MatchKey(path)[1..] == b;
    SepSuffix(s, b);
    assert s[|s| - |b|..] == path[|path| - |b|..];
    assert s[|s| - |b| - 1] == Sep by {
      if |b| < |path| {
        assert s[|s| - |b| - 1] == path[|path| - |b| - 1];
      }
    }
  }

  /**
   * A Shoko path ends with the key of a Plex path iff it holds a separator
   * and has the same file name: roots may differ, longer names never match.
   */
  lemma MatchKeySuffix(plexPath: string, shokoPath: string)
    ensures EndsWith(shokoPath, MatchKey(plexPath)) <==>
      Sep in shokoPath && Basename(shokoPath) == Basename(plexPath)
  {
    if EndsWith(shokoPath, MatchKey(plexPath)) {
      MatchedKeySameName(plexPath, shokoPath);
    }
    if Sep in shokoPath && Basename(shokoPath) == Basename(plexPath) {
      SameNameMatchesKey(plexPath, shokoPath);
    }
  }

  lemma MatchedKeySameName(plexPath: string, shokoPath: string)
    requires EndsWith(shokoPath, MatchKey(plexPath))
    ensures Sep in shokoPath && Basename(shokoPath) == Basename(plexPath)
  {
    var b := Basename(plexPath);
    BasenameShape(plexPath);
    SepSuffix(shokoPath, b);
    BasenameUnique(shokoPath, b);
  }

  lemma SameNameMatchesKey(plexPath: string, shokoPath: string)
    requires Sep in shokoPath && Basename(shokoPath) == Basename(plexPath)
    ensures EndsWith(shokoPath, MatchKey(plexPath))
  {
    var b := Basename(shokoPath);
    BasenameShape(shokoPath);
    ShorterThanPath(shokoPath, b);
    SepSuffix(shokoPath, b);
  }

  /** The export write rule: the reply's first file has no watched information, and `id` is in its first grouping. */
  predicate RelaysId(reply: Reply, id: nat)
  {
    && reply.Files?
    && |reply.records| > 0
    && reply.records[0].watched.None?
    && |reply.records[0].seriesEpisodeIds| > 0
    && id in reply.records[0].seriesEpisodeIds[0]
  }

  /** The lookup of one part cannot be used: not a list, or an empty one. */
  predicate Unmatched(reply: Reply)
  {
    reply.NotAList? || |reply.records| == 0
  }

  function Relays(ids: seq<nat>): (ev: seq<Event>)
    ensures forall e :: e in ev ==> e.SetWatched?
    ensures forall id :: SetWatched(id) in ev <==> id in ids
  {
    var ev := seq(|ids|, i requires 0 <= i < |ids| => SetWatched(ids[i]));
    assert forall id :: id in ids ==> SetWatched(id) in ev by {
      forall id | id in ids ensures SetWatched(id) in ev {
        var i :| 0 <= i < |ids| && ids[i] == id;
        assert ev[i] == SetWatched(id);
      }
    }
    ev
  }

  /**
   * Exporting one part of a watched episode, given Shoko's reply for its key.
   * A True or False `Watched` is already synced and stays silent; anything
   * the script cannot index is reported and ends only this part.
   */
  function ExportPart(title: string, path: string, reply: Reply): seq<Event>
  {
    var key := MatchKey(path);
    match reply
    case NotAList => [MatchFailed(key)]
    case Files(fs) =>
      if |fs| == 0 then [MatchFailed(key)]
      else if fs[0].watched.Some? then []
      else if |fs[0].seriesEpisodeIds| == 0 then [Relaying(key, title), MatchFailed(key)]
      else [Relaying(key, title)] + Relays(fs[0].seriesEpisodeIds[0])
  }

  /**
   * The export write rule for one part: Shoko episode `id` is set watched
   * iff the first file of the reply has no watched information and `id` is
   * in its first grouping; a True or False `Watched` writes and reports
   * nothing; an unusable reply is reported as a failure.
   */
  lemma ExportPartRule(title: string, path: string, reply: Reply)
    ensures forall id :: SetWatched(id) in ExportPart(title, path, reply) <==> RelaysId(reply, id)
    ensures forall e :: e in ExportPart(title, path, reply) ==> e.SetWatched? || e.Relaying? || e.MatchFailed?
    ensures ExportPart(title, path, reply) == [] <==>
      reply.Files? && |reply.records| > 0 && reply.records[0].watched.Some?
    ensures Unmatched(reply) ==> ExportPart(title, path, reply) == [MatchFailed(MatchKey(path))]
  {
  }

  /** The export of each part: look up its match key, then apply the write rule. */
  function PartExport(title: string, lookup: string -> Reply): string -> seq<Event>
  {
    p => ExportPart(title, p, lookup(MatchKey(p)))
  }

  /** Exporting the parts of one episode, in order, each looked up by its match key. */
  function ExportParts(title: string, parts: seq<string>, lookup: string -> Reply): seq<Event>
  {
    Concat(parts, PartExport(title, lookup))
  }

  /** The episodes the export query returns: watched ones inside the relative-date window. */
  predicate Exported(ep: Episode, inWindow: Episode -> bool)
  {
    ep.watched && inWindow(ep)
  }

  /** The export of each episode of a section: its parts when the export query returns it, nothing otherwise. */
  function EpisodeExport(lookup: string -> Reply, inWindow: Episode -> bool): Episode -> seq<Event>
  {
    (ep: Episode) => if Exported(ep, inWindow) then ExportParts(ep.title, ep.parts, lookup) else []
  }

  /** Exporting a library section: every part of every episode the export query returns. */
  function ExportEpisodes(eps: seq<Episode>, lookup: string -> Reply, inWindow: Episode -> bool): seq<Event>
  {
    Concat(eps, EpisodeExport(lookup, inWindow))
  }

  /** Shoko episode `id` is written for an episode exactly when one of its parts relays it. */
  lemma ExportPartsWrites(title: string, parts: seq<string>, lookup: string -> Reply, id: nat)
    ensures SetWatched(id) in ExportParts(title, parts, lookup) <==>
      exists p :: p in parts && RelaysId(lookup(MatchKey(p)), id)
  {
    var f := PartExport(title, lookup);
    ConcatMember(parts, f, SetWatched(id));
    forall i | 0 <= i < |parts|
      ensures SetWatched(id) in f(parts[i]) <==> RelaysId(lookup(MatchKey(parts[i])), id)
    {
      ExportPartRule(title, parts[i], lookup(MatchKey(parts[i])));
    }
  }

  /** Exporting a section produces only writes, "Relaying" lines and failure reports. */
  lemma ExportEpisodesKinds(eps: seq<Episode>, lookup: string -> Reply, inWindow: Episode -> bool)
    ensures forall e :: e in ExportEpisodes(eps, lookup, inWindow) ==> e.SetWatched? || e.Relaying? || e.MatchFailed?
  {
    forall e | e in ExportEpisodes(eps, lookup, inWindow)
      ensures e.SetWatched? || e.Relaying? || e.MatchFailed?
    {
      ConcatMember(eps, EpisodeExport(lookup, inWindow), e);
      var i :| 0 <= i < |eps| && e in EpisodeExport(lookup, inWindow)(eps[i]);
      ConcatMember(eps[i].parts, PartExport(eps[i].title, lookup), e);
      var j :| 0 <= j < |eps[i].parts| && e in PartExport(eps[i].title, lookup)(eps[i].parts[j]);
      ExportPartRule(eps[i].title, eps[i].parts[j], lookup(MatchKey(eps[i].parts[j])));
    }
  }

  /**
   * The export write set of a library: Shoko episode `id` is set watched iff
   * some part of some exported episode gets a reply whose first file has no
   * watched information and whose first grouping holds `id`.
   */
  lemma ExportEpisodesWrites(eps: seq<Episode>, lookup: string -> Reply, inWindow: Episode -> bool, id: nat)
    ensures SetWatched(id) in ExportEpisodes(eps, lookup, inWindow) <==>
      exists i, p :: 0 <= i < |eps| && Exported(eps[i], inWindow) && p in eps[i].parts &&
        RelaysId(lookup(MatchKey(p)), id)
  {
    var f := EpisodeExport(lookup, inWindow);
    ConcatMember(eps, f, SetWatched(id));
    forall i | 0 <= i < |eps|
      ensures SetWatched(id) in f(eps[i]) <==>
        Exported(eps[i], inWindow) && exists p :: p in eps[i].parts && RelaysId(lookup(MatchKey(p)), id)
    {
      ExportPartsWrites(eps[i].title, eps[i].parts, lookup, id);
    }
  }

  /** Importing one part: mark the episode played when the part's file name is in Shoko's watched list. */
  function ImportPart(account: Account, ep: Episode, path: string, watchedNames: seq<string>): seq<Event>
  {
    var name := Basename(path);
    if name in watchedNames then [MarkPlayed(account, ep.key), Importing(name)] else []
  }

  function PartImport(account: Account, ep: Episode, watchedNames: seq<string>): string -> seq<Event>
  {
    p => ImportPart(account, ep, p, watchedNames)
  }

  /** Importing the parts of one unwatched episode, in order. */
  function ImportParts(account: Account, ep: Episode, parts: seq<string>, watchedNames: seq<string>): seq<Event>
  {
    Concat(parts, PartImport(account, ep, watchedNames))
  }

  /** Some part of `ep` has a file name in Shoko's watched list. */
  predicate WatchedInShoko(ep: Episode, watchedNames: seq<string>)
  {
    exists p :: p in ep.parts && Basename(p) in watchedNames
  }

  /** The import of each episode of a section: its parts when Plex has it unwatched, nothing otherwise. */
  function EpisodeImport(account: Account, watchedNames: seq<string>): Episode -> seq<Event>
  {
    (ep: Episode) => if !ep.watched then ImportParts(account, ep, ep.parts, watchedNames) else []
  }

  /**
   * Importing a library section: the unwatched episodes, each marked played
   * once per part whose file name is in the watched list.
   */
  function ImportEpisodes(account: Account, eps: seq<Episode>, watchedNames: seq<string>): seq<Event>
  {
    Concat(eps, EpisodeImport(account, watchedNames))
  }

  /** Importing a section marks episodes played for this account only, and reports "Importing" lines. */
  lemma ImportEpisodesKinds(account: Account, eps: seq<Episode>, watchedNames: seq<string>)
    ensures forall e :: e in ImportEpisodes(account, eps, watchedNames) ==>
      (e.MarkPlayed? && e.account == account) || e.Importing?
  {
    forall e | e in ImportEpisodes(account, eps, watchedNames)
      ensures (e.MarkPlayed? && e.account == account) || e.Importing?
    {
      ConcatMember(eps, EpisodeImport(account, watchedNames), e);
      var i :| 0 <= i < |eps| && e in EpisodeImport(account, watchedNames)(eps[i]);
      ConcatMember(eps[i].parts, PartImport(account, eps[i], watchedNames), e);
    }
  }

  /** A part marks its episode played iff its file name is in Shoko's watched list. */
  lemma ImportPartsMarks(account: Account, ep: Episode, parts: seq<string>, watchedNames: seq<string>, k: nat)
    ensures MarkPlayed(account, k) in ImportParts(account, ep, parts, watchedNames) <==>
      k == ep.key && exists p :: p in parts && Basename(p) in watchedNames
  {
    var f := PartImport(account, ep, watchedNames);
    ConcatMember(parts, f, MarkPlayed(account, k));
    if k == ep.key && exists p :: p in parts && Basename(p) in watchedNames {
      var p :| p in parts && Basename(p) in watchedNames;
      var i :| 0 <= i < |parts| && parts[i] == p;
      assert MarkPlayed(account, k) in f(parts[i]);
    }
  }

  /**
   * The import write set of a library: episode `k` is marked played iff an
   * unwatched episode with key `k` has a part whose file name Shoko lists as watched.
   */
  lemma ImportEpisodesMarks(account: Account, eps: seq<Episode>, watchedNames: seq<string>, k: nat)
    ensures MarkPlayed(account, k) in ImportEpisodes(account, eps, watchedNames) <==>
      exists i :: 0 <= i < |eps| && eps[i].key == k && !eps[i].watched && WatchedInShoko(eps[i], watchedNames)
  {
    var f := EpisodeImport(account, watchedNames);
    ConcatMember(eps, f, MarkPlayed(account, k));
    forall i | 0 <= i < |eps|
      ensures MarkPlayed(account, k) in f(eps[i]) <==>
        eps[i].key == k && !eps[i].watched && WatchedInShoko(eps[i], watchedNames)
    {
      ImportPartsMarks(account, eps[i], eps[i].parts, watchedNames, k);
    }
  }

  /** The episodes a sequence of events marks played. */
  function PlayedKeys(events: seq<Event>): set<nat>
  {
    set e | e in events && e.MarkPlayed? :: e.episode
  }

  /** A section as Plex holds it once the episodes with the given keys are marked played. */
  function MarkedPlayed(eps: seq<Episode>, keys: set<nat>): seq<Episode>
  {
    seq(|eps|, i requires 0 <= i < |eps| => if eps[i].key in keys then eps[i].(watched := true) else eps[i])
  }

  /**
   * Import is idempotent: importing again into a section as the first
   * import left it marks nothing more played.
   */
  lemma ImportIdempotent(account: Account, eps: seq<Episode>, watchedNames: seq<string>)
    ensures var again := ImportEpisodes(account, MarkedPlayed(eps, PlayedKeys(ImportEpisodes(account, eps, watchedNames))), watchedNames);
      forall e :: e in again ==> !e.MarkPlayed?
  {
    var first := ImportEpisodes(account, eps, watchedNames);
    var keys := PlayedKeys(first);
    var after := MarkedPlayed(eps, keys);
    forall k: nat ensures MarkPlayed(account, k) !in ImportEpisodes(account, after, watchedNames) {
      ImportEpisodesMarks(account, after, watchedNames, k);
      ImportEpisodesMarks(account, eps, watchedNames, k);
      forall i | 0 <= i < |after| && after[i].key == k && !after[i].watched
        ensures !WatchedInShoko(after[i], watchedNames)
      {
        assert after[i] == eps[i];
        assert MarkPlayed(account, k) in first ==> k in keys;
      }
    }
    ImportEpisodesKinds(account, after, watchedNames);
  }

  /** One configured library for one account: a missing section is reported and skipped. */
  function SyncLibrary(mode: Mode, account: Account, sections: map<string, seq<Episode>>, library: string,
                       watchedNames: seq<string>, lookup: string -> Reply, inWindow: Episode -> bool): seq<Event>
  {
    if library !in sections then [SectionMissing(library)]
    else if mode == Import then ImportEpisodes(account, sections[library], watchedNames)
    else ExportEpisodes(sections[library], lookup, inWindow)
  }

  function LibrarySync(mode: Mode, account: Account, sections: map<string, seq<Episode>>,
                       watchedNames: seq<string>, lookup: string -> Reply, inWindow: Episode -> bool): string -> seq<Event>
  {
    library => SyncLibrary(mode, account, sections, library, watchedNames, lookup, inWindow)
  }

  /** All configured libraries for one account, in configured order. */
  function SyncLibraries(mode: Mode, account: Account, sections: map<string, seq<Episode>>, libraries: seq<string>,
                         watchedNames: seq<string>, lookup: string -> Reply, inWindow: Episode -> bool): seq<Event>
  {
    Concat(libraries, LibrarySync(mode, account, sections, watchedNames, lookup, inWindow))
  }

  /**
   * Export never marks anything played in Plex; import never writes to
   * Shoko; whatever is marked played is marked for this account.
   */
  lemma SyncLibrariesKinds(mode: Mode, account: Account, sections: map<string, seq<Episode>>, libraries: seq<string>,
                           watchedNames: seq<string>, lookup: string -> Reply, inWindow: Episode -> bool)
    ensures forall e :: e in SyncLibraries(mode, account, sections, libraries, watchedNames, lookup, inWindow) ==>
      && (mode == Export ==> !e.MarkPlayed? && !e.Importing?)
      && (mode == Import ==> !e.SetWatched? && !e.Relaying? && !e.MatchFailed?)
      && (e.MarkPlayed? ==> e.account == account)
  {
    var f := LibrarySync(mode, account, sections, watchedNames, lookup, inWindow);
    forall e | e in SyncLibraries(mode, account, sections, libraries, watchedNames, lookup, inWindow)
      ensures && (mode == Export ==> !e.MarkPlayed? && !e.Importing?)
              && (mode == Import ==> !e.SetWatched? && !e.Relaying? && !e.MatchFailed?)
              && (e.MarkPlayed? ==> e.account == account)
    {
      ConcatMember(libraries, f, e);
      var l :| 0 <= l < |libraries| && e in f(libraries[l]);
      if libraries[l] in sections {
        ImportEpisodesKinds(account, sections[libraries[l]], watchedNames);
        ExportEpisodesKinds(sections[libraries[l]], lookup, inWindow);
      }
    }
  }

  /**
   * Every episode an account's libraries mark played is an unwatched episode
   * of one of its configured sections whose file name Shoko lists as watched.
   */
  lemma LibrariesMarkOnlyMatched(mode: Mode, account: Account, sections: map<string, seq<Episode>>,
      libraries: seq<string>, watchedNames: seq<string>, lookup: string -> Reply, inWindow: Episode -> bool, k: nat)
    requires MarkPlayed(account, k) in SyncLibraries(mode, account, sections, libraries, watchedNames, lookup, inWindow)
    ensures mode == Import
    ensures exists l, i ::
      (0 <= l < |libraries| && libraries[l] in sections && 0 <= i < |sections[libraries[l]]| &&
       sections[libraries[l]][i].key == k && !sections[libraries[l]][i].watched &&
       WatchedInShoko(sections[libraries[l]][i], watchedNames))
  {
    SyncLibrariesKinds(mode, account, sections, libraries, watchedNames, lookup, inWindow);
    var f := LibrarySync(mode, account, sections, watchedNames, lookup, inWindow);
    ConcatMember(libraries, f, MarkPlayed(account, k));
    var l :| 0 <= l < |libraries| && MarkPlayed(account, k) in f(libraries[l]);
    ImportEpisodesMarks(account, sections[libraries[l]], watchedNames, k);
  }

  // Per-item isolation: each sequence of events is the concatenation of
  // the events of its items, so one failing item leaves the others intact.

  /**
   * A part whose PathEndsWith reply is empty or not a list is reported once;
   * the parts before and after it are exported exactly as without it.
   */
  lemma UnmatchedPartIsolated(title: string, parts: seq<string>, j: nat, lookup: string -> Reply)
    requires j < |parts| && Unmatched(lookup(MatchKey(parts[j])))
    ensures ExportParts(title, parts, lookup) ==
      ExportParts(title, parts[..j], lookup) + [MatchFailed(MatchKey(parts[j]))] + ExportParts(title, parts[j + 1..], lookup)
  {
    ConcatSplit(parts, j, PartExport(title, lookup));
    ExportPartRule(title, parts[j], lookup(MatchKey(parts[j])));
  }

  /** An episode's export events depend on that episode alone, wherever it sits in the section. */
  lemma ExportEpisodeIsolated(eps: seq<Episode>, j: nat, lookup: string -> Reply, inWindow: Episode -> bool)
    requires j < |eps|
    ensures ExportEpisodes(eps, lookup, inWindow) ==
      ExportEpisodes(eps[..j], lookup, inWindow) +
      (if Exported(eps[j], inWindow) then ExportParts(eps[j].title, eps[j].parts, lookup) else []) +
      ExportEpisodes(eps[j + 1..], lookup, inWindow)
  {
    ConcatSplit(eps, j, EpisodeExport(lookup, inWindow));
  }

  /** A configured library without a section is reported and skips only itself. */
  lemma MissingSectionIsolated(mode: Mode, account: Account, sections: map<string, seq<Episode>>, libraries: seq<string>,
      j: nat, watchedNames: seq<string>, lookup: string -> Reply, inWindow: Episode -> bool)
    requires j < |libraries| && libraries[j] !in sections
    ensures SyncLibraries(mode, account, sections, libraries, watchedNames, lookup, inWindow) ==
      SyncLibraries(mode, account, sections, libraries[..j], watchedNames, lookup, inWindow) +
      [SectionMissing(libraries[j])] +
      SyncLibraries(mode, account, sections, libraries[j + 1..], watchedNames, lookup, inWindow)
  {
    ConcatSplit(libraries, j, LibrarySync(mode, account, sections, watchedNames, lookup, inWindow));
  }

  // The loops of the script.

  /** The export loop over the parts of one episode, with the inner loop over the episode IDs to set watched. */
  method ExportEpisode(title: string, parts: seq<string>, lookup: string -> Reply) returns (events: seq<Event>)
    ensures events == ExportParts(title, parts, lookup)
  {
    events := [];
    var i := 0;
    while i < |parts|
      invariant 0 <= i <= |parts|
      invariant events == ExportParts(title, parts[..i], lookup)
    {
      ConcatStep(parts, i, PartExport(title, lookup));
      var key := MatchKey(parts[i]);
      var reply := lookup(key);
      if reply.NotAList? || |reply.records| == 0 {
        events := events + [MatchFailed(key)];
      } else if reply.records[0].watched.None? {
        events := events + [Relaying(key, title)];
        var groupings := reply.records[0].seriesEpisodeIds;
        if |groupings| == 0 {
          events := events + [MatchFailed(key)];
        } else {
          var ids := groupings[0];
          ghost var before := events;
          var j := 0;
          while j < |ids|
            invariant 0 <= j <= |ids|
            invariant events == before + Relays(ids[..j])
          {
            assert Relays(ids[..j + 1]) == Relays(ids[..j]) + [SetWatched(ids[j])];
            events := events + [SetWatched(ids[j])];
            j := j + 1;
          }
          assert ids[..j] == ids;
        }
      }
      i := i + 1;
    }
    assert parts[..i] == parts;
  }

  /** The export loop over the watched episodes of one library section. */
  method ExportLibrary(eps: seq<Episode>, lookup: string -> Reply, inWindow: Episode -> bool) returns (events: seq<Event>)
    ensures events == ExportEpisodes(eps, lookup, inWindow)
  {
    events := [];
    var i := 0;
    while i < |eps|
      invariant 0 <= i <= |eps|
      invariant events == ExportEpisodes(eps[..i], lookup, inWindow)
    {
      ConcatStep(eps, i, EpisodeExport(lookup, inWindow));
      if eps[i].watched && inWindow(eps[i]) {
        var more := ExportEpisode(eps[i].title, eps[i].parts, lookup);
        events := events + more;
      }
      i := i + 1;
    }
    assert eps[..i] == eps;
  }

  /** The import loop over the parts of one unwatched episode. */
  method ImportEpisode(account: Account, ep: Episode, watchedNames: seq<string>) returns (events: seq<Event>)
    ensures events == ImportParts(account, ep, ep.parts, watchedNames)
  {
    events := [];
    var i := 0;
    while i < |ep.parts|
      invariant 0 <= i <= |ep.parts|
      invariant events == ImportParts(account, ep, ep.parts[..i], watchedNames)
    {
      ConcatStep(ep.parts, i, PartImport(account, ep, watchedNames));
      var name := Basename(ep.parts[i]);
      if name in watchedNames {
        events := events + [MarkPlayed(account, ep.key), Importing(name)];
      }
      i := i + 1;
    }
    assert ep.parts[..i] == ep.parts;
  }

  /** The import loop over the unwatched episodes of one library section. */
  method ImportLibrary(account: Account, eps: seq<Episode>, watchedNames: seq<string>) returns (events: seq<Event>)
    ensures events == ImportEpisodes(account, eps, watchedNames)
  {
    events := [];
    var i := 0;
    while i < |eps|
      invariant 0 <= i <= |eps|
      invariant events == ImportEpisodes(account, eps[..i], watchedNames)
    {
      ConcatStep(eps, i, EpisodeImport(account, watchedNames));
      if !eps[i].watched {
        var more := ImportEpisode(account, eps[i], watchedNames);
        events := events + more;
      }
      i := i + 1;
    }
    assert eps[..i] == eps;
  }

  /** The loop over the configured library names for one connected account. */
  method SyncAccountLibraries(mode: Mode, account: Account, sections: map<string, seq<Episode>>, libraries: seq<string>,
                              watchedNames: seq<string>, lookup: string -> Reply, inWindow: Episode -> bool)
    returns (events: seq<Event>)
    ensures events == SyncLibraries(mode, account, sections, libraries, watchedNames, lookup, inWindow)
  {
    events := [];
    var i := 0;
    while i < |libraries|
      invariant 0 <= i <= |libraries|
      invariant events == SyncLibraries(mode, account, sections, libraries[..i], watchedNames, lookup, inWindow)
    {
      ConcatStep(libraries, i, LibrarySync(mode, account, sections, watchedNames, lookup, inWindow));
      var library := libraries[i];
      if library !in sections {
        events := events + [SectionMissing(library)];
      } else if mode == Import {
        var more := ImportLibrary(account, sections[library], watchedNames);
        events := events + more;
      } else {
        var more := ExportLibrary(sections[library], lookup, inWindow);
        events := events + more;
      }
      i := i + 1;
    }
    assert libraries[..i] == libraries;
  }

  /** The first location of the first file of a Shoko episode, when it has one. */
  function FirstLocation(e: ShokoEpisode): Option<string>
  {
    if |e.fileLocations| > 0 && |e.fileLocations[0]| > 0 then Some(e.fileLocations[0][0]) else None
  }

  /**
   * Shoko's watched list as file names: the basename of each episode's
   * first location, in order; None when an episode has no file or no
   * location, where the script's indexing raises and the run stops.
   */
  function WatchedFileNames(list: seq<ShokoEpisode>): Option<seq<string>>
  {
    if exists i :: 0 <= i < |list| && FirstLocation(list[i]).None? then None
    else Some(seq(|list|, i requires 0 <= i < |list| => Basename(FirstLocation(list[i]).value)))
  }

  /** The loop that appends one file name per Shoko watched episode. */
  method CollectWatchedNames(list: seq<ShokoEpisode>) returns (names: Option<seq<string>>)
    ensures names == WatchedFileNames(list)
    ensures names.Some? ==> |names.value| == |list|
    ensures names.None? <==> exists i :: 0 <= i < |list| && (|list[i].fileLocations| == 0 || |list[i].fileLocations[0]| == 0)
  {
    var acc: seq<string> := [];
    var i := 0;
    while i < |list|
      invariant 0 <= i <= |list| && |acc| == i
      invariant forall j :: 0 <= j < i ==> FirstLocation(list[j]).Some? && acc[j] == Basename(FirstLocation(list[j]).value)
    {
      var files := list[i].fileLocations;
      if |files| == 0 || |files[0]| == 0 {
        assert FirstLocation(list[i]).None?;
        return None;
      }
      acc := acc + [Basename(files[0][0])];
      i := i + 1;
    }
    assert acc == WatchedFileNames(list).value;
    names := Some(acc);
  }
}
