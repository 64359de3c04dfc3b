/**
 * Clean mode of the collection-poster script: for every collection with
 * more than two posters, list its uploaded-posters directory, sort the
 * entries by creation time and remove all but the newest.
 */
module PosterClean {
  import opened Seqs
  import opened Text
  import opened PosterApply

  /** A directory entry and its creation time (`os.path.getctime`). */
  datatype PosterFile = PosterFile(name: string, ctime: int)

  predicate SortedByCtime(s: seq<PosterFile>)
  {
    forall i, j :: 0 <= i < j < |s| ==> s[i].ctime <= s[j].ctime
  }

  /** Inserts `f` after every entry not newer than it, so equal times keep their order. */
  function InsertByCtime(f: PosterFile, s: seq<PosterFile>): (r: seq<PosterFile>)
    ensures |r| == |s| + 1
  {
    if s == [] || f.ctime < s[0].ctime then [f] + s
    else [s[0]] + InsertByCtime(f, s[1..])
  }

  /** `sorted(entries, key=getctime)`: a stable sort by creation time. */
  function SortByCtime(entries: seq<PosterFile>): (r: seq<PosterFile>)
    ensures |r| == |entries|
  {
    if entries == [] then []
    else InsertByCtime(entries[|entries| - 1], SortByCtime(entries[..|entries| - 1]))
  }

  lemma {:induction false} InsertPermutes(f: PosterFile, s: seq<PosterFile>)
    ensures multiset(InsertByCtime(f, s)) == multiset(s) + multiset{f}
  {
    if s != [] && f.ctime >= s[0].ctime {
      InsertPermutes(f, s[1..]);
      assert s == [s[0]] + s[1..];
    }
  }

  lemma {:induction false} InsertSorted(f: PosterFile, s: seq<PosterFile>)
    requires SortedByCtime(s)
    ensures SortedByCtime(InsertByCtime(f, s))
  {
    if s != [] && f.ctime >= s[0].ctime {
      var r := InsertByCtime(f, s[1..]);
      InsertSorted(f, s[1..]);
      InsertPermutes(f, s[1..]);
      forall i | 0 <= i < |r| ensures s[0].ctime <= r[i].ctime {
        assert r[i] in multiset(r);
        if r[i] != f {
          assert r[i] in multiset(s[1..]);
          var j :| 0 <= j < |s[1..]| && s[1..][j] == r[i];
          assert s[j + 1] == r[i];
        }
      }
    }
  }

  /** The sort orders the entries by creation time and loses or adds none. */
  lemma SortByCtimeCorrect(entries: seq<PosterFile>)
    ensures SortedByCtime(SortByCtime(entries))
    ensures multiset(SortByCtime(entries)) == multiset(entries)
  {
    SortByCtimeSorted(entries);
    SortByCtimePermutes(entries);
  }

  lemma {:induction false} SortByCtimeSorted(entries: seq<PosterFile>)
    ensures SortedByCtime(SortByCtime(entries))
  {
    if entries != [] {
      var init := entries[..|entries| - 1];
      SortByCtimeSorted(init);
      InsertSorted(entries[|entries| - 1], SortByCtime(init));
    }
  }

  lemma {:induction false} SortByCtimePermutes(entries: seq<PosterFile>)
    ensures multiset(SortByCtime(entries)) == multiset(entries)
  {
    if entries != [] {
      var init, last := entries[..|entries| - 1], entries[|entries| - 1];
      SortByCtimePermutes(init);
      SortByCtimeSnoc(entries);
      InsertPermutes(last, SortByCtime(init));
      MultisetSnoc(entries);
    }
  }

  /** Sorting a non-empty list inserts its last entry into the sorted rest. */
  lemma SortByCtimeSnoc(entries: seq<PosterFile>)
    requires entries != []
    ensures SortByCtime(entries) == InsertByCtime(entries[|entries| - 1], SortByCtime(entries[..|entries| - 1]))
  {
  }

  lemma MultisetSnoc(entries: seq<PosterFile>)
    requires entries != []
    ensures multiset(entries) == multiset(entries[..|entries| - 1]) + multiset{entries[|entries| - 1]}
  {
    assert entries == entries[..|entries| - 1] + [entries[|entries| - 1]];
  }

  /** `sorted(...)[:-1]`: every entry but the last in creation order; nothing for an empty directory. */
  function DeletedFiles(entries: seq<PosterFile>): seq<PosterFile>
  {
    var s := SortByCtime(entries);
    if s == [] then [] else s[..|s| - 1]
  }

  /** The entry clean mode keeps: the last one in creation order. */
  function Newest(entries: seq<PosterFile>): PosterFile
    requires entries != []
  {
    SortByCtime(entries)[|entries| - 1]
  }

  /**
   * Exactly one entry of a non-empty directory survives, and it is one
   * with the latest creation time; the deleted entries are all the others.
   */
  lemma CleanKeepsNewest(entries: seq<PosterFile>)
    requires entries != []
    ensures Newest(entries) in entries
    ensures forall f :: f in entries ==> f.ctime <= Newest(entries).ctime
    ensures multiset(DeletedFiles(entries)) + multiset{Newest(entries)} == multiset(entries)
  {
    SortByCtimeSorted(entries);
    SortByCtimePermutes(entries);
    DeletedAndNewest(entries);
    forall f | f in entries ensures f.ctime <= Newest(entries).ctime {
      assert f in multiset(SortByCtime(entries));
      NewestLast(SortByCtime(entries), f);
    }
  }

  /** The sorted entries are the deleted ones followed by the newest. */
  lemma DeletedAndNewest(entries: seq<PosterFile>)
    requires entries != []
    ensures multiset(DeletedFiles(entries)) + multiset{Newest(entries)} == multiset(entries)
    ensures Newest(entries) in entries
  {
    SortByCtimePermutes(entries);
    var s := SortByCtime(entries);
    assert s == DeletedFiles(entries) + [Newest(entries)];
    assert Newest(entries) in multiset(s);
  }

  /** In a list sorted by creation time no entry is newer than the last. */
  lemma NewestLast(s: seq<PosterFile>, f: PosterFile)
    requires SortedByCtime(s) && f in s
    ensures f.ctime <= s[|s| - 1].ctime
  {
    var i :| 0 <= i < |s| && s[i] == f;
    if i < |s| - 1 {
      assert s[i].ctime <= s[|s| - 1].ctime;
    }
  }

  /** The removals of one collection: one per deleted entry, all inside its posters directory. */
  function Removals(title: string, dir: string, entries: seq<PosterFile>): seq<PosterEvent>
  {
    var del := DeletedFiles(entries);
    seq(|del|, i requires 0 <= i < |del| => Removing(title, dir, del[i].name))
  }

  /** `os.path.join(DataFolder, metadataDirectory, 'Uploads', 'posters')`. */
  function PostersDir(dataFolder: string, metadataDir: string): string
  {
    Join(Join(Join(dataFolder, metadataDir), "Uploads"), "posters")
  }

  /**
   * The collections of one library in clean mode. The `try` covers the
   * whole loop, so a directory that cannot be listed ends the library.
   */
  function CleanCollections(cols: seq<Collection>, dataFolder: string, dirs: map<string, seq<PosterFile>>,
                            library: string): seq<PosterEvent>
    decreases |cols|
  {
    if cols == [] then []
    else
      var c := cols[0];
      var rest := CleanCollections(cols[1..], dataFolder, dirs, library);
      if c.posterCount <= 2 then rest
      else
        var d := PostersDir(dataFolder, c.metadataDir);
        if d !in dirs then [CleanAborted(library)]
        else Removals(c.title, d, dirs[d]) + rest
  }

  /** A removal is of a non-newest entry in the posters directory of `c`, which has more than two posters. */
  ghost predicate JustifiedBy(e: PosterEvent, c: Collection, dataFolder: string, dirs: map<string, seq<PosterFile>>)
    requires e.Removing?
  {
    c.posterCount > 2 && c.title == e.collection &&
    e.directory == PostersDir(dataFolder, c.metadataDir) && e.directory in dirs &&
    exists f :: f in DeletedFiles(dirs[e.directory]) && f.name == e.file
  }

  /** A removal justified by one of the collections. */
  ghost predicate Justified(e: PosterEvent, cols: seq<Collection>, dataFolder: string, dirs: map<string, seq<PosterFile>>)
    requires e.Removing?
  {
    exists i :: 0 <= i < |cols| && JustifiedBy(e, cols[i], dataFolder, dirs)
  }

  /**
   * Clean mode removes files only of collections with more than two
   * posters, only inside that collection's posters directory, and only
   * entries that are not the newest one there.
   */
  lemma {:induction false} CleanOnlyCrowded(cols: seq<Collection>, dataFolder: string, dirs: map<string, seq<PosterFile>>,
                                            library: string)
    ensures forall e :: e in CleanCollections(cols, dataFolder, dirs, library) ==>
      (e.Removing? || e == CleanAborted(library)) && (e.Removing? ==> Justified(e, cols, dataFolder, dirs))
    decreases |cols|
  {
    if cols != [] {
      var tail := cols[1..];
      CleanOnlyCrowded(tail, dataFolder, dirs, library);
      forall e | e in CleanCollections(tail, dataFolder, dirs, library) && e.Removing?
        ensures Justified(e, cols, dataFolder, dirs)
      {
        var i :| 0 <= i < |tail| && JustifiedBy(e, tail[i], dataFolder, dirs);
        assert cols[i + 1] == tail[i];
      }
      var c := cols[0];
      var d := PostersDir(dataFolder, c.metadataDir);
      if c.posterCount > 2 && d in dirs {
        forall e | e in Removals(c.title, d, dirs[d])
          ensures e.Removing? && Justified(e, cols, dataFolder, dirs)
        {
          RemovalOfDeleted(c.title, d, dirs[d], e);
          assert JustifiedBy(e, cols[0], dataFolder, dirs);
        }
      }
    }
  }

  /** Each removal of a collection names its title, its directory and one of the entries to delete. */
  lemma RemovalOfDeleted(title: string, dir: string, entries: seq<PosterFile>, e: PosterEvent)
    requires e in Removals(title, dir, entries)
    ensures e.Removing? && e.collection == title && e.directory == dir
    ensures exists f :: f in DeletedFiles(entries) && f.name == e.file
  {
    var del := DeletedFiles(entries);
    var k :| 0 <= k < |del| && Removals(title, dir, entries)[k] == e;
    assert del[k] in del;
  }

  /** The removal loop over `sorted(...)[:-1]` for one collection. */
  method RemoveOldPosters(title: string, dir: string, entries: seq<PosterFile>) returns (events: seq<PosterEvent>)
    ensures events == Removals(title, dir, entries)
  {
    var del := DeletedFiles(entries);
    events := [];
    var i := 0;
    while i < |del|
      invariant 0 <= i <= |del| && |events| == i
      invariant forall k :: 0 <= k < i ==> events[k] == Removing(title, dir, del[k].name)
    {
      events := events + [Removing(title, dir, del[i].name)];
      i := i + 1;
    }
  }

  /** The loop over the collections of one library in clean mode; a listing failure ends it. */
  method CleanLibrary(cols: seq<Collection>, dataFolder: string, dirs: map<string, seq<PosterFile>>, library: string)
    returns (events: seq<PosterEvent>)
    ensures events == CleanCollections(cols, dataFolder, dirs, library)
  {
    events := [];
    var i := 0;
    while i < |cols|
      invariant 0 <= i <= |cols|
      invariant CleanCollections(cols, dataFolder, dirs, library) == events + CleanCollections(cols[i..], dataFolder, dirs, library)
    {
      assert cols[i..][0] == cols[i] && cols[i..][1..] == cols[i + 1..];
      var c := cols[i];
      if c.posterCount > 2 {
        var d := PostersDir(dataFolder, c.metadataDir);
        if d !in dirs {
          events := events + [CleanAborted(library)];
          return;
        }
        var more := RemoveOldPosters(c.title, d, dirs[d]);
        events := events + more;
      }
      i := i + 1;
    }
  }
}
