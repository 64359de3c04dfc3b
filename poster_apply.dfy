/**
 * Applying posters to the collections of one library: every user poster
 * whose stem is the sanitised collection title is uploaded, and Shoko's
 * group poster is used only when no user poster was uploaded.
 */
module PosterApply {
  import opened Wrappers
  import opened Seqs
  import opened PosterFiles
  import opened Text

  /** A Plex collection: its title, its metadata directory, and how many posters Plex lists for it. */
  datatype Collection = Collection(title: string, metadataDir: string, posterCount: nat)

  /** The first poster of the first top-level Shoko group whose name starts with the title. */
  datatype ShokoPoster = ShokoPoster(source: string, id: nat)

  datatype PosterSource = UserFile(name: string) | Shoko(poster: ShokoPoster)

  datatype PosterEvent =
    | Uploaded(collection: string, source: PosterSource)      // "Relaying: ..." and `uploadPoster` succeeded
    | UploadFailed(collection: string, source: PosterSource)  // `uploadPoster` raised
    | NoShokoGroup(collection: string)                        // the group search has no poster
    | SectionMissing(library: string)                         // the library section lookup raised
    | Removing(collection: string, directory: string, file: string)  // clean mode: `os.remove`
    | CleanAborted(library: string)                           // clean mode: a poster directory could not be listed

  /** The test a user poster passes to match a collection: its stem is the sanitised title. */
  function MatchesTitle(title: string): string -> bool
  {
    p => Stem(p) == Sanitized(title)
  }

  /** The user posters matching a collection, in folder order. */
  function Matched(title: string, posters: seq<string>): seq<string>
  {
    Filter(posters, MatchesTitle(title))
  }

  /** The events of the user-poster pass over a collection, and whether one upload succeeded. */
  datatype Pass = Pass(events: seq<PosterEvent>, uploaded: bool)

  /**
   * The loop over the user posters for one collection: each match is
   * uploaded and the loop goes on (the `continue` does not stop it); an
   * upload that raises ends the loop.
   */
  function UserPass(title: string, posters: seq<string>, accepts: (string, PosterSource) -> bool): Pass
    decreases |posters|
  {
    if posters == [] then Pass([], false)
    else
      var p := posters[0];
      if Stem(p) != Sanitized(title) then UserPass(title, posters[1..], accepts)
      else if !accepts(title, UserFile(p)) then Pass([UploadFailed(title, UserFile(p))], false)
      else
        var rest := UserPass(title, posters[1..], accepts);
        Pass([Uploaded(title, UserFile(p))] + rest.events, true)
  }

  /** One upload per name, in order. */
  function Uploads(title: string, names: seq<string>): seq<PosterEvent>
  {
    seq(|names|, i requires 0 <= i < |names| => Uploaded(title, UserFile(names[i])))
  }

  lemma UploadsCons(title: string, p: string, names: seq<string>)
    ensures Uploads(title, [p] + names) == [Uploaded(title, UserFile(p))] + Uploads(title, names)
  {
    var l, r := Uploads(title, [p] + names), [Uploaded(title, UserFile(p))] + Uploads(title, names);
    assert |l| == |r|;
    forall i | 0 <= i < |l| ensures l[i] == r[i] {
      if i > 0 {
        assert ([p] + names)[i] == names[i - 1];
      }
    }
  }

  /** When every upload succeeds, every matching poster is uploaded, in folder order, and nothing else. */
  lemma UserPassUploadsAllMatches(title: string, posters: seq<string>, accepts: (string, PosterSource) -> bool)
    requires forall i :: 0 <= i < |posters| ==> accepts(title, UserFile(posters[i]))
    ensures UserPass(title, posters, accepts).events == Uploads(title, Matched(title, posters))
    ensures UserPass(title, posters, accepts).uploaded <==> Matched(title, posters) != []
  {
    UserPassUploadsEach(title, posters, accepts);
    UserPassFallback(title, posters, accepts);
    var m := Matched(title, posters);
    if m != [] {
      FilterMember(posters, MatchesTitle(title), m[0]);
    }
  }

  lemma {:induction false} UserPassUploadsEach(title: string, posters: seq<string>, accepts: (string, PosterSource) -> bool)
    requires forall i :: 0 <= i < |posters| ==> accepts(title, UserFile(posters[i]))
    ensures UserPass(title, posters, accepts).events == Uploads(title, Matched(title, posters))
    decreases |posters|
  {
    if posters != [] {
      var p, tail := posters[0], posters[1..];
      assert forall i :: 0 <= i < |tail| ==> tail[i] == posters[i + 1];
      UserPassUploadsEach(title, tail, accepts);
      FilterCons(posters, MatchesTitle(title));
      var m := Matched(title, tail);
      if MatchesTitle(title)(p) {
        assert Matched(title, posters) == [p] + m;
        UploadsCons(title, p, m);
      } else {
        assert Matched(title, posters) == m;
      }
    }
  }

  /**
   * The Shoko fallback flag stays set iff no user poster matches, or the
   * first matching one fails to upload.
   */
  lemma {:induction false} UserPassFallback(title: string, posters: seq<string>, accepts: (string, PosterSource) -> bool)
    ensures !UserPass(title, posters, accepts).uploaded <==>
      Matched(title, posters) == [] || !accepts(title, UserFile(Matched(title, posters)[0]))
    decreases |posters|
  {
    if posters != [] {
      UserPassFallback(title, posters[1..], accepts);
      FilterCons(posters, MatchesTitle(title));
    }
  }

  /** The pass uploads, or tries to upload, only posters of the folder that match the title. */
  lemma {:induction false} UserPassOnlyMatches(title: string, posters: seq<string>, accepts: (string, PosterSource) -> bool)
    ensures forall e :: e in UserPass(title, posters, accepts).events ==>
      (e.Uploaded? || e.UploadFailed?) && e.collection == title && e.source.UserFile? &&
      e.source.name in posters && Stem(e.source.name) == Sanitized(title)
    decreases |posters|
  {
    if posters != [] {
      UserPassOnlyMatches(title, posters[1..], accepts);
    }
  }

  /** The loop over the user posters, with the `fallback` flag it clears. */
  method ApplyUserPosters(title: string, posters: seq<string>, accepts: (string, PosterSource) -> bool)
    returns (events: seq<PosterEvent>, fallback: bool)
    ensures events == UserPass(title, posters, accepts).events
    ensures fallback == !UserPass(title, posters, accepts).uploaded
  {
    events, fallback := [], true;
    var i := 0;
    ghost var total := UserPass(title, posters, accepts);
    while i < |posters|
      invariant 0 <= i <= |posters|
      invariant total.events == events + UserPass(title, posters[i..], accepts).events
      invariant total.uploaded == (!fallback || UserPass(title, posters[i..], accepts).uploaded)
    {
      assert posters[i..][0] == posters[i] && posters[i..][1..] == posters[i + 1..];
      ghost var here, next := UserPass(title, posters[i..], accepts), UserPass(title, posters[i + 1..], accepts);
      var formatted := SanitizeTitle(title);
      var stem := Stem(posters[i]);
      if stem == formatted {
        if !accepts(title, UserFile(posters[i])) {
          assert here == Pass([UploadFailed(title, UserFile(posters[i]))], false);
          events := events + [UploadFailed(title, UserFile(posters[i]))];
          return;
        }
        assert here == Pass([Uploaded(title, UserFile(posters[i]))] + next.events, true);
        events := events + [Uploaded(title, UserFile(posters[i]))];
        fallback := false;
      } else {
        assert here == next;
      }
      i := i + 1;
    }
  }

  /** The Shoko group poster: none found, or uploaded, or refused by the upload. */
  function ShokoFallback(title: string, found: Option<ShokoPoster>, accepts: (string, PosterSource) -> bool): seq<PosterEvent>
  {
    match found
    case None => [NoShokoGroup(title)]
    case Some(sp) =>
      if accepts(title, Shoko(sp)) then [Uploaded(title, Shoko(sp))] else [UploadFailed(title, Shoko(sp))]
  }

  /**
   * One collection: the user-poster pass when a posters folder is
   * configured (`userPosters` is its poster list), then the Shoko group
   * poster if the fallback flag is still set.
   */
  function ApplyCollection(title: string, userPosters: Option<seq<string>>, groups: string -> Option<ShokoPoster>,
                           accepts: (string, PosterSource) -> bool): seq<PosterEvent>
  {
    var pass := if userPosters.Some? then UserPass(title, userPosters.value, accepts) else Pass([], false);
    pass.events + (if pass.uploaded then [] else ShokoFallback(title, groups(title), accepts))
  }

  /**
   * Shoko is consulted for a collection iff no posters folder is
   * configured, no user poster matches the title, or the first matching
   * one fails to upload.
   */
  lemma ShokoConsultedIff(title: string, userPosters: Option<seq<string>>, groups: string -> Option<ShokoPoster>,
                          accepts: (string, PosterSource) -> bool)
    ensures var shoko := ShokoFallback(title, groups(title), accepts);
      var consulted := userPosters.None? || Matched(title, userPosters.value) == [] ||
        !accepts(title, UserFile(Matched(title, userPosters.value)[0]));
      var own := if userPosters.Some? then UserPass(title, userPosters.value, accepts).events else [];
      && (consulted ==> ApplyCollection(title, userPosters, groups, accepts) == own + shoko)
      && (!consulted ==> ApplyCollection(title, userPosters, groups, accepts) == own)
      && (!consulted ==> forall e :: e in own ==> (e.Uploaded? || e.UploadFailed?) && e.source.UserFile?)
  {
    if userPosters.Some? {
      UserPassFallback(title, userPosters.value, accepts);
      UserPassOnlyMatches(title, userPosters.value, accepts);
    }
  }

  /** The posters of a whole library section, collection by collection. */
  function CollectionApply(userPosters: Option<seq<string>>, groups: string -> Option<ShokoPoster>,
                           accepts: (string, PosterSource) -> bool): Collection -> seq<PosterEvent>
  {
    (c: Collection) => ApplyCollection(c.title, userPosters, groups, accepts)
  }

  function ApplyCollections(cols: seq<Collection>, userPosters: Option<seq<string>>, groups: string -> Option<ShokoPoster>,
                            accepts: (string, PosterSource) -> bool): seq<PosterEvent>
  {
    Concat(cols, CollectionApply(userPosters, groups, accepts))
  }

  /** A collection's own events: uploads and reports about that collection and nothing else. */
  lemma ApplyCollectionKinds(title: string, userPosters: Option<seq<string>>, groups: string -> Option<ShokoPoster>,
                             accepts: (string, PosterSource) -> bool)
    ensures forall e :: e in ApplyCollection(title, userPosters, groups, accepts) ==>
      (e.Uploaded? || e.UploadFailed? || e.NoShokoGroup?) && e.collection == title
  {
    if userPosters.Some? {
      UserPassOnlyMatches(title, userPosters.value, accepts);
    }
  }

  /** Applying posters to a section only uploads or reports, each time for one of its collections. */
  lemma ApplyCollectionsKinds(cols: seq<Collection>, userPosters: Option<seq<string>>, groups: string -> Option<ShokoPoster>,
                              accepts: (string, PosterSource) -> bool)
    ensures forall e :: e in ApplyCollections(cols, userPosters, groups, accepts) ==>
      (e.Uploaded? || e.UploadFailed? || e.NoShokoGroup?) && exists i :: 0 <= i < |cols| && e.collection == cols[i].title
  {
    var f := CollectionApply(userPosters, groups, accepts);
    forall e | e in ApplyCollections(cols, userPosters, groups, accepts)
      ensures (e.Uploaded? || e.UploadFailed? || e.NoShokoGroup?) && exists i :: 0 <= i < |cols| && e.collection == cols[i].title
    {
      ConcatMember(cols, f, e);
      var i :| 0 <= i < |cols| && e in f(cols[i]);
      ApplyCollectionKinds(cols[i].title, userPosters, groups, accepts);
    }
  }

  /** One collection, as the script runs it. */
  method ApplyPoster(title: string, userPosters: Option<seq<string>>, groups: string -> Option<ShokoPoster>,
                     accepts: (string, PosterSource) -> bool) returns (events: seq<PosterEvent>)
    ensures events == ApplyCollection(title, userPosters, groups, accepts)
  {
    var fallback := true;
    events := [];
    if userPosters.Some? {
      events, fallback := ApplyUserPosters(title, userPosters.value, accepts);
    }
    if fallback {
      events := events + ShokoFallback(title, groups(title), accepts);
    }
  }

  /** The loop over the collections of one library section. */
  method ApplyLibrary(cols: seq<Collection>, userPosters: Option<seq<string>>, groups: string -> Option<ShokoPoster>,
                      accepts: (string, PosterSource) -> bool) returns (events: seq<PosterEvent>)
    ensures events == ApplyCollections(cols, userPosters, groups, accepts)
  {
    events := [];
    var i := 0;
    while i < |cols|
      invariant 0 <= i <= |cols|
      invariant events == ApplyCollections(cols[..i], userPosters, groups, accepts)
    {
      ConcatStep(cols, i, CollectionApply(userPosters, groups, accepts));
      var more := ApplyPoster(cols[i].title, userPosters, groups, accepts);
      events := events + more;
      i := i + 1;
    }
    assert cols[..i] == cols;
  }
}
