# Shoko Relay maintenance scripts: a Dafny model

This project models the decision rules of two maintenance scripts that sit between a Plex
Media Server and a Shoko Server:

- **`watched-sync.py`** reconciles watched states.
  - In export mode (the default) it takes every watched Plex episode inside a relative-date
    window. It looks each part's file up in Shoko by a separator-prefixed file name, and sets
    Shoko episodes watched when Shoko has no watched information for that file.
  - In import mode it builds the list of file names Shoko has watched. It marks every
    unwatched Plex episode played whose part has one of those names, after a (Y/N)
    confirmation per Plex account.
- **`collection-posters.py`** manages the posters of Plex collections.
  - In apply mode it uploads every user poster whose name, minus its extension, is the
    collection title stripped of the characters a file name cannot hold. It falls back to
    Shoko's group poster when no user poster was uploaded.
  - In clean mode it deletes all but the newest uploaded poster of every collection with more
    than two posters.

Plex, plex.tv, Shoko and the file system are replaced by their answers. These are given as
values in the model:

- the episodes of a library section;
- Shoko's reply to a file lookup;
- a folder listing;
- a directory's entries with their creation times;
- whether an upload succeeds.

Everything the scripts do to the outside world becomes a sequence of events: the two writes
(`markPlayed` and `Watched/true`), uploads, removals, and the lines they report. Each loop of
the scripts is a Dafny `method` with a `while` loop. It is proved equal to a specification
function over those values, and the properties are proved as lemmas about the functions.

Modules, one per file:

| module | file | what it holds |
|---|---|---|
| `Wrappers` | wrappers.dfy | `Option`, `Result` |
| `Seqs` | seqs.dfy | `Concat` (the events of a list are the events of each item, in order) and `Filter`, with their lemmas |
| `Text` | text.dfy | ASCII `str.lower`, `endswith`, POSIX `os.path.basename` and `os.path.join` |
| `SyncArgs` | sync_args.dfy | `arg_parse` and the choice of export or import mode |
| `SyncAccounts` | sync_accounts.dfy | the account list and the (Y/N) confirmation loop |
| `SyncEngine` | sync_engine.dfy | export and import of one account's libraries, the Shoko watched list |
| `SyncRun` | sync_run.dfy | the whole watched-sync run over all accounts |
| `PosterFiles` | poster_files.dfy | the `clean` argument, the extension filter, title sanitising, `splitext` |
| `PosterApply` | poster_apply.dfy | user posters and the Shoko fallback for each collection |
| `PosterClean` | poster_clean.dfy | clean mode: sort by creation time, delete all but the newest |
| `PosterRun` | poster_run.dfy | the whole collection-poster run over all libraries |

## Failure handling in `watched-sync.py`

- **Extra users.** The comment at `Contents/Scripts/watched-sync.py:73` says that when the extra
  users cannot be found, an error is shown and the script continues. It does continue, but with
  none of the extra users:
  - The user lookups, the switch exchanges and the logins all sit inside a single `try`
    (lines 69-74).
  - One unknown user, or one failed exchange, therefore drops every extra user.
  - A token whose login raises stops the appending loop. The accounts appended before it are
    kept.

  `SyncAccounts.ExtraAccountsResolved` states this behaviour.
- **Lookup failures.** The PathEndsWith request and its `.json()`
  (`Contents/Scripts/watched-sync.py:136`) sit outside the `try` at line 137.
  - A failed request therefore ends the script.
  - Inside the `try`, a reply that cannot be indexed is reported as a failure for that file, and
    the episode loop goes on.
  - A `Watched/true` POST that raises (line 141) is caught the same way: "Failed" is reported,
    and the remaining ids of that grouping are not posted.

  The model covers the replies that cannot be indexed. Both request failures are listed under
  "Left out".

## Model

| member | source | states |
|---|---|---|
| `Text.BasenameShape` | Contents/Scripts/watched-sync.py:127 | the basename holds no separator, ends the path, and is preceded by a separator when shorter than the path |
| `Text.BasenameUnique` | Contents/Scripts/watched-sync.py:94 | the three facts of `BasenameShape` determine the basename |
| `Text.Join` | Contents/Scripts/collection-posters.py:80 | `os.path.join` ends with its last component and restarts at an absolute one |
| `SyncArgs.MatchesRangeIsRelativeDate` | Contents/Scripts/watched-sync.py:46 | the regex test accepts exactly a numeral from 1 to 999 without a leading zero, then one unit among m, h, d, w, mon, y, optionally followed by one newline (`$`) |
| `SyncArgs.ArgParse` | Contents/Scripts/watched-sync.py:44-48 | the argument is accepted iff, lower-cased, it is "import" or a relative date; the accepted value is the lower-cased argument |
| `SyncArgs.DefaultRangeIsRelativeDate` | Contents/Scripts/watched-sync.py:52 | the default "999y", which argparse also passes through `arg_parse`, is a valid relative date |
| `SyncArgs.SelectMode` | Contents/Scripts/watched-sync.py:52-54 | no argument gives export with window 999y; "import" in any case gives import mode with window 999y; any other accepted value gives export over that window; a refused argument is an error |
| `SyncArgs.TrailingNewlineAccepted` | Contents/Scripts/watched-sync.py:46 | "2W\n" is accepted, as "2w\n" |
| `SyncArgs.RejectedExamples` | Contents/Scripts/watched-sync.py:46-47 | a leading zero, a fourth digit and an unknown unit are refused |
| `SyncAccounts.SwitchedTokens` | Contents/Scripts/watched-sync.py:70-71 | tokens exist iff every configured user is a home user with a switch token; then token `i` belongs to user `i` |
| `SyncAccounts.LoginCount` | Contents/Scripts/watched-sync.py:72 | the count is the number of leading tokens that log in; the next one does not |
| `SyncAccounts.ExtraAccountsResolved` | Contents/Scripts/watched-sync.py:67-74 | extra account `i` is the login of configured user `i`; one unknown user or one failed switch exchange empties the list; a shorter list stops at a token that fails to log in |
| `SyncAccounts.AccountListShape` | Contents/Scripts/watched-sync.py:67-72 | the admin comes first when SyncAdmin is set; the extra accounts follow in configured order |
| `SyncAccounts.ResolveTokens` | Contents/Scripts/watched-sync.py:70-71 | the two comprehension loops compute the switched tokens, or fail as a whole |
| `SyncAccounts.BuildAccounts` | Contents/Scripts/watched-sync.py:67-74 | the account-building loop produces exactly the account list |
| `SyncAccounts.GateReadsFirstAnswer` | Contents/Scripts/watched-sync.py:101-106 | the prompt reads up to the first "y"/"n" in any case and proceeds iff it is "y"; every earlier response only re-prompts; without an answer all input is read and input runs out |
| `SyncAccounts.GateSkipsNonAnswers` | Contents/Scripts/watched-sync.py:101-105 | responses that are not answers only shift the count of responses read |
| `SyncAccounts.Confirm` | Contents/Scripts/watched-sync.py:101-106 | the `while True` prompt loop computes the gate's decision and the number of responses read |
| `SyncEngine.MatchKeyShape` | Contents/Scripts/watched-sync.py:135 | the match key begins with one separator, holds no other, and ends the path with a separator put in front |
| `SyncEngine.MatchKeySuffix` | Contents/Scripts/watched-sync.py:135-136 | a Shoko path ends with the key iff it holds a separator and has the same file name |
| `SyncEngine.Relays` | Contents/Scripts/watched-sync.py:140-141 | exactly the ids of the grouping are set watched, and nothing else is written |
| `SyncEngine.ExportPartRule` | Contents/Scripts/watched-sync.py:137-143 | id is set watched iff the first file has `Watched == None` and id is in its first grouping; True or False is silent; an empty or non-list reply is reported as a failure |
| `SyncEngine.ExportPartsWrites` | Contents/Scripts/watched-sync.py:134-143 | an episode writes id iff one of its parts relays id |
| `SyncEngine.ExportEpisodesKinds` | Contents/Scripts/watched-sync.py:133-143 | export emits only writes to Shoko, "Relaying" lines and failure reports |
| `SyncEngine.ExportEpisodesWrites` | Contents/Scripts/watched-sync.py:133-143 | the export write set of a section: id is written iff some part of some watched, in-window episode relays it |
| `SyncEngine.ImportEpisodesKinds` | Contents/Scripts/watched-sync.py:125-130 | import emits only `markPlayed` for this account and "Importing" lines |
| `SyncEngine.ImportPartsMarks` | Contents/Scripts/watched-sync.py:126-129 | an episode is marked played iff one of its parts has a file name in the watched list |
| `SyncEngine.ImportEpisodesMarks` | Contents/Scripts/watched-sync.py:125-130 | the import write set: key k is marked iff an unwatched episode with key k has a part whose name Shoko lists as watched |
| `SyncEngine.ImportIdempotent` | Contents/Scripts/watched-sync.py:125-129 | importing again into the section as the first import left it marks nothing more |
| `SyncEngine.SyncLibrariesKinds` | Contents/Scripts/watched-sync.py:115-143 | export never marks anything played and import never writes to Shoko; every mark is for the current account |
| `SyncEngine.LibrariesMarkOnlyMatched` | Contents/Scripts/watched-sync.py:115-130 | a mark happens only in import mode, for an unwatched episode of a configured section that matches a watched name |
| `SyncEngine.UnmatchedPartIsolated` | Contents/Scripts/watched-sync.py:137-143 | an unmatched part is reported once, and the parts around it export as they would without it |
| `SyncEngine.ExportEpisodeIsolated` | Contents/Scripts/watched-sync.py:133-143 | an episode's export events depend on that episode alone |
| `SyncEngine.MissingSectionIsolated` | Contents/Scripts/watched-sync.py:117-121 | a missing library section is reported and skips only itself |
| `SyncEngine.ExportEpisode` | Contents/Scripts/watched-sync.py:134-143 | the loops over one episode's parts and over the episode IDs compute the export rule |
| `SyncEngine.ExportLibrary` | Contents/Scripts/watched-sync.py:133-143 | the loop over a section's watched episodes computes its export |
| `SyncEngine.ImportEpisode` | Contents/Scripts/watched-sync.py:126-130 | the loop over one episode's parts computes its import |
| `SyncEngine.ImportLibrary` | Contents/Scripts/watched-sync.py:125-130 | the loop over a section's unwatched episodes computes its import |
| `SyncEngine.SyncAccountLibraries` | Contents/Scripts/watched-sync.py:115-143 | the loop over the configured libraries computes the account's events |
| `SyncEngine.CollectWatchedNames` | Contents/Scripts/watched-sync.py:91-94 | the watched list is the basename of each Shoko episode's first location, in order; it fails iff an episode lacks a file or a location |
| `SyncRun.ConfirmedAreAccounts` | Contents/Scripts/watched-sync.py:96-106 | every account answered "y" is a configured account |
| `SyncRun.AnswersOfPlainResponses` | Contents/Scripts/watched-sync.py:96-106 | when every response is "y" or "n", account `i`'s prompt is decided by response `i`, and input runs out iff there are fewer responses than accounts |
| `SyncRun.ConfirmedIffProceed` | Contents/Scripts/watched-sync.py:96-106 | an account is confirmed iff it stands at a position whose prompt was answered "y" |
| `SyncRun.DeclinedNotConfirmed` | Contents/Scripts/watched-sync.py:104-106 | an account answered "n" at any position, and configured only there, is not confirmed |
| `SyncRun.RunAccountsKinds` | Contents/Scripts/watched-sync.py:96-143 | across all accounts, export never marks played and import never writes to Shoko |
| `SyncRun.ImportMarksOnlyConfirmed` | Contents/Scripts/watched-sync.py:96-130 | an import mark is for an account answered "y" whose server was reached, on an unwatched episode of a configured library that matches a watched name |
| `SyncRun.ExportIgnoresResponses` | Contents/Scripts/watched-sync.py:98 | export runs do not read the prompt |
| `SyncRun.ExportRunCompletes` | Contents/Scripts/watched-sync.py:96-143 | an export run in which every server is reached syncs every account in order and completes |
| `SyncRun.ImportRunCompletes` | Contents/Scripts/watched-sync.py:96-130 | an import run in which every confirmed account reaches its server imports into exactly the confirmed accounts, in order; it ends normally unless input runs out before the last prompt |
| `SyncRun.ImportAnswerAt` | Contents/Scripts/watched-sync.py:98-130 | after "n" at account `i`'s prompt nothing is marked played for that account; after "y", with every confirmed server reachable, all of its import events are in the run |
| `SyncRun.ExportRunStopsAt` | Contents/Scripts/watched-sync.py:108-112 | the first unreachable server ends the run; the accounts before it were synced in full |
| `SyncRun.VisitAccount` | Contents/Scripts/watched-sync.py:98-143 | one account: the prompt when importing, the connection and the library loop, with the stop it causes and the responses it reads |
| `SyncRun.VisitAccounts` | Contents/Scripts/watched-sync.py:96-144 | the account loop, with prompt, connection and library loop, computes the run over the accounts |
| `SyncRun.SyncRun` | Contents/Scripts/watched-sync.py:52-145 | the script from argument to the end computes the run |
| `PosterFiles.CleanFlag` | Contents/Scripts/collection-posters.py:45-46 | clean mode is on iff the argument lower-cases to "clean"; no argument means off; any other argument is refused |
| `PosterFiles.CleanFlagExamples` | Contents/Scripts/collection-posters.py:45-46 | "CLEAN" and "Clean" select clean mode; "cleaner" and "" are refused |
| `PosterFiles.UserPostersMember` | Contents/Scripts/collection-posters.py:102-103 | a name is a user poster iff it is in the listing and its lower-cased form ends with one of the ten extensions |
| `PosterFiles.UserPosterExamples` | Contents/Scripts/collection-posters.py:103 | upper-case extensions are accepted |
| `PosterFiles.NotUserPosterExample` | Contents/Scripts/collection-posters.py:103 | only the end of the name counts |
| `PosterFiles.CollectUserPosters` | Contents/Scripts/collection-posters.py:100-103 | the appending loop keeps exactly the user posters, in listing order |
| `PosterFiles.IsPosterName` | Contents/Scripts/collection-posters.py:103 | the extension test over the tuple of extensions |
| `PosterFiles.ExtensionsLowerCase` | Contents/Scripts/collection-posters.py:32 | every listed extension is lower-case, a dot followed by a dot-free, separator-free suffix |
| `PosterFiles.SanitizeTitle` | Contents/Scripts/collection-posters.py:116-118 | the nine `re.sub` calls remove every forbidden character |
| `PosterFiles.SanitizedChars` | Contents/Scripts/collection-posters.py:35 | a character is in the sanitised title iff it is in the title and not forbidden |
| `PosterFiles.SanitizedIdempotent` | Contents/Scripts/collection-posters.py:116-118 | sanitising twice equals sanitising once; a clean title is unchanged |
| `PosterFiles.SanitizedAppend` | Contents/Scripts/collection-posters.py:116-118 | the other characters keep their order |
| `PosterFiles.StemOfNamed` | Contents/Scripts/collection-posters.py:119 | `splitext` of a name plus one extension gives back the name |
| `PosterFiles.StemOfDotFile` | Contents/Scripts/collection-posters.py:119 | leading dots do not start an extension |
| `PosterFiles.PosterNamedAfterTitle` | Contents/Scripts/collection-posters.py:115-119 | a file named after the sanitised title with a listed extension is collected and matches |
| `PosterApply.UserPassUploadsAllMatches` | Contents/Scripts/collection-posters.py:115-123 | when uploads succeed, every matching poster is uploaded in folder order (the `continue` does not stop the loop), and the fallback is cleared iff one matched |
| `PosterApply.UserPassFallback` | Contents/Scripts/collection-posters.py:112-125 | the fallback flag stays set iff no poster matches or the first match fails to upload |
| `PosterApply.UserPassOnlyMatches` | Contents/Scripts/collection-posters.py:115-121 | only posters of the folder whose stem is the sanitised title are uploaded |
| `PosterApply.ApplyUserPosters` | Contents/Scripts/collection-posters.py:112-125 | the poster loop computes the pass's events and the fallback flag |
| `PosterApply.ShokoConsultedIff` | Contents/Scripts/collection-posters.py:127-136 | Shoko is consulted iff no folder is configured, nothing matched, or the first match failed; otherwise only user posters are involved |
| `PosterApply.ApplyCollectionKinds` | Contents/Scripts/collection-posters.py:110-136 | a collection's events are uploads and reports about that collection only |
| `PosterApply.ApplyCollectionsKinds` | Contents/Scripts/collection-posters.py:110-136 | a section's events are uploads and reports about its own collections |
| `PosterApply.ApplyPoster` | Contents/Scripts/collection-posters.py:111-136 | one collection as the script runs it |
| `PosterApply.ApplyLibrary` | Contents/Scripts/collection-posters.py:110-136 | the loop over a section's collections |
| `PosterClean.SortByCtimeCorrect` | Contents/Scripts/collection-posters.py:81 | the sort by creation time is ordered and a permutation of the entries |
| `PosterClean.CleanKeepsNewest` | Contents/Scripts/collection-posters.py:81 | in a non-empty directory exactly one entry survives; it has the latest creation time; the deleted ones are all the others |
| `PosterClean.CleanOnlyCrowded` | Contents/Scripts/collection-posters.py:77-83 | a removal is of a non-newest entry inside the posters directory of a collection with more than two posters |
| `PosterClean.RemoveOldPosters` | Contents/Scripts/collection-posters.py:81-83 | the removal loop removes each deleted entry once, in creation order |
| `PosterClean.CleanLibrary` | Contents/Scripts/collection-posters.py:76-86 | the loop over a section's collections; a directory that cannot be listed ends the section |
| `PosterRun.RunCompletes` | Contents/Scripts/collection-posters.py:66-137 | an unblocked run (clean mode always is) goes through every library in order and completes |
| `PosterRun.BlockedStopsAt` | Contents/Scripts/collection-posters.py:88-106 | when the Shoko login or the folder listing fails, apply mode stops at the first library whose section exists |
| `PosterRun.RunLibrariesAppend` | Contents/Scripts/collection-posters.py:66-71 | the libraries after a point run only if everything before it completed |
| `PosterRun.MissingSectionSkipsOnlyIt` | Contents/Scripts/collection-posters.py:67-71 | a missing section adds one report and changes nothing else |
| `PosterRun.CleanRunOnlyRemoves` | Contents/Scripts/collection-posters.py:74-86 | clean mode never uploads and always reaches the end once Plex is reached |
| `PosterRun.ApplyRunNeverRemoves` | Contents/Scripts/collection-posters.py:87-137 | apply mode never removes a file |
| `PosterRun.PosterLibrary` | Contents/Scripts/collection-posters.py:67-137 | one library as the script runs it |
| `PosterRun.PosterLibraries` | Contents/Scripts/collection-posters.py:66-137 | the loop over the configured libraries |
| `PosterRun.RunPosters` | Contents/Scripts/collection-posters.py:46-138 | the script from argument to the end computes the run |

## Left out

- Plex authentication of `watched-sync.py` (`MyPlexAccount`, lines 57-64) and the Shoko login (lines 77-84) are not modelled. The model starts after both succeeded. `collection-posters.py` models both failures as run stops, without their credentials.
- HTTP is not modelled. Shoko and plex.tv answers are values: a `Reply` per match key, a `Roster` of home users, switch tokens and logins, a group-search answer per title, and an upload predicate. A request that raises or returns non-JSON is not modelled. For the PathEndsWith request of `watched-sync.py` (line 136, outside any `try`) such a failure ends the script.
- SyncEngine.Relays: a `Watched/true` POST that raises (`watched-sync.py:141`) is not modelled. The script catches it at line 142, reports "Failed" for that file, and skips the remaining ids of the grouping. The model posts every id of the grouping and reports no failure.
- The `lastViewedAt>>` cutoff is computed by plexapi and is not modelled. It is a parameter `window: string -> Episode -> bool` that gives, for each relative date, the episodes the filter admits. No date arithmetic is modelled.
- Shoko's and Plex's answers are fixed for the whole run, so a write does not change later answers within the run. `SyncEngine.ImportIdempotent` covers a second import after the first. Export idempotence against Shoko's state is not modelled, because Shoko's state is not.
- Paths use one separator, '/', as on POSIX. Windows separators and drive letters are not modelled.
- `str.lower` is modelled on ASCII letters only. No non-ASCII character lower-cases into one of the strings compared against ("import", the units, "y", "n", "clean", the extensions), so accept and reject decisions are unaffected. Non-ASCII titles and names are still compared exactly.
- Creation times are integers. A `getctime` or `os.remove` that raises inside the clean loop is not modelled. A posters directory that cannot be listed is modelled.
- PosterClean.SortByCtimeCorrect: sort stability is not stated. When the newest entries share a creation time, the model's insertion sort keeps the last of them in listing order, as Python's stable sort does. The lemmas only promise that the survivor has the latest creation time.
- Console output other than the events named above is not modelled: progress lines, colours and the final line.
- The Plex poster count of a collection is an input. Clean mode does not update it.
