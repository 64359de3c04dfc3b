/**
 * One run of the watched-state sync: parse the argument, build the account
 * list, in import mode fetch Shoko's watched list, then visit each account
 * (asking for confirmation first when importing), connect to its server and
 * sync every configured library.
 */
module SyncRun {
  import opened Wrappers
  import opened Seqs
  import opened SyncArgs
  import opened SyncAccounts
  import opened SyncEngine
  import opened Text

  /** How a run ends: normally, or at one of the points where the script exits early or raises. */
  datatype Stop =
    | Completed
    | InvalidArgument          // argparse rejects the argument (exit status 2)
    | WatchedListMalformed     // a Shoko watched episode without a file location: IndexError
    | InputClosed              // `input()` raises EOFError at the (Y/N) prompt
    | ServerNotFound(account: Account)  // "Failed: Server Name Not Found", exit(1)

  /** The events issued before the run stopped, and why it stopped. */
  datatype Outcome = Outcome(events: seq<Event>, stop: Stop)

  /** The configuration of the script's `config` module that this model reads. */
  datatype Settings = Settings(admin: Account, syncAdmin: bool, extraUsers: seq<string>, libraries: seq<string>)

  /**
   * What the outside world answers: the plex.tv calls, Shoko's watched list,
   * the library sections each account sees on the configured server (an
   * account without an entry cannot connect), Shoko's PathEndsWith replies,
   * and for a relative date the watched episodes Plex's `lastViewedAt>>`
   * filter admits.
   */
  datatype World = World(
    roster: Roster,
    watchedList: seq<ShokoEpisode>,
    servers: map<Account, map<string, seq<Episode>>>,
    lookup: string -> Reply,
    window: string -> Episode -> bool)

  /** The events of `o`, preceded by `events`. */
  function After(events: seq<Event>, o: Outcome): Outcome
  {
    Outcome(events + o.events, o.stop)
  }

  /** Connecting to one account's server and syncing its libraries, then the accounts after it. */
  function Visit(mode: Mode, account: Account, libraries: seq<string>, names: seq<string>, w: World, inWindow: Episode -> bool,
                 rest: Outcome): Outcome
  {
    if account !in w.servers then Outcome([], ServerNotFound(account))
    else After(SyncLibraries(mode, account, w.servers[account], libraries, names, w.lookup, inWindow), rest)
  }

  /**
   * The account loop over the responses still to be read at the (Y/N)
   * prompt: in import mode each account is asked first; "n" skips it,
   * running out of input stops the run.
   */
  function RunAccounts(mode: Mode, accounts: seq<Account>, responses: seq<string>, libraries: seq<string>,
                       names: seq<string>, w: World, inWindow: Episode -> bool): Outcome
    decreases |accounts|
  {
    if accounts == [] then Outcome([], Completed)
    else if mode == Import then
      var g := Gate(responses);
      var rest := RunAccounts(mode, accounts[1..], responses[g.consumed..], libraries, names, w, inWindow);
      if g.decision == NoMoreInput then Outcome([], InputClosed)
      else if g.decision == Skip then rest
      else Visit(mode, accounts[0], libraries, names, w, inWindow, rest)
    else
      Visit(mode, accounts[0], libraries, names, w, inWindow,
            RunAccounts(mode, accounts[1..], responses, libraries, names, w, inWindow))
  }

  /** The whole run for the command-line argument `arg` (None when absent). */
  function Run(arg: Option<string>, settings: Settings, w: World, responses: seq<string>): Outcome
  {
    match SelectMode(arg)
    case Err(_) => Outcome([], InvalidArgument)
    case Ok(config) =>
      var accounts := AccountList(settings.admin, settings.syncAdmin, settings.extraUsers, w.roster);
      var inWindow := w.window(config.relativeDate);
      if config.mode == Import then
        match WatchedFileNames(w.watchedList)
        case None => Outcome([], WatchedListMalformed)
        case Some(names) => RunAccounts(Import, accounts, responses, settings.libraries, names, w, inWindow)
      else
        RunAccounts(Export, accounts, responses, settings.libraries, [], w, inWindow)
  }

  /** The accounts answered "y", in order, up to the point where input runs out. */
  function Confirmed(accounts: seq<Account>, responses: seq<string>): seq<Account>
    decreases |accounts|
  {
    if accounts == [] then []
    else
      var g := Gate(responses);
      if g.decision == NoMoreInput then []
      else (if g.decision == Proceed then [accounts[0]] else []) + Confirmed(accounts[1..], responses[g.consumed..])
  }

  /** Every account answered "y" is one of the configured accounts. */
  lemma {:induction false} ConfirmedAreAccounts(accounts: seq<Account>, responses: seq<string>)
    ensures forall a :: a in Confirmed(accounts, responses) ==> a in accounts
    decreases |accounts|
  {
    if accounts != [] {
      var g := Gate(responses);
      ConfirmedAreAccounts(accounts[1..], responses[g.consumed..]);
    }
  }

  /**
   * The decision reached at each account's (Y/N) prompt, in account order;
   * shorter than the accounts when input runs out before the last prompt.
   */
  function Answers(accounts: seq<Account>, responses: seq<string>): (d: seq<Decision>)
    ensures |d| <= |accounts|
    ensures forall i :: 0 <= i < |d| ==> d[i] != NoMoreInput
    decreases |accounts|
  {
    if accounts == [] then []
    else
      var g := Gate(responses);
      if g.decision == NoMoreInput then []
      else [g.decision] + Answers(accounts[1..], responses[g.consumed..])
  }

  /**
   * When every response is "y" or "n", the prompt of account `i` is
   * decided by response `i`, and input runs out iff there are fewer
   * responses than accounts.
   */
  lemma {:induction false} AnswersOfPlainResponses(accounts: seq<Account>, responses: seq<string>)
    requires forall j :: 0 <= j < |responses| ==> IsAnswer(responses[j])
    ensures |Answers(accounts, responses)| == if |responses| < |accounts| then |responses| else |accounts|
    ensures forall i :: 0 <= i < |Answers(accounts, responses)| ==>
      (Answers(accounts, responses)[i] == Proceed <==> Lower(responses[i]) == "y")
    decreases |accounts|
  {
    if accounts != [] && responses != [] {
      var tail := responses[1..];
      assert Gate(responses).consumed == 1;
      AnswersOfPlainResponses(accounts[1..], tail);
      forall i | 1 <= i < |Answers(accounts, responses)|
        ensures Answers(accounts, responses)[i] == Proceed <==> Lower(responses[i]) == "y"
      {
        assert tail[i - 1] == responses[i];
      }
    }
  }

  /** An account is confirmed iff it is at a position whose prompt was answered "y". */
  lemma {:induction false} ConfirmedIffProceed(accounts: seq<Account>, responses: seq<string>, a: Account)
    ensures a in Confirmed(accounts, responses) <==>
      exists i :: 0 <= i < |Answers(accounts, responses)| && Answers(accounts, responses)[i] == Proceed && accounts[i] == a
    decreases |accounts|
  {
    if accounts != [] {
      var g := Gate(responses);
      if g.decision != NoMoreInput {
        var tail, next := accounts[1..], responses[g.consumed..];
        var d := Answers(accounts, responses);
        ConfirmedIffProceed(tail, next, a);
        if a in Confirmed(tail, next) {
          var i :| 0 <= i < |Answers(tail, next)| && Answers(tail, next)[i] == Proceed && tail[i] == a;
          assert d[i + 1] == Proceed && accounts[i + 1] == a;
        }
        if exists i :: 0 <= i < |d| && d[i] == Proceed && accounts[i] == a {
          var i :| 0 <= i < |d| && d[i] == Proceed && accounts[i] == a;
          if i > 0 {
            assert Answers(tail, next)[i - 1] == Proceed && tail[i - 1] == a;
          }
        }
      }
    }
  }

  /** An account answered "n" at its prompt, and configured only there, is never confirmed. */
  lemma DeclinedNotConfirmed(accounts: seq<Account>, responses: seq<string>, i: nat)
    requires i < |Answers(accounts, responses)| && Answers(accounts, responses)[i] == Skip
    requires forall j :: 0 <= j < |accounts| && j != i ==> accounts[j] != accounts[i]
    ensures accounts[i] !in Confirmed(accounts, responses)
  {
    ConfirmedIffProceed(accounts, responses, accounts[i]);
  }

  /** The import of each account: all its configured libraries, once connected. */
  function AccountImport(libraries: seq<string>, names: seq<string>, w: World, inWindow: Episode -> bool): Account -> seq<Event>
  {
    a => if a in w.servers then SyncLibraries(Import, a, w.servers[a], libraries, names, w.lookup, inWindow) else []
  }

  /**
   * An import run in which every confirmed account reaches its server
   * imports into exactly the confirmed accounts, in order, and ends
   * normally unless input runs out before the last prompt.
   */
  lemma {:induction false} ImportRunCompletes(accounts: seq<Account>, responses: seq<string>, libraries: seq<string>,
      names: seq<string>, w: World, inWindow: Episode -> bool)
    requires forall a :: a in Confirmed(accounts, responses) ==> a in w.servers
    ensures RunAccounts(Import, accounts, responses, libraries, names, w, inWindow) ==
      Outcome(Concat(Confirmed(accounts, responses), AccountImport(libraries, names, w, inWindow)),
              if |Answers(accounts, responses)| < |accounts| then InputClosed else Completed)
    decreases |accounts|
  {
    if accounts != [] {
      var g := Gate(responses);
      if g.decision != NoMoreInput {
        var next := responses[g.consumed..];
        assert Confirmed(accounts, responses) == (if g.decision == Proceed then [accounts[0]] else []) +
          Confirmed(accounts[1..], next);
        ImportRunCompletes(accounts[1..], next, libraries, names, w, inWindow);
        ImportRunStep(accounts, responses, libraries, names, w, inWindow);
      }
    }
  }

  /** The step of `ImportRunCompletes`: one answered prompt in front of a run already known. */
  lemma ImportRunStep(accounts: seq<Account>, responses: seq<string>, libraries: seq<string>,
                      names: seq<string>, w: World, inWindow: Episode -> bool)
    requires accounts != [] && Gate(responses).decision != NoMoreInput
    requires Gate(responses).decision == Proceed ==> accounts[0] in w.servers
    requires var next := responses[Gate(responses).consumed..];
      RunAccounts(Import, accounts[1..], next, libraries, names, w, inWindow) ==
        Outcome(Concat(Confirmed(accounts[1..], next), AccountImport(libraries, names, w, inWindow)),
                if |Answers(accounts[1..], next)| < |accounts[1..]| then InputClosed else Completed)
    ensures RunAccounts(Import, accounts, responses, libraries, names, w, inWindow) ==
      Outcome(Concat(Confirmed(accounts, responses), AccountImport(libraries, names, w, inWindow)),
              if |Answers(accounts, responses)| < |accounts| then InputClosed else Completed)
  {
    var g := Gate(responses);
    var tail, next := accounts[1..], responses[g.consumed..];
    var f := AccountImport(libraries, names, w, inWindow);
    var rest := RunAccounts(Import, tail, next, libraries, names, w, inWindow);
    assert |Answers(accounts, responses)| == 1 + |Answers(tail, next)|;
    var stop := if |Answers(accounts, responses)| < |accounts| then InputClosed else Completed;
    assert rest.stop == stop;
    if g.decision == Proceed {
      var c := Confirmed(accounts, responses);
      assert c == [accounts[0]] + Confirmed(tail, next);
      ConcatCons(c, f);
      assert c[1..] == Confirmed(tail, next);
      assert Concat(c, f) == f(accounts[0]) + rest.events;
      assert RunAccounts(Import, accounts, responses, libraries, names, w, inWindow) ==
        After(f(accounts[0]), rest);
    } else {
      assert Confirmed(accounts, responses) == Confirmed(tail, next);
      assert RunAccounts(Import, accounts, responses, libraries, names, w, inWindow) == rest;
    }
  }

  /**
   * The answer at account `i`'s prompt decides that account: after "n"
   * nothing is marked played for it (when it is configured only there);
   * after "y", when every confirmed account reaches its server, all of
   * its import events are among the run's.
   */
  lemma ImportAnswerAt(accounts: seq<Account>, responses: seq<string>, i: nat, libraries: seq<string>,
                       names: seq<string>, w: World, inWindow: Episode -> bool)
    requires i < |Answers(accounts, responses)|
    ensures Answers(accounts, responses)[i] == Skip &&
            (forall j :: 0 <= j < |accounts| && j != i ==> accounts[j] != accounts[i]) ==>
      forall k :: MarkPlayed(accounts[i], k) !in RunAccounts(Import, accounts, responses, libraries, names, w, inWindow).events
    ensures Answers(accounts, responses)[i] == Proceed &&
            (forall a :: a in Confirmed(accounts, responses) ==> a in w.servers) ==>
      && accounts[i] in w.servers
      && forall e :: e in SyncLibraries(Import, accounts[i], w.servers[accounts[i]], libraries, names, w.lookup, inWindow) ==>
           e in RunAccounts(Import, accounts, responses, libraries, names, w, inWindow).events
  {
    var a := accounts[i];
    var d := Answers(accounts, responses);
    var run := RunAccounts(Import, accounts, responses, libraries, names, w, inWindow);
    if d[i] == Skip && forall j :: 0 <= j < |accounts| && j != i ==> accounts[j] != a {
      DeclinedNotConfirmed(accounts, responses, i);
      forall k ensures MarkPlayed(a, k) !in run.events {
        if MarkPlayed(a, k) in run.events {
          ImportMarksOnlyConfirmed(accounts, responses, libraries, names, w, inWindow, a, k);
        }
      }
    }
    if d[i] == Proceed && forall b :: b in Confirmed(accounts, responses) ==> b in w.servers {
      ConfirmedIffProceed(accounts, responses, a);
      ImportRunCompletes(accounts, responses, libraries, names, w, inWindow);
      var c := Confirmed(accounts, responses);
      var f := AccountImport(libraries, names, w, inWindow);
      var p :| 0 <= p < |c| && c[p] == a;
      forall e | e in f(a) ensures e in run.events {
        ConcatMember(c, f, e);
      }
    }
  }

  /**
   * Export never marks anything played in Plex and import never writes to
   * Shoko, across all accounts.
   */
  lemma {:induction false} RunAccountsKinds(mode: Mode, accounts: seq<Account>, responses: seq<string>,
      libraries: seq<string>, names: seq<string>, w: World, inWindow: Episode -> bool)
    ensures forall e :: e in RunAccounts(mode, accounts, responses, libraries, names, w, inWindow).events ==>
      && (mode == Export ==> !e.MarkPlayed? && !e.Importing?)
      && (mode == Import ==> !e.SetWatched? && !e.Relaying? && !e.MatchFailed?)
    decreases |accounts|
  {
    if accounts != [] {
      var a := accounts[0];
      var next := if mode == Import then responses[Gate(responses).consumed..] else responses;
      RunAccountsKinds(mode, accounts[1..], next, libraries, names, w, inWindow);
      if a in w.servers {
        SyncLibrariesKinds(mode, a, w.servers[a], libraries, names, w.lookup, inWindow);
      }
    }
  }

  /**
   * In import mode an episode is marked played only for an account whose
   * (Y/N) prompt was answered "y" and whose server was reached, and only
   * when it is an unwatched episode of a configured library whose file
   * name Shoko lists as watched.
   */
  lemma {:induction false} ImportMarksOnlyConfirmed(accounts: seq<Account>, responses: seq<string>,
      libraries: seq<string>, names: seq<string>, w: World, inWindow: Episode -> bool, a: Account, k: nat)
    requires MarkPlayed(a, k) in RunAccounts(Import, accounts, responses, libraries, names, w, inWindow).events
    ensures a in Confirmed(accounts, responses) && a in w.servers
    ensures exists l, i ::
      (0 <= l < |libraries| && libraries[l] in w.servers[a] && 0 <= i < |w.servers[a][libraries[l]]| &&
       w.servers[a][libraries[l]][i].key == k && !w.servers[a][libraries[l]][i].watched &&
       WatchedInShoko(w.servers[a][libraries[l]][i], names))
    decreases |accounts|
  {
    var g := Gate(responses);
    var rest := RunAccounts(Import, accounts[1..], responses[g.consumed..], libraries, names, w, inWindow);
    if g.decision == Proceed && accounts[0] in w.servers {
      var here := SyncLibraries(Import, accounts[0], w.servers[accounts[0]], libraries, names, w.lookup, inWindow);
      if MarkPlayed(a, k) in here {
        SyncLibrariesKinds(Import, accounts[0], w.servers[accounts[0]], libraries, names, w.lookup, inWindow);
        LibrariesMarkOnlyMatched(Import, a, w.servers[a], libraries, names, w.lookup, inWindow, k);
        return;
      }
    }
    ImportMarksOnlyConfirmed(accounts[1..], responses[g.consumed..], libraries, names, w, inWindow, a, k);
  }

  /** The prompt answers play no part in an export run. */
  lemma {:induction false} ExportIgnoresResponses(accounts: seq<Account>, r1: seq<string>, r2: seq<string>,
      libraries: seq<string>, names: seq<string>, w: World, inWindow: Episode -> bool)
    ensures RunAccounts(Export, accounts, r1, libraries, names, w, inWindow) ==
      RunAccounts(Export, accounts, r2, libraries, names, w, inWindow)
    decreases |accounts|
  {
    if accounts != [] {
      ExportIgnoresResponses(accounts[1..], r1, r2, libraries, names, w, inWindow);
    }
  }

  /** The export of each account: all its configured libraries, once connected. */
  function AccountExport(libraries: seq<string>, w: World, inWindow: Episode -> bool): Account -> seq<Event>
  {
    a => if a in w.servers then SyncLibraries(Export, a, w.servers[a], libraries, [], w.lookup, inWindow) else []
  }

  /** An export run in which every account reaches its server syncs all of them, in order, and completes. */
  lemma {:induction false} ExportRunCompletes(accounts: seq<Account>, responses: seq<string>, libraries: seq<string>,
      w: World, inWindow: Episode -> bool)
    requires forall a :: a in accounts ==> a in w.servers
    ensures RunAccounts(Export, accounts, responses, libraries, [], w, inWindow) ==
      Outcome(Concat(accounts, AccountExport(libraries, w, inWindow)), Completed)
    decreases |accounts|
  {
    if accounts != [] {
      ExportRunCompletes(accounts[1..], responses, libraries, w, inWindow);
      ConcatCons(accounts, AccountExport(libraries, w, inWindow));
    }
  }

  /**
   * The first account whose server cannot be reached stops an export run;
   * every account before it has been synced in full, none after it at all.
   */
  lemma {:induction false} ExportRunStopsAt(accounts: seq<Account>, responses: seq<string>, libraries: seq<string>,
      w: World, inWindow: Episode -> bool, j: nat)
    requires j < |accounts| && accounts[j] !in w.servers
    requires forall i :: 0 <= i < j ==> accounts[i] in w.servers
    ensures RunAccounts(Export, accounts, responses, libraries, [], w, inWindow) ==
      Outcome(Concat(accounts[..j], AccountExport(libraries, w, inWindow)), ServerNotFound(accounts[j]))
    decreases |accounts|
  {
    if j > 0 {
      var f := AccountExport(libraries, w, inWindow);
      var tail := accounts[1..];
      assert accounts[..j][1..] == tail[..j - 1];
      ExportRunStopsAt(tail, responses, libraries, w, inWindow, j - 1);
      ConcatCons(accounts[..j], f);
    }
  }

  /** The import loop resumed at account `i`, once the prompt for it has been answered. */
  lemma ImportAccountAt(accounts: seq<Account>, i: nat, rest: seq<string>, decision: Decision, consumed: nat,
                        libraries: seq<string>, names: seq<string>, w: World, inWindow: Episode -> bool)
    requires i < |accounts| && GateResult(decision, consumed) == Gate(rest) && decision != NoMoreInput
    ensures var later := RunAccounts(Import, accounts[i + 1..], rest[consumed..], libraries, names, w, inWindow);
      RunAccounts(Import, accounts[i..], rest, libraries, names, w, inWindow) ==
        if decision == Skip then later else Visit(Import, accounts[i], libraries, names, w, inWindow, later)
  {
    assert accounts[i..][0] == accounts[i] && accounts[i..][1..] == accounts[i + 1..];
  }

  /** The import loop resumed at account `i` when input runs out at its prompt. */
  lemma ImportClosedAt(accounts: seq<Account>, i: nat, rest: seq<string>, libraries: seq<string>,
                       names: seq<string>, w: World, inWindow: Episode -> bool)
    requires i < |accounts| && Gate(rest).decision == NoMoreInput
    ensures RunAccounts(Import, accounts[i..], rest, libraries, names, w, inWindow) == Outcome([], InputClosed)
  {
    assert accounts[i..][0] == accounts[i];
  }

  /** The export loop resumed at account `i`. */
  lemma ExportAccountAt(accounts: seq<Account>, i: nat, rest: seq<string>, libraries: seq<string>,
                        names: seq<string>, w: World, inWindow: Episode -> bool)
    requires i < |accounts|
    ensures RunAccounts(Export, accounts[i..], rest, libraries, names, w, inWindow) ==
      Visit(Export, accounts[i], libraries, names, w, inWindow,
            RunAccounts(Export, accounts[i + 1..], rest, libraries, names, w, inWindow))
  {
    assert accounts[i..][0] == accounts[i] && accounts[i..][1..] == accounts[i + 1..];
  }

  lemma AfterAfter(a: seq<Event>, b: seq<Event>, o: Outcome)
    ensures After(a, After(b, o)) == After(a + b, o)
  {
    assert a + (b + o.events) == a + b + o.events;
  }

  /**
   * One account of the loop, with the responses `rest` still to be read:
   * the prompt when importing, the connection, the library loop. Returns
   * the account's events, the stop it causes if any, and the responses read.
   */
  method VisitAccount(mode: Mode, accounts: seq<Account>, i: nat, rest: seq<string>, libraries: seq<string>,
                      names: seq<string>, w: World, inWindow: Episode -> bool)
    returns (more: seq<Event>, stop: Option<Stop>, consumed: nat)
    requires i < |accounts|
    ensures consumed <= |rest|
    ensures RunAccounts(mode, accounts[i..], rest, libraries, names, w, inWindow) ==
      if stop.Some? then Outcome(more, stop.value)
      else After(more, RunAccounts(mode, accounts[i + 1..], rest[consumed..], libraries, names, w, inWindow))
  {
    var account := accounts[i];
    more, stop, consumed := [], None, 0;
    if mode == Import {
      var decision;
      decision, consumed := Confirm(rest);
      if decision == NoMoreInput {
        ImportClosedAt(accounts, i, rest, libraries, names, w, inWindow);
        stop := Some(InputClosed);
        return;
      }
      ImportAccountAt(accounts, i, rest, decision, consumed, libraries, names, w, inWindow);
      if decision == Skip {
        return;
      }
    } else {
      ExportAccountAt(accounts, i, rest, libraries, names, w, inWindow);
    }
    if account !in w.servers {
      stop := Some(ServerNotFound(account));
      return;
    }
    more := SyncAccountLibraries(mode, account, w.servers[account], libraries, names, w.lookup, inWindow);
  }

  /** The account loop. */
  method VisitAccounts(mode: Mode, accounts: seq<Account>, responses: seq<string>, libraries: seq<string>,
                       names: seq<string>, w: World, inWindow: Episode -> bool) returns (outcome: Outcome)
    ensures outcome == RunAccounts(mode, accounts, responses, libraries, names, w, inWindow)
  {
    ghost var total := RunAccounts(mode, accounts, responses, libraries, names, w, inWindow);
    var events: seq<Event> := [];
    var pos := 0;
    var i := 0;
    while i < |accounts|
      invariant 0 <= i <= |accounts| && 0 <= pos <= |responses|
      invariant total == After(events, RunAccounts(mode, accounts[i..], responses[pos..], libraries, names, w, inWindow))
    {
      var more, stop, consumed := VisitAccount(mode, accounts, i, responses[pos..], libraries, names, w, inWindow);
      if stop.Some? {
        return Outcome(events + more, stop.value);
      }
      assert responses[pos..][consumed..] == responses[pos + consumed..];
      AfterAfter(events, more, RunAccounts(mode, accounts[i + 1..], responses[pos + consumed..], libraries, names, w, inWindow));
      events := events + more;
      pos, i := pos + consumed, i + 1;
    }
    outcome := Outcome(events, Completed);
  }

  /**
   * The script from top to bottom: parse the argument, build the account
   * list, collect Shoko's watched file names when importing, then visit
   * the accounts.
   */
  method SyncRun(arg: Option<string>, settings: Settings, w: World, responses: seq<string>) returns (outcome: Outcome)
    ensures outcome == Run(arg, settings, w, responses)
  {
    var parsed := SelectMode(arg);
    if parsed.Err? {
      return Outcome([], InvalidArgument);
    }
    var config := parsed.value;
    var accounts := BuildAccounts(settings.admin, settings.syncAdmin, settings.extraUsers, w.roster);
    var inWindow := w.window(config.relativeDate);
    var names: seq<string> := [];
    if config.mode == Import {
      var collected := CollectWatchedNames(w.watchedList);
      if collected.None? {
        return Outcome([], WatchedListMalformed);
      }
      names := collected.value;
    }
    outcome := VisitAccounts(config.mode, accounts, responses, settings.libraries, names, w, inWindow);
  }
}
