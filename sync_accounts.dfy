/**
 * Which Plex accounts the watched-state sync visits, and the per-account
 * (Y/N) confirmation asked before importing into an account.
 */
module SyncAccounts {
  import opened Wrappers
  import opened Text

  /** A Plex account, by its display name. */
  type Account = string

  /**
   * What the admin account's plex.tv calls answer: `homeUsers` for
   * `admin.user(username)` (a missing name raises), `switchTokens` for the
   * `/switch` exchange of a user id (a missing id raises), `logins` for
   * `MyPlexAccount(token=...)` (a missing token raises).
   */
  datatype Roster = Roster(
    homeUsers: map<string, nat>,
    switchTokens: map<nat, string>,
    logins: map<string, Account>)

  /**
   * The tokens of the configured extra users, in configured order, or None
   * when one lookup or one switch raises: both are list comprehensions
   * inside a single `try`, so one failure abandons all of them.
   */
  function SwitchedTokens(extraUsers: seq<string>, roster: Roster): (r: Option<seq<string>>)
    ensures r.Some? <==> forall i :: 0 <= i < |extraUsers| ==>
      (extraUsers[i] in roster.homeUsers && roster.homeUsers[extraUsers[i]] in roster.switchTokens)
    ensures r.Some? ==> |r.value| == |extraUsers|
    ensures r.Some? ==> forall i :: 0 <= i < |extraUsers| ==>
      r.value[i] == roster.switchTokens[roster.homeUsers[extraUsers[i]]]
  {
    if exists i :: 0 <= i < |extraUsers| && extraUsers[i] !in roster.homeUsers then None
    else if exists i :: 0 <= i < |extraUsers| && roster.homeUsers[extraUsers[i]] !in roster.switchTokens then None
    else Some(seq(|extraUsers|, i requires 0 <= i < |extraUsers| =>
      roster.switchTokens[roster.homeUsers[extraUsers[i]]]))
  }

  /** How many leading tokens log in before the first one that raises. */
  function LoginCount(tokens: seq<string>, logins: map<string, Account>): (k: nat)
    ensures k <= |tokens|
    ensures forall j :: 0 <= j < k ==> tokens[j] in logins
    ensures k < |tokens| ==> tokens[k] !in logins
  {
    if tokens == [] || tokens[0] !in logins then 0 else 1 + LoginCount(tokens[1..], logins)
  }

  /**
   * The extra accounts appended to the list: nothing when any user cannot
   * be resolved or switched to, otherwise the accounts of the configured
   * users in order up to the first token that fails to log in.
   */
  function ExtraAccounts(extraUsers: seq<string>, roster: Roster): seq<Account>
  {
    match SwitchedTokens(extraUsers, roster)
    case None => []
    case Some(tokens) =>
      var k := LoginCount(tokens, roster.logins);
      seq(k, i requires 0 <= i < k => roster.logins[tokens[i]])
  }

  /**
   * Account `i` of the extra accounts is the login of configured user `i`;
   * one unknown user or one failed switch exchange empties the list; a
   * list cut short stops at the first token that fails to log in.
   */
  lemma ExtraAccountsResolved(extraUsers: seq<string>, roster: Roster)
    ensures |ExtraAccounts(extraUsers, roster)| <= |extraUsers|
    ensures forall i :: 0 <= i < |ExtraAccounts(extraUsers, roster)| ==>
      extraUsers[i] in roster.homeUsers &&
      roster.homeUsers[extraUsers[i]] in roster.switchTokens &&
      roster.switchTokens[roster.homeUsers[extraUsers[i]]] in roster.logins &&
      ExtraAccounts(extraUsers, roster)[i] == roster.logins[roster.switchTokens[roster.homeUsers[extraUsers[i]]]]
    ensures (exists i :: 0 <= i < |extraUsers| &&
               (extraUsers[i] !in roster.homeUsers || roster.homeUsers[extraUsers[i]] !in roster.switchTokens)) ==>
      ExtraAccounts(extraUsers, roster) == []
    ensures |ExtraAccounts(extraUsers, roster)| < |extraUsers| && SwitchedTokens(extraUsers, roster).Some? ==>
      roster.switchTokens[roster.homeUsers[extraUsers[|ExtraAccounts(extraUsers, roster)|]]] !in roster.logins
  {
  }

  /** The accounts to sync: the admin first iff SyncAdmin is set, then the extra accounts. */
  function AccountList(admin: Account, syncAdmin: bool, extraUsers: seq<string>, roster: Roster): seq<Account>
  {
    (if syncAdmin then [admin] else []) + ExtraAccounts(extraUsers, roster)
  }

  /** The admin comes first iff SyncAdmin is set; the extra accounts follow it, in configured order. */
  lemma AccountListShape(admin: Account, syncAdmin: bool, extraUsers: seq<string>, roster: Roster)
    ensures syncAdmin ==>
      && |AccountList(admin, syncAdmin, extraUsers, roster)| > 0
      && AccountList(admin, syncAdmin, extraUsers, roster)[0] == admin
      && AccountList(admin, syncAdmin, extraUsers, roster)[1..] == ExtraAccounts(extraUsers, roster)
    ensures !syncAdmin ==> AccountList(admin, syncAdmin, extraUsers, roster) == ExtraAccounts(extraUsers, roster)
  {
    assert [admin] + ExtraAccounts(extraUsers, roster) == AccountList(admin, true, extraUsers, roster);
  }

  /**
   * The two list comprehensions of the script: look up every configured
   * user, then exchange every user id for a token; the first failure ends both.
   */
  method ResolveTokens(extraUsers: seq<string>, roster: Roster) returns (tokens: Option<seq<string>>)
    ensures tokens == SwitchedTokens(extraUsers, roster)
  {
    var ids: seq<nat> := [];
    var i := 0;
    while i < |extraUsers|
      invariant 0 <= i <= |extraUsers| && |ids| == i
      invariant forall j :: 0 <= j < i ==> extraUsers[j] in roster.homeUsers && ids[j] == roster.homeUsers[extraUsers[j]]
    {
      if extraUsers[i] !in roster.homeUsers {
        return None;
      }
      ids := ids + [roster.homeUsers[extraUsers[i]]];
      i := i + 1;
    }
    var switched: seq<string> := [];
    i := 0;
    while i < |ids|
      invariant 0 <= i <= |ids| && |switched| == i
      invariant forall j :: 0 <= j < i ==> ids[j] in roster.switchTokens && switched[j] == roster.switchTokens[ids[j]]
    {
      if ids[i] !in roster.switchTokens {
        assert roster.homeUsers[extraUsers[i]] !in roster.switchTokens;
        return None;
      }
      switched := switched + [roster.switchTokens[ids[i]]];
      i := i + 1;
    }
    assert |ids| == |extraUsers|;
    assert forall j :: 0 <= j < |extraUsers| ==>
      switched[j] == roster.switchTokens[roster.homeUsers[extraUsers[j]]];
    assert SwitchedTokens(extraUsers, roster).Some?;
    assert switched == SwitchedTokens(extraUsers, roster).value;
    tokens := Some(switched);
  }

  /**
   * Builds the account list as the script does: the admin when SyncAdmin
   * is set, then one login per resolved token, appended in order until a
   * login raises.
   */
  method BuildAccounts(admin: Account, syncAdmin: bool, extraUsers: seq<string>, roster: Roster)
    returns (accounts: seq<Account>)
    ensures accounts == AccountList(admin, syncAdmin, extraUsers, roster)
  {
    accounts := if syncAdmin then [admin] else [];
    ghost var base := accounts;
    var resolved := ResolveTokens(extraUsers, roster);
    if resolved.None? {
      return;
    }
    var tokens := resolved.value;
    var i := 0;
    while i < |tokens|
      invariant 0 <= i <= |tokens|
      invariant forall j :: 0 <= j < i ==> tokens[j] in roster.logins
      invariant accounts == base + seq(i, j requires 0 <= j < i => roster.logins[tokens[j]])
    {
      if tokens[i] !in roster.logins {
        break;
      }
      accounts := accounts + [roster.logins[tokens[i]]];
      i := i + 1;
    }
    assert i == LoginCount(tokens, roster.logins);
  }

  /** A response to the (Y/N) prompt that ends it: "y" or "n" in any case. */
  predicate IsAnswer(response: string)
  {
    Lower(response) == "y" || Lower(response) == "n"
  }

  /** Proceed on "y", Skip on "n"; NoMoreInput when input runs out (`input()` raises EOFError). */
  datatype Decision = Proceed | Skip | NoMoreInput

  /** A decision and how many responses were read to reach it. */
  datatype GateResult = GateResult(decision: Decision, consumed: nat)

  /**
   * The confirmation gate over the responses still to be read: every
   * response before the first answer only re-prompts.
   */
  function Gate(responses: seq<string>): (g: GateResult)
    ensures g.consumed <= |responses|
  {
    if responses == [] then GateResult(NoMoreInput, 0)
    else if Lower(responses[0]) == "y" then GateResult(Proceed, 1)
    else if Lower(responses[0]) == "n" then GateResult(Skip, 1)
    else
      var g := Gate(responses[1..]);
      GateResult(g.decision, g.consumed + 1)
  }

  /**
   * The gate reads up to and including the first "y" or "n" (in any case)
   * and proceeds iff it is "y"; when there is no such response it reads
   * everything and input runs out.
   */
  lemma {:induction false} GateReadsFirstAnswer(responses: seq<string>)
    ensures Gate(responses).decision == NoMoreInput <==> forall j :: 0 <= j < |responses| ==> !IsAnswer(responses[j])
    ensures Gate(responses).decision == NoMoreInput ==> Gate(responses).consumed == |responses|
    ensures Gate(responses).decision != NoMoreInput ==>
      var k := Gate(responses).consumed;
      1 <= k && IsAnswer(responses[k - 1]) &&
      (Gate(responses).decision == Proceed <==> Lower(responses[k - 1]) == "y") &&
      forall j :: 0 <= j < k - 1 ==> !IsAnswer(responses[j])
  {
    if responses != [] && !IsAnswer(responses[0]) {
      var tail := responses[1..];
      GateReadsFirstAnswer(tail);
      assert forall j :: 1 <= j < |responses| ==> responses[j] == tail[j - 1];
    }
  }

  /** Responses already read and found not to be answers only shift the gate's count. */
  lemma {:induction false} GateSkipsNonAnswers(responses: seq<string>, i: nat)
    requires i <= |responses| && forall j :: 0 <= j < i ==> !IsAnswer(responses[j])
    ensures Gate(responses) == GateResult(Gate(responses[i..]).decision, Gate(responses[i..]).consumed + i)
  {
    if i > 0 {
      assert responses[1..][i - 1..] == responses[i..];
      GateSkipsNonAnswers(responses[1..], i - 1);
    }
  }

  /** The `while True: input(...)` loop asking whether to import into one account. */
  method Confirm(responses: seq<string>) returns (decision: Decision, consumed: nat)
    ensures GateResult(decision, consumed) == Gate(responses)
  {
    var i := 0;
    while i < |responses|
      invariant 0 <= i <= |responses|
      invariant forall j :: 0 <= j < i ==> !IsAnswer(responses[j])
    {
      var answer := Lower(responses[i]);
      if answer == "y" || answer == "n" {
        GateSkipsNonAnswers(responses, i);
        decision := if answer == "y" then Proceed else Skip;
        consumed := i + 1;
        return;
      }
      i := i + 1;
    }
    GateSkipsNonAnswers(responses, i);
    decision, consumed := NoMoreInput, |responses|;
  }
}
