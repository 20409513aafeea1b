/**
 * src/agent.py: the `XMonitorAgent` that ties the store, the scraper, the
 * analyzer and the notifiers together.
 *
 * The agent calls four store methods that src/storage.py does not define
 * (`get_last_tweet_time`, `save_tweets`, `get_tweets_since`,
 * `update_account_info`) and a `get_tweets_for_accounts(..., since_map=...)`
 * that the scraper of src/scrapers/x_scraper.py does not accept. Those five
 * are oracles in `Services` whose results are arbitrary; the model records
 * each call in the agent's `trace`, in order, without giving the call any
 * effect on the store. The notifiers are oracles too: a send is recorded
 * together with whether it raised.
 */
module Agent {
  import opened Wrappers
  import opened Text
  import opened Models
  import opened Config
  import opened Seqs
  import Storage
  import Scraper
  import Analyzer
  import Email

  const Day: int := 86400
  const NoNewTweets: string := "今天监控的账号没有新推文。"
  const NoData: string := "无数据可供分析。"

  /** The notifiers `__init__` creates. */
  datatype Notifier =
    | EmailNotifier(settings: Email.EmailSettings)
    | TelegramNotifier(botToken: string, chatId: string)

  /** Everything the agent calls that is not modelled as code. */
  datatype Services = Services(
    lookup: string -> Scraper.UserLookup,
    lastTweetTime: string -> Option<int>,
    fetch: (seq<Account>, map<string, int>) -> seq<Tweet>,
    tweetsSince: int -> seq<Tweet>,
    timeText: int -> string,
    complete: string -> Analyzer.Completion,
    notifyRaises: int -> bool)

  /** One call the agent makes outside the modelled store, in the order made. */
  datatype Call =
    | LookedUp(username: string)
    | UpdatedAccountInfo(username: string, userId: Option<string>, displayName: Option<string>, description: Option<string>)
    | AskedLastTweetTime(username: string)
    | Fetched(accounts: seq<Account>, sinceMap: map<string, int>)
    | SavedTweets(tweets: seq<Tweet>)
    | AskedTweetsSince(since: int)
    | SavedSummary(summary: DailySummary)
    | Notified(notifier: int, summary: DailySummary, raised: bool)

  /* ---- the notifier list ---- */

  /** `__init__`: the e-mail notifier if e-mail is configured, then the Telegram one if Telegram is. */
  function NotifiersFor(s: Settings): (r: seq<Notifier>)
    ensures |r| == (if EmailEnabled(s) then 1 else 0) + (if TelegramEnabled(s) then 1 else 0)
    ensures EmailEnabled(s) ==>
              r[0] == EmailNotifier(Email.EmailSettings(s.smtpHost, s.smtpPort, s.smtpUser, s.smtpPassword, s.emailTo))
    ensures TelegramEnabled(s) ==> r[|r| - 1] == TelegramNotifier(s.telegramBotToken, s.telegramChatId)
  {
    (if EmailEnabled(s)
     then [EmailNotifier(Email.EmailSettings(s.smtpHost, s.smtpPort, s.smtpUser, s.smtpPassword, s.emailTo))]
     else [])
    + (if TelegramEnabled(s) then [TelegramNotifier(s.telegramBotToken, s.telegramChatId)] else [])
  }

  /** There is an e-mail notifier iff e-mail is configured, and a Telegram one iff Telegram is. */
  lemma NotifiersKinds(s: Settings)
    ensures (exists i :: 0 <= i < |NotifiersFor(s)| && NotifiersFor(s)[i].EmailNotifier?) <==> EmailEnabled(s)
    ensures (exists i :: 0 <= i < |NotifiersFor(s)| && NotifiersFor(s)[i].TelegramNotifier?) <==> TelegramEnabled(s)
  {
    var r := NotifiersFor(s);
    if EmailEnabled(s) {
      assert r[0].EmailNotifier?;
    }
    if TelegramEnabled(s) {
      assert r[|r| - 1].TelegramNotifier?;
    }
  }

  /* ---- usernames ---- */

  /** `username.lstrip("@").strip()`. */
  function NormalizeUsername(u: string): string {
    Strip(LStrip(u, {'@'}))
  }

  /** The result has no whitespace at either end. */
  lemma NormalizeTrimmed(u: string)
    ensures NormalizeUsername(u) != [] ==>
              !IsSpace(NormalizeUsername(u)[0]) && !IsSpace(NormalizeUsername(u)[|NormalizeUsername(u)| - 1])
  {
    var r := Strip(LStrip(u, {'@'}));
  }

  /** Leading `@` signs make no difference. */
  lemma NormalizeDropsAt(u: string)
    ensures NormalizeUsername("@" + u) == NormalizeUsername(u)
  {
    assert ("@" + u)[1..] == u;
  }

  /** A bare, trimmed username is left as it is. */
  lemma NormalizeKeeps(u: string)
    requires u != [] ==> u[0] != '@' && !IsSpace(u[0]) && !IsSpace(u[|u| - 1])
    ensures NormalizeUsername(u) == u
  {
    assert LStrip(u, {'@'}) == u;
    assert LStripSpace(u) == u;
    assert RStripSpace(u) == u;
  }

  /** A space after the `@` stops the `@` stripping; the space itself is then trimmed. */
  lemma NormalizeAtSpace(u: string)
    requires u != [] && !IsSpace(u[0]) && !IsSpace(u[|u| - 1])
    ensures NormalizeUsername("@ " + u) == u
  {
    var s1 := [' '] + u;
    assert ("@ " + u)[1..] == s1;
    assert LStrip("@ " + u, {'@'}) == LStrip(s1, {'@'}) == s1;
    assert IsSpace(' ');
    StripLeadingSpace(' ', u);
  }

  /** A name that starts with `@` loses at least that sign. */
  lemma NormalizeShortens(u: string)
    requires u != [] && u[0] == '@'
    ensures |NormalizeUsername(u)| < |u|
  {
    assert LStrip(u, {'@'}) == LStrip(u[1..], {'@'});
  }

  /**
   * Normalising is not idempotent: `"@ " + u`, for a `u` that starts with
   * `@`, normalises to `u`, which normalises again to something shorter.
   */
  lemma NormalizeNotIdempotent(u: string)
    requires u != [] && u[0] == '@' && !IsSpace(u[|u| - 1])
    ensures NormalizeUsername("@ " + u) == u
    ensures NormalizeUsername(NormalizeUsername("@ " + u)) != NormalizeUsername("@ " + u)
  {
    assert !IsSpace('@');
    NormalizeAtSpace(u);
    NormalizeShortens(u);
  }

  /* ---- `_ensure_account_info` ---- */

  /** The account after its refresh, and the calls the refresh made. */
  datatype Refresh = Refresh(account: Account, calls: seq<Call>)

  /**
   * One iteration of `_ensure_account_info`: an account with a user id is kept
   * without a lookup; otherwise the user is looked up and, when found, the
   * user id is set, the store is told once, and the display name and
   * description are replaced only by non-empty fetched values.
   */
  function RefreshAccount(a: Account, now: int, lookup: string -> Scraper.UserLookup): (r: Refresh)
    ensures r.account.username == a.username && r.account.addedAt == a.addedAt
    ensures Truthy(a.userId) ==> r == Refresh(a, [])
    ensures !Truthy(a.userId) && !lookup(a.username).UserFound? ==> r == Refresh(a, [LookedUp(a.username)])
    ensures !Truthy(a.userId) && lookup(a.username).UserFound? ==>
              var f := lookup(a.username);
              && r.account.userId == Some(NatToString(f.id))
              && r.account.displayName == (if f.name != "" then Some(f.name) else a.displayName)
              && r.account.description == (if Truthy(f.description) then f.description else a.description)
              && r.calls == [LookedUp(a.username),
                             UpdatedAccountInfo(a.username, Some(NatToString(f.id)), Some(f.name), f.description)]
  {
    if Truthy(a.userId) then Refresh(a, [])
    else
      var info := Scraper.GetUserInfo(a.username, now, lookup);
      if info.Some? && Truthy(info.value.userId) then
        var i := info.value;
        Refresh(a.(userId := i.userId, displayName := OrElse(i.displayName, a.displayName),
                   description := OrElse(i.description, a.description)),
                [LookedUp(a.username), UpdatedAccountInfo(a.username, i.userId, i.displayName, i.description)])
      else Refresh(a, [LookedUp(a.username)])
  }

  /** After a refresh the account has a user id iff it had one or its lookup succeeded. */
  lemma RefreshSetsId(a: Account, now: int, lookup: string -> Scraper.UserLookup)
    ensures Truthy(RefreshAccount(a, now, lookup).account.userId) <==> Truthy(a.userId) || lookup(a.username).UserFound?
  {
    if !Truthy(a.userId) && lookup(a.username).UserFound? {
      assert NatToString(lookup(a.username).id) != "";
    }
  }

  /** The accounts `_ensure_account_info` returns. */
  function RefreshAll(s: seq<Account>, now: int, lookup: string -> Scraper.UserLookup): (r: seq<Account>)
    ensures |r| == |s|
    ensures forall i :: 0 <= i < |s| ==> r[i] == RefreshAccount(s[i], now, lookup).account
  {
    if s == [] then []
    else RefreshAll(s[..|s| - 1], now, lookup) + [RefreshAccount(s[|s| - 1], now, lookup).account]
  }

  /** The calls `_ensure_account_info` makes. */
  function RefreshCalls(s: seq<Account>, now: int, lookup: string -> Scraper.UserLookup): (r: seq<Call>)
    ensures forall j :: 0 <= j < |r| ==> r[j].LookedUp? || r[j].UpdatedAccountInfo?
    ensures forall j :: 0 <= j < |r| && r[j].LookedUp? ==>
              exists i :: 0 <= i < |s| && s[i].username == r[j].username && !Truthy(s[i].userId)
  {
    if s == [] then []
    else
      var pre := RefreshCalls(s[..|s| - 1], now, lookup);
      var a := s[|s| - 1];
      var r := pre + RefreshAccount(a, now, lookup).calls;
      assert forall j :: 0 <= j < |pre| && r[j].LookedUp? ==>
               exists i :: 0 <= i < |s| && s[i].username == r[j].username && !Truthy(s[i].userId) by {
        forall j | 0 <= j < |pre| && r[j].LookedUp?
          ensures exists i :: 0 <= i < |s| && s[i].username == r[j].username && !Truthy(s[i].userId)
        {
          var i :| 0 <= i < |s| - 1 && s[..|s| - 1][i].username == pre[j].username && !Truthy(s[..|s| - 1][i].userId);
          assert s[i] == s[..|s| - 1][i];
        }
      }
      r
  }

  /* ---- `_build_since_map` ---- */

  function Usernames(s: seq<Account>): set<string> {
    set i | 0 <= i < |s| :: s[i].username
  }

  /** The watermark of one account: its last stored tweet time, else one day before now. */
  function SinceFor(u: string, now: int, lastTweetTime: string -> Option<int>): int {
    lastTweetTime(u).GetOr(now - Day)
  }

  /** The dictionary `_build_since_map` returns. */
  function SinceMap(s: seq<Account>, now: int, lastTweetTime: string -> Option<int>): map<string, int> {
    map u | u in Usernames(s) :: SinceFor(u, now, lastTweetTime)
  }

  /** The lookups `_build_since_map` makes: one per account, in order. */
  function SinceCalls(s: seq<Account>): (r: seq<Call>)
    ensures |r| == |s|
    ensures forall j :: 0 <= j < |r| ==> r[j] == AskedLastTweetTime(s[j].username)
  {
    seq(|s|, j requires 0 <= j < |s| => AskedLastTweetTime(s[j].username))
  }

  /** One entry per account, nothing else, each the stored time or the shared default. */
  lemma SinceMapEntries(s: seq<Account>, now: int, lastTweetTime: string -> Option<int>)
    ensures forall i :: 0 <= i < |s| ==> s[i].username in SinceMap(s, now, lastTweetTime)
    ensures forall u :: u in SinceMap(s, now, lastTweetTime) ==> exists i :: 0 <= i < |s| && s[i].username == u
    ensures forall u :: u in SinceMap(s, now, lastTweetTime) ==>
              SinceMap(s, now, lastTweetTime)[u] == if lastTweetTime(u).Some? then lastTweetTime(u).value else now - Day
  {
  }

  lemma SinceMapSnoc(s: seq<Account>, a: Account, now: int, lastTweetTime: string -> Option<int>)
    ensures SinceMap(s + [a], now, lastTweetTime) == SinceMap(s, now, lastTweetTime)[a.username := SinceFor(a.username, now, lastTweetTime)]
  {
    assert Usernames(s + [a]) == Usernames(s) + {a.username} by {
      forall u | u in Usernames(s + [a]) ensures u in Usernames(s) + {a.username} {
        var i :| 0 <= i < |s + [a]| && (s + [a])[i].username == u;
        if i < |s| { assert s[i] == (s + [a])[i]; }
      }
      forall u | u in Usernames(s) ensures u in Usernames(s + [a]) {
        var i :| 0 <= i < |s| && s[i].username == u;
        assert (s + [a])[i] == s[i];
      }
      assert (s + [a])[|s|] == a;
    }
  }

  /* ---- `run_daily_job` ---- */

  /** The summary of the job, taken from the store's window, not from what was fetched. */
  function JobSummary(monitored: nat, window: seq<Tweet>, now: int, env: Services): DailySummary {
    if window == [] then DailySummary(now, monitored, 0, [], NoNewTweets, NoData, [], now)
    else Analyzer.SummaryFor(window, now, now, env.complete(Analyzer.Digest(window, env.timeText)))
  }

  /** An empty window reports no tweets for every account; otherwise the window's tweets and authors. */
  lemma JobSummaryShape(monitored: nat, window: seq<Tweet>, now: int, env: Services)
    ensures var d := JobSummary(monitored, window, now, env);
            d.date == now && d.generatedAt == now && d.tweets == window && d.totalTweets == |window|
            && (window == [] ==> d.accountsMonitored == monitored && d.summaryText == NoNewTweets
                                  && d.analysis == NoData && d.keyInsights == [])
            && (window != [] ==> d.accountsMonitored == |Analyzer.AuthorsOf(window)|
                                  && |d.keyInsights| <= Analyzer.MaxInsights)
  {
    if window != [] {
      Analyzer.SummaryForShape(window, now, now, env.complete(Analyzer.Digest(window, env.timeText)));
    }
  }

  /** One call per notifier, in list order, whether or not an earlier one raised. */
  function NotifyCalls(n: nat, summary: DailySummary, raises: int -> bool): (r: seq<Call>)
    ensures |r| == n
    ensures forall k :: 0 <= k < n ==> r[k] == Notified(k, summary, raises(k))
  {
    seq(n, k => Notified(k, summary, raises(k)))
  }

  /** What is fetched and saved, given the accounts after their refresh. */
  function Fetch(accts: seq<Account>, now: int, env: Services): seq<Tweet> {
    env.fetch(accts, SinceMap(accts, now, env.lastTweetTime))
  }

  /** The summary of a job over the listed accounts. */
  function JobResult(listed: seq<Account>, now: int, env: Services): DailySummary {
    JobSummary(|listed|, env.tweetsSince(now - Day), now, env)
  }

  /** Every call of a job over the listed accounts, with `n` notifiers. */
  function JobTrace(listed: seq<Account>, now: int, env: Services, n: nat): seq<Call> {
    if listed == [] then []
    else
      var summary := JobResult(listed, now, env);
      JobTraceHead(listed, now, env) + [SavedSummary(summary)] + NotifyCalls(n, summary, env.notifyRaises)
  }

  /** The fetch, then the save of what it returned when that is not empty. */
  function FetchCalls(accts: seq<Account>, sinceMap: map<string, int>, fetched: seq<Tweet>): seq<Call> {
    [Fetched(accts, sinceMap)] + (if fetched == [] then [] else [SavedTweets(fetched)])
  }

  /** The part of a job's trace before the summary is saved. */
  function JobTraceHead(listed: seq<Account>, now: int, env: Services): seq<Call> {
    var accts := RefreshAll(listed, now, env.lookup);
    RefreshCalls(listed, now, env.lookup) + SinceCalls(accts)
    + FetchCalls(accts, SinceMap(accts, now, env.lastTweetTime), Fetch(accts, now, env))
    + [AskedTweetsSince(now - Day)]
  }

  /** The job's trace over a non-empty listing, split at the save. */
  lemma JobTraceSplit(stored: seq<Account>, now: int, env: Services, n: nat)
    requires stored != []
    ensures JobTrace(stored, now, env, n) ==
            JobTraceHead(stored, now, env) + ([SavedSummary(JobResult(stored, now, env))]
            + NotifyCalls(n, JobResult(stored, now, env), env.notifyRaises))
  {
  }

  /** A call that may come before the summary is saved. */
  predicate BeforeSave(c: Call) {
    !c.Notified? && !c.SavedSummary?
  }

  /** Only lookups, watermark reads, the fetch, the tweet save and the window read come before the summary. */
  lemma JobTraceHeadCalls(listed: seq<Account>, now: int, env: Services)
    ensures forall j :: 0 <= j < |JobTraceHead(listed, now, env)| ==>
              !JobTraceHead(listed, now, env)[j].Notified? && !JobTraceHead(listed, now, env)[j].SavedSummary?
  {
    var accts := RefreshAll(listed, now, env.lookup);
    var fetched := Fetch(accts, now, env);
    var a := RefreshCalls(listed, now, env.lookup);
    var b := SinceCalls(accts);
    var c := FetchCalls(accts, SinceMap(accts, now, env.lastTweetTime), fetched);
    var d := [AskedTweetsSince(now - Day)];
    AllConcat(a, b, BeforeSave);
    AllConcat(a + b, c, BeforeSave);
    AllConcat(a + b + c, d, BeforeSave);
  }

  /** A trace that ends in a save and the notifications, with neither before them. */
  lemma SaveThenNotify(t: seq<Call>, h: seq<Call>, s: DailySummary, n: nat, raises: int -> bool)
    requires forall j :: 0 <= j < |h| ==> !h[j].Notified? && !h[j].SavedSummary?
    requires t == h + [SavedSummary(s)] + NotifyCalls(n, s, raises)
    ensures |t| >= n + 1
    ensures t[|t| - n - 1] == SavedSummary(s)
    ensures forall k :: 0 <= k < n ==> t[|t| - n + k] == Notified(k, s, raises(k))
    ensures forall j :: 0 <= j < |t| - n - 1 ==> !t[j].Notified? && !t[j].SavedSummary?
  {
    assert |t| == |h| + 1 + n;
    forall j | 0 <= j < |h| ensures !t[j].Notified? && !t[j].SavedSummary? {
      assert t[j] == h[j];
    }
    forall k | 0 <= k < n ensures t[|h| + 1 + k] == Notified(k, s, raises(k)) {
      assert t[|h| + 1 + k] == NotifyCalls(n, s, raises)[k];
    }
  }

  /**
   * The summary is saved exactly once, after everything else and before
   * the notifications, and then every notifier is called once, in order.
   */
  lemma JobTraceSaveThenNotify(listed: seq<Account>, now: int, env: Services, n: nat)
    requires listed != []
    ensures var t := JobTrace(listed, now, env, n);
            && |t| >= n + 1
            && t[|t| - n - 1] == SavedSummary(JobResult(listed, now, env))
            && (forall k :: 0 <= k < n ==> t[|t| - n + k] == Notified(k, JobResult(listed, now, env), env.notifyRaises(k)))
            && (forall j :: 0 <= j < |t| - n - 1 ==> !t[j].Notified? && !t[j].SavedSummary?)
  {
    JobTraceHeadCalls(listed, now, env);
    SaveThenNotify(JobTrace(listed, now, env, n), JobTraceHead(listed, now, env), JobResult(listed, now, env),
                   n, env.notifyRaises);
  }

  /** A trace whose only tweet save is the one after a fetch that returned something. */
  lemma SavesFetched(pre: seq<Call>, f: Call, fetched: seq<Tweet>, post: seq<Call>)
    requires forall j :: 0 <= j < |pre| ==> !pre[j].SavedTweets?
    requires forall j :: 0 <= j < |post| ==> !post[j].SavedTweets?
    requires !f.SavedTweets?
    ensures var t := pre + ([f] + (if fetched == [] then [] else [SavedTweets(fetched)])) + post;
            && (fetched != [] <==> exists j :: 0 <= j < |t| && t[j].SavedTweets?)
            && (forall j :: 0 <= j < |t| && t[j].SavedTweets? ==> t[j].tweets == fetched)
  {
    var m := if fetched == [] then [] else [SavedTweets(fetched)];
    var t := pre + ([f] + m) + post;
    if fetched == [] {
      var none := (c: Call) => !c.SavedTweets?;
      AllConcat(pre, [f] + m, none);
      AllConcat(pre + ([f] + m), post, none);
    } else {
      var same := (c: Call) => c.SavedTweets? ==> c == SavedTweets(fetched);
      AllConcat(pre, [f] + m, same);
      AllConcat(pre + ([f] + m), post, same);
      assert t[|pre| + 1] == SavedTweets(fetched);
    }
  }

  /** The new tweets are saved iff the fetch returned some, and what is saved is what was fetched. */
  lemma JobTraceSavesFetched(listed: seq<Account>, now: int, env: Services, n: nat)
    requires listed != []
    ensures var fetched := Fetch(RefreshAll(listed, now, env.lookup), now, env);
            var t := JobTrace(listed, now, env, n);
            && (fetched != [] <==> exists j :: 0 <= j < |t| && t[j].SavedTweets?)
            && (forall j :: 0 <= j < |t| && t[j].SavedTweets? ==> t[j].tweets == fetched)
  {
    var accts := RefreshAll(listed, now, env.lookup);
    var fetched := Fetch(accts, now, env);
    var s := JobResult(listed, now, env);
    var pre := RefreshCalls(listed, now, env.lookup) + SinceCalls(accts);
    var post := [AskedTweetsSince(now - Day)] + ([SavedSummary(s)] + NotifyCalls(n, s, env.notifyRaises));
    var none := (c: Call) => !c.SavedTweets?;
    AllConcat(RefreshCalls(listed, now, env.lookup), SinceCalls(accts), none);
    AllConcat([AskedTweetsSince(now - Day)], [SavedSummary(s)] + NotifyCalls(n, s, env.notifyRaises), none);
    JobTraceSplit(listed, now, env, n);
    var f := Fetched(accts, SinceMap(accts, now, env.lastTweetTime));
    var m := if fetched == [] then [] else [SavedTweets(fetched)];
    ConcatAssoc(pre + ([f] + m), [AskedTweetsSince(now - Day)], [SavedSummary(s)] + NotifyCalls(n, s, env.notifyRaises));
    SavesFetched(pre, f, fetched, post);
  }

  /* ---- the agent ---- */

  class XMonitorAgent {
    const storage: Storage.Storage
    const notifiers: seq<Notifier>
    /** The calls made outside the modelled store, oldest first. */
    var trace: seq<Call>

    /** The store's own invariant; nothing else is kept. */
    ghost predicate Valid()
      reads storage
    {
      storage.Valid()
    }

    /** `__init__` followed by `initialize`: an empty store and the configured notifiers. */
    constructor (settings: Settings)
      ensures Valid() && fresh(storage)
      ensures storage.accounts == map[] && storage.summaries == []
      ensures notifiers == NotifiersFor(settings) && trace == []
    {
      storage := new Storage.Storage();
      notifiers := NotifiersFor(settings);
      trace := [];
    }

    /**
     * `add_account`: the stored account if there is one, with no lookup and
     * no write; otherwise the looked-up account, stored when found.
     */
    method AddAccount(username: string, now: int, lookup: string -> Scraper.UserLookup, writeFails: bool)
      returns (r: Option<Account>)
      requires Valid()
      modifies this, storage
      ensures Valid()
      ensures NormalizeUsername(username) in old(storage.accounts) ==>
                && r == Some(old(storage.accounts)[NormalizeUsername(username)])
                && trace == old(trace) && storage.accounts == old(storage.accounts)
      ensures NormalizeUsername(username) !in old(storage.accounts) ==>
                && r == Scraper.GetUserInfo(NormalizeUsername(username), now, lookup)
                && trace == old(trace) + [LookedUp(NormalizeUsername(username))]
                && storage.accounts == if r.Some? && !writeFails
                                       then old(storage.accounts)[NormalizeUsername(username) := r.value]
                                       else old(storage.accounts)
      ensures storage.summaries == old(storage.summaries)
    {
      var u := NormalizeUsername(username);
      var existing := storage.GetAccount(u);
      if existing.Some? {
        return existing;
      }
      trace := trace + [LookedUp(u)];
      r := Scraper.GetUserInfo(u, now, lookup);
      if r.Some? {
        var stored := storage.AddAccount(r.value, writeFails);
      }
    }

    /** `remove_account`: true iff the normalised username was monitored. */
    method RemoveAccount(username: string) returns (removed: bool)
      requires Valid()
      modifies storage
      ensures Valid()
      ensures removed == (NormalizeUsername(username) in old(storage.accounts))
      ensures storage.accounts == old(storage.accounts) - {NormalizeUsername(username)}
      ensures storage.summaries == old(storage.summaries)
    {
      removed := storage.RemoveAccount(NormalizeUsername(username));
    }

    /** `list_accounts`. */
    method ListAccounts() returns (r: seq<Account>)
      requires Valid()
      ensures |r| == |storage.accounts|
      ensures forall i :: 0 <= i < |r| ==> r[i].username in storage.accounts && storage.accounts[r[i].username] == r[i]
      ensures Storage.DistinctUsernames(r) && Storage.SortedByAddedAt(r)
    {
      r := storage.GetAccounts();
    }

    /** `get_summary`: the summary of the given day, or of today when none is given. */
    method GetSummary(date: Option<int>, now: int) returns (r: Option<DailySummary>)
      requires Valid()
      ensures var d := Storage.DayOf(date.GetOr(now));
              r.Some? <==> exists i :: 0 <= i < |storage.summaries| && storage.summaries[i].day == d
    {
      r := storage.GetSummary(date.GetOr(now));
    }

    /** `get_recent_summaries`: at most `days` summaries, newest first. */
    method GetRecentSummaries(days: int) returns (r: seq<DailySummary>)
      requires Valid()
      ensures |r| == Storage.Limit(days, |storage.summaries|)
      ensures forall i, j :: 0 <= i < j < |r| ==> Storage.DayOf(r[i].date) > Storage.DayOf(r[j].date)
    {
      r := storage.GetRecentSummaries(days);
    }

    /** The body of the `_ensure_account_info` loop for one account. */
    method RefreshOne(account: Account, now: int, lookup: string -> Scraper.UserLookup) returns (a: Account)
      modifies this
      ensures a == RefreshAccount(account, now, lookup).account
      ensures trace == old(trace) + RefreshAccount(account, now, lookup).calls
    {
      a := account;
      if Truthy(a.userId) {
        return;
      }
      trace := trace + [LookedUp(a.username)];
      var info := Scraper.GetUserInfo(a.username, now, lookup);
      if info.Some? && Truthy(info.value.userId) {
        trace := trace + [UpdatedAccountInfo(a.username, info.value.userId, info.value.displayName, info.value.description)];
        a := a.(userId := info.value.userId);
        a := a.(displayName := OrElse(info.value.displayName, a.displayName));
        a := a.(description := OrElse(info.value.description, a.description));
      }
    }

    /** `_ensure_account_info`: every account refreshed, same length and order. */
    method EnsureAccountInfo(accounts: seq<Account>, now: int, lookup: string -> Scraper.UserLookup)
      returns (updated: seq<Account>)
      modifies this
      ensures updated == RefreshAll(accounts, now, lookup)
      ensures trace == old(trace) + RefreshCalls(accounts, now, lookup)
    {
      updated := [];
      var i := 0;
      while i < |accounts|
        invariant 0 <= i <= |accounts|
        invariant updated == RefreshAll(accounts[..i], now, lookup)
        invariant trace == old(trace) + RefreshCalls(accounts[..i], now, lookup)
      {
        assert accounts[..i + 1][..i] == accounts[..i];
        ghost var pre := RefreshCalls(accounts[..i], now, lookup);
        var account := RefreshOne(accounts[i], now, lookup);
        ConcatAssoc(old(trace), pre, RefreshAccount(accounts[i], now, lookup).calls);
        updated := updated + [account];
        i := i + 1;
      }
      assert accounts[..i] == accounts;
    }

    /** `_build_since_map`. */
    method BuildSinceMap(accounts: seq<Account>, now: int, lastTweetTime: string -> Option<int>)
      returns (sinceMap: map<string, int>)
      modifies this
      ensures sinceMap == SinceMap(accounts, now, lastTweetTime)
      ensures trace == old(trace) + SinceCalls(accounts)
    {
      sinceMap := map[];
      var defaultSince := now - Day;
      var i := 0;
      while i < |accounts|
        invariant 0 <= i <= |accounts|
        invariant sinceMap == SinceMap(accounts[..i], now, lastTweetTime)
        invariant trace == old(trace) + SinceCalls(accounts[..i])
      {
        var u := accounts[i].username;
        trace := trace + [AskedLastTweetTime(u)];
        var lastTime := lastTweetTime(u);
        SinceMapSnoc(accounts[..i], accounts[i], now, lastTweetTime);
        assert accounts[..i + 1] == accounts[..i] + [accounts[i]];
        if lastTime.Some? {
          sinceMap := sinceMap[u := lastTime.value];
        } else {
          sinceMap := sinceMap[u := defaultSince];
        }
        i := i + 1;
      }
      assert accounts[..i] == accounts;
    }

    /** The notification loop of `run_daily_job`: every notifier is called, whatever the others did. */
    method NotifyAll(summary: DailySummary, raises: int -> bool)
      modifies this
      ensures trace == old(trace) + NotifyCalls(|notifiers|, summary, raises)
    {
      var i := 0;
      while i < |notifiers|
        invariant 0 <= i <= |notifiers|
        invariant trace == old(trace) + NotifyCalls(i, summary, raises)
      {
        var raised := raises(i);
        trace := trace + [Notified(i, summary, raised)];
        i := i + 1;
      }
    }

    /**
     * Steps 1 to 5 of `run_daily_job`: refresh the accounts, build the
     * watermarks, fetch, save what was fetched if anything, and read the
     * store's window of the last day.
     */
    method GatherTweets(listed: seq<Account>, now: int, env: Services) returns (accounts: seq<Account>, window: seq<Tweet>)
      modifies this
      ensures accounts == RefreshAll(listed, now, env.lookup)
      ensures window == env.tweetsSince(now - Day)
      ensures trace == old(trace) + JobTraceHead(listed, now, env)
    {
      ghost var t0 := trace;
      accounts := EnsureAccountInfo(listed, now, env.lookup);
      ghost var a := RefreshCalls(listed, now, env.lookup);
      var sinceMap := BuildSinceMap(accounts, now, env.lastTweetTime);
      ghost var b := SinceCalls(accounts);
      ConcatAssoc(t0, a, b);
      var newTweets := FetchAndSave(accounts, sinceMap, env.fetch);
      ghost var c := FetchCalls(accounts, sinceMap, newTweets);
      ConcatAssoc(t0, a + b, c);
      var analysisSince := now - Day;
      window := env.tweetsSince(analysisSince);
      trace := trace + [AskedTweetsSince(analysisSince)];
      ConcatAssoc(t0, a + b + c, [AskedTweetsSince(analysisSince)]);
    }

    /** Step 3 and 4 of `run_daily_job`: the fetch, and the save of a non-empty result. */
    method FetchAndSave(accounts: seq<Account>, sinceMap: map<string, int>,
                        fetch: (seq<Account>, map<string, int>) -> seq<Tweet>)
      returns (newTweets: seq<Tweet>)
      modifies this
      ensures newTweets == fetch(accounts, sinceMap)
      ensures trace == old(trace) + FetchCalls(accounts, sinceMap, newTweets)
    {
      newTweets := fetch(accounts, sinceMap);
      trace := trace + [Fetched(accounts, sinceMap)];
      if newTweets != [] {
        trace := trace + [SavedTweets(newTweets)];
      }
    }

    /** The summary of the window: the fixed empty-day summary, or the analyzer's. */
    method Summarize(accounts: seq<Account>, window: seq<Tweet>, now: int, env: Services) returns (summary: DailySummary)
      ensures summary == JobSummary(|accounts|, window, now, env)
    {
      if window == [] {
        summary := DailySummary(now, |accounts|, 0, [], NoNewTweets, NoData, [], now);
      } else {
        var digest;
        summary, digest := Analyzer.AnalyzeTweets(window, now, now, env.timeText, env.complete);
      }
    }

    /** Steps 7 and 8 of `run_daily_job`: the summary saved, then handed to every notifier in turn. */
    method SaveAndNotify(summary: DailySummary, raises: int -> bool, saveFails: bool)
      requires Valid()
      modifies this, storage
      ensures Valid()
      ensures trace == old(trace) + ([SavedSummary(summary)] + NotifyCalls(|notifiers|, summary, raises))
      ensures storage.summaries == if saveFails then old(storage.summaries)
                                   else Storage.DropDay(old(storage.summaries), Storage.DayOf(summary.date))
                                        + [Storage.ToRow(summary)]
      ensures storage.accounts == old(storage.accounts)
    {
      var saved := storage.SaveSummary(summary, saveFails);
      trace := trace + [SavedSummary(summary)];
      ghost var t1 := trace;
      NotifyAll(summary, raises);
      assert trace == t1 + NotifyCalls(|notifiers|, summary, raises);
    }

    /** `run_daily_job` once the listing is known to be non-empty. */
    method RunOver(stored: seq<Account>, now: int, env: Services, saveFails: bool) returns (summary: DailySummary)
      requires Valid() && stored != []
      modifies this, storage
      ensures Valid()
      ensures summary == JobResult(stored, now, env)
      ensures trace == old(trace) + JobTrace(stored, now, env, |notifiers|)
      ensures storage.summaries == if saveFails then old(storage.summaries)
                                   else Storage.DropDay(old(storage.summaries), Storage.DayOf(summary.date))
                                        + [Storage.ToRow(summary)]
      ensures storage.accounts == old(storage.accounts)
    {
      ghost var t0 := trace;
      var accounts, window := GatherTweets(stored, now, env);
      summary := Summarize(accounts, window, now, env);
      ghost var head := JobTraceHead(stored, now, env);
      SaveAndNotify(summary, env.notifyRaises, saveFails);
      ghost var tail := [SavedSummary(summary)] + NotifyCalls(|notifiers|, summary, env.notifyRaises);
      ConcatAssoc(t0, head, tail);
      JobTraceSplit(stored, now, env, |notifiers|);
    }

    /**
     * `run_daily_job`: nothing at all without accounts; otherwise the calls
     * of `JobTrace` over the stored accounts in listing order, the summary of
     * the store's window saved, and that summary returned.
     */
    method RunDailyJob(now: int, env: Services, saveFails: bool) returns (r: Option<DailySummary>, ghost listed: seq<Account>)
      requires Valid()
      modifies this, storage
      ensures Valid()
      ensures old(storage.accounts) == map[] <==> r.None?
      ensures r.None? ==> trace == old(trace) && storage.summaries == old(storage.summaries)
      ensures |listed| == |old(storage.accounts)| && Storage.DistinctUsernames(listed) && Storage.SortedByAddedAt(listed)
      ensures forall i :: 0 <= i < |listed| ==>
                listed[i].username in old(storage.accounts) && old(storage.accounts)[listed[i].username] == listed[i]
      ensures r.Some? ==> r.value == JobResult(listed, now, env)
      ensures r.Some? ==> trace == old(trace) + JobTrace(listed, now, env, |notifiers|)
      ensures r.Some? ==> storage.summaries == if saveFails then old(storage.summaries)
                                               else Storage.DropDay(old(storage.summaries), Storage.DayOf(r.value.date))
                                                    + [Storage.ToRow(r.value)]
      ensures storage.accounts == old(storage.accounts)
    {
      var stored := storage.GetAccounts();
      listed := stored;
      if stored == [] {
        return None, listed;
      }
      var summary := RunOver(stored, now, env, saveFails);
      r := Some(summary);
    }
  }
}
