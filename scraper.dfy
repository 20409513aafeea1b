/**
 * src/scrapers/x_scraper.py: turning X API v2 responses into `Tweet`
 * records and merging the tweets of several accounts. The two API calls
 * (`get_user`, `get_users_tweets`) are oracles passed in as functions; a
 * call that raises is a `...Raised` answer.
 */
module Scraper {
  import opened Wrappers
  import opened Text
  import opened Models
  import opened Seqs

  /** The largest page `get_users_tweets` asks for. */
  const MaxPageSize: int := 100

  /** The answer of `client.get_user(username=...)`. */
  datatype UserLookup =
    | UserFound(id: nat, name: string, description: Option<string>)
    | UserMissing
    | LookupRaised

  /** One `includes["media"]` entry; an absent attribute is `None`. */
  datatype RawMedia = RawMedia(mediaKey: string, url: Option<string>, previewImageUrl: Option<string>)

  /**
   * One entry of `response.data`. An absent `referenced_tweets`, attachment
   * list or metrics dict is the empty one; `text` and `created_at` may be
   * missing, which makes the `Tweet` constructor raise.
   */
  datatype RawTweet = RawTweet(
    id: nat,
    text: Option<string>,
    createdAt: Option<int>,
    referencedTypes: seq<string>,
    mediaKeys: seq<string>,
    publicMetrics: map<string, int>)

  /** The arguments `get_users_tweets` is called with. */
  datatype TimelineRequest = TimelineRequest(userId: nat, startTime: int, pageSize: int)

  /** The answer of `client.get_users_tweets(...)`; absent `data` or `includes` are empty. */
  datatype TimelineResponse =
    | Timeline(data: seq<RawTweet>, media: seq<RawMedia>)
    | TimelineRaised

  /** The two flags derived from `referenced_tweets`. */
  datatype Kind = Kind(isRetweet: bool, isReply: bool)

  /** The scan over the referenced-tweet types. */
  function Classify(refs: seq<string>): (k: Kind)
    ensures k.isRetweet <==> "retweeted" in refs
    ensures k.isReply <==> "replied_to" in refs
  {
    if refs == [] then Kind(false, false)
    else
      var rest := Classify(refs[1..]);
      assert refs == [refs[0]] + refs[1..];
      if refs[0] == "retweeted" then rest.(isRetweet := true)
      else if refs[0] == "replied_to" then rest.(isReply := true)
      else rest
  }

  /** The media-map value of one media entry: `url or preview_image_url`. */
  function MediaValue(m: RawMedia): (v: Option<string>)
    ensures Truthy(m.url) ==> v == m.url
    ensures !Truthy(m.url) ==> v == m.previewImageUrl
  {
    OrElse(m.url, m.previewImageUrl)
  }

  /** The dict `media_map` holds after the loop over `includes["media"]`. */
  function MediaMapOf(media: seq<RawMedia>): map<string, Option<string>> {
    if media == [] then map[]
    else MediaMapOf(media[..|media| - 1])[media[|media| - 1].mediaKey := MediaValue(media[|media| - 1])]
  }

  /** Every media key, and nothing else, gets an entry. */
  lemma {:induction false} MediaMapKeys(media: seq<RawMedia>)
    ensures MediaMapOf(media).Keys == set i | 0 <= i < |media| :: media[i].mediaKey
  {
    if media != [] {
      var init := media[..|media| - 1];
      MediaMapKeys(init);
      var ks := set i | 0 <= i < |media| :: media[i].mediaKey;
      var ki := set i | 0 <= i < |init| :: init[i].mediaKey;
      forall k | k in ks ensures k in ki + {media[|media| - 1].mediaKey} {
        var i :| 0 <= i < |media| && media[i].mediaKey == k;
        if i < |init| { assert init[i] == media[i]; }
      }
      forall k | k in ki ensures k in ks {
        var i :| 0 <= i < |init| && init[i].mediaKey == k;
        assert media[i] == init[i];
      }
      assert ks == ki + {media[|media| - 1].mediaKey};
    }
  }

  /** The last media entry with a given key decides that key's value. */
  lemma {:induction false} MediaMapLast(media: seq<RawMedia>, i: nat)
    requires i < |media|
    requires forall j :: i < j < |media| ==> media[j].mediaKey != media[i].mediaKey
    ensures media[i].mediaKey in MediaMapOf(media)
    ensures MediaMapOf(media)[media[i].mediaKey] == MediaValue(media[i])
  {
    var init := media[..|media| - 1];
    if i < |init| {
      assert init[i] == media[i];
      forall j | i < j < |init| ensures init[j].mediaKey != init[i].mediaKey {
        assert init[j] == media[j];
      }
      MediaMapLast(init, i);
    }
  }

  /** The `media_map` loop of `get_recent_tweets`. */
  method BuildMediaMap(media: seq<RawMedia>) returns (mm: map<string, Option<string>>)
    ensures mm == MediaMapOf(media)
  {
    mm := map[];
    var i := 0;
    while i < |media|
      invariant 0 <= i <= |media|
      invariant mm == MediaMapOf(media[..i])
    {
      assert media[..i + 1][..i] == media[..i];
      mm := mm[media[i].mediaKey := MediaValue(media[i])];
      i := i + 1;
    }
    assert media[..|media|] == media;
  }

  /** The attachment keys that map to a truthy URL, looked up in order. */
  function MediaUrls(keys: seq<string>, mm: map<string, Option<string>>): (urls: seq<string>)
    ensures |urls| <= |keys|
    ensures forall u :: u in urls ==> exists k :: k in keys && k in mm && mm[k] == Some(u) && u != ""
  {
    if keys == [] then []
    else
      var rest := MediaUrls(keys[1..], mm);
      if keys[0] in mm && Truthy(mm[keys[0]]) then [mm[keys[0]].value] + rest else rest
  }

  /** Keys that are missing or map to no URL contribute nothing; the others keep their order. */
  lemma {:induction false} MediaUrlsAppend(a: seq<string>, b: seq<string>, mm: map<string, Option<string>>)
    ensures MediaUrls(a + b, mm) == MediaUrls(a, mm) + MediaUrls(b, mm)
  {
    if a != [] {
      assert (a + b)[0] == a[0] && (a + b)[1..] == a[1..] + b;
      MediaUrlsAppend(a[1..], b, mm);
      var head := if a[0] in mm && Truthy(mm[a[0]]) then [mm[a[0]].value] else [];
      assert MediaUrls(a + b, mm) == head + MediaUrls(a[1..] + b, mm);
      assert MediaUrls(a, mm) == head + MediaUrls(a[1..], mm);
    } else {
      assert a + b == b;
    }
  }

  /** With every key mapped to a URL, one URL per key is listed, in key order. */
  lemma {:induction false} MediaUrlsAllFound(keys: seq<string>, mm: map<string, Option<string>>)
    requires forall i :: 0 <= i < |keys| ==> keys[i] in mm && Truthy(mm[keys[i]])
    ensures |MediaUrls(keys, mm)| == |keys|
    ensures forall i :: 0 <= i < |keys| ==> Some(MediaUrls(keys, mm)[i]) == mm[keys[i]]
  {
    if keys != [] {
      forall i | 0 <= i < |keys[1..]| ensures keys[1..][i] in mm && Truthy(mm[keys[1..][i]]) {
        assert keys[1..][i] == keys[i + 1];
      }
      MediaUrlsAllFound(keys[1..], mm);
      var r := MediaUrls(keys, mm);
      forall i | 0 <= i < |keys| ensures Some(r[i]) == mm[keys[i]] {
        if i > 0 { assert keys[1..][i - 1] == keys[i]; }
      }
    }
  }

  /** `public_metrics.get(key, 0)`. */
  function Metric(m: map<string, int>, key: string): (v: int)
    ensures key in m ==> v == m[key]
    ensures key !in m ==> v == 0
  {
    if key in m then m[key] else 0
  }

  /** `public_metrics.get("impression_count")`. */
  function Views(m: map<string, int>): (v: Option<int>)
    ensures v.Some? <==> "impression_count" in m
    ensures v.Some? ==> v.value == m["impression_count"]
  {
    if "impression_count" in m then Some(m["impression_count"]) else None
  }

  /** The status link of a tweet. */
  function StatusUrl(username: string, tweetId: string): string {
    "https://x.com/" + username + "/status/" + tweetId
  }

  /**
   * The `Tweet` built from one API tweet, or `None` when the constructor
   * raises because the text or the creation time is missing.
   */
  function ConvertTweet(raw: RawTweet, username: string, displayName: string,
                        mm: map<string, Option<string>>): (r: Option<Tweet>)
    ensures r.Some? <==> raw.text.Some? && raw.createdAt.Some?
    ensures r.Some? ==> r.value.authorUsername == username && r.value.authorDisplayName == Some(displayName)
    ensures r.Some? ==> r.value.content == raw.text.value && r.value.createdAt == raw.createdAt.value
    ensures r.Some? ==> r.value.url == StatusUrl(username, r.value.tweetId)
    ensures r.Some? ==> r.value.tweetId == NatToString(raw.id)
    ensures r.Some? ==> AllDigits(r.value.tweetId) && DigitsValue(r.value.tweetId) == raw.id
    ensures r.Some? ==> r.value.likes == Metric(raw.publicMetrics, "like_count")
    ensures r.Some? ==> r.value.retweets == Metric(raw.publicMetrics, "retweet_count")
    ensures r.Some? ==> r.value.replies == Metric(raw.publicMetrics, "reply_count")
    ensures r.Some? ==> r.value.views == Views(raw.publicMetrics)
    ensures r.Some? ==> r.value.isRetweet == ("retweeted" in raw.referencedTypes)
    ensures r.Some? ==> r.value.isReply == ("replied_to" in raw.referencedTypes)
    ensures r.Some? ==> r.value.mediaUrls == MediaUrls(raw.mediaKeys, mm)
  {
    if raw.text.None? || raw.createdAt.None? then None
    else
      var id := NatToString(raw.id);
      NatToStringValue(raw.id);
      var kind := Classify(raw.referencedTypes);
      var m := raw.publicMetrics;
      Some(Tweet(id, username, Some(displayName), raw.text.value, raw.createdAt.value,
                 Metric(m, "like_count"), Metric(m, "retweet_count"), Metric(m, "reply_count"), Views(m),
                 StatusUrl(username, id), kind.isRetweet, kind.isReply, MediaUrls(raw.mediaKeys, mm)))
  }

  /** Without `public_metrics` every counter is 0 and the view count is unknown. */
  lemma MissingMetricsDefault(raw: RawTweet, username: string, displayName: string, mm: map<string, Option<string>>)
    requires raw.publicMetrics == map[]
    requires raw.text.Some? && raw.createdAt.Some?
    ensures var t := ConvertTweet(raw, username, displayName, mm).value;
            t.likes == 0 && t.retweets == 0 && t.replies == 0 && t.views == None &&
            EngagementScore(t) == 0
  {
  }

  /** Tweets with different ids get different `tweet_id`s. */
  lemma TweetIdsDistinct(a: RawTweet, b: RawTweet, username: string, displayName: string,
                         mm: map<string, Option<string>>)
    requires a.id != b.id
    requires ConvertTweet(a, username, displayName, mm).Some? && ConvertTweet(b, username, displayName, mm).Some?
    ensures ConvertTweet(a, username, displayName, mm).value.tweetId != ConvertTweet(b, username, displayName, mm).value.tweetId
  {
  }

  /** The results of `f` on the elements of `data`, up to the first that fails. */
  function UntilFailure<A, B>(data: seq<A>, f: A -> Option<B>): (r: seq<B>)
    ensures |r| <= |data|
  {
    if data == [] then []
    else
      match f(data[0])
      case None => []
      case Some(y) => [y] + UntilFailure(data[1..], f)
  }

  /** What is kept is `f` of a prefix of the input, cut just before the first failure. */
  lemma {:induction false} UntilFailurePrefix<A, B>(data: seq<A>, f: A -> Option<B>)
    ensures var r := UntilFailure(data, f);
            (forall i :: 0 <= i < |r| ==> f(data[i]) == Some(r[i])) &&
            (|r| < |data| ==> f(data[|r|]).None?)
  {
    if data != [] && f(data[0]).Some? {
      UntilFailurePrefix(data[1..], f);
      var r := UntilFailure(data, f);
      forall i | 0 <= i < |r| ensures f(data[i]) == Some(r[i]) {
        if i > 0 { assert data[1..][i - 1] == data[i]; }
      }
    }
  }

  /** `UntilFailure` from position `i` on: stop at a failure, else keep one result and go on. */
  lemma UntilFailureStep<A, B>(data: seq<A>, i: nat, f: A -> Option<B>)
    requires i < |data|
    ensures UntilFailure(data[i..], f) ==
            match f(data[i])
            case None => []
            case Some(y) => [y] + UntilFailure(data[i + 1..], f)
  {
    assert data[i..][0] == data[i] && data[i..][1..] == data[i + 1..];
  }

  /** The `Tweet(...)` constructor applied to one raw tweet of a page. */
  function Converter(username: string, displayName: string, mm: map<string, Option<string>>): RawTweet -> Option<Tweet> {
    t => ConvertTweet(t, username, displayName, mm)
  }

  /** The loop over `response.data`: the tweets converted before the first one that raises. */
  function ConvertAll(data: seq<RawTweet>, username: string, displayName: string,
                      mm: map<string, Option<string>>): (r: seq<Tweet>)
    ensures |r| <= |data|
  {
    UntilFailure(data, Converter(username, displayName, mm))
  }

  /** The tweets kept are the conversions of a prefix of the page, cut at the first failure. */
  lemma ConvertAllPrefix(data: seq<RawTweet>, username: string, displayName: string,
                         mm: map<string, Option<string>>)
    ensures var r := ConvertAll(data, username, displayName, mm);
            (forall i :: 0 <= i < |r| ==> ConvertTweet(data[i], username, displayName, mm) == Some(r[i])) &&
            (|r| < |data| ==> ConvertTweet(data[|r|], username, displayName, mm).None?)
  {
    UntilFailurePrefix(data, Converter(username, displayName, mm));
  }

  /** The page size asked for: `min(max_results, 100)`. */
  function PageSize(maxResults: int): (n: int)
    ensures n <= MaxPageSize && n <= maxResults
    ensures n == MaxPageSize || n == maxResults
  {
    if maxResults < MaxPageSize then maxResults else MaxPageSize
  }

  /** The start of the window: `since`, or one day before `now`. */
  function SinceOrDefault(since: Option<int>, now: int): (t: int)
    ensures since.Some? ==> t == since.value
    ensures since.None? ==> t == now - 86400
  {
    since.GetOr(now - 86400)
  }

  /** The timeline request `get_recent_tweets` makes, if it gets that far. */
  function TimelineRequestFor(username: string, since: Option<int>, maxResults: int, now: int,
                              lookup: string -> UserLookup): (q: Option<TimelineRequest>)
    ensures q.Some? <==> lookup(username).UserFound?
    ensures q.Some? ==> q.value == TimelineRequest(lookup(username).id, SinceOrDefault(since, now), PageSize(maxResults))
  {
    match lookup(username)
    case UserFound(id, _, _) => Some(TimelineRequest(id, SinceOrDefault(since, now), PageSize(maxResults)))
    case _ => None
  }

  /** What `get_recent_tweets` returns, as a function of the two API answers. */
  function RecentTweets(username: string, since: Option<int>, maxResults: int, now: int,
                        lookup: string -> UserLookup,
                        timeline: TimelineRequest -> TimelineResponse): seq<Tweet>
  {
    match TimelineRequestFor(username, since, maxResults, now, lookup)
    case None => []
    case Some(q) =>
      match timeline(q)
      case TimelineRaised => []
      case Timeline(data, media) =>
        ConvertAll(data, username, lookup(username).name, MediaMapOf(media))
  }

  /**
   * `get_recent_tweets` never raises: an unknown user, a failing call or an
   * empty page give no tweets, and otherwise every tweet returned is one of
   * the page's, converted in order, for the queried user.
   */
  lemma RecentTweetsShape(username: string, since: Option<int>, maxResults: int, now: int,
                          lookup: string -> UserLookup, timeline: TimelineRequest -> TimelineResponse)
    ensures var r := RecentTweets(username, since, maxResults, now, lookup, timeline);
            var q := TimelineRequestFor(username, since, maxResults, now, lookup);
            (q.None? || timeline(q.value).TimelineRaised? || timeline(q.value).data == [] ==> r == []) &&
            (q.Some? && timeline(q.value).Timeline? ==>
               |r| <= |timeline(q.value).data| &&
               forall i :: 0 <= i < |r| ==>
                 r[i].authorUsername == username &&
                 ConvertTweet(timeline(q.value).data[i], username, lookup(username).name,
                              MediaMapOf(timeline(q.value).media)) == Some(r[i]))
  {
    var q := TimelineRequestFor(username, since, maxResults, now, lookup);
    if q.Some? && timeline(q.value).Timeline? {
      ConvertAllPrefix(timeline(q.value).data, username, lookup(username).name, MediaMapOf(timeline(q.value).media));
    }
  }

  /** `XScraper.get_user_info`: the account a successful lookup describes, else `None`. */
  function GetUserInfo(username: string, now: int, lookup: string -> UserLookup): (r: Option<Account>)
    ensures r.Some? <==> lookup(username).UserFound?
    ensures r.Some? ==> r.value.username == username && r.value.addedAt == now
    ensures r.Some? ==> r.value.userId.Some? && AllDigits(r.value.userId.value) &&
                        DigitsValue(r.value.userId.value) == lookup(username).id
    ensures r.Some? ==> r.value.userId == Some(NatToString(lookup(username).id))
    ensures r.Some? ==> (r.value.userId.value[0] == '0' ==> lookup(username).id == 0)
    ensures r.Some? ==> r.value.displayName == Some(lookup(username).name) &&
                        r.value.description == lookup(username).description
  {
    match lookup(username)
    case UserFound(id, name, description) =>
      NatToStringValue(id);
      Some(Account(username, Some(NatToString(id)), Some(name), description, now))
    case _ => None
  }

  /** `XScraper.get_recent_tweets`, returning the timeline request it made as well. */
  method GetRecentTweets(username: string, since: Option<int>, maxResults: int, now: int,
                         lookup: string -> UserLookup, timeline: TimelineRequest -> TimelineResponse)
    returns (tweets: seq<Tweet>, request: Option<TimelineRequest>)
    ensures request == TimelineRequestFor(username, since, maxResults, now, lookup)
    ensures tweets == RecentTweets(username, since, maxResults, now, lookup, timeline)
  {
    var start := SinceOrDefault(since, now);
    tweets := [];
    request := None;
    var user := lookup(username);
    if !user.UserFound? {
      return;
    }
    var q := TimelineRequest(user.id, start, PageSize(maxResults));
    request := Some(q);
    var response := timeline(q);
    if response.TimelineRaised? || response.data == [] {
      return;
    }
    var mm := BuildMediaMap(response.media);
    tweets := ConvertPage(response.data, username, user.name, mm);
  }

  /** The loop over `response.data`, which stops at the first tweet whose constructor raises. */
  method ConvertPage(data: seq<RawTweet>, username: string, displayName: string,
                     mm: map<string, Option<string>>) returns (tweets: seq<Tweet>)
    ensures tweets == ConvertAll(data, username, displayName, mm)
  {
    tweets := [];
    var i := 0;
    while i < |data|
      invariant 0 <= i <= |data|
      invariant ConvertAll(data, username, displayName, mm) == tweets + ConvertAll(data[i..], username, displayName, mm)
    {
      var t := ConvertTweet(data[i], username, displayName, mm);
      UntilFailureStep(data, i, Converter(username, displayName, mm));
      if t.None? {
        break;
      }
      ConcatAssoc(tweets, [t.value], ConvertAll(data[i + 1..], username, displayName, mm));
      tweets := tweets + [t.value];
      i := i + 1;
    }
  }

  /* ---- merging the accounts' tweets ---- */

  /** Two sequences of which one is empty commute in front of a third. */
  lemma SwapEmpty<T>(a: seq<T>, b: seq<T>, r: seq<T>)
    requires a == [] || b == []
    ensures a + (b + r) == b + (a + r)
  {
    if a == [] {
      assert a + (b + r) == b + r == b + (a + r);
    } else {
      assert a + (b + r) == a + r == b + (a + r);
    }
  }

  /** Ordered by `created_at`, newest first. */
  ghost predicate NewestFirst(s: seq<Tweet>) {
    forall i, j :: 0 <= i < j < |s| ==> s[i].createdAt >= s[j].createdAt
  }

  /** `[t]` if `t` was created at instant `c`, else nothing. */
  function KeepAt(t: Tweet, c: int): (r: seq<Tweet>)
    ensures |r| <= 1
  {
    if t.createdAt == c then [t] else []
  }

  /** The tweets created at instant `c`, in their order in `s`. */
  function CreatedAt(s: seq<Tweet>, c: int): seq<Tweet> {
    if s == [] then [] else KeepAt(s[0], c) + CreatedAt(s[1..], c)
  }

  lemma {:induction false} CreatedAtAppend(a: seq<Tweet>, b: seq<Tweet>, c: int)
    ensures CreatedAt(a + b, c) == CreatedAt(a, c) + CreatedAt(b, c)
  {
    if a != [] {
      assert (a + b)[0] == a[0] && (a + b)[1..] == a[1..] + b;
      CreatedAtAppend(a[1..], b, c);
      ConcatAssoc(KeepAt(a[0], c), CreatedAt(a[1..], c), CreatedAt(b, c));
    } else {
      assert a + b == b;
    }
  }

  /** `x` placed before the first tweet not newer than it. */
  function InsertNewest(s: seq<Tweet>, x: Tweet): (r: seq<Tweet>)
    ensures |r| == |s| + 1
  {
    if s == [] || s[0].createdAt <= x.createdAt then [x] + s
    else [s[0]] + InsertNewest(s[1..], x)
  }

  lemma {:induction false} InsertNewestPermutes(s: seq<Tweet>, x: Tweet)
    ensures multiset(InsertNewest(s, x)) == multiset(s) + multiset{x}
  {
    if s != [] && s[0].createdAt > x.createdAt {
      InsertNewestPermutes(s[1..], x);
      assert s == [s[0]] + s[1..];
    }
  }

  lemma {:induction false} InsertNewestSorted(s: seq<Tweet>, x: Tweet)
    requires NewestFirst(s)
    ensures NewestFirst(InsertNewest(s, x))
  {
    var r := InsertNewest(s, x);
    if s == [] || s[0].createdAt <= x.createdAt {
      forall i, j | 0 <= i < j < |r| ensures r[i].createdAt >= r[j].createdAt {
        if i == 0 && j > 1 { assert s[0].createdAt >= s[j - 1].createdAt; }
      }
    } else {
      var t := InsertNewest(s[1..], x);
      InsertNewestSorted(s[1..], x);
      InsertNewestPermutes(s[1..], x);
      forall j | 0 <= j < |t| ensures t[j].createdAt <= s[0].createdAt {
        assert t[j] in multiset(t);
        if t[j] != x {
          var m :| 0 <= m < |s[1..]| && s[1..][m] == t[j];
          assert s[m + 1] == t[j];
        }
      }
      assert r == [s[0]] + t;
    }
  }

  /** Inserting `x` keeps, for every instant, the order of the tweets created then, with `x` first. */
  lemma {:induction false} InsertNewestStable(s: seq<Tweet>, x: Tweet, c: int)
    ensures CreatedAt(InsertNewest(s, x), c) == CreatedAt([x] + s, c)
  {
    if s != [] && s[0].createdAt > x.createdAt {
      var rest := InsertNewest(s[1..], x);
      InsertNewestStable(s[1..], x, c);
      var ins := InsertNewest(s, x);
      assert ins == [s[0]] + rest && ins[0] == s[0] && ins[1..] == rest;
      var xs := [x] + s[1..];
      assert xs[0] == x && xs[1..] == s[1..];
      var ys := [x] + s;
      assert ys[0] == x && ys[1..] == s;
      var a := KeepAt(s[0], c);
      var b := KeepAt(x, c);
      var r := CreatedAt(s[1..], c);
      assert CreatedAt(ins, c) == a + (b + r);
      assert CreatedAt(ys, c) == b + (a + r);
      assert a == [] || b == [];
      SwapEmpty(a, b, r);
    }
  }

  /** `list.sort(key=created_at, reverse=True)`, a stable sort (insertion sort). */
  function SortNewestFirst(s: seq<Tweet>): (r: seq<Tweet>)
    ensures |r| == |s|
  {
    if s == [] then [] else InsertNewest(SortNewestFirst(s[1..]), s[0])
  }

  lemma {:induction false} SortNewestFirstPermutes(s: seq<Tweet>)
    ensures multiset(SortNewestFirst(s)) == multiset(s)
  {
    if s != [] {
      SortNewestFirstPermutes(s[1..]);
      InsertNewestPermutes(SortNewestFirst(s[1..]), s[0]);
      assert s == [s[0]] + s[1..];
    }
  }

  lemma {:induction false} SortNewestFirstSorted(s: seq<Tweet>)
    ensures NewestFirst(SortNewestFirst(s))
  {
    if s != [] {
      SortNewestFirstSorted(s[1..]);
      InsertNewestSorted(SortNewestFirst(s[1..]), s[0]);
    }
  }

  /** The sort is stable: tweets created at the same instant keep their input order. */
  lemma {:induction false} SortNewestFirstStable(s: seq<Tweet>, c: int)
    ensures CreatedAt(SortNewestFirst(s), c) == CreatedAt(s, c)
  {
    if s != [] {
      SortNewestFirstStable(s[1..], c);
      InsertNewestStable(SortNewestFirst(s[1..]), s[0], c);
      CreatedAtAppend([s[0]], SortNewestFirst(s[1..]), c);
      CreatedAtAppend([s[0]], s[1..], c);
      assert s == [s[0]] + s[1..];
    }
  }

  /** The concatenation of every account's `get_recent_tweets`, in account order. */
  function AllRecentTweets(accounts: seq<Account>, since: Option<int>, now: int,
                           lookup: string -> UserLookup,
                           timeline: TimelineRequest -> TimelineResponse): seq<Tweet>
  {
    if accounts == [] then []
    else AllRecentTweets(accounts[..|accounts| - 1], since, now, lookup, timeline)
         + RecentTweets(accounts[|accounts| - 1].username, since, MaxPageSize, now, lookup, timeline)
  }

  /**
   * `XScraper.get_tweets_for_accounts`: every account's tweets, merged and
   * sorted newest first; tweets of the same instant keep account order.
   */
  method GetTweetsForAccounts(accounts: seq<Account>, since: Option<int>, now: int,
                              lookup: string -> UserLookup, timeline: TimelineRequest -> TimelineResponse)
    returns (all: seq<Tweet>)
    ensures NewestFirst(all)
    ensures multiset(all) == multiset(AllRecentTweets(accounts, since, now, lookup, timeline))
    ensures forall c :: CreatedAt(all, c) == CreatedAt(AllRecentTweets(accounts, since, now, lookup, timeline), c)
  {
    var merged: seq<Tweet> := [];
    var i := 0;
    while i < |accounts|
      invariant 0 <= i <= |accounts|
      invariant merged == AllRecentTweets(accounts[..i], since, now, lookup, timeline)
    {
      var tweets, _ := GetRecentTweets(accounts[i].username, since, MaxPageSize, now, lookup, timeline);
      assert accounts[..i + 1][..i] == accounts[..i];
      merged := merged + tweets;
      i := i + 1;
    }
    assert accounts[..|accounts|] == accounts;
    all := SortNewestFirst(merged);
    SortNewestFirstSorted(merged);
    SortNewestFirstPermutes(merged);
    forall c ensures CreatedAt(all, c) == CreatedAt(merged, c) {
      SortNewestFirstStable(merged, c);
    }
  }
}
