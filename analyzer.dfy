/**
 * src/analyzers/llm_analyzer.py: the tweet digest handed to the language
 * model, the key-insight extractor run over its answer, and the summary
 * built from both. The chat-completion call is an oracle from the digest to
 * an answer; `strftime` is the `timeText` argument.
 */
module Analyzer {
  import opened Wrappers
  import opened Text
  import opened Models
  import Seqs

  const NoTweetData: string := "没有推文数据。"
  const TweetsPerAuthor: nat := 10
  const ContentLimit: nat := 200
  const MaxInsights: nat := 5
  const InsightHeading: string := "关键洞察"
  const FindingHeading: string := "关键发现"

  /* ---- grouping by author ---- */

  /** The authors of `s`, each once, in order of first appearance (the key order of `by_author`). */
  function AuthorsOf(s: seq<Tweet>): seq<string> {
    if s == [] then []
    else
      var prev := AuthorsOf(s[..|s| - 1]);
      if s[|s| - 1].authorUsername in prev then prev else prev + [s[|s| - 1].authorUsername]
  }

  /** The tweets of `author`, in input order (the list `by_author[author]`). */
  function ByAuthor(s: seq<Tweet>, author: string): seq<Tweet> {
    if s == [] then []
    else ByAuthor(s[..|s| - 1], author) + (if s[|s| - 1].authorUsername == author then [s[|s| - 1]] else [])
  }

  ghost predicate Distinct(xs: seq<string>) {
    forall i, j :: 0 <= i < j < |xs| ==> xs[i] != xs[j]
  }

  /** The set of authors, `set(t.author_username for t in tweets)`. */
  function AuthorSet(s: seq<Tweet>): set<string> {
    set i | 0 <= i < |s| :: s[i].authorUsername
  }

  /** Every author is listed exactly once. */
  lemma {:induction false} AuthorsOfDistinct(s: seq<Tweet>)
    ensures Distinct(AuthorsOf(s))
    ensures forall a :: a in AuthorsOf(s) <==> a in AuthorSet(s)
  {
    if s != [] {
      var init := s[..|s| - 1];
      AuthorsOfDistinct(init);
      forall a ensures a in AuthorSet(s) <==> a in AuthorSet(init) || a == s[|s| - 1].authorUsername {
        if a in AuthorSet(s) {
          var i :| 0 <= i < |s| && s[i].authorUsername == a;
          if i < |init| { assert init[i] == s[i]; }
        }
        if a in AuthorSet(init) {
          var i :| 0 <= i < |init| && init[i].authorUsername == a;
          assert s[i] == init[i];
        }
      }
    }
  }

  lemma {:induction false} DistinctCard(xs: seq<string>)
    requires Distinct(xs)
    ensures |set x | x in xs| == |xs|
  {
    if xs != [] {
      var init := xs[..|xs| - 1];
      assert Distinct(init) by {
        forall i, j | 0 <= i < j < |init| ensures init[i] != init[j] {
          assert init[i] == xs[i] && init[j] == xs[j];
        }
      }
      DistinctCard(init);
      assert xs == init + [xs[|xs| - 1]];
      assert xs[|xs| - 1] !in init by {
        forall i | 0 <= i < |init| ensures init[i] != xs[|xs| - 1] {
          assert init[i] == xs[i];
        }
      }
      assert (set x | x in xs) == (set x | x in init) + {xs[|xs| - 1]};
    }
  }

  /** `accounts_monitored`, the size of the author set, is the number of groups in the digest. */
  lemma AuthorCount(s: seq<Tweet>)
    ensures |AuthorSet(s)| == |AuthorsOf(s)|
  {
    AuthorsOfDistinct(s);
    DistinctCard(AuthorsOf(s));
    assert AuthorSet(s) == set x | x in AuthorsOf(s);
  }

  lemma {:induction false} ByAuthorAbsent(s: seq<Tweet>, author: string)
    requires author !in AuthorsOf(s)
    ensures ByAuthor(s, author) == []
  {
    if s != [] {
      var init := s[..|s| - 1];
      assert forall a :: a in AuthorsOf(init) ==> a in AuthorsOf(s);
      ByAuthorAbsent(init, author);
    }
  }

  /** A group holds only its author's tweets, and a listed author's group is not empty. */
  lemma {:induction false} ByAuthorShape(s: seq<Tweet>, author: string)
    ensures forall t :: t in ByAuthor(s, author) ==> t.authorUsername == author && t in s
    ensures author in AuthorsOf(s) ==> ByAuthor(s, author) != []
  {
    if s != [] {
      var init := s[..|s| - 1];
      ByAuthorShape(init, author);
      forall t | t in ByAuthor(init, author) ensures t in s {
        var i :| 0 <= i < |init| && init[i] == t;
        assert s[i] == t;
      }
    }
  }

  /** The sum of the group sizes over a list of authors. */
  function GroupSizes(order: seq<string>, s: seq<Tweet>): nat {
    if order == [] then 0 else GroupSizes(order[..|order| - 1], s) + |ByAuthor(s, order[|order| - 1])|
  }

  lemma {:induction false} GroupSizesStep(order: seq<string>, s: seq<Tweet>, t: Tweet)
    requires Distinct(order)
    ensures GroupSizes(order, s + [t]) == GroupSizes(order, s) + (if t.authorUsername in order then 1 else 0)
  {
    if order != [] {
      var init := order[..|order| - 1];
      var last := order[|order| - 1];
      assert Distinct(init) by {
        forall i, j | 0 <= i < j < |init| ensures init[i] != init[j] {
          assert init[i] == order[i] && init[j] == order[j];
        }
      }
      GroupSizesStep(init, s, t);
      assert (s + [t])[..|s + [t]| - 1] == s;
      assert t.authorUsername in order <==> t.authorUsername in init || t.authorUsername == last;
      if t.authorUsername == last {
        assert last !in init by {
          forall i | 0 <= i < |init| ensures init[i] != last {
            assert init[i] == order[i];
          }
        }
      }
    }
  }

  /** The groups partition the tweets: every tweet is in exactly one group. */
  lemma {:induction false} GroupsPartition(s: seq<Tweet>)
    ensures GroupSizes(AuthorsOf(s), s) == |s|
  {
    if s != [] {
      var init := s[..|s| - 1];
      var t := s[|s| - 1];
      assert s == init + [t];
      GroupsPartition(init);
      AuthorsOfDistinct(init);
      AuthorsOfDistinct(s);
      GroupSizesStep(AuthorsOf(init), init, t);
      if t.authorUsername !in AuthorsOf(init) {
        var order := AuthorsOf(init);
        assert AuthorsOf(s) == order + [t.authorUsername];
        assert (order + [t.authorUsername])[..|order|] == order;
        ByAuthorAbsent(init, t.authorUsername);
      }
    }
  }

  /* ---- the digest text ---- */

  /** The marker before a tweet: a retweet wins over a reply. */
  function Prefix(t: Tweet): (p: string)
    ensures t.isRetweet ==> p == "[转推] "
    ensures !t.isRetweet && t.isReply ==> p == "[回复] "
    ensures !t.isRetweet && !t.isReply ==> p == ""
  {
    if t.isRetweet then "[转推] " else if t.isReply then "[回复] " else ""
  }

  /** `author_tweets[0].author_display_name or author`. */
  function DisplayName(author: string, group: seq<Tweet>): (d: string)
    ensures group != [] && Truthy(group[0].authorDisplayName) ==> d == group[0].authorDisplayName.value
    ensures !(group != [] && Truthy(group[0].authorDisplayName)) ==> d == author
  {
    if group != [] && Truthy(group[0].authorDisplayName) then group[0].authorDisplayName.value else author
  }

  /** The three lines listing one tweet. */
  function TweetLines(t: Tweet, timeText: int -> string): seq<string> {
    ["- [" + timeText(t.createdAt) + "] " + Prefix(t) + Take(t.content, ContentLimit),
     "  ❤️" + IntToString(t.likes) + " 🔁" + IntToString(t.retweets) + " 💬" + IntToString(t.replies),
     "  " + t.url + "\n"]
  }

  /** The lines of a run of tweets, each tweet's three lines in turn. */
  function Blocks(ts: seq<Tweet>, lines: Tweet -> seq<string>): (r: seq<string>)
    requires forall t :: |lines(t)| == 3
    ensures |r| == 3 * |ts|
  {
    if ts == [] then [] else Blocks(ts[..|ts| - 1], lines) + lines(ts[|ts| - 1])
  }

  /** The k-th tweet's lines sit at position 3k. */
  lemma {:induction false} BlocksAt(ts: seq<Tweet>, lines: Tweet -> seq<string>, k: nat)
    requires forall t :: |lines(t)| == 3
    requires k < |ts|
    ensures Blocks(ts, lines)[3 * k..3 * k + 3] == lines(ts[k])
  {
    var init := ts[..|ts| - 1];
    if k < |init| {
      BlocksAt(init, lines, k);
      assert init[k] == ts[k];
    }
  }

  /** The three lines of each tweet, with times rendered by `timeText`. */
  function LinesWith(timeText: int -> string): Tweet -> seq<string> {
    t => TweetLines(t, timeText)
  }

  /** The lines of a run of tweets. */
  function TweetBlock(ts: seq<Tweet>, timeText: int -> string): (r: seq<string>)
    ensures |r| == 3 * |ts|
  {
    Blocks(ts, LinesWith(timeText))
  }

  /** The header pair of one author's section. */
  function GroupHeader(author: string, group: seq<Tweet>): (h: seq<string>)
    ensures |h| == 2
  {
    ["\n## @" + author + " (" + DisplayName(author, group) + ")",
     "共 " + NatToString(|group|) + " 条推文\n"]
  }

  /** One author's section: the header with the full count, then at most ten tweets. */
  function GroupLines(author: string, group: seq<Tweet>, timeText: int -> string): seq<string> {
    GroupHeader(author, group) + TweetBlock(Take(group, TweetsPerAuthor), timeText)
  }

  /** The sections of the given authors, in order. */
  function ReportLines(order: seq<string>, s: seq<Tweet>, timeText: int -> string): seq<string> {
    if order == [] then []
    else ReportLines(order[..|order| - 1], s, timeText)
         + GroupLines(order[|order| - 1], ByAuthor(s, order[|order| - 1]), timeText)
  }

  /** The digest `_format_tweets_for_analysis` returns. */
  function Digest(s: seq<Tweet>, timeText: int -> string): string {
    if s == [] then NoTweetData else Join(ReportLines(AuthorsOf(s), s, timeText), "\n")
  }

  /** The k-th listed tweet of a block is the k-th tweet of the run, truncated to 200 characters. */
  lemma TweetBlockAt(ts: seq<Tweet>, timeText: int -> string, k: nat)
    requires k < |ts|
    ensures TweetBlock(ts, timeText)[3 * k..3 * k + 3] == TweetLines(ts[k], timeText)
  {
    BlocksAt(ts, LinesWith(timeText), k);
  }

  /** A section has the two header lines and three lines for each of at most ten tweets. */
  lemma SectionLength(author: string, group: seq<Tweet>, timeText: int -> string)
    ensures |GroupLines(author, group, timeText)| == 2 + 3 * (if |group| < TweetsPerAuthor then |group| else TweetsPerAuthor)
  {
  }

  /** A section starts with its header, which carries the author's full tweet count. */
  lemma SectionHeader(author: string, group: seq<Tweet>, timeText: int -> string)
    ensures GroupLines(author, group, timeText)[..2] == GroupHeader(author, group)
    ensures GroupLines(author, group, timeText)[1] == "共 " + NatToString(|group|) + " 条推文\n"
  {
  }

  /** Slicing past a prefix slices the rest. */
  lemma SliceAfter<T>(h: seq<T>, b: seq<T>, i: nat, j: nat)
    requires i <= j <= |b|
    ensures (h + b)[|h| + i..|h| + j] == b[i..j]
  {
  }

  /** The k-th tweet's lines in the block of a group's first ten tweets. */
  lemma GroupBlockAt(group: seq<Tweet>, timeText: int -> string, k: nat)
    requires k < |group| && k < TweetsPerAuthor
    ensures 3 * k + 3 <= |TweetBlock(Take(group, TweetsPerAuthor), timeText)|
    ensures TweetBlock(Take(group, TweetsPerAuthor), timeText)[3 * k..3 * k + 3] == TweetLines(group[k], timeText)
  {
    var ts := Take(group, TweetsPerAuthor);
    TweetBlockAt(ts, timeText, k);
    assert ts[k] == group[k];
  }

  /** The k-th listed tweet of a section is the group's k-th, for the first ten. */
  lemma SectionLines(author: string, group: seq<Tweet>, timeText: int -> string, k: nat)
    requires k < |group| && k < TweetsPerAuthor
    ensures GroupLines(author, group, timeText)[2 + 3 * k..2 + 3 * k + 3] == TweetLines(group[k], timeText)
  {
    GroupBlockAt(group, timeText, k);
    SliceAfter(GroupHeader(author, group), TweetBlock(Take(group, TweetsPerAuthor), timeText), 3 * k, 3 * k + 3);
  }

  /** The first loop of `_format_tweets_for_analysis`: the `by_author` dict and its insertion order. */
  method GroupByAuthor(s: seq<Tweet>) returns (order: seq<string>, groups: map<string, seq<Tweet>>)
    ensures order == AuthorsOf(s)
    ensures groups.Keys == set a | a in order
    ensures forall a :: a in groups ==> groups[a] == ByAuthor(s, a)
  {
    order := [];
    groups := map[];
    var i := 0;
    while i < |s|
      invariant 0 <= i <= |s|
      invariant order == AuthorsOf(s[..i])
      invariant groups.Keys == set a | a in order
      invariant forall a :: a in groups ==> groups[a] == ByAuthor(s[..i], a)
    {
      var t := s[i];
      assert s[..i + 1][..i] == s[..i] && s[..i + 1][i] == t;
      if t.authorUsername !in groups {
        ByAuthorAbsent(s[..i], t.authorUsername);
        groups := groups[t.authorUsername := [t]];
        order := order + [t.authorUsername];
      } else {
        groups := groups[t.authorUsername := groups[t.authorUsername] + [t]];
      }
      i := i + 1;
    }
    assert s[..|s|] == s;
  }

  lemma TweetBlockSnoc(ts: seq<Tweet>, k: nat, timeText: int -> string)
    requires k < |ts|
    ensures TweetBlock(ts[..k + 1], timeText) == TweetBlock(ts[..k], timeText) + TweetLines(ts[k], timeText)
  {
    assert ts[..k + 1][..k] == ts[..k];
  }

  /** One pass of the outer loop: the author's header lines, then the listed tweets' lines. */
  method AuthorSection(author: string, group: seq<Tweet>, timeText: int -> string) returns (lines: seq<string>)
    ensures lines == GroupLines(author, group, timeText)
  {
    var listed := Take(group, TweetsPerAuthor);
    var block: seq<string> := [];
    var k := 0;
    while k < |listed|
      invariant 0 <= k <= |listed|
      invariant block == TweetBlock(listed[..k], timeText)
    {
      TweetBlockSnoc(listed, k, timeText);
      block := block + TweetLines(listed[k], timeText);
      k := k + 1;
    }
    assert listed[..k] == listed;
    lines := GroupHeader(author, group) + block;
  }

  /** One more author adds that author's section at the end. */
  lemma ReportLinesSnoc(order: seq<string>, j: nat, s: seq<Tweet>, timeText: int -> string)
    requires j < |order|
    ensures ReportLines(order[..j + 1], s, timeText)
         == ReportLines(order[..j], s, timeText) + GroupLines(order[j], ByAuthor(s, order[j]), timeText)
  {
    assert order[..j + 1][..j] == order[..j];
  }

  /** The second loop of `_format_tweets_for_analysis`: each author's section in turn. */
  method SectionsOf(order: seq<string>, groups: map<string, seq<Tweet>>, s: seq<Tweet>, timeText: int -> string)
    returns (lines: seq<string>)
    requires forall a :: a in order ==> a in groups && groups[a] == ByAuthor(s, a)
    ensures lines == ReportLines(order, s, timeText)
  {
    lines := [];
    var j := 0;
    while j < |order|
      invariant 0 <= j <= |order|
      invariant lines == ReportLines(order[..j], s, timeText)
    {
      assert order[j] in order;
      var section := AuthorSection(order[j], groups[order[j]], timeText);
      ReportLinesSnoc(order, j, s, timeText);
      lines := lines + section;
      j := j + 1;
    }
    assert order[..j] == order;
  }

  /** `LLMAnalyzer._format_tweets_for_analysis`. */
  method FormatTweets(s: seq<Tweet>, timeText: int -> string) returns (text: string)
    ensures text == Digest(s, timeText)
  {
    if s == [] {
      return NoTweetData;
    }
    var order, groups := GroupByAuthor(s);
    var lines := SectionsOf(order, groups, s, timeText);
    text := Join(lines, "\n");
  }

  /** No tweets give the fixed placeholder, and any tweet gives a digest with one section per author. */
  lemma DigestShape(s: seq<Tweet>, timeText: int -> string)
    ensures s == [] ==> Digest(s, timeText) == NoTweetData
    ensures s != [] ==> Digest(s, timeText) == Join(ReportLines(AuthorsOf(s), s, timeText), "\n") &&
                        |AuthorsOf(s)| == |AuthorSet(s)| && GroupSizes(AuthorsOf(s), s) == |s|
  {
    AuthorCount(s);
    GroupsPartition(s);
  }

  /* ---- key-insight extraction ---- */

  /** A heading line opens the insight list. */
  predicate IsHeading(line: string) {
    Contains(line, InsightHeading) || Contains(line, FindingHeading)
  }

  /** `line.strip().startswith(("-", "•", "1", "2", "3", "4", "5"))`. */
  predicate IsBullet(line: string) {
    var s := Strip(line);
    s != [] && s[0] in {'-', '•', '1', '2', '3', '4', '5'}
  }

  /** A non-blank line that is neither a bullet nor a markdown heading. */
  predicate IsPlain(line: string) {
    var s := Strip(line);
    s != [] && s[0] != '#' && !IsBullet(line)
  }

  const CleanChars: set<char> := {'-', '•', '0', '1', '2', '3', '4', '5', '6', '7', '8', '9', '.', ' '}

  /** `line.strip().lstrip("-•0123456789. ")`. */
  function Clean(line: string): (r: string)
    ensures r != [] ==> r[0] !in CleanChars
  {
    LStrip(Strip(line), CleanChars)
  }

  /** The `for line in lines` loop, from a given state of `in_insights` and `key_insights`. */
  function Scan(lines: seq<string>, inside: bool, acc: seq<string>): seq<string> {
    if lines == [] then acc
    else if IsHeading(lines[0]) then Scan(lines[1..], true, acc)
    else if inside && IsBullet(lines[0]) then
      Scan(lines[1..], inside, if Clean(lines[0]) != [] then acc + [Clean(lines[0])] else acc)
    else if inside && IsPlain(lines[0]) && |acc| >= MaxInsights then acc
    else Scan(lines[1..], inside, acc)
  }

  /** The key insights of an answer: the scan, run only when a heading occurs, cut to five. */
  function Insights(text: string): seq<string> {
    if Contains(text, InsightHeading) || Contains(text, FindingHeading)
    then Take(Scan(Split(text, '\n'), false, []), MaxInsights)
    else []
  }

  /** A bullet line that is not a heading and keeps some text after cleaning. */
  predicate Collectable(line: string) {
    !IsHeading(line) && IsBullet(line) && Clean(line) != []
  }

  /** Some line before line `j` is a heading. */
  ghost predicate HeadingBefore(lines: seq<string>, j: int) {
    exists h :: 0 <= h < j && h < |lines| && IsHeading(lines[h])
  }

  /** Line `j` is a bullet with text left after cleaning, below a heading. */
  ghost predicate InsightLine(lines: seq<string>, j: int, inside: bool)
    requires 0 <= j < |lines|
  {
    Collectable(lines[j]) && (inside || HeadingBefore(lines, j))
  }

  /** `x` is the cleaned text of some bullet line below a heading. */
  ghost predicate FromLines(x: string, lines: seq<string>, inside: bool) {
    exists j :: 0 <= j < |lines| && InsightLine(lines, j, inside) && x == Clean(lines[j])
  }

  /** A heading before line `j` of the rest is a heading before line `j + 1`. */
  lemma HeadingBeforeShift(lines: seq<string>, j: int)
    requires lines != [] && HeadingBefore(lines[1..], j)
    ensures HeadingBefore(lines, j + 1)
  {
    var h :| 0 <= h < j && h < |lines[1..]| && IsHeading(lines[1..][h]);
    assert lines[1..][h] == lines[h + 1];
  }

  lemma FromLinesShift(x: string, lines: seq<string>, inside: bool)
    requires lines != [] && FromLines(x, lines[1..], inside || IsHeading(lines[0]))
    ensures FromLines(x, lines, inside)
  {
    var rest := lines[1..];
    var j :| 0 <= j < |rest| && InsightLine(rest, j, inside || IsHeading(lines[0])) && x == Clean(rest[j]);
    assert rest[j] == lines[j + 1];
    if !inside && !IsHeading(lines[0]) {
      HeadingBeforeShift(lines, j);
    }
    if IsHeading(lines[0]) {
      assert HeadingBefore(lines, j + 1);
    }
    assert InsightLine(lines, j + 1, inside);
  }

  /** The scan only ever appends to the insights collected so far. */
  lemma {:induction false} ScanExtends(lines: seq<string>, inside: bool, acc: seq<string>)
    ensures acc <= Scan(lines, inside, acc)
  {
    if lines == [] {
    } else if IsHeading(lines[0]) {
      ScanExtends(lines[1..], true, acc);
    } else if inside && IsBullet(lines[0]) {
      ScanExtends(lines[1..], inside, if Clean(lines[0]) != [] then acc + [Clean(lines[0])] else acc);
    } else if inside && IsPlain(lines[0]) && |acc| >= MaxInsights {
    } else {
      ScanExtends(lines[1..], inside, acc);
    }
  }

  /** `FromLinesShift` for every element from position `from` on. */
  lemma FromLinesShiftAll(r: seq<string>, from: nat, lines: seq<string>, inside: bool)
    requires lines != []
    requires forall k :: from <= k < |r| ==> FromLines(r[k], lines[1..], inside || IsHeading(lines[0]))
    ensures forall k :: from <= k < |r| ==> FromLines(r[k], lines, inside)
  {
    forall k | from <= k < |r| ensures FromLines(r[k], lines, inside) {
      FromLinesShift(r[k], lines, inside);
    }
  }

  /** Everything the scan appends is the cleaned text of a bullet line below a heading. */
  lemma {:induction false} ScanSound(lines: seq<string>, inside: bool, acc: seq<string>)
    ensures forall k :: |acc| <= k < |Scan(lines, inside, acc)| ==> FromLines(Scan(lines, inside, acc)[k], lines, inside)
    decreases |lines|, 1
  {
    if lines == [] {
    } else if IsHeading(lines[0]) {
      ScanSoundSkip(lines, inside, true, acc);
    } else if inside && IsBullet(lines[0]) {
      ScanSoundBullet(lines, inside, acc);
    } else if inside && IsPlain(lines[0]) && |acc| >= MaxInsights {
    } else {
      ScanSoundSkip(lines, inside, inside, acc);
    }
  }

  /** The step over a line that adds nothing and leaves `in_insights` as `next`. */
  lemma {:induction false} ScanSoundSkip(lines: seq<string>, inside: bool, next: bool, acc: seq<string>)
    requires lines != [] && next == (inside || IsHeading(lines[0]))
    requires Scan(lines, inside, acc) == Scan(lines[1..], next, acc)
    ensures forall k :: |acc| <= k < |Scan(lines, inside, acc)| ==> FromLines(Scan(lines, inside, acc)[k], lines, inside)
    decreases |lines|, 0
  {
    ScanSound(lines[1..], next, acc);
    FromLinesShiftAll(Scan(lines, inside, acc), |acc|, lines, inside);
  }

  /** The step over a bullet line below a heading, which adds its cleaned text when there is any. */
  lemma {:induction false} ScanSoundBullet(lines: seq<string>, inside: bool, acc: seq<string>)
    requires lines != [] && !IsHeading(lines[0]) && inside && IsBullet(lines[0])
    ensures forall k :: |acc| <= k < |Scan(lines, inside, acc)| ==> FromLines(Scan(lines, inside, acc)[k], lines, inside)
    decreases |lines|, 0
  {
    var r := Scan(lines, inside, acc);
    var acc' := if Clean(lines[0]) != [] then acc + [Clean(lines[0])] else acc;
    assert r == Scan(lines[1..], inside, acc');
    ScanSound(lines[1..], inside, acc');
    ScanExtends(lines[1..], inside, acc');
    FromLinesShiftAll(r, |acc'|, lines, inside);
    if Clean(lines[0]) != [] {
      assert r[|acc|] == acc'[|acc|] == Clean(lines[0]);
      assert InsightLine(lines, 0, inside);
    }
  }

  /** Without a heading line nothing is collected. */
  lemma {:induction false} ScanNoHeading(lines: seq<string>, acc: seq<string>)
    requires forall j :: 0 <= j < |lines| ==> !IsHeading(lines[j])
    ensures Scan(lines, false, acc) == acc
  {
    if lines != [] {
      assert !IsHeading(lines[0]);
      ScanNoHeading(lines[1..], acc);
    }
  }

  /** The guard on the whole answer changes nothing: without a heading in the text no line is a heading. */
  lemma InsightsGuardRedundant(text: string)
    ensures Insights(text) == Take(Scan(Split(text, '\n'), false, []), MaxInsights)
  {
    var lines := Split(text, '\n');
    if !(Contains(text, InsightHeading) || Contains(text, FindingHeading)) {
      SplitContains(text, '\n', InsightHeading);
      SplitContains(text, '\n', FindingHeading);
      ScanNoHeading(lines, []);
    }
  }

  /**
   * At most five insights, each the non-empty cleaned text of a bullet line
   * that follows a heading line of the answer.
   */
  lemma InsightsSound(text: string)
    ensures |Insights(text)| <= MaxInsights
    ensures forall k :: 0 <= k < |Insights(text)| ==> FromLines(Insights(text)[k], Split(text, '\n'), false)
  {
    var lines := Split(text, '\n');
    var r := Scan(lines, false, []);
    ScanSound(lines, false, []);
    if Insights(text) != [] {
      assert Insights(text) == Take(r, MaxInsights) <= r;
    }
  }

  /** Line `j` is a bullet with text left after cleaning and some heading line comes above it. */
  ghost predicate Listed(lines: seq<string>, j: int)
    requires 0 <= j < |lines|
  {
    HeadingBefore(lines, j) && Collectable(lines[j])
  }

  /** The cleaned text of every listed line from line `i` on, in line order, with no limit. */
  ghost function CollectedFrom(lines: seq<string>, i: nat): seq<string>
    decreases |lines| - i
  {
    if i >= |lines| then []
    else (if Listed(lines, i) then [Clean(lines[i])] else []) + CollectedFrom(lines, i + 1)
  }

  /** Every insight the answer lists below a heading, in order. */
  ghost function Collected(lines: seq<string>): seq<string> {
    CollectedFrom(lines, 0)
  }

  /** A heading comes before line `i + 1` when one comes before line `i` or line `i` is one. */
  lemma HeadingBeforeStep(lines: seq<string>, i: nat)
    requires i < |lines|
    ensures HeadingBefore(lines, i + 1) <==> HeadingBefore(lines, i) || IsHeading(lines[i])
  {
    if HeadingBefore(lines, i + 1) && !IsHeading(lines[i]) {
      var h :| 0 <= h < i + 1 && h < |lines| && IsHeading(lines[h]);
      assert h < i;
    }
  }

  /** The scan over a heading line: `in_insights` is set and nothing is listed there. */
  lemma ScanStepHeading(lines: seq<string>, i: nat, acc: seq<string>)
    requires i < |lines| && IsHeading(lines[i])
    ensures Scan(lines[i..], HeadingBefore(lines, i), acc) == Scan(lines[i + 1..], HeadingBefore(lines, i + 1), acc)
    ensures CollectedFrom(lines, i) == CollectedFrom(lines, i + 1)
  {
    var rest := lines[i..];
    assert rest[0] == lines[i] && rest[1..] == lines[i + 1..];
    HeadingBeforeStep(lines, i);
    assert !Listed(lines, i);
  }

  /** The scan over a bullet below a heading adds its cleaned text, which is what is listed there. */
  lemma ScanStepBullet(lines: seq<string>, i: nat, acc: seq<string>)
    requires i < |lines| && !IsHeading(lines[i]) && HeadingBefore(lines, i) && IsBullet(lines[i])
    ensures Clean(lines[i]) != [] ==>
              Scan(lines[i..], HeadingBefore(lines, i), acc)
                == Scan(lines[i + 1..], HeadingBefore(lines, i + 1), acc + [Clean(lines[i])])
              && CollectedFrom(lines, i) == [Clean(lines[i])] + CollectedFrom(lines, i + 1)
    ensures Clean(lines[i]) == [] ==>
              Scan(lines[i..], HeadingBefore(lines, i), acc) == Scan(lines[i + 1..], HeadingBefore(lines, i + 1), acc)
              && CollectedFrom(lines, i) == CollectedFrom(lines, i + 1)
  {
    var rest := lines[i..];
    assert rest[0] == lines[i] && rest[1..] == lines[i + 1..];
    HeadingBeforeStep(lines, i);
    assert Listed(lines, i) <==> Clean(lines[i]) != [];
    if Clean(lines[i]) == [] {
      assert [] + CollectedFrom(lines, i + 1) == CollectedFrom(lines, i + 1);
    }
  }

  /** The scan over any other line it does not stop at adds nothing, and nothing is listed there. */
  lemma ScanStepOther(lines: seq<string>, i: nat, acc: seq<string>)
    requires i < |lines| && !IsHeading(lines[i])
    requires !(HeadingBefore(lines, i) && IsBullet(lines[i]))
    requires !(HeadingBefore(lines, i) && IsPlain(lines[i]) && |acc| >= MaxInsights)
    ensures Scan(lines[i..], HeadingBefore(lines, i), acc) == Scan(lines[i + 1..], HeadingBefore(lines, i + 1), acc)
    ensures CollectedFrom(lines, i) == CollectedFrom(lines, i + 1)
  {
    var rest := lines[i..];
    assert rest[0] == lines[i] && rest[1..] == lines[i + 1..];
    HeadingBeforeStep(lines, i);
    assert !Listed(lines, i);
  }

  /**
   * From line `i`, with `in_insights` set exactly when a heading came before it,
   * the scan appends a prefix of what is listed from there on, and it stops
   * short only once at least five insights are collected.
   */
  lemma {:induction false} ScanCollects(lines: seq<string>, i: nat, acc: seq<string>)
    requires i <= |lines|
    ensures ShortOf(Scan(lines[i..], HeadingBefore(lines, i), acc), acc + CollectedFrom(lines, i))
    decreases |lines| - i, 1
  {
    if i == |lines| {
      assert lines[i..] == [];
    } else {
      var line := lines[i];
      var inside := HeadingBefore(lines, i);
      if IsHeading(line) {
        ScanStepHeading(lines, i, acc);
        ScanCollects(lines, i + 1, acc);
      } else if inside && IsBullet(line) {
        ScanStepBullet(lines, i, acc);
        if Clean(line) != [] {
          ScanCollectsAppend(lines, i, acc, Clean(line));
        } else {
          ScanCollects(lines, i + 1, acc);
        }
      } else if inside && IsPlain(line) && |acc| >= MaxInsights {
        var rest := lines[i..];
        assert rest[0] == line;
        assert Scan(rest, inside, acc) == acc;
      } else {
        ScanStepOther(lines, i, acc);
        ScanCollects(lines, i + 1, acc);
      }
    }
  }

  /** `ScanCollects` over a line where the scan appends `x`, which is also what is listed there. */
  lemma {:induction false} ScanCollectsAppend(lines: seq<string>, i: nat, acc: seq<string>, x: string)
    requires i < |lines|
    requires Scan(lines[i..], HeadingBefore(lines, i), acc) == Scan(lines[i + 1..], HeadingBefore(lines, i + 1), acc + [x])
    requires CollectedFrom(lines, i) == [x] + CollectedFrom(lines, i + 1)
    ensures ShortOf(Scan(lines[i..], HeadingBefore(lines, i), acc), acc + CollectedFrom(lines, i))
    decreases |lines| - i, 0
  {
    ScanCollects(lines, i + 1, acc + [x]);
    PrefixAppend(Scan(lines[i..], HeadingBefore(lines, i), acc), acc, x,
                 CollectedFrom(lines, i + 1), CollectedFrom(lines, i));
  }

  /** `r` is all of `full`, or a prefix of it that already holds at least five insights. */
  ghost predicate ShortOf(r: seq<string>, full: seq<string>) {
    r <= full && (r == full || |r| >= MaxInsights)
  }

  /** `ShortOf` is unaffected by regrouping `acc + [x] + rest`. */
  lemma PrefixAppend(r: seq<string>, acc: seq<string>, x: string, rest: seq<string>, all: seq<string>)
    requires all == [x] + rest
    requires ShortOf(r, acc + [x] + rest)
    ensures ShortOf(r, acc + all)
  {
    Seqs.ConcatAssoc(acc, [x], rest);
  }

  /** Two prefixes of one sequence with the same length are equal. */
  lemma PrefixesAgree<T>(a: seq<T>, b: seq<T>, s: seq<T>)
    requires a <= s && b <= s && |a| == |b|
    ensures a == b
  {
  }

  /**
   * The scan sees exactly the listed insights: what it collects is a prefix of
   * them, and its early stop never changes the first five.
   */
  lemma InsightsComplete(text: string)
    ensures Scan(Split(text, '\n'), false, []) <= Collected(Split(text, '\n'))
    ensures Insights(text) == Take(Collected(Split(text, '\n')), MaxInsights)
  {
    var lines := Split(text, '\n');
    assert lines[0..] == lines;
    assert !HeadingBefore(lines, 0);
    ScanCollects(lines, 0, []);
    var r := Scan(lines, false, []);
    var all := Collected(lines);
    InsightsGuardRedundant(text);
    if r != all {
      PrefixesAgree(Take(r, MaxInsights), Take(all, MaxInsights), all);
    }
  }

  /** The extraction loop of `analyze_tweets`, cut to five. */
  method ExtractInsights(text: string) returns (insights: seq<string>)
    ensures insights == Insights(text)
    ensures insights == Take(Collected(Split(text, '\n')), MaxInsights)
  {
    insights := [];
    if Contains(text, InsightHeading) || Contains(text, FindingHeading) {
      var lines := Split(text, '\n');
      var inside := false;
      var i := 0;
      while i < |lines|
        invariant 0 <= i <= |lines|
        invariant Scan(lines, false, []) == Scan(lines[i..], inside, insights)
      {
        var line := lines[i];
        assert lines[i..][0] == line && lines[i..][1..] == lines[i + 1..];
        if IsHeading(line) {
          inside := true;
        } else if inside && IsBullet(line) {
          var insight := Clean(line);
          if insight != [] {
            insights := insights + [insight];
          }
        } else if inside && IsPlain(line) {
          if |insights| >= MaxInsights {
            break;
          }
        }
        i := i + 1;
      }
    }
    insights := Take(insights, MaxInsights);
    InsightsComplete(text);
  }

  /* ---- the summary ---- */

  /** The chat-completion call: the answer's content (`None` when empty), or the exception raised. */
  datatype Completion = Answered(content: Option<string>) | CompletionRaised(error: string)

  /** The `DailySummary` `analyze_tweets` returns for a given answer of the model. */
  function SummaryFor(s: seq<Tweet>, date: int, now: int, answer: Completion): DailySummary {
    match answer
    case Answered(content) =>
      var analysis := content.GetOr("");
      DailySummary(date, |AuthorSet(s)|, |s|, s, analysis, analysis, Insights(analysis), now)
    case CompletionRaised(e) =>
      DailySummary(date, |AuthorSet(s)|, |s|, s, "分析生成失败: " + e, "", [], now)
  }

  /** Both outcomes count every tweet and every distinct author; a failure leaves the analysis empty. */
  lemma SummaryForShape(s: seq<Tweet>, date: int, now: int, answer: Completion)
    ensures var d := SummaryFor(s, date, now, answer);
            d.date == date && d.tweets == s && d.totalTweets == |s| &&
            d.accountsMonitored == |AuthorsOf(s)| && |d.keyInsights| <= MaxInsights &&
            (answer.CompletionRaised? ==> d.analysis == "" && d.keyInsights == [] &&
                                          d.summaryText == "分析生成失败: " + answer.error) &&
            (answer.Answered? ==> d.summaryText == d.analysis && d.keyInsights == Insights(d.analysis))
  {
    AuthorCount(s);
    if answer.Answered? {
      InsightsSound(answer.content.GetOr(""));
    }
  }

  /**
   * `LLMAnalyzer.analyze_tweets`: the digest is passed to the model and the
   * answer becomes the summary. The prompt around the digest is not modelled.
   */
  method AnalyzeTweets(s: seq<Tweet>, date: int, now: int, timeText: int -> string,
                       complete: string -> Completion)
    returns (summary: DailySummary, digest: string)
    ensures digest == Digest(s, timeText)
    ensures summary == SummaryFor(s, date, now, complete(digest))
  {
    digest := FormatTweets(s, timeText);
    var answer := complete(digest);
    match answer {
      case Answered(content) =>
        var analysis := content.GetOr("");
        var insights := ExtractInsights(analysis);
        summary := DailySummary(date, |AuthorSet(s)|, |s|, s, analysis, analysis, insights, now);
      case CompletionRaised(e) =>
        summary := DailySummary(date, |AuthorSet(s)|, |s|, s, "分析生成失败: " + e, "", [], now);
    }
  }
}
