/**
 * The records of src/models/tweet.py. Timestamps are whole seconds since the
 * epoch; a `datetime.now` default becomes an explicit `now` argument.
 */
module Models {
  import opened Wrappers

  /** An X/Twitter account being monitored; `username` is its key. */
  datatype Account = Account(
    username: string,
    userId: Option<string>,
    displayName: Option<string>,
    description: Option<string>,
    addedAt: int)

  /** One tweet of a monitored account. */
  datatype Tweet = Tweet(
    tweetId: string,
    authorUsername: string,
    authorDisplayName: Option<string>,
    content: string,
    createdAt: int,
    likes: int,
    retweets: int,
    replies: int,
    views: Option<int>,
    url: string,
    isRetweet: bool,
    isReply: bool,
    mediaUrls: seq<string>)

  /** The report of one day. */
  datatype DailySummary = DailySummary(
    date: int,
    accountsMonitored: int,
    totalTweets: int,
    tweets: seq<Tweet>,
    summaryText: string,
    analysis: string,
    keyInsights: seq<string>,
    generatedAt: int)

  /** `Account(username=...)` with every optional field left at its default. */
  function NewAccount(username: string, now: int): (a: Account)
    ensures a.username == username && a.addedAt == now
    ensures a.userId == None && a.displayName == None && a.description == None
  {
    Account(username, None, None, None, now)
  }

  /** `Tweet(...)` given only the required fields. */
  function NewTweet(tweetId: string, author: string, content: string, createdAt: int): (t: Tweet)
    ensures t.tweetId == tweetId && t.authorUsername == author
    ensures t.content == content && t.createdAt == createdAt
    ensures t.authorDisplayName == None
    ensures t.likes == 0 && t.retweets == 0 && t.replies == 0 && t.views == None
    ensures t.url == "" && !t.isRetweet && !t.isReply && t.mediaUrls == []
  {
    Tweet(tweetId, author, None, content, createdAt, 0, 0, 0, None, "", false, false, [])
  }

  /** `DailySummary(date=...)` with every other field left at its default. */
  function NewSummary(date: int, now: int): (s: DailySummary)
    ensures s.date == date && s.generatedAt == now
    ensures s.accountsMonitored == 0 && s.totalTweets == 0 && s.tweets == []
    ensures s.summaryText == "" && s.analysis == "" && s.keyInsights == []
  {
    DailySummary(date, 0, 0, [], "", "", [], now)
  }

  /** `Tweet.engagement_score`: likes count once, retweets twice, replies three times. */
  function EngagementScore(t: Tweet): int {
    t.likes + t.retweets * 2 + t.replies * 3
  }

  /** The score is linear in the three counters. */
  lemma EngagementScoreLinear(t: Tweet, u: Tweet)
    ensures EngagementScore(t.(likes := t.likes + u.likes, retweets := t.retweets + u.retweets,
                               replies := t.replies + u.replies))
         == EngagementScore(t) + EngagementScore(u)
  {
  }

  /** One more like, retweet or reply raises the score by 1, 2 or 3. */
  lemma EngagementScoreWeights(t: Tweet)
    ensures EngagementScore(t.(likes := t.likes + 1)) == EngagementScore(t) + 1
    ensures EngagementScore(t.(retweets := t.retweets + 1)) == EngagementScore(t) + 2
    ensures EngagementScore(t.(replies := t.replies + 1)) == EngagementScore(t) + 3
  {
  }

  /** The worked example of the test suite: 10 likes, 5 retweets and 2 replies score 26. */
  lemma EngagementScoreExample(now: int)
    ensures EngagementScore(NewTweet("123", "test", "Hello world", now).(likes := 10, retweets := 5, replies := 2)) == 26
  {
  }

  /** A fresh tweet scores 0. */
  lemma NewTweetScoresZero(tweetId: string, author: string, content: string, createdAt: int)
    ensures EngagementScore(NewTweet(tweetId, author, content, createdAt)) == 0
  {
  }
}
