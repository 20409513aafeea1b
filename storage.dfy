/**
 * src/storage.py: the SQLite store as two keyed tables. The accounts table is
 * keyed by username, the summaries table by calendar day. A failing
 * statement is an explicit argument (`fails`): the source either commits the
 * write or raises before committing.
 */
module Storage {
  import opened Wrappers
  import opened Models

  const SecondsPerDay: int := 86400

  /** The UTC calendar day of a timestamp; the day key written as `strftime("%Y-%m-%d")`. */
  function DayOf(t: int): int {
    t / SecondsPerDay
  }

  /** Midnight that starts a day, the value `strptime(day, "%Y-%m-%d")` reads back. */
  function Midnight(day: int): (t: int)
    ensures DayOf(t) == day
  {
    day * SecondsPerDay
  }

  /** One row of the summaries table. A NULL or empty `key_insights` column is `None`. */
  datatype SummaryRow = SummaryRow(
    day: int,
    accountsMonitored: int,
    totalTweets: int,
    summaryText: string,
    analysis: string,
    keyInsights: Option<seq<string>>,
    generatedAt: int)

  /** The row `save_summary` writes; the tweet list is not stored. */
  function ToRow(s: DailySummary): (row: SummaryRow)
    ensures row.day == DayOf(s.date)
  {
    SummaryRow(DayOf(s.date), s.accountsMonitored, s.totalTweets, s.summaryText, s.analysis,
               Some(s.keyInsights), s.generatedAt)
  }

  /** The summary a SELECT builds from a row; missing insights read as the empty list. */
  function FromRow(row: SummaryRow): (s: DailySummary)
    ensures DayOf(s.date) == row.day && s.tweets == []
    ensures s.keyInsights == if row.keyInsights.Some? then row.keyInsights.value else []
  {
    DailySummary(Midnight(row.day), row.accountsMonitored, row.totalTweets, [],
                 row.summaryText, row.analysis, row.keyInsights.GetOr([]), row.generatedAt)
  }

  /** Reading back a saved summary gives its counts, texts and insights, dated at midnight and without tweets. */
  lemma SummaryRoundTrip(s: DailySummary)
    ensures FromRow(ToRow(s)) == s.(date := Midnight(DayOf(s.date)), tweets := [])
  {
  }

  /** SQLite's `LIMIT n`: a negative limit means no limit. */
  function Limit(n: int, size: nat): (k: nat)
    ensures k <= size
    ensures 0 <= n ==> k == if n < size then n else size
    ensures n < 0 ==> k == size
  {
    if n < 0 || size < n then size else n
  }

  /** The position at which `a` joins a list sorted ascending by `addedAt`, after equal keys. */
  function InsertPos(s: seq<Account>, a: Account): (k: nat)
    ensures k <= |s|
    ensures forall i :: 0 <= i < k ==> s[i].addedAt <= a.addedAt
    ensures k < |s| ==> s[k].addedAt > a.addedAt
  {
    if s == [] || s[0].addedAt > a.addedAt then 0 else 1 + InsertPos(s[1..], a)
  }

  ghost predicate SortedByAddedAt(s: seq<Account>) {
    forall i, j :: 0 <= i < j < |s| ==> s[i].addedAt <= s[j].addedAt
  }

  ghost predicate DistinctUsernames(s: seq<Account>) {
    forall i, j :: 0 <= i < j < |s| ==> s[i].username != s[j].username
  }

  /** The rows of the summaries table, in rowid order, hold distinct days. */
  ghost predicate DistinctDays(rows: seq<SummaryRow>) {
    forall i, j :: 0 <= i < j < |rows| ==> rows[i].day != rows[j].day
  }

  /** The row of `day`, if the table has one. */
  function RowFor(rows: seq<SummaryRow>, day: int): (r: Option<SummaryRow>)
    ensures r.Some? ==> r.value in rows && r.value.day == day
    ensures r.None? ==> forall i :: 0 <= i < |rows| ==> rows[i].day != day
  {
    if rows == [] then None
    else if rows[0].day == day then Some(rows[0])
    else RowFor(rows[1..], day)
  }

  /** The table less the row of `day` (the delete half of REPLACE). */
  function DropDay(rows: seq<SummaryRow>, day: int): (r: seq<SummaryRow>)
    ensures forall x :: x in r <==> x in rows && x.day != day
  {
    if rows == [] then []
    else if rows[0].day == day then DropDay(rows[1..], day)
    else [rows[0]] + DropDay(rows[1..], day)
  }

  lemma {:induction false} DropDayKeepsDistinct(rows: seq<SummaryRow>, day: int)
    requires DistinctDays(rows)
    ensures DistinctDays(DropDay(rows, day))
  {
    if rows != [] {
      DropDayKeepsDistinct(rows[1..], day);
      var t := DropDay(rows[1..], day);
      if rows[0].day != day {
        forall j | 0 <= j < |t| ensures rows[0].day != t[j].day {
          assert t[j] in rows[1..];
        }
        assert DistinctDays([rows[0]] + t);
      }
    }
  }

  /** After REPLACE the day has exactly the new row and every other day keeps its row. */
  lemma ReplaceRowFor(rows: seq<SummaryRow>, row: SummaryRow, day: int)
    requires DistinctDays(rows)
    ensures DistinctDays(DropDay(rows, row.day) + [row])
    ensures RowFor(DropDay(rows, row.day) + [row], day)
         == if day == row.day then Some(row) else RowFor(rows, day)
  {
    var t := DropDay(rows, row.day);
    DropDayKeepsDistinct(rows, row.day);
    forall j | 0 <= j < |t| ensures t[j].day != row.day {
      assert t[j] in t;
    }
    RowForAppend(t, row, day);
    if day != row.day {
      RowForUnique(rows, day);
      RowForUnique(t, day);
    }
  }

  lemma {:induction false} RowForAppend(t: seq<SummaryRow>, row: SummaryRow, day: int)
    ensures RowFor(t + [row], day) == if RowFor(t, day).Some? then RowFor(t, day)
                                     else if row.day == day then Some(row) else None
  {
    if t != [] {
      assert (t + [row])[1..] == t[1..] + [row];
      RowForAppend(t[1..], row, day);
    }
  }

  /** With distinct days, the row of a day is the one row that has it. */
  lemma RowForUnique(rows: seq<SummaryRow>, day: int)
    requires DistinctDays(rows)
    ensures forall x :: x in rows && x.day == day ==> RowFor(rows, day) == Some(x)
  {
    if rows != [] && rows[0].day != day {
      assert DistinctDays(rows[1..]) by {
        forall i, j | 0 <= i < j < |rows[1..]| ensures rows[1..][i].day != rows[1..][j].day {
          assert rows[1..][i] == rows[i + 1] && rows[1..][j] == rows[j + 1];
        }
      }
      RowForUnique(rows[1..], day);
    } else if rows != [] {
      forall x | x in rows && x.day == day ensures x == rows[0] {
        var i :| 0 <= i < |rows| && rows[i] == x;
      }
    }
  }

  ghost predicate NewestFirst(rows: seq<SummaryRow>) {
    forall i, j :: 0 <= i < j < |rows| ==> rows[i].day > rows[j].day
  }

  /** `x` placed into a list sorted newest first. */
  function InsertNewestFirst(s: seq<SummaryRow>, x: SummaryRow): (r: seq<SummaryRow>)
    ensures |r| == |s| + 1
  {
    if s == [] || s[0].day < x.day then [x] + s
    else [s[0]] + InsertNewestFirst(s[1..], x)
  }

  lemma {:induction false} InsertNewestFirstPermutes(s: seq<SummaryRow>, x: SummaryRow)
    ensures multiset(InsertNewestFirst(s, x)) == multiset(s) + multiset{x}
  {
    if s != [] && s[0].day >= x.day {
      InsertNewestFirstPermutes(s[1..], x);
      assert s == [s[0]] + s[1..];
    }
  }

  lemma {:induction false} InsertNewestFirstSorted(s: seq<SummaryRow>, x: SummaryRow)
    requires NewestFirst(s) && forall y :: y in s ==> y.day != x.day
    ensures NewestFirst(InsertNewestFirst(s, x))
  {
    var r := InsertNewestFirst(s, x);
    if s == [] || s[0].day < x.day {
      forall i, j | 0 <= i < j < |r| ensures r[i].day > r[j].day {
        if i == 0 && j > 1 { assert s[0].day >= s[j - 1].day; }
      }
    } else {
      assert s[0] in s;
      var t := InsertNewestFirst(s[1..], x);
      InsertNewestFirstSorted(s[1..], x);
      InsertNewestFirstPermutes(s[1..], x);
      forall j | 0 <= j < |t| ensures t[j].day < s[0].day {
        assert t[j] in multiset(t);
        if t[j] != x {
          var m :| 0 <= m < |s[1..]| && s[1..][m] == t[j];
          assert s[m + 1] == t[j];
        }
      }
      assert r == [s[0]] + t;
    }
  }

  /** The rows ordered by `date DESC` (insertion sort). */
  function SortNewestFirst(rows: seq<SummaryRow>): (r: seq<SummaryRow>)
    ensures |r| == |rows|
  {
    if rows == [] then [] else InsertNewestFirst(SortNewestFirst(rows[1..]), rows[0])
  }

  lemma {:induction false} SortNewestFirstPermutes(rows: seq<SummaryRow>)
    ensures multiset(SortNewestFirst(rows)) == multiset(rows)
  {
    if rows != [] {
      SortNewestFirstPermutes(rows[1..]);
      InsertNewestFirstPermutes(SortNewestFirst(rows[1..]), rows[0]);
      assert rows == [rows[0]] + rows[1..];
    }
  }

  lemma {:induction false} SortNewestFirstSorted(rows: seq<SummaryRow>)
    requires DistinctDays(rows)
    ensures NewestFirst(SortNewestFirst(rows))
  {
    if rows != [] {
      assert DistinctDays(rows[1..]) by {
        forall i, j | 0 <= i < j < |rows[1..]| ensures rows[1..][i].day != rows[1..][j].day {
          assert rows[1..][i] == rows[i + 1] && rows[1..][j] == rows[j + 1];
        }
      }
      var t := SortNewestFirst(rows[1..]);
      SortNewestFirstSorted(rows[1..]);
      SortNewestFirstPermutes(rows[1..]);
      forall y | y in t ensures y.day != rows[0].day {
        assert y in multiset(rows[1..]);
        var j :| 0 <= j < |rows[1..]| && rows[1..][j] == y;
        assert rows[j + 1] == y;
      }
      InsertNewestFirstSorted(t, rows[0]);
    }
  }

  /** `a` placed into a list sorted by `addedAt`. */
  function InsertByAddedAt(s: seq<Account>, a: Account): (r: seq<Account>)
    ensures |r| == |s| + 1
    ensures forall i :: 0 <= i < |r| ==>
              r[i] == if i < InsertPos(s, a) then s[i] else if i == InsertPos(s, a) then a else s[i - 1]
  {
    var k := InsertPos(s, a);
    s[..k] + [a] + s[k..]
  }

  /** Insertion keeps the list sorted. */
  lemma InsertKeepsSorted(s: seq<Account>, a: Account)
    requires SortedByAddedAt(s)
    ensures SortedByAddedAt(InsertByAddedAt(s, a))
  {
    var k := InsertPos(s, a);
    var r := InsertByAddedAt(s, a);
    forall i, j | 0 <= i < j < |r| ensures r[i].addedAt <= r[j].addedAt {
      if j < k {
        assert r[i] == s[i] && r[j] == s[j];
      } else if j == k {
        assert r[i] == s[i] && r[j] == a;
      } else if i < k {
        assert r[i] == s[i] && r[j] == s[j - 1];
      } else if i == k {
        assert r[i] == a && r[j] == s[j - 1];
        assert s[k].addedAt <= s[j - 1].addedAt;
      } else {
        assert r[i] == s[i - 1] && r[j] == s[j - 1];
      }
    }
  }

  /** Insertion of an account with a new username keeps the usernames distinct. */
  lemma InsertKeepsDistinct(s: seq<Account>, a: Account)
    requires DistinctUsernames(s)
    requires forall i :: 0 <= i < |s| ==> s[i].username != a.username
    ensures DistinctUsernames(InsertByAddedAt(s, a))
  {
    var k := InsertPos(s, a);
    var r := InsertByAddedAt(s, a);
    forall i, j | 0 <= i < j < |r| ensures r[i].username != r[j].username {
      var x := if i < k then s[i] else if i == k then a else s[i - 1];
      var y := if j < k then s[j] else if j == k then a else s[j - 1];
      assert r[i] == x && r[j] == y;
    }
  }

  /** Every listed account is the row of its username, and that username is in `keys`. */
  ghost predicate Listed(r: seq<Account>, keys: set<string>, rows: map<string, Account>) {
    forall i :: 0 <= i < |r| ==> r[i].username in keys && r[i].username in rows && rows[r[i].username] == r[i]
  }

  /** Inserting the row of one more key keeps the listing exact, sorted and duplicate-free. */
  lemma InsertListed(r: seq<Account>, keys: set<string>, rows: map<string, Account>, u: string)
    requires Listed(r, keys, rows) && DistinctUsernames(r) && SortedByAddedAt(r)
    requires u in rows && rows[u].username == u && u !in keys
    ensures Listed(InsertByAddedAt(r, rows[u]), keys + {u}, rows)
    ensures DistinctUsernames(InsertByAddedAt(r, rows[u])) && SortedByAddedAt(InsertByAddedAt(r, rows[u]))
  {
    InsertKeepsSorted(r, rows[u]);
    InsertKeepsDistinct(r, rows[u]);
  }

  /** The loop behind `ORDER BY added_at`: each row inserted in turn into a sorted list. */
  method SortedRows(rows: map<string, Account>) returns (r: seq<Account>)
    requires forall u :: u in rows ==> rows[u].username == u
    ensures |r| == |rows|
    ensures forall i :: 0 <= i < |r| ==> r[i].username in rows && rows[r[i].username] == r[i]
    ensures DistinctUsernames(r)
    ensures SortedByAddedAt(r)
  {
    r := [];
    var rest := rows.Keys;
    ghost var done: set<string> := {};
    while rest != {}
      invariant rest !! done && rest + done == rows.Keys
      invariant |r| == |done|
      invariant Listed(r, done, rows)
      invariant DistinctUsernames(r)
      invariant SortedByAddedAt(r)
      decreases |rest|
    {
      var u :| u in rest;
      InsertListed(r, done, rows, u);
      r := InsertByAddedAt(r, rows[u]);
      rest := rest - {u};
      done := done + {u};
    }
  }

  class Storage {
    var accounts: map<string, Account>
    var summaries: seq<SummaryRow>

    /** Each row sits under its own key. */
    ghost predicate Valid()
      reads this
    {
      && (forall u :: u in accounts ==> accounts[u].username == u)
      && DistinctDays(summaries)
    }

    /** `initialize`: both tables exist and are empty. */
    constructor ()
      ensures Valid() && accounts == map[] && summaries == []
    {
      accounts := map[];
      summaries := [];
    }

    /** `INSERT OR REPLACE` of an account: the row for its username is replaced whole. */
    method AddAccount(account: Account, fails: bool) returns (ok: bool)
      requires Valid()
      modifies this
      ensures Valid()
      ensures ok == !fails
      ensures accounts == if ok then old(accounts)[account.username := account] else old(accounts)
      ensures summaries == old(summaries)
    {
      if fails {
        return false;
      }
      accounts := accounts[account.username := account];
      return true;
    }

    /** `DELETE ... WHERE username = ?`: true iff a row went away. */
    method RemoveAccount(username: string) returns (removed: bool)
      requires Valid()
      modifies this
      ensures Valid()
      ensures removed == (username in old(accounts))
      ensures accounts == old(accounts) - {username}
      ensures summaries == old(summaries)
    {
      removed := username in accounts;
      accounts := accounts - {username};
    }

    /** `SELECT * FROM accounts ORDER BY added_at`: every row once, oldest first. */
    method GetAccounts() returns (r: seq<Account>)
      requires Valid()
      ensures |r| == |accounts|
      ensures forall i :: 0 <= i < |r| ==> r[i].username in accounts && accounts[r[i].username] == r[i]
      ensures DistinctUsernames(r)
      ensures SortedByAddedAt(r)
    {
      r := SortedRows(accounts);
    }

    /** `SELECT ... WHERE username = ?`. */
    method GetAccount(username: string) returns (r: Option<Account>)
      requires Valid()
      ensures r.Some? <==> username in accounts
      ensures r.Some? ==> r.value == accounts[username] && r.value.username == username
    {
      if username in accounts {
        r := Some(accounts[username]);
      } else {
        r := None;
      }
    }

    /** `INSERT OR REPLACE` of a summary: the row of its day is deleted and the new row appended. */
    method SaveSummary(summary: DailySummary, fails: bool) returns (ok: bool)
      requires Valid()
      modifies this
      ensures Valid()
      ensures ok == !fails
      ensures summaries == if ok then DropDay(old(summaries), DayOf(summary.date)) + [ToRow(summary)]
                           else old(summaries)
      ensures accounts == old(accounts)
    {
      if fails {
        return false;
      }
      ReplaceRowFor(summaries, ToRow(summary), 0);
      summaries := DropDay(summaries, DayOf(summary.date)) + [ToRow(summary)];
      return true;
    }

    /** `SELECT ... WHERE date = ?` for the day of `date`. */
    method GetSummary(date: int) returns (r: Option<DailySummary>)
      requires Valid()
      ensures r.Some? <==> exists i :: 0 <= i < |summaries| && summaries[i].day == DayOf(date)
      ensures r.Some? ==> exists i :: 0 <= i < |summaries| && summaries[i].day == DayOf(date)
                                   && r.value == FromRow(summaries[i])
    {
      var i := 0;
      while i < |summaries|
        invariant 0 <= i <= |summaries|
        invariant forall j :: 0 <= j < i ==> summaries[j].day != DayOf(date)
      {
        if summaries[i].day == DayOf(date) {
          return Some(FromRow(summaries[i]));
        }
        i := i + 1;
      }
      return None;
    }

    /** `SELECT * FROM summaries ORDER BY date DESC LIMIT days`: the latest days, newest first. */
    method GetRecentSummaries(days: int) returns (r: seq<DailySummary>)
      requires Valid()
      ensures |r| == Limit(days, |summaries|)
      ensures forall i :: 0 <= i < |r| ==>
                RowFor(summaries, DayOf(r[i].date)).Some? && r[i] == FromRow(RowFor(summaries, DayOf(r[i].date)).value)
      ensures forall i, j :: 0 <= i < j < |r| ==> DayOf(r[i].date) > DayOf(r[j].date)
      ensures forall j :: 0 <= j < |summaries| && |r| > 0 ==>
                summaries[j].day < DayOf(r[|r| - 1].date) || FromRow(summaries[j]) in r
    {
      var rows := summaries;
      r := ReadRows(SortNewestFirst(rows), Limit(days, |rows|));
      RecentListing(rows, r);
    }
  }

  /** The loop over the fetched rows: the first `n`, each read back as a summary. */
  method ReadRows(sorted: seq<SummaryRow>, n: nat) returns (r: seq<DailySummary>)
    requires n <= |sorted|
    ensures |r| == n
    ensures forall k :: 0 <= k < n ==> r[k] == FromRow(sorted[k])
  {
    r := [];
    var i := 0;
    while i < n
      invariant 0 <= i <= n && |r| == i
      invariant forall k :: 0 <= k < i ==> r[k] == FromRow(sorted[k])
    {
      r := r + [FromRow(sorted[i])];
      i := i + 1;
    }
  }

  /** A prefix of the newest-first order, read back: stored rows, newest first, and every newer row. */
  lemma RecentListing(rows: seq<SummaryRow>, r: seq<DailySummary>)
    requires DistinctDays(rows)
    requires |r| <= |rows|
    requires forall k :: 0 <= k < |r| ==> r[k] == FromRow(SortNewestFirst(rows)[k])
    ensures forall i :: 0 <= i < |r| ==>
              RowFor(rows, DayOf(r[i].date)).Some? && r[i] == FromRow(RowFor(rows, DayOf(r[i].date)).value)
    ensures forall i, j :: 0 <= i < j < |r| ==> DayOf(r[i].date) > DayOf(r[j].date)
    ensures forall j :: 0 <= j < |rows| && |r| > 0 ==>
              rows[j].day < DayOf(r[|r| - 1].date) || FromRow(rows[j]) in r
  {
    var sorted := SortNewestFirst(rows);
    SortNewestFirstPermutes(rows);
    SortNewestFirstSorted(rows);
    RecentListingRows(rows, sorted, r);
    RecentListingTop(rows, sorted, r);
    forall i, j | 0 <= i < j < |r| ensures DayOf(r[i].date) > DayOf(r[j].date) {
      assert sorted[i].day > sorted[j].day;
    }
  }

  /** Rows taken from a permutation of the table, read back, are the stored rows for their days. */
  lemma RecentListingRows(rows: seq<SummaryRow>, sorted: seq<SummaryRow>, r: seq<DailySummary>)
    requires DistinctDays(rows)
    requires multiset(sorted) == multiset(rows)
    requires |r| <= |sorted|
    requires forall k :: 0 <= k < |r| ==> r[k] == FromRow(sorted[k])
    ensures forall i :: 0 <= i < |r| ==>
              RowFor(rows, DayOf(r[i].date)).Some? && r[i] == FromRow(RowFor(rows, DayOf(r[i].date)).value)
  {
    forall i | 0 <= i < |r|
      ensures RowFor(rows, DayOf(r[i].date)).Some? && r[i] == FromRow(RowFor(rows, DayOf(r[i].date)).value)
    {
      assert sorted[i] in multiset(rows);
      RowForUnique(rows, sorted[i].day);
    }
  }

  /** A prefix of the newest-first order holds every row at least as new as its last element. */
  lemma RecentListingTop(rows: seq<SummaryRow>, sorted: seq<SummaryRow>, r: seq<DailySummary>)
    requires multiset(sorted) == multiset(rows)
    requires NewestFirst(sorted)
    requires |r| <= |sorted|
    requires forall k :: 0 <= k < |r| ==> r[k] == FromRow(sorted[k])
    ensures forall j :: 0 <= j < |rows| && |r| > 0 ==>
              rows[j].day < DayOf(r[|r| - 1].date) || FromRow(rows[j]) in r
  {
    forall j | 0 <= j < |rows| && |r| > 0
      ensures rows[j].day < DayOf(r[|r| - 1].date) || FromRow(rows[j]) in r
    {
      assert rows[j] in multiset(sorted);
      var k :| 0 <= k < |sorted| && sorted[k] == rows[j];
      if k < |r| {
        assert r[k] == FromRow(rows[j]);
      } else {
        assert sorted[|r| - 1].day > sorted[k].day;
      }
    }
  }
}
