/**
 * src/notifiers/telegram_notifier.py: the report message, its split into
 * chunks below Telegram's size limit, and the sends. `strftime` results are
 * the `dateText`/`genTime` arguments; the bot's `send_message` is an oracle
 * telling which attempt raises.
 */
module Telegram {
  import opened Text
  import opened Models
  import opened Report

  /** Telegram's limit on one message. */
  const MaxMessageLength: nat := 4096
  /** The size a chunk is kept under when a message is split. */
  const ChunkLimit: nat := 4000
  const Rule: string := "━━━━━━━━━━━━━━━"

  /** The message up to and including the insight heading. */
  function MessageHead(summary: DailySummary, dateText: string, genTime: string): string {
    "📊 X/Twitter 每日监控报告\n\n日期：" + dateText
    + "\n监控账号：" + IntToString(summary.accountsMonitored) + " 个\n推文数量：" + IntToString(summary.totalTweets)
    + " 条\n生成时间：" + genTime + "\n\n" + Rule + "\n\n" + summary.analysis + "\n\n" + Rule + "\n\n关键洞察\n"
  }

  const MessageTail: string := "\n" + Rule + "\n\n本报告由 X-Monitor AI Agent 自动生成\n"

  /** The whole report message. */
  function MessageText(summary: DailySummary, dateText: string, genTime: string): string {
    MessageHead(summary, dateText, genTime) + PlainInsights(summary.keyInsights) + MessageTail
  }

  /** The `message += ...` assembly of `send_summary`. */
  method BuildMessage(summary: DailySummary, dateText: string, genTime: string) returns (message: string)
    ensures message == MessageText(summary, dateText, genTime)
  {
    message := MessageHead(summary, dateText, genTime);
    if summary.keyInsights != [] {
      message := AppendPlainItems(message, summary.keyInsights);
    } else {
      message := message + NoInsights + "\n";
    }
    message := message + MessageTail;
  }

  /** The rendered message lists the insights one per line, numbered from 1. */
  lemma MessageListsInsights(summary: DailySummary, dateText: string, genTime: string)
    requires summary.keyInsights != []
    requires forall k :: 0 <= k < |summary.keyInsights| ==> '\n' !in summary.keyInsights[k]
    ensures var items := PlainItems(summary.keyInsights, 1);
            MessageText(summary, dateText, genTime) == MessageHead(summary, dateText, genTime) + items + MessageTail &&
            |Split(items, '\n')| == |summary.keyInsights| + 1 &&
            forall k :: 0 <= k < |summary.keyInsights| ==> Split(items, '\n')[k] == Item(k + 1, summary.keyInsights[k])
  {
    PlainItemsLines(summary.keyInsights, 1);
  }

  /* ---- splitting ---- */

  /** `line + "\n"` for a line without a newline. */
  predicate OneLine(c: string) {
    c != [] && c[|c| - 1] == '\n' && '\n' !in c[..|c| - 1]
  }

  /** A chunk respects the bound, or is a single line too long to split. */
  predicate Fits(c: string) {
    |c| <= ChunkLimit || OneLine(c)
  }

  /** The text before the first newline. */
  function FirstLine(c: string): string {
    Split(c, '\n')[0]
  }

  function Concat(cs: seq<string>): string {
    if cs == [] then "" else cs[0] + Concat(cs[1..])
  }

  /** Every line followed by a newline. */
  function ConcatLines(ls: seq<string>): string {
    if ls == [] then "" else ls[0] + "\n" + ConcatLines(ls[1..])
  }

  /**
   * The `for line in message.split("\n")` loop from a given `current_chunk`,
   * including the final `if current_chunk: chunks.append(current_chunk)`.
   */
  function Pack(lines: seq<string>, cur: string): seq<string> {
    if lines == [] then (if cur != "" then [cur] else [])
    else if |cur| + |lines[0]| + 1 > ChunkLimit then [cur] + Pack(lines[1..], lines[0] + "\n")
    else Pack(lines[1..], cur + lines[0] + "\n")
  }

  /** The chunks of a message longer than the limit. */
  function Chunks(message: string): seq<string> {
    Pack(Split(message, '\n'), "")
  }

  /** The chunks hold the current chunk and then every line with its newline, in order. */
  lemma {:induction false} PackContent(lines: seq<string>, cur: string)
    ensures Concat(Pack(lines, cur)) == cur + ConcatLines(lines)
  {
    if lines != [] {
      var l := lines[0];
      if |cur| + |l| + 1 > ChunkLimit {
        PackContent(lines[1..], l + "\n");
        var p := [cur] + Pack(lines[1..], l + "\n");
        assert p[0] == cur && p[1..] == Pack(lines[1..], l + "\n");
      } else {
        PackContent(lines[1..], cur + l + "\n");
      }
    }
  }

  /** Joining the split pieces each followed by a newline gives the message and one more newline. */
  lemma {:induction false} ConcatLinesSplit(s: string)
    ensures ConcatLines(Split(s, '\n')) == s + "\n"
  {
    if s != [] {
      ConcatLinesSplit(s[1..]);
      if s[0] != '\n' {
        var rest := Split(s[1..], '\n');
        var parts := Split(s, '\n');
        assert parts == [[s[0]] + rest[0]] + rest[1..];
        assert parts[0] == [s[0]] + rest[0] && parts[1..] == rest[1..];
        assert ConcatLines(parts) == parts[0] + "\n" + ConcatLines(parts[1..]);
        assert ConcatLines(rest) == rest[0] + "\n" + ConcatLines(rest[1..]);
        assert ConcatLines(parts) == [s[0]] + ConcatLines(rest);
        assert s + "\n" == [s[0]] + (s[1..] + "\n");
      } else {
        assert s == "\n" + s[1..];
      }
    }
  }

  lemma OneLineOf(l: string)
    requires '\n' !in l
    ensures OneLine(l + "\n")
  {
    assert (l + "\n")[..|l|] == l;
  }

  /** Every chunk fits, provided the current one does. */
  lemma {:induction false} PackFits(lines: seq<string>, cur: string)
    requires forall k :: 0 <= k < |lines| ==> '\n' !in lines[k]
    requires Fits(cur)
    ensures forall k :: 0 <= k < |Pack(lines, cur)| ==> Fits(Pack(lines, cur)[k])
  {
    if lines != [] {
      var l := lines[0];
      forall k | 0 <= k < |lines[1..]| ensures '\n' !in lines[1..][k] {
        assert lines[1..][k] == lines[k + 1];
      }
      if |cur| + |l| + 1 > ChunkLimit {
        OneLineOf(l);
        PackFits(lines[1..], l + "\n");
      } else {
        PackFits(lines[1..], cur + l + "\n");
      }
    }
  }

  /** Only the first chunk can be empty, and only when the current chunk is empty and the first line alone is too long. */
  lemma {:induction false} PackNonEmpty(lines: seq<string>, cur: string)
    ensures lines != [] || cur != "" ==> |Pack(lines, cur)| >= 1
    ensures forall k :: 0 < k < |Pack(lines, cur)| ==> Pack(lines, cur)[k] != ""
    ensures |Pack(lines, cur)| >= 1 && Pack(lines, cur)[0] == "" ==>
              cur == "" && lines != [] && |lines[0]| + 1 > ChunkLimit
  {
    if lines != [] {
      var l := lines[0];
      if |cur| + |l| + 1 > ChunkLimit {
        PackNonEmpty(lines[1..], l + "\n");
      } else {
        PackNonEmpty(lines[1..], cur + l + "\n");
      }
    }
  }

  /** The first chunk extends the current one. */
  lemma {:induction false} PackHead(lines: seq<string>, cur: string)
    requires cur != ""
    ensures |Pack(lines, cur)| >= 1 && cur <= Pack(lines, cur)[0]
  {
    if lines != [] {
      var l := lines[0];
      if |cur| + |l| + 1 > ChunkLimit {
      } else {
        PackHead(lines[1..], cur + l + "\n");
      }
    }
  }

  /** The split is greedy: no chunk could have taken the first line of the next one. */
  lemma {:induction false} PackGreedy(lines: seq<string>, cur: string)
    requires forall k :: 0 <= k < |lines| ==> '\n' !in lines[k]
    ensures forall k :: 0 <= k < |Pack(lines, cur)| - 1 ==>
              |Pack(lines, cur)[k]| + |FirstLine(Pack(lines, cur)[k + 1])| + 1 > ChunkLimit
  {
    if lines != [] {
      var l := lines[0];
      forall k | 0 <= k < |lines[1..]| ensures '\n' !in lines[1..][k] {
        assert lines[1..][k] == lines[k + 1];
      }
      if |cur| + |l| + 1 > ChunkLimit {
        var q := Pack(lines[1..], l + "\n");
        PackGreedy(lines[1..], l + "\n");
        PackHead(lines[1..], l + "\n");
        var w := q[0][|l| + 1..];
        assert q[0] == l + ['\n'] + w;
        SplitHead(l, '\n', w);
        var p := [cur] + q;
        forall k | 0 <= k < |p| - 1 ensures |p[k]| + |FirstLine(p[k + 1])| + 1 > ChunkLimit {
          if k > 0 { assert p[k] == q[k - 1] && p[k + 1] == q[k]; }
        }
      } else {
        PackGreedy(lines[1..], cur + l + "\n");
      }
    }
  }

  /**
   * The chunks of a long message: together they are the message with a
   * final newline, each fits, none but the first is empty, and each is as
   * long as the next line allows.
   */
  lemma ChunksShape(message: string)
    ensures var cs := Chunks(message);
            |cs| >= 1 && Concat(cs) == message + "\n" &&
            (forall k :: 0 <= k < |cs| ==> Fits(cs[k])) &&
            (forall k :: 0 < k < |cs| ==> cs[k] != "") &&
            (forall k :: 0 <= k < |cs| - 1 ==> |cs[k]| + |FirstLine(cs[k + 1])| + 1 > ChunkLimit)
  {
    var lines := Split(message, '\n');
    PackContent(lines, "");
    ConcatLinesSplit(message);
    PackFits(lines, "");
    PackNonEmpty(lines, "");
    PackGreedy(lines, "");
  }

  /** The chunking loop of `send_summary`. */
  method ChunkMessage(message: string) returns (chunks: seq<string>)
    ensures chunks == Chunks(message)
  {
    var lines := Split(message, '\n');
    chunks := [];
    var cur := "";
    var i := 0;
    while i < |lines|
      invariant 0 <= i <= |lines|
      invariant chunks + Pack(lines[i..], cur) == Pack(lines, "")
    {
      var line := lines[i];
      assert lines[i..][0] == line && lines[i..][1..] == lines[i + 1..];
      if |cur| + |line| + 1 > ChunkLimit {
        chunks := chunks + [cur];
        cur := line + "\n";
      } else {
        cur := cur + line + "\n";
      }
      i := i + 1;
    }
    if cur != "" {
      chunks := chunks + [cur];
    }
  }

  /** The header put before chunk `i` (counted from 0) of `n`. */
  function Continuation(i: nat, n: nat): string {
    "📄 (续 " + NatToString(i + 1) + "/" + NatToString(n) + ")\n\n"
  }

  /** The texts sent for a split message: the first chunk bare, every later one after its header. */
  function Outgoing(chunks: seq<string>): (r: seq<string>)
    ensures |r| == |chunks|
  {
    seq(|chunks|, i requires 0 <= i < |chunks| => if i == 0 then chunks[i] else Continuation(i, |chunks|) + chunks[i])
  }

  /** The texts `send_summary` sends for a message. */
  function Texts(message: string): seq<string> {
    if |message| > MaxMessageLength then Outgoing(Chunks(message)) else [message]
  }

  /** A message within Telegram's limit is sent once, unchanged; a longer one as its numbered chunks. */
  lemma TextsShape(message: string)
    ensures |message| <= MaxMessageLength ==> Texts(message) == [message]
    ensures |message| > MaxMessageLength ==>
              var cs := Chunks(message);
              |Texts(message)| == |cs| >= 1 && Texts(message)[0] == cs[0] &&
              forall i :: 0 < i < |cs| ==> Texts(message)[i] == Continuation(i, |cs|) + cs[i]
  {
    ChunksShape(message);
  }

  /* ---- sending ---- */

  /** The first of the attempts `k`, ..., `n - 1` that raises, or `n`. */
  function FirstFailure(n: nat, fails: nat -> bool, k: nat): (r: nat)
    requires k <= n
    ensures k <= r <= n
    ensures forall j :: k <= j < r ==> !fails(j)
    ensures r < n ==> fails(r)
    decreases n - k
  {
    if k == n then n else if fails(k) then k else FirstFailure(n, fails, k + 1)
  }

  /** The texts handed to `send_message`: all of them, or up to the one that raises. */
  function Attempted(texts: seq<string>, fails: nat -> bool): seq<string> {
    var f := FirstFailure(|texts|, fails, 0);
    if f < |texts| then texts[..f + 1] else texts
  }

  /** The sends of the chunks, which stop at the first that raises. */
  method SendChunks(chunks: seq<string>, fails: nat -> bool) returns (ok: bool, attempted: seq<string>)
    ensures ok <==> FirstFailure(|chunks|, fails, 0) == |chunks|
    ensures attempted == Attempted(Outgoing(chunks), fails)
  {
    var out := Outgoing(chunks);
    attempted := [];
    var i := 0;
    while i < |chunks|
      invariant 0 <= i <= |chunks|
      invariant attempted == out[..i]
      invariant FirstFailure(|chunks|, fails, 0) == FirstFailure(|chunks|, fails, i)
    {
      var chunk := chunks[i];
      if i > 0 {
        chunk := Continuation(i, |chunks|) + chunk;
      }
      assert chunk == out[i];
      attempted := attempted + [chunk];
      assert out[..i + 1] == out[..i] + [out[i]];
      if fails(i) {
        assert FirstFailure(|out|, fails, 0) == i;
        return false, attempted;
      }
      i := i + 1;
    }
    assert out[..i] == out;
    ok := true;
  }

  /** `TelegramNotifier.send_summary`: true when every send went through, false once one raises. */
  method SendSummary(summary: DailySummary, dateText: string, genTime: string, fails: nat -> bool)
    returns (ok: bool, attempted: seq<string>)
    ensures var texts := Texts(MessageText(summary, dateText, genTime));
            (ok <==> FirstFailure(|texts|, fails, 0) == |texts|) && attempted == Attempted(texts, fails)
  {
    var message := BuildMessage(summary, dateText, genTime);
    if |message| > MaxMessageLength {
      var chunks := ChunkMessage(message);
      ok, attempted := SendChunks(chunks, fails);
    } else {
      attempted := [message];
      ok := !fails(0);
    }
  }

  /** Every text is sent when no attempt raises, and a failure at attempt `f` leaves the later ones unsent. */
  lemma AttemptedShape(texts: seq<string>, fails: nat -> bool)
    ensures (forall j :: 0 <= j < |texts| ==> !fails(j)) ==> Attempted(texts, fails) == texts
    ensures Attempted(texts, fails) <= texts
    ensures |Attempted(texts, fails)| < |texts| ==> fails(|Attempted(texts, fails)| - 1)
  {
  }
}
