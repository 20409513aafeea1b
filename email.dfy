/**
 * src/notifiers/email_notifier.py: the subject, the plain-text body, the
 * dynamic parts of the HTML body and the SMTP send. The constant HTML/CSS
 * template around those parts is not modelled; `strftime` results are
 * string arguments and the send is an oracle that either raises or not.
 */
module Email {
  import opened Text
  import opened Models
  import opened Report

  /** The `EmailNotifier` constructor arguments. */
  datatype EmailSettings = EmailSettings(smtpHost: string, smtpPort: int, username: string, password: string, toEmail: string)

  /** The MIME message handed to `aiosmtplib.send`. */
  datatype EmailMessage = EmailMessage(subject: string, sender: string, recipient: string, plain: string, html: HtmlParts)

  /** The parts of `_format_summary_html` that depend on the summary. */
  datatype HtmlParts = HtmlParts(dateText: string, accountsMonitored: int, totalTweets: int, genTime: string,
                                 analysis: string, insights: string)

  const SubjectPrefix: string := "📊 X/Twitter 每日监控报告 - "

  /** The subject line, given the date as `%Y-%m-%d`: the fixed title, then the date. */
  function Subject(dateIso: string): (s: string)
    ensures |s| == |SubjectPrefix| + |dateIso|
    ensures SubjectPrefix <= s && s[|SubjectPrefix|..] == dateIso
  {
    SubjectPrefix + dateIso
  }

  /* ---- the analysis as HTML ---- */

  /** `analysis.replace("\n", "<br>\n")`. */
  function AnalysisHtml(a: string): string {
    ReplaceChar(a, '\n', "<br>\n")
  }

  /**
   * Read line by line, the HTML analysis is the analysis with `<br>` at the
   * end of every line but the last.
   */
  lemma {:induction false} AnalysisHtmlLines(a: string)
    ensures |Split(AnalysisHtml(a), '\n')| == |Split(a, '\n')|
    ensures forall k :: 0 <= k < |Split(a, '\n')| - 1 ==> Split(AnalysisHtml(a), '\n')[k] == Split(a, '\n')[k] + "<br>"
    ensures Split(AnalysisHtml(a), '\n')[|Split(a, '\n')| - 1] == Split(a, '\n')[|Split(a, '\n')| - 1]
  {
    if a != [] {
      var t := Split(a[1..], '\n');
      var r' := AnalysisHtml(a[1..]);
      var s' := Split(r', '\n');
      AnalysisHtmlLines(a[1..]);
      var r := Split(AnalysisHtml(a), '\n');
      var u := Split(a, '\n');
      if a[0] == '\n' {
        assert AnalysisHtml(a) == "<br>" + ['\n'] + r';
        SplitHead("<br>", '\n', r');
        assert r == ["<br>"] + s';
        assert u == [""] + t;
        forall k | 0 <= k < |u| - 1 ensures r[k] == u[k] + "<br>" {
          if k > 0 { assert r[k] == s'[k - 1] && u[k] == t[k - 1]; }
        }
      } else {
        assert AnalysisHtml(a) == [a[0]] + r';
        assert r == [[a[0]] + s'[0]] + s'[1..];
        assert u == [[a[0]] + t[0]] + t[1..];
        forall k | 0 <= k < |u| - 1 ensures r[k] == u[k] + "<br>" {
          if k > 0 { assert r[k] == s'[k] && u[k] == t[k]; }
        }
      }
    }
  }

  /** The replacement is the split on newlines joined with `<br>` and a newline. */
  lemma AnalysisHtmlIsJoin(a: string)
    ensures AnalysisHtml(a) == Join(Split(a, '\n'), "<br>\n")
  {
    ReplaceIsSplitJoin(a, '\n', "<br>\n");
  }

  /* ---- the bodies ---- */

  /** The `html +=` loop over the insights. */
  method BuildHtmlInsights(xs: seq<string>) returns (html: string)
    ensures html == HtmlInsights(xs)
  {
    if xs == [] {
      return HtmlIndent + "<div class=\"insight\">" + NoInsights + "</div>\n";
    }
    html := "";
    var i := 0;
    while i < |xs|
      invariant 0 <= i <= |xs|
      invariant html == HtmlItems(xs[..i], 1)
    {
      HtmlItemsSnoc(xs[..i], xs[i], 1);
      assert xs[..i + 1] == xs[..i] + [xs[i]];
      html := html + HtmlIndent + "<div class=\"insight\">" + Item(i + 1, xs[i]) + "</div>\n";
      i := i + 1;
    }
    assert xs[..i] == xs;
  }

  /** `EmailNotifier._format_summary_html`, template text left out. */
  method FormatSummaryHtml(summary: DailySummary, dateText: string, genTime: string) returns (parts: HtmlParts)
    ensures parts == HtmlParts(dateText, summary.accountsMonitored, summary.totalTweets, genTime,
                               AnalysisHtml(summary.analysis), HtmlInsights(summary.keyInsights))
  {
    var insights := BuildHtmlInsights(summary.keyInsights);
    parts := HtmlParts(dateText, summary.accountsMonitored, summary.totalTweets, genTime,
                       AnalysisHtml(summary.analysis), insights);
  }

  /** The plain-text body up to the analysis. */
  function PlainPreamble(summary: DailySummary, dateText: string, genTime: string): string {
    "X/Twitter 每日监控报告\n\n日期：" + dateText + "\n监控账号：" + IntToString(summary.accountsMonitored)
    + " 个\n推文数量：" + IntToString(summary.totalTweets) + " 条\n生成时间：" + genTime + "\n\n---\n\n"
  }

  const InsightHeadingLine: string := "\n\n---\n\n关键洞察\n"

  /** The plain-text body up to and including the insight heading. */
  function PlainHead(summary: DailySummary, dateText: string, genTime: string): string {
    PlainPreamble(summary, dateText, genTime) + summary.analysis + InsightHeadingLine
  }

  const PlainTail: string := "\n---\n\n本报告由 X-Monitor AI Agent 自动生成\n"

  /** The plain-text body. */
  function PlainText(summary: DailySummary, dateText: string, genTime: string): string {
    PlainHead(summary, dateText, genTime) + PlainInsights(summary.keyInsights) + PlainTail
  }

  /** The `text_content +=` assembly of `send_summary`. */
  method BuildPlainText(summary: DailySummary, dateText: string, genTime: string) returns (text: string)
    ensures text == PlainText(summary, dateText, genTime)
  {
    text := PlainHead(summary, dateText, genTime);
    if summary.keyInsights != [] {
      text := AppendPlainItems(text, summary.keyInsights);
    } else {
      text := text + NoInsights + "\n";
    }
    text := text + PlainTail;
  }

  /** The plain-text body carries the analysis verbatim and then the numbered insight lines. */
  lemma PlainTextShape(summary: DailySummary, dateText: string, genTime: string)
    ensures Contains(PlainText(summary, dateText, genTime), summary.analysis)
    ensures Contains(PlainText(summary, dateText, genTime), PlainInsights(summary.keyInsights))
  {
    var p := PlainPreamble(summary, dateText, genTime);
    var a := summary.analysis;
    var ins := PlainInsights(summary.keyInsights);
    assert PlainText(summary, dateText, genTime) == p + a + (InsightHeadingLine + ins + PlainTail);
    ContainsMiddle(p, a, InsightHeadingLine + ins + PlainTail);
    ContainsMiddle(PlainHead(summary, dateText, genTime), ins, PlainTail);
  }

  /** `EmailNotifier.send_summary`: the message built, and whether the send went through. */
  method SendSummary(settings: EmailSettings, summary: DailySummary, dateIso: string, dateText: string,
                     genTime: string, smtpRaises: bool)
    returns (ok: bool, message: EmailMessage)
    ensures ok == !smtpRaises
    ensures message.subject == Subject(dateIso)
    ensures message.sender == settings.username && message.recipient == settings.toEmail
    ensures message.plain == PlainText(summary, dateText, genTime)
    ensures message.html == HtmlParts(dateText, summary.accountsMonitored, summary.totalTweets, genTime,
                                      AnalysisHtml(summary.analysis), HtmlInsights(summary.keyInsights))
  {
    var subject := Subject(dateIso);
    var text := BuildPlainText(summary, dateText, genTime);
    var html := FormatSummaryHtml(summary, dateText, genTime);
    message := EmailMessage(subject, settings.username, settings.toEmail, text, html);
    ok := !smtpRaises;
  }
}
