/**
 * The numbered key-insight list that both notifiers render
 * (src/notifiers/telegram_notifier.py and src/notifiers/email_notifier.py):
 * one item `{i}. {insight}` per insight, numbered from 1, or a placeholder
 * when there are none.
 */
module Report {
  import opened Text

  const NoInsights: string := "（无关键洞察）"
  const HtmlIndent: string := "            "

  /** `f"{i}. {insight}"`. */
  function Item(i: nat, x: string): string {
    NatToString(i) + ". " + x
  }

  /** The HTML line of item `i`. */
  function HtmlLine(i: nat, x: string): string {
    HtmlIndent + "<div class=\"insight\">" + Item(i, x) + "</div>"
  }

  /** One line per element, numbered from `start`, each rendered by `line` and ended by a newline. */
  function Numbered(xs: seq<string>, start: nat, line: (nat, string) -> string): string {
    if xs == [] then "" else line(start, xs[0]) + "\n" + Numbered(xs[1..], start + 1, line)
  }

  /** The plain-text lines `{i}. {x}\n`, numbered from `start`. */
  function PlainItems(xs: seq<string>, start: nat): string {
    Numbered(xs, start, Item)
  }

  /** The HTML lines `<div class="insight">{i}. {x}</div>\n`, numbered from `start`. */
  function HtmlItems(xs: seq<string>, start: nat): string {
    Numbered(xs, start, HtmlLine)
  }

  /** The plain-text insight block: the numbered items, or the placeholder line. */
  function PlainInsights(xs: seq<string>): string {
    if xs == [] then NoInsights + "\n" else PlainItems(xs, 1)
  }

  /** The HTML insight block: the numbered divs, or one placeholder div. */
  function HtmlInsights(xs: seq<string>): string {
    if xs == [] then HtmlIndent + "<div class=\"insight\">" + NoInsights + "</div>\n" else HtmlItems(xs, 1)
  }

  /** Appending one element appends one line, numbered after the others. */
  lemma {:induction false} NumberedSnoc(xs: seq<string>, x: string, start: nat, line: (nat, string) -> string)
    ensures Numbered(xs + [x], start, line) == Numbered(xs, start, line) + line(start + |xs|, x) + "\n"
  {
    if xs != [] {
      assert (xs + [x])[0] == xs[0] && (xs + [x])[1..] == xs[1..] + [x];
      NumberedSnoc(xs[1..], x, start + 1, line);
    }
  }

  /** Appending one insight appends one item (the `+=` of the loops). */
  lemma PlainItemsSnoc(xs: seq<string>, x: string, start: nat)
    ensures PlainItems(xs + [x], start) == PlainItems(xs, start) + Item(start + |xs|, x) + "\n"
  {
    NumberedSnoc(xs, x, start, Item);
  }

  lemma HtmlItemsSnoc(xs: seq<string>, x: string, start: nat)
    ensures HtmlItems(xs + [x], start) ==
            HtmlItems(xs, start) + HtmlIndent + "<div class=\"insight\">" + Item(start + |xs|, x) + "</div>\n"
  {
    NumberedSnoc(xs, x, start, HtmlLine);
  }

  /** The `text += f"{i}. {insight}\n"` loop of both notifiers, numbering from 1. */
  method AppendPlainItems(text: string, xs: seq<string>) returns (r: string)
    ensures r == text + PlainItems(xs, 1)
  {
    r := text;
    var i := 0;
    while i < |xs|
      invariant 0 <= i <= |xs|
      invariant r == text + PlainItems(xs[..i], 1)
    {
      PlainItemsSnoc(xs[..i], xs[i], 1);
      assert xs[..i + 1] == xs[..i] + [xs[i]];
      r := r + Item(i + 1, xs[i]) + "\n";
      i := i + 1;
    }
    assert xs[..i] == xs;
  }

  /** Read back line by line, the numbered block is its lines in order, then an empty remainder. */
  lemma {:induction false} NumberedLines(xs: seq<string>, start: nat, line: (nat, string) -> string)
    requires forall k :: 0 <= k < |xs| ==> '\n' !in line(start + k, xs[k])
    ensures |Split(Numbered(xs, start, line), '\n')| == |xs| + 1
    ensures forall k :: 0 <= k < |xs| ==> Split(Numbered(xs, start, line), '\n')[k] == line(start + k, xs[k])
    ensures Split(Numbered(xs, start, line), '\n')[|xs|] == ""
  {
    if xs != [] {
      var rest := Numbered(xs[1..], start + 1, line);
      assert '\n' !in line(start + 0, xs[0]);
      SplitHead(line(start, xs[0]), '\n', rest);
      assert Numbered(xs, start, line) == line(start, xs[0]) + ['\n'] + rest;
      NumberedTailSeparate(xs, start, line);
      NumberedLines(xs[1..], start + 1, line);
      LinesCons(xs, start, line, Split(rest, '\n'));
    }
  }

  /** The elements after the first keep their lines free of newlines. */
  lemma NumberedTailSeparate(xs: seq<string>, start: nat, line: (nat, string) -> string)
    requires xs != []
    requires forall k :: 0 <= k < |xs| ==> '\n' !in line(start + k, xs[k])
    ensures forall k :: 0 <= k < |xs[1..]| ==> '\n' !in line(start + 1 + k, xs[1..][k])
  {
    forall k | 0 <= k < |xs[1..]| ensures '\n' !in line(start + 1 + k, xs[1..][k]) {
      assert xs[1..][k] == xs[k + 1];
    }
  }

  /** The first line in front of the lines of the rest gives the lines of the whole. */
  lemma LinesCons(xs: seq<string>, start: nat, line: (nat, string) -> string, t: seq<string>)
    requires xs != [] && |t| == |xs[1..]| + 1
    requires forall k :: 0 <= k < |xs[1..]| ==> t[k] == line(start + 1 + k, xs[1..][k])
    requires t[|xs[1..]|] == ""
    ensures var l := [line(start, xs[0])] + t;
            && |l| == |xs| + 1
            && (forall k :: 0 <= k < |xs| ==> l[k] == line(start + k, xs[k]))
            && l[|xs|] == ""
  {
    var l := [line(start, xs[0])] + t;
    forall k | 0 <= k < |xs| ensures l[k] == line(start + k, xs[k]) {
      if k > 0 {
        assert l[k] == t[k - 1] && xs[1..][k - 1] == xs[k];
      }
    }
  }

  lemma ItemNoNewline(i: nat, x: string)
    requires '\n' !in x
    ensures '\n' !in Item(i, x)
  {
  }

  /**
   * Read back line by line, the plain-text block lists the items in order,
   * numbered `start`, `start + 1`, ..., provided no insight spans two lines.
   */
  lemma PlainItemsLines(xs: seq<string>, start: nat)
    requires forall k :: 0 <= k < |xs| ==> '\n' !in xs[k]
    ensures |Split(PlainItems(xs, start), '\n')| == |xs| + 1
    ensures forall k :: 0 <= k < |xs| ==> Split(PlainItems(xs, start), '\n')[k] == Item(start + k, xs[k])
    ensures Split(PlainItems(xs, start), '\n')[|xs|] == ""
  {
    forall k | 0 <= k < |xs| ensures '\n' !in Item(start + k, xs[k]) {
      ItemNoNewline(start + k, xs[k]);
    }
    NumberedLines(xs, start, Item);
  }

  /** Read back line by line, the HTML block is one insight div per insight, numbered from `start`. */
  lemma HtmlItemsLines(xs: seq<string>, start: nat)
    requires forall k :: 0 <= k < |xs| ==> '\n' !in xs[k]
    ensures |Split(HtmlItems(xs, start), '\n')| == |xs| + 1
    ensures forall k :: 0 <= k < |xs| ==> Split(HtmlItems(xs, start), '\n')[k] == HtmlLine(start + k, xs[k])
    ensures Split(HtmlItems(xs, start), '\n')[|xs|] == ""
  {
    forall k | 0 <= k < |xs| ensures '\n' !in HtmlLine(start + k, xs[k]) {
      ItemNoNewline(start + k, xs[k]);
    }
    NumberedLines(xs, start, HtmlLine);
  }
}
