/**
 What the reader of the page gets (common/markdown.py): every line comes out once, in order, with its
 own text, and the tags of the final string are nested and closed.
 */
module MarkdownText {
  import opened Markdown
  import opened Quotients

  // ---------- lines of a text ----------

  predicate NoBreak(s: string) {
    forall k :: 0 <= k < |s| ==> s[k] != '\n'
  }

  predicate NoBreaks(lines: seq<string>) {
    forall i :: 0 <= i < |lines| ==> NoBreak(lines[i])
  }

  function Glued(lines: seq<string>): string {
    if lines == [] then ""
    else if |lines| == 1 then lines[0]
    else Glued(lines[..|lines| - 1]) + "\n" + lines[|lines| - 1]
  }

  lemma GluedMore(lines: seq<string>, last: string)
    requires lines != []
    ensures Glued(lines + [last]) == Glued(lines) + "\n" + last
  {
    assert (lines + [last])[..|lines|] == lines;
  }

  lemma GluedLonger(first: seq<string>, last: string, c: char)
    ensures Glued(first + [last + [c]]) == Glued(first + [last]) + [c]
  {
    if first == [] {
      assert first + [last] == [last] && first + [last + [c]] == [last + [c]];
    } else {
      GluedMore(first, last);
      GluedMore(first, last + [c]);
      hide Glued;
      assert Glued(first) + "\n" + (last + [c]) == Glued(first) + "\n" + last + [c];
    }
  }

  lemma SplitUnfolds(text: string)
    requires text != ""
    ensures var c, rest := text[|text| - 1], Split(text[..|text| - 1]);
            Split(text) == if c == '\n' then rest + [""] else rest[..|rest| - 1] + [rest[|rest| - 1] + [c]]
  {
  }

  lemma {:induction false} SplitGlues(text: string)
    ensures Glued(Split(text)) == text && NoBreaks(Split(text))
  {
    if text != "" {
      var init, c := text[..|text| - 1], text[|text| - 1];
      SplitGlues(init);
      SplitUnfolds(text);
      hide Glued, Split;
      var rest := Split(init);
      var k := |rest| - 1;
      if c == '\n' {
        GluedMore(rest, "");
        assert Glued(rest) + "\n" + "" == Glued(rest) + [c];
      } else {
        GluedLonger(rest[..k], rest[k], c);
        assert rest[..k] + [rest[k]] == rest;
      }
      assert text == init + [c];
    }
  }

  lemma {:induction false} SplitLast(text: string, line: string)
    requires NoBreak(line)
    ensures Split(text + "\n" + line) == Split(text) + [line]
  {
    var t := text + "\n" + line;
    if line == "" {
      assert t[..|t| - 1] == text;
    } else {
      var k := |line| - 1;
      SplitLast(text, line[..k]);
      assert t[..|t| - 1] == text + "\n" + line[..k];
      assert t[|t| - 1] == line[k] && line[..k] + [line[k]] == line;
    }
  }

  lemma {:induction false} SplitOne(line: string)
    requires NoBreak(line)
    ensures Split(line) == [line]
  {
    if line != "" {
      var k := |line| - 1;
      SplitOne(line[..k]);
      assert line[..k] + [line[k]] == line;
    }
  }

  lemma {:induction false} GluedSplits(lines: seq<string>)
    requires lines != [] && NoBreaks(lines)
    ensures Split(Glued(lines)) == lines
    decreases |lines|
  {
    var k := |lines| - 1;
    var first, last := lines[..k], lines[k];
    hide Split;
    if k == 0 {
      SplitOne(last);
      assert lines == [last];
    } else {
      GluedMore(first, last);
      hide Glued;
      assert first + [last] == lines;
      GluedSplits(first);
      SplitLast(Glued(first), last);
    }
  }

  /** The lines of a text are the only way to cut it at its line breaks. */
  lemma SplitExactly(text: string, lines: seq<string>)
    requires lines != []
    ensures Split(text) == lines <==> Glued(lines) == text && NoBreaks(lines)
  {
    hide Split, Glued;
    SplitGlues(text);
    if NoBreaks(lines) {
      GluedSplits(lines);
    }
  }

  // ---------- bullets ----------

  predicate AllSpace(s: string) {
    forall k :: 0 <= k < |s| ==> IsSpace(s[k])
  }

  /** Blank space, a star, a blank and the rest. */
  predicate IsBullet(line: string, space: string, rest: string) {
    AllSpace(space) && line == space + "* " + rest
  }

  lemma {:induction false} StripSpace(space: string, s: string)
    requires AllSpace(space)
    ensures Lstrip(space + s) == Lstrip(s)
  {
    if space == "" {
      assert space + s == s;
    } else {
      assert (space + s)[1..] == space[1..] + s;
      StripSpace(space[1..], s);
    }
  }

  lemma {:induction false} StarAfter(space: string, rest: string)
    requires AllSpace(space)
    ensures StarAt(space + "* " + rest) == |space|
  {
    var t := space + "* " + rest;
    if space != "" {
      assert IsSpace(space[0]);
      assert t[1..] == space[1..] + "* " + rest;
      StarAfter(space[1..], rest);
    }
  }

  lemma {:induction false} Stripped(s: string) returns (space: string)
    ensures AllSpace(space) && s == space + Lstrip(s)
  {
    space := "";
    if s != "" && IsSpace(s[0]) {
      var more := Stripped(s[1..]);
      space := [s[0]] + more;
    }
  }

  lemma BulletFound(line: string)
    requires StartsWith(Lstrip(line), "* ")
    ensures exists space, rest :: IsBullet(line, space, rest)
  {
    var space := Stripped(line);
    var rest := Lstrip(line)[2..];
    hide Lstrip;
    assert line == space + "* " + rest;
    assert IsBullet(line, space, rest);
  }

  lemma BulletParts(line: string, space: string, rest: string)
    requires IsBullet(line, space, rest)
    ensures StartsWith(Lstrip(line), "* ")
    ensures ItemText(line) == Lstrip(rest) && line[..StarAt(line)] == space
  {
    assert line == space + ("* " + rest);
    StripSpace(space, "* " + rest);
    StarAfter(space, rest);
    hide StarAt;
    assert line[..|space|] + line[|space| + 1..] == (space + " ") + rest;
    StripSpace(space + " ", rest);
  }

  /** A line is listed exactly if it is a bullet; its text is the rest without leading blank space, and
      its depth is that of the space before the star. */
  lemma BulletExactly(line: string)
    ensures StartsWith(Lstrip(line), "* ") <==> exists space, rest :: IsBullet(line, space, rest)
    ensures forall space, rest :: IsBullet(line, space, rest) ==>
              ItemText(line) == Lstrip(rest) && line[..StarAt(line)] == space
  {
    hide Lstrip, ItemText, StarAt, IsBullet;
    if StartsWith(Lstrip(line), "* ") {
      BulletFound(line);
    }
    forall space, rest | IsBullet(line, space, rest)
      ensures StartsWith(Lstrip(line), "* ")
      ensures ItemText(line) == Lstrip(rest) && line[..StarAt(line)] == space
    {
      BulletParts(line, space, rest);
    }
  }

  predicate AllBlank(s: string) {
    forall k :: 0 <= k < |s| ==> s[k] == ' '
  }

  function Tabs(n: nat, tab: nat): nat
    requires tab > 0
  {
    n / tab
  }

  lemma TabsStep(n: nat, tab: nat)
    requires tab > 0
    ensures Tabs(n, tab) == if n < tab then 0 else 1 + Tabs(n - tab, tab)
  {
    if n < tab {
      DivModUnique(n, tab, 0, n);
    } else {
      OneMore(n, tab);
    }
  }

  /** Blanks indent by their number over the tab length. */
  lemma {:induction false} BlanksIndent(s: string, tab: nat)
    requires AllBlank(s) && tab > 0
    ensures Indents(s, tab) == Tabs(|s|, tab)
  {
    hide Tabs;
    TabsStep(|s|, tab);
    if |s| >= tab {
      BlanksIndent(s[tab..], tab);
    }
  }

  /** Anything else interrupts the run of blanks. */
  lemma {:induction false} IndentsApart(before: string, c: char, after: string, tab: nat)
    requires AllBlank(before) && c != ' ' && tab > 0
    ensures Indents(before + [c] + after, tab) == Tabs(|before|, tab) + Indents(after, tab)
    decreases |before|
  {
    hide Tabs;
    var s := before + [c] + after;
    TabsStep(|before|, tab);
    if |before| >= tab {
      IndentsFirst(before, s, tab);
      assert s[tab..] == before[tab..] + [c] + after;
      hide Indents;
      IndentsApart(before[tab..], c, after, tab);
    } else {
      Interrupted(before, c, after, tab);
      hide Indents;
      if before == "" {
        assert s[1..] == after;
      } else {
        assert s[1..] == before[1..] + [c] + after;
        IndentsApart(before[1..], c, after, tab);
        TabsStep(|before| - 1, tab);
      }
    }
  }

  lemma IndentsFirst(before: string, s: string, tab: nat)
    requires AllBlank(before) && 0 < tab <= |before| && before <= s
    ensures Indents(s, tab) == 1 + Indents(s[tab..], tab)
  {
    assert forall k :: 0 <= k < tab ==> s[k] == before[k];
  }

  lemma Interrupted(before: string, c: char, after: string, tab: nat)
    requires c != ' ' && |before| < tab
    ensures var s := before + [c] + after;
            Indents(s, tab) == if |s| < tab then 0 else Indents(s[1..], tab)
    ensures |after| < tab ==> Indents(after, tab) == 0
  {
    var s := before + [c] + after;
    assert s[|before|] == c;
  }

  /** How deep a line is listed: blanks over the tab length, but only one list deeper than before;
      a plain line ends all lists, headings and underlines none. */
  lemma DepthOfLine(lines: seq<string>, i: nat, tab: nat, space: string, rest: string)
    requires i < |lines| && tab > 0
    ensures var before, after := LinesDone(lines, i, tab).level, LinesDone(lines, i + 1, tab).level;
            var heading := i + 1 < |lines| && "===" <= lines[i + 1];
            && (heading || "===" <= lines[i] ==> after == before)
            && (!heading && !("===" <= lines[i]) && IsBullet(lines[i], space, rest) && AllBlank(space) ==>
                  after == if before < 1 + Tabs(|space|, tab) then before + 1 else 1 + Tabs(|space|, tab))
            && (!heading && !("===" <= lines[i]) && after != 0 ==>
                  exists space, rest :: IsBullet(lines[i], space, rest))
  {
    hide Indents, StarAt, Lstrip, ItemText, Ended, Tabs;
    BulletExactly(lines[i]);
    if AllBlank(space) {
      BlanksIndent(space, tab);
    }
  }

  // ---------- every line comes out once ----------

  datatype Entry = Entry(tag: string, text: string)

  function Entries(out: seq<Piece>): seq<Entry> {
    if out == [] then []
    else Entries(out[..|out| - 1]) + EntryOf(out[|out| - 1])
  }

  function EntryOf(p: Piece): seq<Entry> {
    match p
    case H1(t) => [Entry("h1", t)]
    case Item(t, _) => [Entry("li", t)]
    case Text(t) => [Entry("", t)]
    case _ => []
  }

  /** What a line has to show: a heading when the next line underlines it, nothing for an underline, an
      item for a bullet, and any other line as it is unless it is empty. */
  ghost predicate Shows(lines: seq<string>, i: nat, es: seq<Entry>)
    requires i < |lines|
  {
    var line := lines[i];
    if i + 1 < |lines| && "===" <= lines[i + 1] then es == [Entry("h1", line)]
    else if "===" <= line then es == []
    else if exists space, rest :: IsBullet(line, space, rest) then
      forall space, rest :: IsBullet(line, space, rest) ==> es == [Entry("li", Lstrip(rest))]
    else es == if line == "" then [] else [Entry("", line)]
  }

  ghost predicate ShownIn(lines: seq<string>, n: nat, es: seq<Entry>)
    requires n <= |lines|
  {
    if n == 0 then es == []
    else exists k :: 0 <= k <= |es| && ShownIn(lines, n - 1, es[..k]) && Shows(lines, n - 1, es[k..])
  }

  /** The same entries; an item or heading with a list inside it has lost its closing item tags. */
  predicate SameEntries(a: seq<Entry>, b: seq<Entry>) {
    && |a| == |b|
    && (forall i :: 0 <= i < |a| ==>
          a[i].tag == b[i].tag && (a[i].text == b[i].text || a[i].text == Without(b[i].text)))
    && (a != [] ==> a[|a| - 1] == b[|b| - 1])
  }

  lemma EntriesAppend(out: seq<Piece>, p: Piece)
    ensures Entries(out + [p]) == Entries(out) + EntryOf(p)
  {
    assert (out + [p])[..|out|] == out;
  }

  lemma {:induction false} EntriesEnded(level: nat, end: nat, out: seq<Piece>)
    ensures Entries(Ended(level, end, out)) == Entries(out)
    decreases level
  {
    hide Entries;
    if level > end {
      EntriesAppend(out, CloseList);
      EntriesAppend(out + [CloseList], CloseItem);
      assert out + [CloseList] + [] == out + [CloseList];
      EntriesEnded(level - 1, end, out + [CloseList] + if level - 1 > 0 then [CloseItem] else []);
    }
  }

  /** Rewriting the last piece touches the last entry only. */
  lemma EntriesReopened(out: seq<Piece>)
    requires out != [] && (var p := out[|out| - 1]; p.H1? || p.Item?)
    ensures var k := |out| - 1;
            var es, fs := Entries(out), Entries(out[k := Reopened(out[k])]);
            && |es| == |fs| > 0
            && fs == es[..|es| - 1] + [Entry(es[|es| - 1].tag, Without(es[|es| - 1].text))]
  {
    var k := |out| - 1;
    assert out[k := Reopened(out[k])] == out[..k] + [Reopened(out[k])];
    EntriesAppend(out[..k], Reopened(out[k]));
  }

  /** Entries `es` were there, `fs` is there after some more pieces: at most the last of the old ones
      has lost its closing tags, and only when something was added. */
  predicate Longer(es: seq<Entry>, fs: seq<Entry>) {
    && |es| <= |fs|
    && (fs[..|es|] == es
        || (es != [] && |es| < |fs|
            && fs[..|es|] == es[..|es| - 1] + [Entry(es[|es| - 1].tag, Without(es[|es| - 1].text))]))
  }

  lemma BulletShows(s: State, n: nat, line: string)
    requires s.level > 0 ==> s.out != [] && (var p := s.out[|s.out| - 1]; p.H1? || p.Item?)
    ensures var es, fs := Entries(s.out), Entries(LineDone(s, Bullet(n), line).out);
            Longer(es, fs) && fs[|es|..] == [Entry("li", ItemText(line))]
  {
    hide Entries, Ended, ItemText, Reopened, Without;
    var item := Item(ItemText(line), true);
    if s.level >= n {
      EntriesEnded(s.level, n, s.out);
      EntriesAppend(Ended(s.level, n, s.out), item);
    } else {
      var k := |s.out| - 1;
      if s.level > 0 { EntriesReopened(s.out); }
      var out := if s.level > 0 then s.out[k := Reopened(s.out[k])] else s.out;
      EntriesAppend(out, OpenList);
      EntriesAppend(out + [OpenList], item);
      assert out + [OpenList, item] == out + [OpenList] + [item];
    }
  }

  lemma LineShows(lines: seq<string>, i: nat, tab: nat, s: State)
    requires i < |lines|
    requires s.level > 0 ==> s.out != [] && (var p := s.out[|s.out| - 1]; p.H1? || p.Item?)
    ensures var es, fs := Entries(s.out), Entries(LineDone(s, KindOf(lines, i, tab), lines[i]).out);
            Longer(es, fs) && Shows(lines, i, fs[|es|..])
  {
    hide Entries, Ended, Indents, ItemText, Lstrip, Reopened, StarAt, Without;
    var kind, line := KindOf(lines, i, tab), lines[i];
    BulletExactly(line);
    match kind
    case Heading => EntriesAppend(s.out, H1(line));
    case Rule =>
    case Bullet(n) =>
      BulletShows(s, n, line);
      hide LineDone, Longer;
    case Plain =>
      EntriesEnded(s.level, 0, s.out);
      EntriesAppend(Ended(s.level, 0, s.out), Text(line));
      assert Ended(s.level, 0, s.out) + [] == Ended(s.level, 0, s.out);
  }

  lemma LastIsEntry(lines: seq<string>, n: nat, tab: nat)
    requires n <= |lines|
    ensures var s := LinesDone(lines, n, tab);
            s.level > 0 ==> s.out != [] && (var p := s.out[|s.out| - 1]; p.H1? || p.Item?)
  {
    hide LinesDone, TrackOf, OpenAfter, Expected;
    TrackFollows(lines, n, tab);
  }

  lemma ShownMore(lines: seq<string>, n: nat, before: seq<Entry>, more: seq<Entry>)
    requires n < |lines| && ShownIn(lines, n, before) && Shows(lines, n, more)
    ensures ShownIn(lines, n + 1, before + more)
  {
    hide Shows;
    var es := before + more;
    assert es[..|before|] == before && es[|before|..] == more;
  }

  lemma NothingShown(lines: seq<string>, tab: nat)
    ensures ShownIn(lines, 0, []) && SameEntries(Entries(LinesDone(lines, 0, tab).out), [])
  {
  }

  lemma {:induction false} LinesShow(lines: seq<string>, n: nat, tab: nat) returns (es: seq<Entry>)
    requires n <= |lines|
    ensures ShownIn(lines, n, es) && SameEntries(Entries(LinesDone(lines, n, tab).out), es)
  {
    hide *;
    if n == 0 {
      NothingShown(lines, tab);
      es := [];
    } else {
      es := LinesShow(lines, n - 1, tab);
      var s := LinesDone(lines, n - 1, tab);
      LastIsEntry(lines, n - 1, tab);
      LineShows(lines, n - 1, tab, s);
      LastUnfolds(lines, n, tab);
      var before, after := Entries(s.out), Entries(LinesDone(lines, n, tab).out);
      SameLonger(before, es, after);
      ShownMore(lines, n - 1, es, after[|before|..]);
      es := es + after[|before|..];
    }
  }

  lemma SameLonger(a: seq<Entry>, b: seq<Entry>, after: seq<Entry>)
    requires SameEntries(a, b) && Longer(a, after)
    ensures |b| == |a| <= |after| && SameEntries(after, b + after[|a|..])
  {
    hide Without;
    var c := b + after[|a|..];
    forall i | 0 <= i < |after|
      ensures after[i].tag == c[i].tag && (after[i].text == c[i].text || after[i].text == Without(c[i].text))
    {
      if i < |a| {
        assert after[i] == after[..|a|][i];
      }
    }
    if after != [] {
      if |a| == |after| {
        assert after[..|a|] == after && c == b;
      }
    }
  }

  /** The page shows every line once and in order, as the heading, item or text that it is. */
  lemma EveryLineIsShown(lines: seq<string>, tab: nat) returns (es: seq<Entry>)
    ensures ShownIn(lines, |lines|, es) && SameEntries(Entries(Parsed(lines, tab)), es)
  {
    hide Entries, LinesDone, ShownIn, SameEntries;
    es := LinesShow(lines, |lines|, tab);
    var s := LinesDone(lines, |lines|, tab);
    EntriesEnded(s.level, 0, s.out);
  }

  // ---------- escaping ----------

  function Replaced(s: string, c: char, sub: string): string {
    if s == "" then "" else (if s[0] == c then sub else [s[0]]) + Replaced(s[1..], c, sub)
  }

  function Sign(c: char): string {
    if c == '&' then "&amp;" else if c == '"' then "&quot;" else [c]
  }

  lemma {:induction false} EscapedFromLeft(c: char, s: string)
    ensures Escaped([c] + s) == Sign(c) + Escaped(s)
  {
    var t := [c] + s;
    if s != "" {
      var k := |s| - 1;
      assert t[..|t| - 1] == [c] + s[..k];
      EscapedFromLeft(c, s[..k]);
    } else {
      assert t[..0] == "";
    }
  }

  lemma {:induction false} ReplacedConcat(a: string, b: string, c: char, sub: string)
    ensures Replaced(a + b, c, sub) == Replaced(a, c, sub) + Replaced(b, c, sub)
  {
    if a == "" {
      assert a + b == b;
    } else {
      assert (a + b)[1..] == a[1..] + b;
      ReplacedConcat(a[1..], b, c, sub);
    }
  }

  lemma AmpHasNoQuote()
    ensures Replaced("&amp;", '"', "&quot;") == "&amp;"
  {
    assert "&amp;"[1..] == "amp;" && "amp;"[1..] == "mp;" && "mp;"[1..] == "p;" && "p;"[1..] == ";" && ";"[1..] == "";
  }

  /** One pass over the page does what the two replacements, one after the other, do. */
  lemma {:induction false} EscapedIsBothReplacements(s: string)
    ensures Escaped(s) == Replaced(Replaced(s, '&', "&amp;"), '"', "&quot;")
  {
    if s != "" {
      var first := if s[0] == '&' then "&amp;" else [s[0]];
      ReplacedConcat(first, Replaced(s[1..], '&', "&amp;"), '"', "&quot;");
      AmpHasNoQuote();
      assert [s[0]][1..] == "";
      EscapedIsBothReplacements(s[1..]);
      EscapedFromLeft(s[0], s[1..]);
      assert s == [s[0]] + s[1..];
    }
  }

  function Unescaped(s: string): string {
    if s == "" then ""
    else if "&amp;" <= s then "&" + Unescaped(s[5..])
    else if "&quot;" <= s then "\"" + Unescaped(s[6..])
    else [s[0]] + Unescaped(s[1..])
  }

  /** A browser reads the same text again, and the escaped text has no quotation mark. */
  lemma {:induction false} EscapedReadsBack(s: string)
    ensures Unescaped(Escaped(s)) == s && '"' !in Escaped(s)
  {
    if s != "" {
      var t := Escaped(s[1..]);
      EscapedReadsBack(s[1..]);
      EscapedFromLeft(s[0], s[1..]);
      assert s == [s[0]] + s[1..];
      var e := Sign(s[0]) + t;
      assert e[|Sign(s[0])|..] == t;
      if s[0] == '"' {
        assert e[1] == 'q' && "&amp;"[1] == 'a';
      }
    }
  }

  lemma {:induction false} EscapedConcat(a: string, b: string)
    ensures Escaped(a + b) == Escaped(a) + Escaped(b)
  {
    if a == "" {
      assert a + b == b;
    } else {
      assert a + b == [a[0]] + (a[1..] + b);
      EscapedFromLeft(a[0], a[1..] + b);
      EscapedFromLeft(a[0], a[1..]);
      assert a == [a[0]] + a[1..];
      EscapedConcat(a[1..], b);
    }
  }

  // ---------- the tags of the page ----------

  predicate NoTag(s: string) {
    '<' !in s
  }

  predicate Quiet(s: string) {
    '&' !in s && '"' !in s
  }

  lemma {:induction false} QuietIsKept(s: string)
    requires Quiet(s)
    ensures Escaped(s) == s
  {
    if s != "" {
      var k := |s| - 1;
      QuietIsKept(s[..k]);
      assert s[..k] + [s[k]] == s;
    }
  }

  lemma {:induction false} EscapedNoTag(s: string)
    requires NoTag(s)
    ensures NoTag(Escaped(s))
  {
    if s != "" {
      EscapedNoTag(s[..|s| - 1]);
    }
  }

  /** Where the first closing bracket is, or the length if there is none. */
  function EndOfTag(s: string): (k: nat)
    ensures k <= |s|
  {
    if s == "" || s[0] == '>' then 0 else 1 + EndOfTag(s[1..])
  }

  /** The names of the open tags, outermost first, or a failure. */
  datatype Html = Html(tags: seq<string>) | Broken

  function AfterTag(h: Html, name: string): Html {
    if h.Broken? then h
    else if "/" <= name then
      if h.tags != [] && h.tags[|h.tags| - 1] == name[1..] then Html(h.tags[..|h.tags| - 1]) else Broken
    else Html(h.tags + [name])
  }

  /** Reading a page from the left. */
  function AfterText(h: Html, s: string): Html
    decreases |s|
  {
    if s == "" then h
    else if s[0] != '<' then AfterText(h, s[1..])
    else
      var k := EndOfTag(s);
      if k == |s| then Broken else AfterText(AfterTag(h, s[1..k]), s[k + 1..])
  }

  lemma {:induction false} ReadText(h: Html, text: string, more: string)
    requires NoTag(text)
    ensures AfterText(h, text + more) == AfterText(h, more)
  {
    if text == "" {
      assert text + more == more;
    } else {
      assert (text + more)[1..] == text[1..] + more;
      ReadText(h, text[1..], more);
    }
  }

  lemma {:induction false} EndOfName(name: string, more: string)
    requires '>' !in name
    ensures EndOfTag(name + ">" + more) == |name|
  {
    var s := name + ">" + more;
    if name != "" {
      assert s[1..] == name[1..] + ">" + more;
      EndOfName(name[1..], more);
    }
  }

  lemma ReadTag(h: Html, name: string, more: string)
    requires '>' !in name
    ensures AfterText(h, "<" + name + ">" + more) == AfterText(AfterTag(h, name), more)
  {
    hide AfterTag;
    var s := "<" + name + ">" + more;
    EndOfName("<" + name, more);
    assert s == ("<" + name) + ">" + more;
    assert s[1..|name| + 1] == name && s[|name| + 2..] == more;
  }

  /** The piece with its text escaped. */
  function InPage(p: Piece): Piece {
    match p
    case H1(t) => H1(Escaped(t))
    case Item(t, closed) => Item(Escaped(t), closed)
    case Text(t) => Text(Escaped(t))
    case _ => p
  }

  function TextOf(p: Piece): string {
    match p
    case H1(t) => t
    case Item(t, _) => t
    case Text(t) => t
    case _ => ""
  }

  lemma RenderedInPage(p: Piece)
    ensures Escaped(Rendered(p)) == Rendered(InPage(p))
  {
    hide Escaped;
    match p
    case H1(t) =>
      EscapedConcat("<h1>" + t, "</h1>");
      EscapedConcat("<h1>", t);
      QuietIsKept("<h1>");
      QuietIsKept("</h1>");
    case Item(t, closed) =>
      EscapedConcat("<li>" + t, if closed then CLOSE else "");
      EscapedConcat("<li>", t);
      QuietIsKept("<li>");
      QuietIsKept(CLOSE);
      QuietIsKept("");
      assert "<li>" + t + (if closed then CLOSE else "") == Rendered(p);
    case Text(_) =>
    case OpenList => QuietIsKept("<ul>");
    case CloseList => QuietIsKept("</ul>");
    case CloseItem => QuietIsKept(CLOSE);
  }

  function Name(t: Tag): string {
    if t.Ul? then "ul" else "li"
  }

  function Names(tags: seq<Tag>): seq<string> {
    if tags == [] then [] else Names(tags[..|tags| - 1]) + [Name(tags[|tags| - 1])]
  }

  function HtmlOf(o: Open): Html {
    if o.Failed? then Broken else Html(Names(o.tags))
  }

  lemma {:induction false} LastName(tags: seq<Tag>)
    ensures |Names(tags)| == |tags|
    ensures tags != [] ==> Names(tags)[|tags| - 1] == Name(tags[|tags| - 1])
                           && Names(tags)[..|tags| - 1] == Names(tags[..|tags| - 1])
  {
    if tags != [] {
      LastName(tags[..|tags| - 1]);
    }
  }

  lemma ShutHtml(o: Open, tag: Tag)
    ensures AfterTag(HtmlOf(o), "/" + Name(tag)) == HtmlOf(Shut(o, tag))
  {
    assert ("/" + Name(tag))[1..] == Name(tag);
    if o.Open? {
      LastName(o.tags);
      assert "ul"[0] != "li"[0];
    }
  }

  lemma OpenedHtml(o: Open, tag: Tag)
    ensures AfterTag(HtmlOf(o), Name(tag)) == HtmlOf(Opened(o, tag))
  {
    assert Name(tag)[0] != '/';
    if o.Open? {
      assert (o.tags + [tag])[..|o.tags|] == o.tags;
    }
  }

  lemma OpenAndShut(o: Open, tag: Tag)
    ensures Shut(Opened(o, tag), tag) == o
  {
    if o.Open? {
      assert (o.tags + [tag])[..|o.tags|] == o.tags;
    }
  }

  lemma HeadingCloses(h: Html)
    ensures AfterTag(AfterTag(h, "h1"), "/h1") == h
  {
    assert "h1"[0] != '/' && "/h1"[1..] == "h1";
    if h.Html? {
      assert (h.tags + ["h1"])[..|h.tags|] == h.tags;
    }
  }

  lemma TwoNames()
    ensures Name(Ul) == "ul" && Name(Li) == "li"
  {
  }

  lemma TagNames()
    ensures "/" + Name(Ul) == "/ul" && "/" + Name(Li) == "/li"
    ensures "<" + "ul" + ">" == "<ul>" && "<" + "/ul" + ">" == "</ul>"
    ensures "<" + "li" + ">" == "<li>" && "<" + "/li" + ">" == "</li>"
  {
  }

  lemma ReadHeading(h: Html, t: string, more: string)
    requires NoTag(t)
    ensures AfterText(h, Rendered(H1(t)) + more) == AfterText(h, more)
  {
    hide AfterText, AfterTag, NoTag;
    var last := "<" + "/h1" + ">" + more;
    assert Rendered(H1(t)) + more == "<" + "h1" + ">" + (t + last);
    ReadTag(h, "h1", t + last);
    ReadText(AfterTag(h, "h1"), t, last);
    ReadTag(AfterTag(h, "h1"), "/h1", more);
    HeadingCloses(h);
  }

  lemma ItemParts(t: string, closed: bool, more: string)
    ensures Rendered(Item(t, closed)) + more
            == "<" + "li" + ">" + (t + if closed then "<" + "/li" + ">" + more else more)
  {
    RenderedItem(t, closed);
    TagNames();
    hide Rendered;
    if closed {
      assert "<li>" + t + CLOSE + more == "<li>" + (t + (CLOSE + more));
    } else {
      assert "<li>" + t + more == "<li>" + (t + more);
    }
  }

  lemma ReadItem(o: Open, t: string, closed: bool, more: string)
    requires NoTag(t)
    ensures AfterText(HtmlOf(o), Rendered(Item(t, closed)) + more)
            == AfterText(HtmlOf(if closed then o else Opened(o, Li)), more)
  {
    ItemParts(t, closed, more);
    TwoNames();
    TagNames();
    hide AfterText, AfterTag, HtmlOf, Shut, Opened, Name, NoTag, Rendered;
    var h := HtmlOf(o);
    var last := if closed then "<" + "/li" + ">" + more else more;
    ReadTag(h, "li", t + last);
    ReadText(AfterTag(h, "li"), t, last);
    OpenedHtml(o, Li);
    if closed {
      ReadTag(AfterTag(h, "li"), "/li", more);
      ShutHtml(Opened(o, Li), Li);
      OpenAndShut(o, Li);
    }
  }

  /** Reading one rendered piece opens and closes the tags the piece stands for. */
  lemma ReadPiece(o: Open, p: Piece, more: string)
    requires NoTag(TextOf(p))
    ensures AfterText(HtmlOf(o), Rendered(p) + more) == AfterText(HtmlOf(AfterPiece(o, p)), more)
  {
    TwoNames();
    TagNames();
    hide AfterText, AfterTag, HtmlOf, Shut, Opened, Name;
    var h := HtmlOf(o);
    match p
    case H1(t) => ReadHeading(h, t, more);
    case Item(t, closed) => ReadItem(o, t, closed, more);
    case Text(t) => ReadText(h, t, more);
    case OpenList =>
      ReadTag(h, "ul", more);
      OpenedHtml(o, Ul);
    case CloseList =>
      ReadTag(h, "/ul", more);
      ShutHtml(o, Ul);
    case CloseItem =>
      ReadTag(h, "/li", more);
      ShutHtml(o, Li);
  }

  lemma InPageKeepsTags(o: Open, p: Piece)
    ensures AfterPiece(o, InPage(p)) == AfterPiece(o, p)
  {
  }

  lemma {:induction false} ReadPieces(out: seq<Piece>, more: string)
    requires forall p :: p in out ==> NoTag(TextOf(p))
    ensures AfterText(Html([]), Escaped(Joined(out)) + more) == AfterText(HtmlOf(OpenAfter(out)), more)
  {
    hide AfterText, AfterPiece, Rendered, Escaped, InPage;
    if out == [] {
      QuietIsKept("");
      assert Escaped("") + more == more;
    } else {
      var k := |out| - 1;
      var p := out[k];
      RenderedInPage(p);
      InPageHasNoTag(p);
      ReadPiece(OpenAfter(out[..k]), InPage(p), more);
      InPageKeepsTags(OpenAfter(out[..k]), p);
      if k > 0 {
        var last := Rendered(InPage(p)) + more;
        EscapedConcat(Joined(out[..k]) + "\n", Rendered(p));
        EscapedConcat(Joined(out[..k]), "\n");
        QuietIsKept("\n");
        assert Escaped(Joined(out)) + more == Escaped(Joined(out[..k])) + ("\n" + last);
        ReadPieces(out[..k], "\n" + last);
        ReadText(HtmlOf(OpenAfter(out[..k])), "\n", last);
      } else {
        assert out[..0] == [];
      }
    }
  }

  lemma InPageHasNoTag(p: Piece)
    requires NoTag(TextOf(p))
    ensures NoTag(TextOf(InPage(p)))
  {
    match p
    case H1(t) => EscapedNoTag(t);
    case Item(t, _) => EscapedNoTag(t);
    case Text(t) => EscapedNoTag(t);
    case _ =>
  }

  // ---------- texts without tags of their own ----------

  predicate TagFree(out: seq<Piece>) {
    forall p :: p in out ==> NoTag(TextOf(p))
  }

  lemma {:induction false} WithoutNoTag(s: string)
    requires NoTag(s)
    ensures Without(s) == s
  {
    if s != "" {
      assert s[0] != CLOSE[0];
      WithoutNoTag(s[1..]);
    }
  }

  lemma {:induction false} EndedTagFree(level: nat, end: nat, out: seq<Piece>)
    requires TagFree(out)
    ensures TagFree(Ended(level, end, out))
    decreases level
  {
    if level > end {
      EndedTagFree(level - 1, end, out + [CloseList] + if level - 1 > 0 then [CloseItem] else []);
    }
  }

  lemma {:induction false} StripNoTag(s: string)
    requires NoTag(s)
    ensures NoTag(Lstrip(s))
  {
    if s != "" && IsSpace(s[0]) {
      StripNoTag(s[1..]);
    }
  }

  lemma ItemNoTag(line: string)
    requires NoTag(line)
    ensures NoTag(ItemText(line))
  {
    var k := StarAt(line);
    if k < |line| {
      StripNoTag(line[..k] + line[k + 1..]);
    } else {
      StripNoTag(line);
    }
  }

  lemma ReopenedNoTag(p: Piece)
    requires NoTag(TextOf(p))
    ensures NoTag(TextOf(Reopened(p)))
  {
    WithoutNoTag(TextOf(p));
  }

  lemma LineTagFree(s: State, kind: Kind, line: string)
    requires TagFree(s.out) && NoTag(line)
    ensures TagFree(LineDone(s, kind, line).out)
  {
    hide Ended, ItemText, Reopened, NoTag;
    ItemNoTag(line);
    EndedTagFree(s.level, 0, s.out);
    if kind.Bullet? {
      EndedTagFree(s.level, kind.level, s.out);
    }
    if s.out != [] {
      ReopenedNoTag(s.out[|s.out| - 1]);
    }
    assert NoTag(TextOf(OpenList)) by {
      NothingHasNoTag();
    }
  }

  lemma NothingHasNoTag()
    ensures NoTag("")
  {
  }

  lemma {:induction false} LinesTagFree(lines: seq<string>, n: nat, tab: nat)
    requires n <= |lines| && forall i :: 0 <= i < |lines| ==> NoTag(lines[i])
    ensures TagFree(LinesDone(lines, n, tab).out)
  {
    if n > 0 {
      LinesTagFree(lines, n - 1, tab);
      hide LineDone, KindOf;
      LineTagFree(LinesDone(lines, n - 1, tab), KindOf(lines, n - 1, tab), lines[n - 1]);
    }
  }

  /** For a text with no tags of its own, the tags of the final page, read character by character, are
      properly nested and all closed exactly when no deeper bullet follows a heading while a list is
      open. */
  lemma PageIsBalancedExactly(lines: seq<string>, tab: nat)
    requires forall i :: 0 <= i < |lines| ==> NoTag(lines[i])
    ensures AfterText(Html([]), Escaped(Page(Parsed(lines, tab))))
            == if AnyMisplaced(lines, |lines|, tab) then Broken else Html([])
  {
    hide AfterText, OpenAfter, LinesDone, Ended, Escaped, Joined, AnyMisplaced;
    var s, out := LinesDone(lines, |lines|, tab), Parsed(lines, tab);
    LinesTagFree(lines, |lines|, tab);
    EndedTagFree(s.level, 0, s.out);
    EscapedConcat(Joined(out), "\n");
    QuietIsKept("\n");
    ReadPieces(out, "\n");
    var h := HtmlOf(OpenAfter(out));
    ReadText(h, "\n", "");
    assert "\n" + "" == "\n";
    ReadNothing(h);
    BalancedExactly(lines, tab);
  }

  lemma ReadNothing(h: Html)
    ensures AfterText(h, "") == h
  {
  }
}
