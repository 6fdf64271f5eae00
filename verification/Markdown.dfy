/**
 The list nesting of the markdown renderer (common/markdown.py, `parse_markdown`). The output is kept
 as pieces, each rendered to one string of the source's output list.
 */
module Markdown {

  // ---------- lines ----------

  function Split(text: string): (lines: seq<string>)
    ensures lines != []
  {
    if text == "" then [""]
    else
      var rest := Split(text[..|text| - 1]);
      if text[|text| - 1] == '\n' then rest + [""]
      else rest[..|rest| - 1] + [rest[|rest| - 1] + [text[|text| - 1]]]
  }

  predicate StartsWith(s: string, p: string) {
    p <= s
  }

  predicate IsSpace(c: char) {
    c == ' ' || '\t' <= c <= '\r' || 28 as char <= c <= 31 as char
  }

  function Lstrip(s: string): string {
    if s != "" && IsSpace(s[0]) then Lstrip(s[1..]) else s
  }

  /** Where the first star is, or the length if there is none. */
  function StarAt(s: string): (k: nat)
    ensures k <= |s|
  {
    if s == "" || s[0] == '*' then 0 else 1 + StarAt(s[1..])
  }

  /** How many runs of n blanks fit in s, counted from the left. */
  function Indents(s: string, n: nat): nat {
    if n == 0 then |s| + 1
    else if |s| < n then 0
    else if forall k :: 0 <= k < n ==> s[k] == ' ' then 1 + Indents(s[n..], n)
    else Indents(s[1..], n)
  }

  datatype Kind = Heading | Rule | Bullet(level: nat) | Plain

  function KindOf(lines: seq<string>, i: nat, tab: nat): Kind
    requires i < |lines|
  {
    var line := lines[i];
    if i + 1 < |lines| && StartsWith(lines[i + 1], "===") then Heading
    else if StartsWith(line, "===") then Rule
    else if StartsWith(Lstrip(line), "* ") then Bullet(1 + Indents(line[..StarAt(line)], tab))
    else Plain
  }

  function ItemText(line: string): string {
    var k := StarAt(line);
    Lstrip(if k < |line| then line[..k] + line[k + 1..] else line)
  }

  // ---------- output ----------

  datatype Piece =
    | H1(text: string)
    | OpenList
    | CloseList
    | CloseItem
    | Item(text: string, closed: bool)
    | Text(text: string)

  const CLOSE := "</li>"

  /** Everything but the closing item tags. */
  function Without(s: string): string {
    if s == "" then "" else if StartsWith(s, CLOSE) then Without(s[5..]) else [s[0]] + Without(s[1..])
  }

  function Rendered(p: Piece): string {
    match p
    case H1(t) => "<h1>" + t + "</h1>"
    case OpenList => "<ul>"
    case CloseList => "</ul>"
    case CloseItem => CLOSE
    case Item(t, closed) => "<li>" + t + if closed then CLOSE else ""
    case Text(t) => t
  }

  /** The last piece with its closing item tags taken out. */
  function Reopened(p: Piece): Piece {
    match p
    case H1(t) => H1(Without(t))
    case CloseItem => Text("")
    case Item(t, _) => Item(Without(t), false)
    case Text(t) => Text(Without(t))
    case _ => p
  }

  function Ended(level: nat, end: nat, out: seq<Piece>): seq<Piece>
    decreases level
  {
    if level <= end then out
    else Ended(level - 1, end, out + [CloseList] + if level - 1 > 0 then [CloseItem] else [])
  }

  datatype State = State(level: nat, out: seq<Piece>)

  function LineDone(s: State, kind: Kind, line: string): State {
    match kind
    case Heading => s.(out := s.out + [H1(line)])
    case Rule => s
    case Bullet(n) =>
      if s.level >= n then State(n, Ended(s.level, n, s.out) + [Item(ItemText(line), true)])
      else
        var k := |s.out| - 1;
        var out := if s.level > 0 && s.out != [] then s.out[k := Reopened(s.out[k])] else s.out;
        State(s.level + 1, out + [OpenList, Item(ItemText(line), true)])
    case Plain => State(0, Ended(s.level, 0, s.out) + if |line| > 0 then [Text(line)] else [])
  }

  function LinesDone(lines: seq<string>, n: nat, tab: nat): State
    requires n <= |lines|
  {
    if n == 0 then State(0, [])
    else LineDone(LinesDone(lines, n - 1, tab), KindOf(lines, n - 1, tab), lines[n - 1])
  }

  function Parsed(lines: seq<string>, tab: nat): seq<Piece> {
    var s := LinesDone(lines, |lines|, tab);
    Ended(s.level, 0, s.out)
  }

  /** The pieces with a line break between any two, and one at the end. */
  function Joined(out: seq<Piece>): string {
    if out == [] then ""
    else if |out| == 1 then Rendered(out[0])
    else Joined(out[..|out| - 1]) + "\n" + Rendered(out[|out| - 1])
  }

  function Page(out: seq<Piece>): string {
    Joined(out) + "\n"
  }

  function Escaped(s: string): string {
    if s == "" then ""
    else
      var c := s[|s| - 1];
      Escaped(s[..|s| - 1]) + if c == '&' then "&amp;" else if c == '"' then "&quot;" else [c]
  }

  method EndOutstandingLists(level: nat, end: nat, output: seq<Piece>) returns (o: seq<Piece>)
    ensures o == Ended(level, end, output)
  {
    o := output;
    var l: nat := level;
    while l > end
      invariant Ended(l, end, o) == Ended(level, end, output)
    {
      l := l - 1;
      o := o + [CloseList];
      if l > 0 {
        o := o + [CloseItem];
      }
    }
  }

  method ParseMarkdown(text: string, tabLength: nat) returns (html: string)
    ensures html == Escaped(Page(Parsed(Split(text), tabLength)))
  {
    hide Page, Escaped, Split, Ended, KindOf, ItemText;
    var lines := Split(text);
    var output: seq<Piece> := [];
    var listLevel := 0;
    for i := 0 to |lines|
      invariant State(listLevel, output) == LinesDone(lines, i, tabLength)
    {
      var line := lines[i];
      match KindOf(lines, i, tabLength) {
        case Heading => output := output + [H1(line)];
        case Rule =>
        case Bullet(lineLevel) =>
          if listLevel >= lineLevel {
            output := EndOutstandingLists(listLevel, lineLevel, output);
            listLevel := lineLevel;
          } else {
            listLevel := listLevel + 1;
            if listLevel > 1 && output != [] {
              output := output[|output| - 1 := Reopened(output[|output| - 1])];
            }
            output := output + [OpenList];
          }
          output := output + [Item(ItemText(line), true)];
        case Plain =>
          output := EndOutstandingLists(listLevel, 0, output);
          listLevel := 0;
          if |line| > 0 {
            output := output + [Text(line)];
          }
      }
    }
    output := EndOutstandingLists(listLevel, 0, output);
    html := Escaped(Page(output));
  }

  // ---------- what taking out a closing tag does ----------

  /** No closing tag can straddle the end of s. */
  lemma NoneStraddles(s: string)
    requires s != "" && !StartsWith(s, CLOSE)
    ensures !StartsWith(s + CLOSE, CLOSE)
  {
    var t := s + CLOSE;
    if |s| < 5 {
      assert t[|s|] == '<' && CLOSE[|s|] != '<';
    } else {
      assert t[..5] == s[..5];
    }
  }

  lemma {:induction false} WithoutDropsClose(s: string)
    ensures Without(s + CLOSE) == Without(s)
  {
    var t := s + CLOSE;
    if s == "" {
      assert t == CLOSE;
      assert t[5..] == "";
    } else if StartsWith(s, CLOSE) {
      assert t[5..] == s[5..] + CLOSE;
      WithoutDropsClose(s[5..]);
    } else {
      assert t[1..] == s[1..] + CLOSE;
      NoneStraddles(s);
      WithoutDropsClose(s[1..]);
    }
  }

  lemma Keeps(c: char, s: string)
    requires c != '<' || s == "" || s[0] != '/'
    ensures Without([c] + s) == [c] + Without(s)
  {
    var t := [c] + s;
    assert t[1..] == s;
  }

  lemma WithoutKeepsItemTag(t: string)
    ensures Without("<li>" + t) == "<li>" + Without(t)
  {
    hide Without;
    Keeps('>', t);
    Keeps('i', ">" + t);
    Keeps('l', ['i'] + (">" + t));
    Keeps('<', ['l'] + (['i'] + (">" + t)));
    assert "<li>" + t == ['<'] + (['l'] + (['i'] + (">" + t)));
    assert ">" + t == ['>'] + t;
    assert ['<'] + (['l'] + (['i'] + (['>'] + Without(t)))) == "<li>" + Without(t);
  }

  lemma RenderedItem(t: string, closed: bool)
    ensures Rendered(Item(t, closed)) == if closed then "<li>" + t + CLOSE else "<li>" + t
  {
    if !closed {
      assert "<li>" + t + "" == "<li>" + t;
    }
  }

  const END := "</h1>"

  lemma NoneStraddlesEnd(s: string)
    requires s != "" && !StartsWith(s, CLOSE)
    ensures !StartsWith(s + END, CLOSE)
  {
    var t := s + END;
    if |s| < 5 {
      assert t[|s|] == '<' && CLOSE[|s|] != '<';
    } else {
      assert t[..5] == s[..5];
    }
  }

  lemma EndIsKept()
    ensures Without(END) == END
  {
    assert END[2] != CLOSE[2];
    assert END[1..] == "/h1>" && END[1..][1..] == "h1>" && END[1..][1..][1..] == "1>";
    assert END[1..][1..][1..][1..] == ">" && END[1..][1..][1..][1..][1..] == "";
  }

  lemma {:induction false} WithoutKeepsEnd(s: string)
    ensures Without(s + END) == Without(s) + END
  {
    var t := s + END;
    if s == "" {
      assert t == END;
      EndIsKept();
    } else if StartsWith(s, CLOSE) {
      assert t[5..] == s[5..] + END;
      WithoutKeepsEnd(s[5..]);
    } else {
      assert t[1..] == s[1..] + END;
      NoneStraddlesEnd(s);
      WithoutKeepsEnd(s[1..]);
    }
  }

  lemma WithoutKeepsHeadingTag(t: string)
    ensures Without("<h1>" + t) == "<h1>" + Without(t)
  {
    hide Without;
    Keeps('>', t);
    Keeps('1', ">" + t);
    Keeps('h', ['1'] + (">" + t));
    Keeps('<', ['h'] + (['1'] + (">" + t)));
    assert "<h1>" + t == ['<'] + (['h'] + (['1'] + (">" + t)));
    assert ">" + t == ['>'] + t;
    assert ['<'] + (['h'] + (['1'] + (['>'] + Without(t)))) == "<h1>" + Without(t);
  }

  /** On the strings the source works on, rewriting the last piece removes the closing item tags; it is an
      item or a heading whenever a list is open. */
  lemma ReopenedIsReplaced(p: Piece)
    requires p.H1? || p.Item?
    ensures Rendered(Reopened(p)) == Without(Rendered(p))
  {
    hide Without;
    match p
    case H1(t) =>
      WithoutKeepsHeadingTag(t);
      WithoutKeepsEnd("<h1>" + t);
    case Item(t, closed) =>
      hide Rendered;
      RenderedItem(t, closed);
      RenderedItem(Without(t), false);
      WithoutKeepsItemTag(t);
      WithoutDropsClose("<li>" + t);
  }

  // ---------- tags ----------

  datatype Tag = Ul | Li

  /** The tags open after some pieces, outermost first, or a failure when a tag is closed that is not
      the innermost open one. */
  datatype Open = Open(tags: seq<Tag>) | Failed

  function Shut(o: Open, tag: Tag): Open {
    if o.Open? && o.tags != [] && o.tags[|o.tags| - 1] == tag then Open(o.tags[..|o.tags| - 1]) else Failed
  }

  function Opened(o: Open, tag: Tag): Open {
    if o.Open? then Open(o.tags + [tag]) else Failed
  }

  function AfterPiece(o: Open, p: Piece): Open {
    match p
    case OpenList => Opened(o, Ul)
    case CloseList => Shut(o, Ul)
    case CloseItem => Shut(o, Li)
    case Item(_, closed) => if closed then o else Opened(o, Li)
    case _ => o
  }

  function OpenAfter(out: seq<Piece>): Open {
    if out == [] then Open([]) else AfterPiece(OpenAfter(out[..|out| - 1]), out[|out| - 1])
  }

  /** The tags of nested lists: each is inside an item of the one around it, or directly inside that
      list when it was opened right after a heading. */
  function Nested(inside: seq<bool>): seq<Tag> {
    if inside == [] then []
    else Nested(inside[..|inside| - 1]) + if inside[|inside| - 1] then [Li, Ul] else [Ul]
  }

  lemma OpenAppend(out: seq<Piece>, p: Piece)
    ensures OpenAfter(out + [p]) == AfterPiece(OpenAfter(out), p)
  {
    assert (out + [p])[..|out|] == out;
  }

  // ---------- where nesting goes wrong ----------

  /** A deeper bullet while a list is open and the last thing written is a heading. */
  predicate Misplaced(s: State, kind: Kind) {
    kind.Bullet? && 0 < s.level < kind.level && s.out != [] && s.out[|s.out| - 1].H1?
  }

  predicate AnyMisplaced(lines: seq<string>, n: nat, tab: nat)
    requires n <= |lines|
  {
    n > 0 && (AnyMisplaced(lines, n - 1, tab) || Misplaced(LinesDone(lines, n - 1, tab), KindOf(lines, n - 1, tab)))
  }

  /** Every list from the given level on, but the outermost, is inside an item. */
  predicate Inside(flags: seq<bool>, from: nat) {
    forall k :: from <= k < |flags| && k > 0 ==> flags[k]
  }

  /** Whether closing has failed, and for every open list whether it is inside an item. */
  datatype Track = Track(failed: bool, flags: seq<bool>)

  function Tracked(t: Track, s: State, kind: Kind): Track {
    match kind
    case Bullet(n) =>
      if s.level >= n && n <= |t.flags| then Track(t.failed || !Inside(t.flags, n), t.flags[..n])
      else Track(t.failed, t.flags + [s.level > 0 && !Misplaced(s, kind)])
    case Plain => Track(t.failed || !Inside(t.flags, 0), [])
    case _ => t
  }

  function TrackOf(lines: seq<string>, n: nat, tab: nat): Track
    requires n <= |lines|
  {
    if n == 0 then Track(false, [])
    else Tracked(TrackOf(lines, n - 1, tab), LinesDone(lines, n - 1, tab), KindOf(lines, n - 1, tab))
  }

  function Expected(t: Track): Open {
    if t.failed then Failed else Open(Nested(t.flags))
  }

  predicate Follows(t: Track, s: State) {
    OpenAfter(s.out) == Expected(t) && |t.flags| == s.level && (s.level > 0 ==> !t.flags[0])
    && (s.level > 0 ==> s.out != [] && (var p := s.out[|s.out| - 1]; p.H1? || (p.Item? && p.closed)))
  }

  /** Closing the innermost list and the item around it. */
  lemma CloseOne(out: seq<Piece>, t: Track)
    requires OpenAfter(out) == Expected(t) && t.flags != [] && !t.flags[0]
    ensures var k := |t.flags| - 1;
            OpenAfter(out + [CloseList] + if k > 0 then [CloseItem] else [])
            == Expected(Track(t.failed || (k > 0 && !t.flags[k]), t.flags[..k]))
  {
    var k := |t.flags| - 1;
    OpenAppend(out, CloseList);
    OpenAppend(out + [CloseList], CloseItem);
    assert out + [CloseList] + [] == out + [CloseList];
    if k > 0 {
      NestedEnds(t.flags[..k]);
    }
  }

  lemma NestedEnds(flags: seq<bool>)
    requires flags != []
    ensures var n := Nested(flags); n != [] && n[|n| - 1] == Ul
  {
  }

  lemma {:induction false} EndedTags(level: nat, end: nat, out: seq<Piece>, t: Track)
    requires OpenAfter(out) == Expected(t) && |t.flags| == level && (level > 0 ==> !t.flags[0]) && end <= level
    ensures OpenAfter(Ended(level, end, out)) == Expected(Track(t.failed || !Inside(t.flags, end), t.flags[..end]))
    decreases level
  {
    hide Nested, OpenAfter;
    if level == end {
      assert t.flags[..end] == t.flags;
    } else {
      CloseOne(out, t);
      var k := level - 1;
      var u := Track(t.failed || (k > 0 && !t.flags[k]), t.flags[..k]);
      EndedTags(k, end, out + [CloseList] + if k > 0 then [CloseItem] else [], u);
      assert u.flags[..end] == t.flags[..end];
      assert Inside(t.flags, end) <==> Inside(u.flags, end) && (k > 0 ==> t.flags[k]);
    }
  }

  // ---------- the main result ----------

  lemma ReopenLast(out: seq<Piece>)
    requires out != []
    requires var p := out[|out| - 1]; p.H1? || (p.Item? && p.closed)
    ensures var k := |out| - 1;
            OpenAfter(out[k := Reopened(out[k])])
            == if out[k].H1? then OpenAfter(out) else Opened(OpenAfter(out), Li)
  {
    var k := |out| - 1;
    assert out == out[..k] + [out[k]];
    assert out[k := Reopened(out[k])] == out[..k] + [Reopened(out[k])];
    OpenAppend(out[..k], out[k]);
    OpenAppend(out[..k], Reopened(out[k]));
  }

  /** Reopening the last item and opening a list inside it. */
  lemma Deepens(out: seq<Piece>, t: Track, item: string)
    requires OpenAfter(out) == Expected(t) && out != []
    requires var p := out[|out| - 1]; p.H1? || (p.Item? && p.closed)
    ensures var k := |out| - 1;
            OpenAfter(out[k := Reopened(out[k])] + [OpenList, Item(item, true)])
            == Expected(Track(t.failed, t.flags + [!out[k].H1?]))
  {
    hide OpenAfter, Nested, Reopened;
    var k := |out| - 1;
    ReopenLast(out);
    TwoMore(out[k := Reopened(out[k])], item);
    FlagMore(t.flags, !out[k].H1?);
    assert Nested(t.flags) + [Li] + [Ul] == Nested(t.flags) + [Li, Ul];
  }

  lemma TwoMore(out: seq<Piece>, item: string)
    ensures OpenAfter(out + [OpenList, Item(item, true)]) == Opened(OpenAfter(out), Ul)
  {
    hide OpenAfter;
    OpenAppend(out, OpenList);
    OpenAppend(out + [OpenList], Item(item, true));
    assert out + [OpenList, Item(item, true)] == out + [OpenList] + [Item(item, true)];
  }

  lemma FlagMore(flags: seq<bool>, inside: bool)
    ensures Nested(flags + [inside]) == Nested(flags) + if inside then [Li, Ul] else [Ul]
  {
    assert (flags + [inside])[..|flags|] == flags;
  }

  lemma FirstList(out: seq<Piece>, t: Track, item: string)
    requires OpenAfter(out) == Expected(t) && t.flags == []
    ensures OpenAfter(out + [OpenList, Item(item, true)]) == Expected(Track(t.failed, [false]))
  {
    hide OpenAfter;
    TwoMore(out, item);
    FlagMore([], false);
    assert [] + [false] == [false];
  }

  lemma LineFollows(t: Track, s: State, kind: Kind, line: string)
    requires Follows(t, s) && (kind.Bullet? ==> kind.level > 0)
    ensures Follows(Tracked(t, s, kind), LineDone(s, kind, line))
  {
    hide OpenAfter, Nested, Ended, Reopened;
    match kind
    case Heading => OpenAppend(s.out, H1(line));
    case Rule =>
    case Bullet(n) =>
      if s.level >= n {
        EndedTags(s.level, n, s.out, t);
        OpenAppend(Ended(s.level, n, s.out), Item(ItemText(line), true));
      } else if s.level == 0 {
        FirstList(s.out, t, ItemText(line));
        assert t.flags + [false] == [false];
      } else {
        Deepens(s.out, t, ItemText(line));
      }
    case Plain =>
      EndedTags(s.level, 0, s.out, t);
      OpenAppend(Ended(s.level, 0, s.out), Text(line));
      assert Ended(s.level, 0, s.out) + [] == Ended(s.level, 0, s.out);
  }

  lemma {:induction false} TrackFollows(lines: seq<string>, n: nat, tab: nat)
    requires n <= |lines|
    ensures Follows(TrackOf(lines, n, tab), LinesDone(lines, n, tab))
  {
    hide Follows, Tracked, LineDone;
    if n == 0 {
      StartFollows();
    } else {
      TrackFollows(lines, n - 1, tab);
      LineFollows(TrackOf(lines, n - 1, tab), LinesDone(lines, n - 1, tab), KindOf(lines, n - 1, tab), lines[n - 1]);
    }
  }

  lemma StartFollows()
    ensures Follows(Track(false, []), State(0, []))
  {
  }

  /** A list opened in the wrong place shows in the end, open or already closed. */
  lemma {:induction false} TrackRemembers(lines: seq<string>, n: nat, tab: nat)
    requires n <= |lines|
    ensures var t := TrackOf(lines, n, tab);
            t.failed || !Inside(t.flags, 0) <==> AnyMisplaced(lines, n, tab)
  {
    hide LinesDone, KindOf, Tracked;
    if n > 0 {
      TrackRemembers(lines, n - 1, tab);
      TrackFollows(lines, n - 1, tab);
      BulletsHaveLevels(lines, n - 1, tab);
      TrackedRemembers(TrackOf(lines, n - 1, tab), LinesDone(lines, n - 1, tab), KindOf(lines, n - 1, tab));
    }
  }

  lemma BulletsHaveLevels(lines: seq<string>, i: nat, tab: nat)
    requires i < |lines|
    ensures KindOf(lines, i, tab).Bullet? ==> KindOf(lines, i, tab).level > 0
  {
  }

  lemma InsideParts(flags: seq<bool>, n: nat)
    requires n <= |flags|
    ensures Inside(flags, 0) <==> Inside(flags, n) && Inside(flags[..n], 0)
  {
    if Inside(flags, n) && Inside(flags[..n], 0) {
      forall k | 0 <= k < |flags| && k > 0
        ensures flags[k]
      {
        if k < n {
          assert flags[..n][k];
        }
      }
    }
  }

  lemma InsideMore(flags: seq<bool>, b: bool)
    ensures Inside(flags + [b], 0) <==> Inside(flags, 0) && (flags != [] ==> b)
  {
    var more := flags + [b];
    if Inside(more, 0) {
      assert flags != [] ==> more[|flags|];
      forall k | 0 <= k < |flags| && k > 0
        ensures flags[k]
      {
        assert more[k];
      }
    }
  }

  lemma TrackedRemembers(t: Track, s: State, kind: Kind)
    requires Follows(t, s) && (kind.Bullet? ==> kind.level > 0)
    ensures var u := Tracked(t, s, kind);
            u.failed || !Inside(u.flags, 0) <==> t.failed || !Inside(t.flags, 0) || Misplaced(s, kind)
  {
    hide OpenAfter, Expected, Inside;
    assert Inside([], 0) by {
      NothingOutside();
    }
    match kind
    case Bullet(n) =>
      if s.level >= n {
        InsideParts(t.flags, n);
      } else {
        InsideMore(t.flags, s.level > 0 && !Misplaced(s, kind));
      }
    case _ =>
  }

  lemma NothingOutside()
    ensures Inside([], 0)
  {
  }

  /** The tags of the whole output are properly nested and all closed exactly when no deeper bullet
      follows a heading while a list is open. */
  lemma BalancedExactly(lines: seq<string>, tab: nat)
    ensures OpenAfter(Parsed(lines, tab)) == if AnyMisplaced(lines, |lines|, tab) then Failed else Open([])
  {
    hide OpenAfter, LinesDone, AnyMisplaced, TrackOf, Ended;
    var s := LinesDone(lines, |lines|, tab);
    var t := TrackOf(lines, |lines|, tab);
    TrackFollows(lines, |lines|, tab);
    TrackRemembers(lines, |lines|, tab);
    EndedTags(s.level, 0, s.out, t);
  }

  // ---------- documents without such a heading ----------

  /** No heading line while a list is open. */
  predicate HeadingsOutside(lines: seq<string>, n: nat, tab: nat)
    requires n <= |lines|
  {
    n > 0 ==> HeadingsOutside(lines, n - 1, tab)
              && (KindOf(lines, n - 1, tab) == Heading ==> LinesDone(lines, n - 1, tab).level == 0)
  }

  /** Then the open tags after every line are exactly those of `level` lists, each inside an item of
      the one around it. */
  function Levels(level: nat): seq<Tag> {
    if level == 0 then [] else if level == 1 then [Ul] else Levels(level - 1) + [Li, Ul]
  }

  lemma {:induction false} NestedLevels(flags: seq<bool>)
    requires Inside(flags, 0) && (flags != [] ==> !flags[0])
    ensures Nested(flags) == Levels(|flags|)
  {
    if |flags| > 1 {
      var k := |flags| - 1;
      InsideParts(flags, k);
      assert flags[k];
      NestedLevels(flags[..k]);
    } else if |flags| == 1 {
      assert Nested(flags[..0]) == [];
    }
  }

  /** After a heading the lists are all closed until the next bullet. */
  predicate HeadingLast(s: State) {
    s.level > 0 && s.out != [] && s.out[|s.out| - 1].H1?
  }

  lemma {:induction false} NoneMisplaced(lines: seq<string>, n: nat, tab: nat)
    requires n <= |lines| && HeadingsOutside(lines, n, tab)
    ensures !AnyMisplaced(lines, n, tab) && !HeadingLast(LinesDone(lines, n, tab))
  {
    hide KindOf;
    if n > 0 {
      NoneMisplaced(lines, n - 1, tab);
      hide LinesDone, AnyMisplaced, HeadingsOutside;
      LastUnfolds(lines, n, tab);
      NotHeadingLast(LinesDone(lines, n - 1, tab), KindOf(lines, n - 1, tab), lines[n - 1]);
    }
  }

  lemma LastUnfolds(lines: seq<string>, n: nat, tab: nat)
    requires 0 < n <= |lines|
    ensures LinesDone(lines, n, tab) == LineDone(LinesDone(lines, n - 1, tab), KindOf(lines, n - 1, tab), lines[n - 1])
    ensures AnyMisplaced(lines, n, tab) <==>
      AnyMisplaced(lines, n - 1, tab) || Misplaced(LinesDone(lines, n - 1, tab), KindOf(lines, n - 1, tab))
    ensures HeadingsOutside(lines, n, tab) ==>
      KindOf(lines, n - 1, tab) == Heading ==> LinesDone(lines, n - 1, tab).level == 0
  {
  }

  lemma NotHeadingLast(s: State, kind: Kind, line: string)
    requires !HeadingLast(s) && (kind == Heading ==> s.level == 0)
    ensures !HeadingLast(LineDone(s, kind, line)) && !Misplaced(s, kind)
  {
    hide Ended, ItemText;
  }

  /** For any text with no heading line while a list is open the tags are properly nested and all
      closed, and after every line `level` lists are open. */
  lemma BalancedWithoutInnerHeadings(lines: seq<string>, tab: nat, n: nat)
    requires HeadingsOutside(lines, |lines|, tab) && n <= |lines|
    ensures OpenAfter(Parsed(lines, tab)) == Open([])
    ensures var s := LinesDone(lines, n, tab); OpenAfter(s.out) == Open(Levels(s.level))
  {
    hide OpenAfter, LinesDone, AnyMisplaced, TrackOf, Nested, Levels, Parsed, HeadingsOutside;
    NoneMisplaced(lines, |lines|, tab);
    BalancedExactly(lines, tab);
    OutsideBefore(lines, |lines|, n, tab);
    NoneMisplaced(lines, n, tab);
    TrackFollows(lines, n, tab);
    TrackRemembers(lines, n, tab);
    NestedLevels(TrackOf(lines, n, tab).flags);
  }

  lemma OutsideBefore(lines: seq<string>, m: nat, n: nat, tab: nat)
    requires n <= m <= |lines| && HeadingsOutside(lines, m, tab)
    ensures HeadingsOutside(lines, n, tab)
  {
    if n < m {
      OutsideBefore(lines, m - 1, n, tab);
    }
  }

  // ---------- a document that breaks the nesting ----------

  const BROKEN := ["* a", "b", "===", "  * c"]

  lemma BrokenKinds()
    ensures KindOf(BROKEN, 0, 2) == Bullet(1) && KindOf(BROKEN, 1, 2) == Heading
    ensures KindOf(BROKEN, 2, 2) == Rule && KindOf(BROKEN, 3, 2) == Bullet(2)
  {
    BrokenBullets();
    assert !StartsWith(BROKEN[1], "===") by {
      assert BROKEN[1][0] == 'b';
    }
    assert BROKEN[3][0] == ' ';
    assert BROKEN[0][0] == '*';
  }

  lemma BrokenBullets()
    ensures StartsWith(Lstrip("* a"), "* ") && 1 + Indents("* a"[..StarAt("* a")], 2) == 1
    ensures StartsWith(Lstrip("  * c"), "* ") && 1 + Indents("  * c"[..StarAt("  * c")], 2) == 2
  {
    assert "* a"[..0] == "";
    assert "  * c"[1..] == " * c";
    assert " * c"[1..] == "* c";
    assert Lstrip("  * c") == "* c";
    assert StarAt("* c") == 0 && StarAt(" * c") == 1 && StarAt("  * c") == 2;
    assert "  * c"[..2] == "  ";
    assert "  "[2..] == "";
    assert Indents("  ", 2) == 1 + Indents("", 2);
  }

  /** A heading between a bullet and a deeper one: the list of the deeper one opens outside any item,
      and the item tag closed after it was never opened. */
  lemma HeadingBreaksNesting()
    ensures OpenAfter(Parsed(BROKEN, 2)) == Failed
  {
    hide KindOf, Parsed, OpenAfter, ItemText;
    BrokenKinds();
    var s1 := LinesDone(BROKEN, 1, 2);
    assert s1.level == 1;
    var s2 := LinesDone(BROKEN, 2, 2);
    assert s2 == s1.(out := s1.out + [H1("b")]);
    var s3 := LinesDone(BROKEN, 3, 2);
    assert s3 == s2;
    assert Misplaced(s3, Bullet(2));
    assert AnyMisplaced(BROKEN, 4, 2);
    BalancedExactly(BROKEN, 2);
  }
}
