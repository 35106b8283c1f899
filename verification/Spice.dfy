/** Reading a SPICE deck: continuation lines and .subckt nesting (app/modules/blocks/spice.py). */
module Spice {
  import opened Text

  // ----- physical lines ----------------------------------------------------------------------------

  /** `text.replace("\r\n", "\n").split("\n")` */
  function Lines(text: string): (lines: seq<string>)
    ensures lines != []
  {
    if text == "" then [""]
    else if text[0] == '\n' then [""] + Lines(text[1..])
    else if text[0] == '\r' && |text| > 1 && text[1] == '\n' then Lines(text[1..])
    else
      var rest := Lines(text[1..]);
      [[text[0]] + rest[0]] + rest[1..]
  }

  function Unlines(lines: seq<string>): string
    requires lines != []
  {
    if |lines| == 1 then lines[0] else lines[0] + "\n" + Unlines(lines[1..])
  }

  predicate OneLine(s: string) {
    '\n' !in s && '\r' !in s
  }

  lemma {:induction false} LinesOfText(lines: seq<string>)
    requires lines != [] && forall i :: 0 <= i < |lines| ==> OneLine(lines[i])
    ensures Lines(Unlines(lines)) == lines
    decreases |lines|, |lines[0]|
  {
    var s := lines[0];
    if s == "" {
      if |lines| > 1 {
        LinesOfText(lines[1..]);
        assert Unlines(lines) == ['\n'] + Unlines(lines[1..]);
      }
    } else {
      var shorter := [s[1..]] + lines[1..];
      assert shorter[1..] == lines[1..] && OneLine(shorter[0]);
      LinesOfText(shorter);
      var text := Unlines(lines);
      assert text == [s[0]] + Unlines(shorter) && text[1..] == Unlines(shorter);
      assert [s[0]] + s[1..] == s;
      assert s[0] in s && lines == [[s[0]] + shorter[0]] + shorter[1..];
    }
  }

  /** An inline comment opens at a space before `;`, or before a `$` that a space follows. */
  predicate MarkAt(s: string, i: nat) {
    && i + 1 < |s| && IsSpace(s[i])
    && (s[i + 1] == ';' || (s[i + 1] == '$' && i + 2 < |s| && IsSpace(s[i + 2])))
  }

  function CommentFrom(s: string, i: nat): (j: nat)
    requires i <= |s|
    ensures i <= j <= |s|
    ensures forall k :: i <= k < j ==> !MarkAt(s, k)
    ensures j < |s| ==> MarkAt(s, j)
    decreases |s| - i
  {
    if i == |s| || MarkAt(s, i) then i else CommentFrom(s, i + 1)
  }

  /** One physical line without surrounding space and inline comment; empty if it carries nothing. */
  function Clean(line: string): string {
    var stripped := Strip(line);
    if stripped == "" || stripped[0] == '*' then "" else Strip(stripped[..CommentFrom(stripped, 0)])
  }

  /** One cleaned line added: dropped when empty, joined onto the line it continues, or a line of its own. */
  function Joined(out: seq<string>, s: string): seq<string> {
    if s == "" then out
    else if s[0] == '+' && out != [] then out[|out| - 1 := out[|out| - 1] + " " + Strip(s[1..])]
    else out + [s]
  }

  /** The logical lines of the physical lines below the title. */
  function Folded(raw: seq<string>): seq<string> {
    if raw == [] then [] else Joined(Folded(raw[..|raw| - 1]), Clean(raw[|raw| - 1]))
  }

  lemma FoldedSnoc(raw: seq<string>, line: string)
    ensures Folded(raw + [line]) == Joined(Folded(raw), Clean(line))
  {
    assert (raw + [line])[..|raw|] == raw;
  }

  lemma FoldedNext(raw: seq<string>, i: nat)
    requires i < |raw|
    ensures Folded(raw[..i + 1]) == Joined(Folded(raw[..i]), Clean(raw[i]))
  {
    assert raw[..i + 1][..i] == raw[..i];
  }

  /** The body of the loop over physical lines. */
  method AddLine(lines: seq<string>, line: string) returns (out: seq<string>)
    ensures out == Joined(lines, Clean(line))
  {
    out := lines;
    var stripped := Strip(line);
    if stripped == "" || stripped[0] == '*' { return; }
    KeptLineIsNotEmpty(stripped);
    stripped := Strip(stripped[..CommentFrom(stripped, 0)]);
    if stripped[0] == '+' && out != [] {
      out := out[|out| - 1 := out[|out| - 1] + " " + Strip(stripped[1..])];
    } else {
      out := out + [stripped];
    }
  }

  method Fold(raw: seq<string>) returns (out: seq<string>)
    ensures out == Folded(raw)
  {
    out := [];
    assert raw[..0] == [];
    for i := 0 to |raw|
      invariant out == Folded(raw[..i])
    {
      FoldedNext(raw, i);
      out := AddLine(out, raw[i]);
    }
    assert raw[..|raw|] == raw;
  }

  method LogicalLines(netlist: string) returns (out: seq<string>)
    ensures out == Folded(Lines(netlist)[1..])
  {
    var lines := Lines(netlist);
    out := Fold(lines[1..]);
  }

  lemma KeptLineIsNotEmpty(s: string)
    requires Trimmed(s) && s != ""
    ensures Strip(s[..CommentFrom(s, 0)]) != ""
  {
    assert !MarkAt(s, 0);
    assert !IsSpace(s[..CommentFrom(s, 0)][0]);
  }

  // ----- writing a deck ----------------------------------------------------------------------------

  /** A word of a card: what no layout can mistake for a comment. */
  predicate IsToken(t: string) {
    t != "" && (forall i :: 0 <= i < |t| ==> !IsSpace(t[i])) && t[0] != ';' && t != "$"
  }

  predicate AreTokens(tokens: seq<string>) {
    tokens != [] && forall i :: 0 <= i < |tokens| ==> IsToken(tokens[i])
  }

  function Spaced(tokens: seq<string>): string
    requires tokens != []
  {
    if |tokens| == 1 then tokens[0] else tokens[0] + " " + Spaced(tokens[1..])
  }

  /** What may follow the words on a line: blanks, or an inline comment. */
  datatype Ending = Blanks(text: string) | Semicolon(gap: string, text: string) | Dollar(gap: string, text: string)
  {
    predicate Valid() {
      match this
      case Blanks(text) => Blank(text)
      case Semicolon(gap, _) => gap != "" && Blank(gap)
      case Dollar(gap, text) => gap != "" && Blank(gap) && !Blank(text)
    }

    function Write(): string {
      match this
      case Blanks(text) => text
      case Semicolon(gap, text) => gap + ";" + text
      case Dollar(gap, text) => gap + "$ " + text
    }
  }

  /** One physical line: nothing, a card's first words, or more words of the card before it. */
  datatype Row =
    | Nothing(text: string)
    | Starts(pad: string, words: seq<string>, ending: Ending)
    | Continues(pad: string, gap: string, words: seq<string>, ending: Ending)
  {
    predicate Valid() {
      match this
      case Nothing(text) => Strip(text) == "" || Strip(text)[0] == '*'
      case Starts(pad, words, ending) =>
        Blank(pad) && AreTokens(words) && words[0][0] !in "*+" && ending.Valid()
      case Continues(pad, gap, words, ending) => Blank(pad) && Blank(gap) && AreTokens(words) && ending.Valid()
    }

    function Write(): string
      requires Valid()
    {
      match this
      case Nothing(text) => text
      case Starts(pad, words, ending) => pad + Spaced(words) + ending.Write()
      case Continues(pad, gap, words, ending) => pad + ("+" + gap + Spaced(words)) + ending.Write()
    }
  }

  predicate ValidRows(rows: seq<Row>) {
    forall i :: 0 <= i < |rows| ==> rows[i].Valid() && OneLine(rows[i].Write())
  }

  function With(cards: seq<seq<string>>, row: Row): seq<seq<string>> {
    match row
    case Nothing(_) => cards
    case Starts(_, words, _) => cards + [words]
    case Continues(_, _, words, _) =>
      if cards == [] then [] else cards[|cards| - 1 := cards[|cards| - 1] + words]
  }

  /** The cards a layout spells out. */
  function Cards(rows: seq<Row>): seq<seq<string>> {
    if rows == [] then [] else With(Cards(rows[..|rows| - 1]), rows[|rows| - 1])
  }

  /** Every continuation has a card to continue. */
  predicate Anchored(rows: seq<Row>) {
    rows == [] ||
    var init := rows[..|rows| - 1];
    Anchored(init) && (rows[|rows| - 1].Continues? ==> Cards(init) != [])
  }

  function Written(rows: seq<Row>): seq<string>
    requires ValidRows(rows)
  {
    seq(|rows|, i requires 0 <= i < |rows| => rows[i].Write())
  }

  lemma WrittenSnoc(rows: seq<Row>)
    requires rows != [] && ValidRows(rows)
    ensures ValidRows(rows[..|rows| - 1])
    ensures Written(rows) == Written(rows[..|rows| - 1]) + [rows[|rows| - 1].Write()]
  {
  }

  predicate AreCards(cards: seq<seq<string>>) {
    forall i :: 0 <= i < |cards| ==> cards[i] != []
  }

  function SpacedCards(cards: seq<seq<string>>): seq<string>
    requires AreCards(cards)
  {
    seq(|cards|, i requires 0 <= i < |cards| => Spaced(cards[i]))
  }

  // ----- one line ----------------------------------------------------------------------------------

  /** Stripping finds the trimmed middle. */
  lemma StripFinds(pad: string, body: string, rest: string)
    requires Blank(pad) && Blank(rest) && body != "" && Trimmed(body)
    ensures Strip(pad + body + rest) == body
  {
    var s := pad + body + rest;
    var i := SkipSpaces(s, 0);
    var j := SkipSpacesBack(s, i, |s|);
    assert !IsSpace(s[|pad|]) && !IsSpace(s[|pad| + |body| - 1]) by {
      assert s[|pad|] == body[0] && s[|pad| + |body| - 1] == body[|body| - 1];
    }
    assert forall k :: 0 <= k < |pad| ==> s[k] == pad[k];
    assert forall k :: |pad| + |body| <= k < |s| ==> s[k] == rest[k - |pad| - |body|];
    assert i == |pad| && j == |pad| + |body|;
    assert s[i..j] == body;
  }

  lemma StripEnd(body: string, rest: string)
    requires Blank(rest) && body != "" && Trimmed(body)
    ensures Strip(body + rest) == body
  {
    StripFinds("", body, rest);
    assert "" + body == body;
  }

  lemma StripStart(pad: string, body: string)
    requires Blank(pad) && body != "" && Trimmed(body)
    ensures Strip(pad + body) == body
  {
    StripFinds(pad, body, "");
    assert pad + body + "" == pad + body;
  }

  lemma TakeAcross(a: string, b: string, c: string, k: nat)
    requires k <= |b|
    ensures (a + (b + c))[..|a| + k] == a + b[..k]
  {
  }

  lemma Regroup(a: string, b: string, c: string, d: string, e: string)
    ensures a + b + (c + (d + e)) == a + (b + (c + d)) + e
  {
  }

  lemma DropMark(mark: char, a: string, b: string)
    ensures ([mark] + a + b)[1..] == a + b
  {
  }

  lemma {:induction false} SpacedIsTrimmed(tokens: seq<string>)
    requires AreTokens(tokens)
    ensures Spaced(tokens) != "" && Trimmed(Spaced(tokens)) && Spaced(tokens)[0] == tokens[0][0]
  {
    if |tokens| > 1 { SpacedIsTrimmed(tokens[1..]); }
  }

  /** Nothing in `s` opens a comment, whatever comes after it. */
  predicate Quiet(s: string) {
    forall i :: 0 <= i < |s| && IsSpace(s[i]) ==> QuietAt(s, i)
  }

  predicate QuietAt(s: string, i: nat) {
    && i + 1 < |s| && s[i + 1] != ';'
    && (s[i + 1] == '$' ==> i + 2 < |s| && !IsSpace(s[i + 2]))
  }

  lemma QuietHasNoMark(s: string, rest: string, i: nat)
    requires Quiet(s) && i < |s|
    ensures !MarkAt(s + rest, i)
  {
    if IsSpace(s[i]) { assert QuietAt(s, i); }
  }

  lemma QuietCut(s: string, rest: string)
    requires Quiet(s)
    ensures CommentFrom(s + rest, 0) >= |s|
  {
    var at := CommentFrom(s + rest, 0);
    if at < |s| { QuietHasNoMark(s, rest, at); }
  }

  /** Putting a space, or more quiet space, in front of words keeps them quiet. */
  lemma QuietAfterSpace(head: string, gap: string, s: string)
    requires Quiet(head) && Blank(gap) && Quiet(s) && s != "" && !IsSpace(s[0])
    requires s[0] != ';' && (s[0] == '$' ==> |s| > 1 && !IsSpace(s[1]))
    ensures Quiet(head + gap + s)
  {
    var all, n := head + gap + s, |head| + |gap|;
    forall i | 0 <= i < |all| && IsSpace(all[i]) ensures QuietAt(all, i) {
      if i < |head| {
        assert IsSpace(head[i]) && QuietAt(head, i);
      } else if i >= n {
        assert IsSpace(s[i - n]) && QuietAt(s, i - n);
      } else if i + 1 < n {
        assert all[i + 1] == gap[i + 1 - |head|];
      }
    }
  }

  lemma {:induction false} WordsAreQuiet(tokens: seq<string>)
    requires AreTokens(tokens)
    ensures Quiet(Spaced(tokens))
    ensures Spaced(tokens)[0] == '$' ==> |Spaced(tokens)| > 1 && !IsSpace(Spaced(tokens)[1])
  {
    var t := tokens[0];
    assert IsToken(t);
    if |tokens| > 1 {
      var tail := tokens[1..];
      assert IsToken(tail[0]);
      WordsAreQuiet(tail);
      SpacedIsTrimmed(tail);
      QuietAfterSpace(t, " ", Spaced(tail));
    }
  }

  /** A line's words survive: the ending, with any comment it holds, is cut off. */
  lemma CleanFindsBody(pad: string, body: string, ending: Ending)
    requires Blank(pad) && body != "" && Trimmed(body) && body[0] != '*' && Quiet(body) && ending.Valid()
    ensures Clean(pad + body + ending.Write()) == body
  {
    match ending
    case Blanks(text) => BlanksAreCut(pad, body, text);
    case Semicolon(gap, text) => SemicolonIsCut(pad, body, gap, text);
    case Dollar(gap, text) => DollarIsCut(pad, body, gap, text);
  }

  lemma BlanksAreCut(pad: string, body: string, text: string)
    requires Blank(pad) && body != "" && Trimmed(body) && body[0] != '*' && Quiet(body) && Blank(text)
    ensures Clean(pad + body + text) == body
  {
    StripFinds(pad, body, text);
    QuietCut(body, "");
    assert body + "" == body && body[..|body|] == body;
  }

  lemma SemicolonIsCut(pad: string, body: string, gap: string, text: string)
    requires Blank(pad) && body != "" && Trimmed(body) && body[0] != '*' && Quiet(body) && gap != "" && Blank(gap)
    ensures Clean(pad + body + (gap + ";" + text)) == body
  {
    CommentIsCut(pad, body, gap, ";" + text, 0);
    assert gap + (";" + text) == gap + ";" + text;
  }

  lemma DollarIsCut(pad: string, body: string, gap: string, text: string)
    requires Blank(pad) && body != "" && Trimmed(body) && body[0] != '*' && Quiet(body) && gap != "" && Blank(gap)
    requires !Blank(text)
    ensures Clean(pad + body + (gap + "$ " + text)) == body
  {
    var comment := "$ " + text;
    var i :| 0 <= i < |text| && !IsSpace(text[i]);
    assert comment[0] == '$' && comment[1] == ' ' && comment[i + 2] == text[i];
    CommentIsCut(pad, body, gap, comment, i + 2);
    assert gap + comment == gap + "$ " + text;
  }

  /** A comment runs from its mark, which for `$` needs something behind it, to the end of the line. */
  lemma CommentIsCut(pad: string, body: string, gap: string, comment: string, solid: nat)
    requires Blank(pad) && body != "" && Trimmed(body) && body[0] != '*' && Quiet(body) && gap != "" && Blank(gap)
    requires solid < |comment| && !IsSpace(comment[solid])
    requires comment[0] == ';' || (comment[0] == '$' && solid >= 2 && IsSpace(comment[1]))
    ensures Clean(pad + body + (gap + comment)) == body
  {
    var n := SkipSpacesBack(comment, 0, |comment|);
    var kept, blanks := comment[..n], comment[n..];
    assert n > solid && comment == kept + blanks && !IsSpace(kept[n - 1]);
    Regroup(pad, body, gap, kept, blanks);
    TrimmedAround(body, gap, kept);
    StripFinds(pad, body + (gap + kept), blanks);
    CutOff(body, gap, kept);
  }

  lemma TrimmedAround(a: string, b: string, c: string)
    requires a != "" && Trimmed(a) && c != "" && !IsSpace(c[|c| - 1])
    ensures Trimmed(a + (b + c)) && (a + (b + c))[0] == a[0]
  {
    var s := a + (b + c);
    assert s[0] == a[0] && s[|s| - 1] == c[|c| - 1];
  }

  lemma CutOff(body: string, gap: string, comment: string)
    requires body != "" && Trimmed(body) && Quiet(body) && gap != "" && Blank(gap) && |comment| > 0
    requires comment[0] == ';' || (comment[0] == '$' && |comment| > 1 && IsSpace(comment[1]))
    ensures var s := body + (gap + comment); Strip(s[..CommentFrom(s, 0)]) == body
  {
    CutBeforeComment(body, gap, comment);
    TakeAcross(body, gap, comment, |gap| - 1);
    StripEnd(body, gap[..|gap| - 1]);
  }

  /** The comment is found at the last blank before its mark. */
  lemma CutBeforeComment(body: string, gap: string, comment: string)
    requires Quiet(body) && gap != "" && Blank(gap) && |comment| > 0
    requires comment[0] == ';' || (comment[0] == '$' && |comment| > 1 && IsSpace(comment[1]))
    ensures CommentFrom(body + (gap + comment), 0) == |body| + |gap| - 1
  {
    var s, at := body + (gap + comment), |body| + |gap| - 1;
    QuietCut(body, gap + comment);
    GapIndices(body, gap, comment);
    assert MarkAt(s, at);
  }

  lemma GapIndices(a: string, b: string, c: string)
    ensures forall k :: |a| <= k < |a| + |b| ==> (a + (b + c))[k] == b[k - |a|]
    ensures forall k :: |a| + |b| <= k < |a| + |b| + |c| ==> (a + (b + c))[k] == c[k - |a| - |b|]
  {
  }

  lemma StartIsRead(pad: string, words: seq<string>, ending: Ending)
    requires Starts(pad, words, ending).Valid()
    ensures Clean(Starts(pad, words, ending).Write()) == Spaced(words)
    ensures Spaced(words) != "" && Spaced(words)[0] != '+'
  {
    SpacedIsTrimmed(words);
    WordsAreQuiet(words);
    CleanFindsBody(pad, Spaced(words), ending);
  }

  lemma ContinuationIsRead(pad: string, gap: string, words: seq<string>, ending: Ending)
    requires Continues(pad, gap, words, ending).Valid()
    ensures var s := Clean(Continues(pad, gap, words, ending).Write());
            s != "" && s[0] == '+' && Strip(s[1..]) == Spaced(words)
  {
    SpacedIsTrimmed(words);
    WordsAreQuiet(words);
    assert IsToken(words[0]);
    QuietAfterSpace("+", gap, Spaced(words));
    var body := "+" + gap + Spaced(words);
    CleanFindsBody(pad, body, ending);
    DropMark('+', gap, Spaced(words));
    StripStart(gap, Spaced(words));
  }

  // ----- folding -----------------------------------------------------------------------------------

  lemma {:induction false} SpacedJoins(a: seq<string>, b: seq<string>)
    requires a != [] && b != []
    ensures Spaced(a + b) == Spaced(a) + " " + Spaced(b)
  {
    if |a| == 1 {
      assert (a + b)[1..] == b;
    } else {
      SpacedJoins(a[1..], b);
      assert (a + b)[1..] == a[1..] + b;
    }
  }

  lemma FreshIsJoined(cards: seq<seq<string>>, words: seq<string>, s: string)
    requires AreCards(cards) && words != [] && s == Spaced(words) && s != "" && s[0] != '+'
    ensures Joined(SpacedCards(cards), s) == SpacedCards(cards + [words])
  {
  }

  lemma MoreIsJoined(cards: seq<seq<string>>, words: seq<string>, s: string)
    requires AreCards(cards) && cards != [] && words != []
    requires s != "" && s[0] == '+' && Strip(s[1..]) == Spaced(words)
    ensures Joined(SpacedCards(cards), s) == SpacedCards(cards[|cards| - 1 := cards[|cards| - 1] + words])
  {
    SpacedJoins(cards[|cards| - 1], words);
  }

  lemma RowIsJoined(row: Row, cards: seq<seq<string>>)
    requires row.Valid() && AreCards(cards) && (row.Continues? ==> cards != [])
    ensures AreCards(With(cards, row))
    ensures Joined(SpacedCards(cards), Clean(row.Write())) == SpacedCards(With(cards, row))
  {
    match row
    case Nothing(_) =>
    case Starts(pad, words, ending) =>
      StartIsRead(pad, words, ending);
      FreshIsJoined(cards, words, Clean(row.Write()));
    case Continues(pad, gap, words, ending) =>
      ContinuationIsRead(pad, gap, words, ending);
      MoreIsJoined(cards, words, Clean(row.Write()));
  }

  /** Reading a layout gives exactly the cards it spells out, one per line, single-spaced. */
  lemma {:induction false} LayoutIsRead(rows: seq<Row>)
    requires ValidRows(rows) && Anchored(rows)
    ensures AreCards(Cards(rows))
    ensures Folded(Written(rows)) == SpacedCards(Cards(rows))
  {
    if rows != [] {
      var init, row := rows[..|rows| - 1], rows[|rows| - 1];
      assert ValidRows(init) && row.Valid();
      LayoutIsRead(init);
      RowIsJoined(row, Cards(init));
      WrittenSnoc(rows);
      FoldedSnoc(Written(init), row.Write());
    }
  }

  /** However the same cards are folded, padded, commented and spread out, they read the same. */
  lemma FoldingIsInvisible(title: string, rows: seq<Row>, title': string, rows': seq<Row>)
    requires OneLine(title) && ValidRows(rows) && Anchored(rows)
    requires OneLine(title') && ValidRows(rows') && Anchored(rows')
    requires Cards(rows) == Cards(rows')
    ensures Folded(Lines(Unlines([title] + Written(rows)))[1..])
         == Folded(Lines(Unlines([title'] + Written(rows')))[1..])
  {
    LinesOfText([title] + Written(rows));
    LinesOfText([title'] + Written(rows'));
    LayoutIsRead(rows);
    LayoutIsRead(rows');
  }

  // ----- .subckt / .ends nesting -------------------------------------------------------------------

  datatype Card = SubcktCard | EndsCard | OtherCard

  function Lower(c: char): char {
    if 'A' <= c <= 'Z' then (c as int + 32) as char else c
  }

  /** `word`, given in lower case, opens `s` in any case. */
  predicate OpensWith(s: string, word: string) {
    |word| <= |s| && forall i :: 0 <= i < |word| ==> Lower(s[i]) == word[i]
  }

  /** A `.subckt` card names something; an `.ends` card ends its keyword at a word boundary. */
  function Kind(line: string): Card {
    var s := line[SkipSpaces(line, 0)..];
    if OpensWith(s, ".subckt") && |s| > 7 && IsSpace(s[7]) && SkipSpaces(s, 7) < |s| then SubcktCard
    else if OpensWith(s, ".ends") && (|s| == 5 || !IsWordChar(s[5])) then EndsCard
    else OtherCard
  }

  lemma BehindGap(gap: string, s: string)
    requires Blank(gap) && s != "" && !IsSpace(s[0])
    ensures SkipSpaces(gap + s, 0) == |gap| && (gap + s)[|gap|..] == s
  {
    var line := gap + s;
    assert line[|gap|] == s[0];
    forall k | 0 <= k < |gap| ensures IsSpace(line[k]) { assert line[k] == gap[k]; }
  }

  lemma KindBehindGap(gap: string, s: string)
    requires Blank(gap) && s != "" && !IsSpace(s[0])
    ensures Kind(gap + s) == Kind(s)
  {
    BehindGap(gap, s);
    assert "" + s == s;
    BehindGap("", s);
  }

  /** The keyword, in any case, and a name behind it. */
  ghost predicate IsSubckt(s: string) {
    OpensWith(s, ".subckt") && exists n: nat :: 7 < n < |s| && Blank(s[7..n]) && !IsSpace(s[n])
  }

  /** The keyword, in any case, not as the beginning of another word. */
  predicate IsEnds(s: string) {
    OpensWith(s, ".ends") && (|s| > 5 ==> !IsWordChar(s[5]))
  }

  lemma SubcktNeedsAName(s: string)
    requires OpensWith(s, ".subckt")
    ensures IsSubckt(s) <==> |s| > 7 && IsSpace(s[7]) && SkipSpaces(s, 7) < |s|
  {
    if |s| > 7 && IsSpace(s[7]) && SkipSpaces(s, 7) < |s| {
      var n := SkipSpaces(s, 7);
      assert 7 < n && Blank(s[7..n]) && !IsSpace(s[n]);
    }
    forall n: nat | 7 < n < |s| && Blank(s[7..n]) && !IsSpace(s[n])
      ensures IsSpace(s[7]) && SkipSpaces(s, 7) < |s|
    {
      assert s[7..n][0] == s[7];
    }
  }

  /** What counts for the nesting: a subcircuit that is named, and an end that is one, in front of any blanks. */
  lemma KindIsWritten(gap: string, s: string)
    requires Blank(gap) && s != "" && !IsSpace(s[0])
    ensures Kind(gap + s) == SubcktCard <==> IsSubckt(s)
    ensures Kind(gap + s) == EndsCard <==> IsEnds(s)
  {
    KindBehindGap(gap, s);
    assert "" + s == s;
    BehindGap("", s);
    assert s[0..] == s;
    if OpensWith(s, ".subckt") {
      SubcktNeedsAName(s);
      NotBothKeywords(s);
    }
  }

  lemma NotBothKeywords(s: string)
    requires OpensWith(s, ".subckt")
    ensures !OpensWith(s, ".ends")
  {
    assert Lower(s[1]) == ".subckt"[1] == 's' && ".ends"[1] == 'e';
  }

  function Kinds(lines: seq<string>): seq<Card> {
    seq(|lines|, i requires 0 <= i < |lines| => Kind(lines[i]))
  }

  /** A properly nested deck. */
  datatype Deck = End | Plain(rest: Deck) | Subckt(inner: Deck, rest: Deck)

  function Printed(d: Deck): seq<Card> {
    match d
    case End => []
    case Plain(rest) => [OtherCard] + Printed(rest)
    case Subckt(inner, rest) => [SubcktCard] + Printed(inner) + [EndsCard] + Printed(rest)
  }

  /** How many more cards of the first kind than of the second. */
  function Excess(cards: seq<Card>): int {
    if cards == [] then 0
    else Excess(cards[..|cards| - 1]) + match cards[|cards| - 1]
      case SubcktCard => 1
      case EndsCard => -1
      case OtherCard => 0
  }

  /** The number of .ends cards with no .subckt left to close: the deepest the excess ever falls below zero. */
  function Unopened(cards: seq<Card>): nat {
    if cards == [] then 0
    else
      var before := Unopened(cards[..|cards| - 1]);
      if -Excess(cards) > before then -Excess(cards) else before
  }

  function Unclosed(cards: seq<Card>): int {
    Excess(cards) + Unopened(cards)
  }

  datatype NestingProblem = EndsWithoutSubckt | SubcktWithoutEnds

  function Repeated(n: nat): seq<NestingProblem> {
    seq(n, _ => EndsWithoutSubckt)
  }

  /** One problem per .ends that closes nothing, then one if anything is left open. */
  method NestingProblems(lines: seq<string>) returns (problems: seq<NestingProblem>)
    ensures var cards := Kinds(lines);
            && Unclosed(cards) >= 0
            && problems == Repeated(Unopened(cards)) + if Unclosed(cards) > 0 then [SubcktWithoutEnds] else []
    ensures problems == [] <==> exists d :: Printed(d) == Kinds(lines)
  {
    var depth := 0;
    problems := [];
    ghost var cards: seq<Card> := [];
    for i := 0 to |lines|
      invariant cards == Kinds(lines)[..i]
      invariant depth == Unclosed(cards) >= 0 && problems == Repeated(Unopened(cards))
    {
      var kind := Kind(lines[i]);
      assert (cards + [kind])[..|cards|] == cards;
      cards := cards + [kind];
      if kind == SubcktCard {
        depth := depth + 1;
      } else if kind == EndsCard {
        depth := depth - 1;
        if depth < 0 {
          problems := problems + [EndsWithoutSubckt];
          depth := 0;
        }
      }
    }
    assert cards == Kinds(lines);
    NoProblemIffNested(cards);
    if depth > 0 { problems := problems + [SubcktWithoutEnds]; }
  }

  /** The scan from the front, at a depth that must not fall below zero and must end at zero. */
  predicate Closes(cards: seq<Card>, depth: nat) {
    if cards == [] then depth == 0
    else match cards[0]
      case SubcktCard => Closes(cards[1..], depth + 1)
      case EndsCard => depth > 0 && Closes(cards[1..], depth - 1)
      case OtherCard => Closes(cards[1..], depth)
  }

  lemma {:induction false} PrintedCloses(d: Deck, after: seq<Card>, depth: nat)
    ensures Closes(Printed(d) + after, depth) <==> Closes(after, depth)
  {
    match d
    case End =>
      assert [] + after == after;
    case Plain(rest) =>
      assert (Printed(d) + after)[1..] == Printed(rest) + after;
      PrintedCloses(rest, after, depth);
    case Subckt(inner, rest) =>
      var tail := [EndsCard] + (Printed(rest) + after);
      assert (Printed(d) + after)[1..] == Printed(inner) + tail;
      PrintedCloses(inner, tail, depth + 1);
      assert tail[1..] == Printed(rest) + after;
      PrintedCloses(rest, after, depth);
  }

  /** `depth` open subcircuits: a deck, then for each an .ends and the deck behind it. */
  function Levels(decks: seq<Deck>): seq<Card>
    requires decks != []
  {
    if |decks| == 1 then Printed(decks[0]) else Printed(decks[0]) + [EndsCard] + Levels(decks[1..])
  }

  lemma {:induction false} ClosingHasLevels(cards: seq<Card>, depth: nat) returns (decks: seq<Deck>)
    requires Closes(cards, depth)
    ensures |decks| == depth + 1 && Levels(decks) == cards
    decreases |cards|
  {
    if cards == [] { return [End]; }
    match cards[0]
    case OtherCard =>
      var inner := ClosingHasLevels(cards[1..], depth);
      decks := [Plain(inner[0])] + inner[1..];
      assert decks[1..] == inner[1..];
      assert Levels(decks) == [OtherCard] + Levels(inner);
    case SubcktCard =>
      var inner := ClosingHasLevels(cards[1..], depth + 1);
      decks := [Subckt(inner[0], inner[1])] + inner[2..];
      assert decks[1..] == inner[2..] && inner[1..][1..] == inner[2..];
      assert Levels(decks) == [SubcktCard] + Levels(inner);
    case EndsCard =>
      var inner := ClosingHasLevels(cards[1..], depth - 1);
      decks := [End] + inner;
      assert decks[1..] == inner;
      assert Levels(decks) == [EndsCard] + Levels(inner);
  }

  /** The scan from the front agrees with the running excess. */
  lemma {:induction false} ClosesIsBalance(cards: seq<Card>, n: nat)
    requires n <= |cards|
    ensures Unopened(cards[..n]) == 0 ==>
              Excess(cards[..n]) >= 0 && (Closes(cards, 0) <==> Closes(cards[n..], Excess(cards[..n])))
    ensures Unopened(cards[..n]) > 0 ==> !Closes(cards, 0)
  {
    if n == 0 {
      assert cards[0..] == cards;
    } else {
      ClosesIsBalance(cards, n - 1);
      assert cards[..n][..n - 1] == cards[..n - 1];
      assert cards[n - 1..][1..] == cards[n..];
    }
  }

  /** No nesting problem is reported exactly when the cards print a properly nested deck. */
  lemma NoProblemIffNested(cards: seq<Card>)
    ensures Unopened(cards) == 0 && Unclosed(cards) == 0 <==> exists d :: Printed(d) == cards
  {
    ClosesIsBalance(cards, |cards|);
    assert cards[..|cards|] == cards;
    if Unopened(cards) == 0 && Unclosed(cards) == 0 {
      var decks := ClosingHasLevels(cards, 0);
      assert Printed(decks[0]) == cards;
    }
    forall d | Printed(d) == cards ensures Unopened(cards) == 0 && Unclosed(cards) == 0 {
      PrintedCloses(d, [], 0);
      assert cards + [] == cards;
    }
  }
}
