/**
 Splitting an instruction line into clauses that each carry their own sign, and mining directives from them
 (app/modules/blocks/directives.py).
 */
module Clauses {
  import opened Common
  import opened Text

  predicate OpensAt(s: string, i: nat, word: string) {
    i + |word| <= |s| && s[i..i + |word|] == word
  }

  // ----- backticked spans --------------------------------------------------------------------------

  /** First backtick or newline at or after `i`, or the end. */
  function RunEnd(s: string, i: nat): (j: nat)
    requires i <= |s|
    ensures i <= j <= |s|
    ensures forall k :: i <= k < j ==> s[k] != '`'
    decreases |s| - i
  {
    if i == |s| || s[i] == '`' || s[i] == '\n' then i else RunEnd(s, i + 1)
  }

  /** The end of a quoted span opening at `i`: 2 to 200 characters on one line between backticks. */
  function SpanEnd(s: string, i: nat): (end: Option<nat>)
    requires i <= |s|
    ensures end.Some? ==> i + 4 <= end.value <= |s| && s[i] == '`' && s[end.value - 1] == '`'
  {
    if i == |s| || s[i] != '`' then None
    else
      var j := RunEnd(s, i + 1);
      if j < |s| && s[j] == '`' && 2 <= j - i - 1 <= 200 then Some(j + 1) else None
  }

  datatype Span = Span(start: nat, end: nat)

  function Spans(s: string, i: nat): (spans: seq<Span>)
    requires i <= |s|
    ensures forall p :: p in spans ==> i <= p.start && p.start + 4 <= p.end <= |s|
    ensures forall p :: p in spans ==> s[p.start] == '`' && s[p.end - 1] == '`'
    decreases |s| - i
  {
    if i == |s| then []
    else match SpanEnd(s, i)
      case Some(end) => [Span(i, end)] + Spans(s, end)
      case None => Spans(s, i + 1)
  }

  /** Two backticks on one line with 2 to 200 characters and no other backtick between them. */
  ghost predicate IsQuote(s: string, p: Span) {
    && p.start + 4 <= p.end <= |s| && p.end <= p.start + 202
    && s[p.start] == '`' && s[p.end - 1] == '`'
    && forall k :: p.start < k < p.end - 1 ==> s[k] != '`' && s[k] != '\n'
  }

  lemma {:induction false} RunEndIs(s: string, i: nat, j: nat)
    requires i <= j < |s| && s[j] == '`' && forall k :: i <= k < j ==> s[k] != '`' && s[k] != '\n'
    ensures RunEnd(s, i) == j
    decreases j - i
  {
    if i < j { RunEndIs(s, i + 1, j); }
  }

  lemma {:induction false} RunIsOnOneLine(s: string, i: nat, k: nat)
    requires i <= |s| && i <= k < RunEnd(s, i)
    ensures k < |s| && s[k] != '\n'
    decreases k - i
  {
    if i < k { RunIsOnOneLine(s, i + 1, k); }
  }

  /** Every span is a quote. */
  lemma {:induction false} SpansAreQuotes(s: string, i: nat, p: Span)
    requires i <= |s| && p in Spans(s, i)
    ensures IsQuote(s, p)
    decreases |s| - i
  {
    match SpanEnd(s, i)
    case Some(end) =>
      if p == Span(i, end) {
        forall k | i < k < end - 1 ensures s[k] != '\n' { RunIsOnOneLine(s, i + 1, k); }
      } else {
        SpansAreQuotes(s, end, p);
      }
    case None =>
      SpansAreQuotes(s, i + 1, p);
  }

  /** And every quote is one, unless it opens within an earlier one. */
  lemma {:induction false} QuotesAreSpans(s: string, i: nat, p: Span)
    requires i <= p.start && IsQuote(s, p)
    requires forall q :: q in Spans(s, i) ==> !(q.start < p.start < q.end)
    ensures p in Spans(s, i)
    decreases |s| - i
  {
    RunEndIs(s, p.start + 1, p.end - 1);
    if i < p.start {
      match SpanEnd(s, i)
      case Some(end) =>
        assert Span(i, end) in Spans(s, i);
        QuotesAreSpans(s, end, p);
      case None =>
        QuotesAreSpans(s, i + 1, p);
    }
  }

  predicate Quoted(spans: seq<Span>, i: int) {
    exists p :: p in spans && p.start <= i < p.end
  }

  // ----- separators --------------------------------------------------------------------------------

  /** A separator in the line; a contrast marker turns round the sign of what follows it. */
  datatype Separator = Separator(start: nat, end: nat, contrast: bool)

  /** `\s*;\s*` */
  function Semicolon(s: string, i: nat): (end: nat)
    requires i <= |s|
    ensures end == 0 || i < end <= |s|
    ensures end > 0 ==> forall k :: i <= k < end ==> s[k] != '`'
  {
    var j := SkipSpaces(s, i);
    if j < |s| && s[j] == ';' then SkipSpaces(s, j + 1) else 0
  }

  /** `first\s+second\s+` at `i`. */
  function TwoWords(s: string, i: nat, first: string, second: string): (end: nat)
    requires i <= |s| && '`' !in first && '`' !in second
    ensures end == 0 || i < end <= |s|
    ensures end > 0 ==> forall k :: i <= k < end ==> s[k] != '`'
  {
    if !OpensAt(s, i, first) then 0
    else
      var j := SkipSpaces(s, i + |first|);
      if j == i + |first| || !OpensAt(s, j, second) then 0
      else
        var end := SkipSpaces(s, j + |second|);
        assert forall k :: i <= k < i + |first| ==> s[k] == s[i..i + |first|][k - i] && s[k] in first;
        assert forall k :: j <= k < j + |second| ==> s[k] == s[j..j + |second|][k - j] && s[k] in second;
        if end == j + |second| then 0 else end
  }

  /** `\s+(?:instead\s+of|rather\s+than)\s+` */
  function InsteadOf(s: string, i: nat): (end: nat)
    requires i <= |s|
    ensures end == 0 || i < end <= |s|
    ensures end > 0 ==> forall k :: i <= k < end ==> s[k] != '`'
  {
    var j := SkipSpaces(s, i);
    if j == i then 0
    else if TwoWords(s, j, "instead", "of") > 0 then TwoWords(s, j, "instead", "of")
    else TwoWords(s, j, "rather", "than")
  }

  /** `,\s*not\s+` */
  function CommaNot(s: string, i: nat): (end: nat)
    requires i <= |s|
    ensures end == 0 || i < end <= |s|
    ensures end > 0 ==> forall k :: i <= k < end ==> s[k] != '`'
  {
    if i == |s| || s[i] != ',' then 0
    else
      var j := SkipSpaces(s, i + 1);
      if !OpensAt(s, j, "not") then 0
      else
        var end := SkipSpaces(s, j + 3);
        assert forall k :: j <= k < j + 3 ==> s[k] == "not"[k - j];
        if end == j + 3 then 0 else end
  }

  predicate ClosesWord(c: char) {
    'a' <= c <= 'z' || c == ')'
  }

  /** `(?<=[a-z)][a-z)])\.\s+` */
  function SentenceEnd(s: string, i: nat): (end: nat)
    requires i <= |s|
    ensures end == 0 || i < end <= |s|
    ensures end > 0 ==> forall k :: i <= k < end ==> s[k] != '`'
  {
    if i < 2 || i == |s| || s[i] != '.' || !ClosesWord(s[i - 1]) || !ClosesWord(s[i - 2]) then 0
    else if SkipSpaces(s, i + 1) == i + 1 then 0 else SkipSpaces(s, i + 1)
  }

  function SeparatorAt(s: string, i: nat): (sep: Option<Separator>)
    requires i <= |s|
    ensures sep.Some? ==> sep.value.start == i < sep.value.end <= |s|
    ensures sep.Some? ==> forall k :: i <= k < sep.value.end ==> s[k] != '`'
  {
    if Semicolon(s, i) > 0 then Some(Separator(i, Semicolon(s, i), false))
    else if InsteadOf(s, i) > 0 then Some(Separator(i, InsteadOf(s, i), true))
    else if CommaNot(s, i) > 0 then Some(Separator(i, CommaNot(s, i), true))
    else if SentenceEnd(s, i) > 0 then Some(Separator(i, SentenceEnd(s, i), false))
    else None
  }

  // ----- how separators are written ----------------------------------------------------------------

  /** The four ways of writing one; every gap is blank. */
  datatype Marker =
    | Semi(gap: string, after: string)
    | Contrast(gap: string, rather: bool, between: string, after: string)
    | Not(between: string, after: string)
    | Stop(after: string)
  {
    predicate Valid() {
      match this
      case Semi(gap, after) => Blank(gap) && Blank(after)
      case Contrast(gap, _, between, after) =>
        gap != "" && Blank(gap) && between != "" && Blank(between) && after != "" && Blank(after)
      case Not(between, after) => Blank(between) && after != "" && Blank(after)
      case Stop(after) => after != "" && Blank(after)
    }

    function Print(): string {
      match this
      case Semi(gap, after) => gap + ";" + after
      case Contrast(gap, rather, between, after) => gap + First(rather) + between + Second(rather) + after
      case Not(between, after) => "," + between + "not" + after
      case Stop(after) => "." + after
    }

    /** What follows "instead of", "rather than" or ", not" is what is to go. */
    predicate Contrasts() {
      Contrast? || Not?
    }
  }

  function First(rather: bool): string {
    if rather then "rather" else "instead"
  }

  function Second(rather: bool): string {
    if rather then "than" else "of"
  }

  /** `_CONTRAST_RE` matches the whole of `text`. */
  ghost predicate IsContrast(text: string) {
    exists m: Marker :: m.Valid() && m.Contrasts() && m.Print() == text
  }

  lemma SkipsBlank(s: string, i: nat, j: nat)
    requires i <= |s| && j == SkipSpaces(s, i)
    ensures Blank(s[i..j])
  {
  }

  lemma Pieces(s: string, i: nat, j: nat, k: nat)
    requires i <= j <= k <= |s|
    ensures s[i..j] + s[j..k] == s[i..k]
  {
  }

  lemma SemicolonIsWritten(s: string, i: nat) returns (m: Marker)
    requires i <= |s| && Semicolon(s, i) > 0
    ensures m.Semi? && m.Valid() && s[i..Semicolon(s, i)] == m.Print()
  {
    var j, end := SkipSpaces(s, i), Semicolon(s, i);
    m := Semi(s[i..j], s[j + 1..end]);
    SkipsBlank(s, i, j);
    SkipsBlank(s, j + 1, end);
    assert s[j..j + 1] == ";";
    Pieces(s, i, j, j + 1);
    Pieces(s, i, j + 1, end);
  }

  lemma TwoWordsAreWritten(s: string, i: nat, j: nat, rather: bool) returns (m: Marker)
    requires i < j <= |s| && Blank(s[i..j]) && TwoWords(s, j, First(rather), Second(rather)) > 0
    ensures m.Contrast? && m.Valid() && s[i..TwoWords(s, j, First(rather), Second(rather))] == m.Print()
  {
    var first, second := First(rather), Second(rather);
    var a := j + |first|;
    var b := SkipSpaces(s, a);
    var c, end := b + |second|, TwoWords(s, j, first, second);
    m := Contrast(s[i..j], rather, s[a..b], s[c..end]);
    SkipsBlank(s, a, b);
    SkipsBlank(s, c, end);
    FivePieces(s, i, j, a, b, c, end);
  }

  lemma FivePieces(s: string, i: nat, j: nat, a: nat, b: nat, c: nat, end: nat)
    requires i <= j <= a <= b <= c <= end <= |s|
    ensures s[i..j] + s[j..a] + s[a..b] + s[b..c] + s[c..end] == s[i..end]
  {
    Pieces(s, i, j, a);
    Pieces(s, i, a, b);
    Pieces(s, i, b, c);
    Pieces(s, i, c, end);
  }

  lemma InsteadOfIsWritten(s: string, i: nat) returns (m: Marker)
    requires i <= |s| && InsteadOf(s, i) > 0
    ensures m.Contrast? && m.Valid() && s[i..InsteadOf(s, i)] == m.Print()
  {
    var j := SkipSpaces(s, i);
    SkipsBlank(s, i, j);
    if TwoWords(s, j, "instead", "of") > 0 {
      m := TwoWordsAreWritten(s, i, j, false);
    } else {
      m := TwoWordsAreWritten(s, i, j, true);
    }
  }

  lemma FourPieces(s: string, i: nat, j: nat, k: nat, end: nat)
    requires i + 1 <= j <= k <= end <= |s|
    ensures s[i..i + 1] + s[i + 1..j] + s[j..k] + s[k..end] == s[i..end]
  {
    Pieces(s, i, i + 1, j);
    Pieces(s, i, j, k);
    Pieces(s, i, k, end);
  }

  lemma CommaNotIsWritten(s: string, i: nat) returns (m: Marker)
    requires i <= |s| && CommaNot(s, i) > 0
    ensures m.Not? && m.Valid() && s[i..CommaNot(s, i)] == m.Print()
  {
    var j, end := SkipSpaces(s, i + 1), CommaNot(s, i);
    m := Not(s[i + 1..j], s[j + 3..end]);
    SkipsBlank(s, i + 1, j);
    SkipsBlank(s, j + 3, end);
    FourPieces(s, i, j, j + 3, end);
    assert s[i..i + 1] == "," && s[j..j + 3] == "not";
  }

  lemma SentenceEndIsWritten(s: string, i: nat) returns (m: Marker)
    requires i <= |s| && SentenceEnd(s, i) > 0
    ensures m.Stop? && m.Valid() && s[i..SentenceEnd(s, i)] == m.Print()
  {
    var end := SentenceEnd(s, i);
    m := Stop(s[i + 1..end]);
    SkipsBlank(s, i + 1, end);
    assert s[i..i + 1] == ".";
    Pieces(s, i, i + 1, end);
  }

  /** A separator is written in one of these ways, and turns the sign round iff that way is a contrast. */
  lemma SeparatorIsWritten(s: string, i: nat) returns (m: Marker)
    requires i <= |s| && SeparatorAt(s, i).Some?
    ensures m.Valid() && s[i..SeparatorAt(s, i).value.end] == m.Print()
    ensures SeparatorAt(s, i).value.contrast <==> m.Contrasts()
    ensures m.Stop? ==> i >= 2 && ClosesWord(s[i - 1]) && ClosesWord(s[i - 2])
  {
    if Semicolon(s, i) > 0 {
      m := SemicolonIsWritten(s, i);
    } else if InsteadOf(s, i) > 0 {
      m := InsteadOfIsWritten(s, i);
    } else if CommaNot(s, i) > 0 {
      m := CommaNotIsWritten(s, i);
    } else {
      m := SentenceEndIsWritten(s, i);
    }
  }

  lemma BlankHas(s: string, c: char)
    requires Blank(s) && !IsSpace(c)
    ensures c !in s
  {
  }

  /** A contrast has neither of the characters by which the other separators are known, and they have no other. */
  lemma MarkerIsKnown(m: Marker)
    requires m.Valid()
    ensures m.Contrasts() <==> ';' !in m.Print() && '.' !in m.Print()
  {
    match m {
      case Semi(gap, after) =>
        assert m.Print()[|gap|] == ';';
      case Contrast(gap, _, between, after) =>
        forall c | c in {';', '.'} ensures c !in m.Print() {
          BlankHas(gap, c);
          BlankHas(between, c);
          BlankHas(after, c);
          assert c !in "instead" && c !in "of" && c !in "rather" && c !in "than";
        }
      case Not(between, after) =>
        forall c | c in {';', '.'} ensures c !in m.Print() {
          BlankHas(between, c);
          BlankHas(after, c);
          assert c !in "not" && c !in ",";
        }
      case Stop(after) =>
        assert m.Print()[0] == '.';
    }
  }

  /** So whether a separator contrasts can be told from its own text, as the code does. */
  lemma ContrastIsInTheText(s: string, i: nat)
    requires i <= |s| && SeparatorAt(s, i).Some?
    ensures var text := s[i..SeparatorAt(s, i).value.end];
            && (SeparatorAt(s, i).value.contrast <==> IsContrast(text))
            && (SeparatorAt(s, i).value.contrast <==> ';' !in text && '.' !in text)
  {
    var m := SeparatorIsWritten(s, i);
    MarkerIsKnown(m);
    forall n: Marker | n.Valid() && n.Contrasts() && n.Print() == m.Print() ensures m.Contrasts() {
      MarkerIsKnown(n);
    }
  }

  /** Every separator from `i` on, leftmost first, none overlapping another. */
  function Found(s: string, i: nat): (seps: seq<Separator>)
    requires i <= |s|
    decreases |s| - i
  {
    match SeparatorAt(s, i)
    case Some(sep) => [sep] + Found(s, sep.end)
    case None => if i == |s| then [] else Found(s, i + 1)
  }

  /** Those that count: a separator inside a quoted span does not. */
  function Used(spans: seq<Span>, seps: seq<Separator>): seq<Separator> {
    if seps == [] then []
    else if Quoted(spans, seps[0].start) then Used(spans, seps[1..])
    else [seps[0]] + Used(spans, seps[1..])
  }

  lemma {:induction false} FoundAreSeparators(s: string, i: nat, q: Separator)
    requires i <= |s| && q in Found(s, i)
    ensures q.start <= |s| && SeparatorAt(s, q.start) == Some(q)
    decreases |s| - i
  {
    match SeparatorAt(s, i)
    case Some(sep) => if q != sep { FoundAreSeparators(s, sep.end, q); }
    case None => FoundAreSeparators(s, i + 1, q);
  }

  lemma {:induction false} UsedAreFound(spans: seq<Span>, seps: seq<Separator>, q: Separator)
    requires q in Used(spans, seps)
    ensures q in seps && !Quoted(spans, q.start)
  {
    if Quoted(spans, seps[0].start) || q != seps[0] { UsedAreFound(spans, seps[1..], q); }
  }

  /** In order within the line from `lo`, free of backticks. */
  ghost predicate InOrder(s: string, seps: seq<Separator>, lo: nat)
    decreases |seps|
  {
    seps == [] ||
    (lo <= seps[0].start < seps[0].end <= |s| && NoTick(s, seps[0]) && InOrder(s, seps[1..], seps[0].end))
  }

  ghost predicate NoTick(s: string, sep: Separator)
    requires sep.start < sep.end <= |s|
  {
    forall k :: sep.start <= k < sep.end ==> s[k] != '`'
  }

  lemma {:induction false} FoundInOrder(s: string, i: nat)
    requires i <= |s|
    ensures InOrder(s, Found(s, i), i)
    decreases |s| - i
  {
    match SeparatorAt(s, i)
    case Some(sep) =>
      FoundInOrder(s, sep.end);
      assert Found(s, i)[1..] == Found(s, sep.end);
    case None =>
      if i < |s| {
        FoundInOrder(s, i + 1);
        OrderRelaxes(s, Found(s, i + 1), i + 1, i);
      }
  }

  lemma OrderRelaxes(s: string, seps: seq<Separator>, lo: nat, lower: nat)
    requires InOrder(s, seps, lo) && lower <= lo
    ensures InOrder(s, seps, lower)
  {
  }

  lemma {:induction false} UsedInOrder(s: string, spans: seq<Span>, seps: seq<Separator>, lo: nat)
    requires InOrder(s, seps, lo)
    ensures InOrder(s, Used(spans, seps), lo)
    decreases |seps|
  {
    if seps != [] {
      UsedInOrder(s, spans, seps[1..], seps[0].end);
      if Quoted(spans, seps[0].start) {
        OrderRelaxes(s, Used(spans, seps[1..]), seps[0].end, lo);
      } else {
        assert Used(spans, seps)[1..] == Used(spans, seps[1..]);
      }
    }
  }

  // ----- the parts ---------------------------------------------------------------------------------

  /** A stretch of the line, and whether it stands on the far side of a contrast marker. */
  datatype Part = Part(lo: nat, hi: nat, inverted: bool)

  function Parts(n: nat, cursor: nat, inverted: bool, seps: seq<Separator>): (parts: seq<Part>)
    ensures |parts| == |seps| + 1
    decreases |seps|
  {
    if seps == [] then [Part(cursor, n, inverted)]
    else [Part(cursor, seps[0].start, inverted)] + Parts(n, seps[0].end, seps[0].contrast, seps[1..])
  }

  /** The parts with the separators back between them. */
  function Rebuilt(s: string, parts: seq<Part>, seps: seq<Separator>): string
    requires |parts| == |seps| + 1
    requires forall p :: p in parts ==> p.lo <= p.hi <= |s|
    requires forall q :: q in seps ==> q.start <= q.end <= |s|
  {
    if seps == [] then s[parts[0].lo..parts[0].hi]
    else
      s[parts[0].lo..parts[0].hi] + s[seps[0].start..seps[0].end] + Rebuilt(s, parts[1..], seps[1..])
  }

  ghost predicate Fits(s: string, parts: seq<Part>, seps: seq<Separator>) {
    && |parts| == |seps| + 1
    && (forall p :: p in parts ==> p.lo <= p.hi <= |s|)
    && (forall q :: q in seps ==> q.start < q.end <= |s|)
  }

  lemma {:induction false} PartsFit(s: string, cursor: nat, inverted: bool, seps: seq<Separator>)
    requires cursor <= |s| && InOrder(s, seps, cursor)
    ensures Fits(s, Parts(|s|, cursor, inverted, seps), seps)
    decreases |seps|
  {
    if seps != [] { PartsFit(s, seps[0].end, seps[0].contrast, seps[1..]); }
  }

  /** Nothing of the line is lost or doubled: parts and separators concatenate back to it. */
  lemma {:induction false} PartsRebuild(s: string, cursor: nat, inverted: bool, seps: seq<Separator>)
    requires cursor <= |s| && InOrder(s, seps, cursor)
    ensures Fits(s, Parts(|s|, cursor, inverted, seps), seps)
    ensures Rebuilt(s, Parts(|s|, cursor, inverted, seps), seps) == s[cursor..]
    decreases |seps|
  {
    PartsFit(s, cursor, inverted, seps);
    if seps != [] {
      var sep := seps[0];
      PartsRebuild(s, sep.end, sep.contrast, seps[1..]);
      assert Parts(|s|, cursor, inverted, seps)[1..] == Parts(|s|, sep.end, sep.contrast, seps[1..]);
      ThreePieces(s, cursor, sep.start, sep.end);
    }
  }

  lemma ThreePieces(s: string, a: nat, b: nat, c: nat)
    requires a <= b <= c <= |s|
    ensures s[a..] == s[a..b] + s[b..c] + s[c..]
  {
  }

  /** A part is inverted exactly when the separator directly before it is a contrast marker. */
  lemma {:induction false} InvertedIffAfterContrast(n: nat, cursor: nat, inverted: bool, seps: seq<Separator>, j: nat)
    requires j <= |seps|
    ensures Parts(n, cursor, inverted, seps)[j].inverted <==> if j == 0 then inverted else seps[j - 1].contrast
    decreases |seps|
  {
    if seps != [] {
      InvertedIffAfterContrast(n, seps[0].end, seps[0].contrast, seps[1..], if j == 0 then 0 else j - 1);
    }
  }

  /** No used separator reaches into a quoted span. */
  lemma {:induction false} UsedAvoidSpans(s: string, spans: seq<Span>, seps: seq<Separator>, lo: nat, p: Span)
    requires InOrder(s, seps, lo) && p in spans
    requires p.start < p.end <= |s| && s[p.start] == '`' && s[p.end - 1] == '`'
    ensures forall q :: q in Used(spans, seps) ==> q.end <= p.start || p.end <= q.start
    decreases |seps|
  {
    if seps != [] {
      UsedAvoidSpans(s, spans, seps[1..], seps[0].end, p);
      var q := seps[0];
      if !Quoted(spans, q.start) {
        assert !(p.start <= q.start < p.end) && NoTick(s, q);
      }
    }
  }

  /** So every quoted span lies whole within one part. */
  lemma {:induction false} SpanIsWhole(s: string, cursor: nat, inverted: bool, seps: seq<Separator>, p: Span)
    requires cursor <= p.start < p.end <= |s| && InOrder(s, seps, cursor)
    requires forall q :: q in seps ==> q.end <= p.start || p.end <= q.start
    ensures exists part :: part in Parts(|s|, cursor, inverted, seps) && part.lo <= p.start && p.end <= part.hi
    decreases |seps|
  {
    var parts := Parts(|s|, cursor, inverted, seps);
    if seps == [] || p.end <= seps[0].start {
      assert parts[0] in parts;
    } else {
      assert seps[0] in seps;
      SpanIsWhole(s, seps[0].end, seps[0].contrast, seps[1..], p);
      assert parts[1..] == Parts(|s|, seps[0].end, seps[0].contrast, seps[1..]);
    }
  }

  /** A separator that starts inside a span lies inside it. */
  lemma QuotedThroughout(s: string, spans: seq<Span>, sep: Separator, at: nat)
    requires sep.start <= at < sep.end <= |s| && NoTick(s, sep)
    requires forall p :: p in spans ==> p.start < p.end <= |s| && s[p.end - 1] == '`'
    ensures !Quoted(spans, at) ==> !Quoted(spans, sep.start)
  {
    if Quoted(spans, sep.start) {
      var p :| p in spans && p.start <= sep.start < p.end;
      assert s[p.end - 1] == '`';
    }
  }

  /** And no separator is missed: wherever one could open outside every span, a used one is at work. */
  lemma {:induction false} NoneIsMissed(s: string, spans: seq<Span>, i: nat, at: nat)
    requires i <= at <= |s| && SeparatorAt(s, at).Some? && !Quoted(spans, at)
    requires forall p :: p in spans ==> p.start < p.end <= |s| && s[p.start] == '`' && s[p.end - 1] == '`'
    ensures exists q :: q in Used(spans, Found(s, i)) && q.start <= at < q.end
    decreases |s| - i
  {
    match SeparatorAt(s, i)
    case None =>
      NoneIsMissed(s, spans, i + 1, at);
    case Some(sep) =>
      var used := Used(spans, Found(s, i));
      assert Found(s, i)[1..] == Found(s, sep.end);
      if sep.end <= at {
        NoneIsMissed(s, spans, sep.end, at);
      } else {
        QuotedThroughout(s, spans, sep, at);
        assert used[0] == sep && sep in used;
      }
  }

  // ----- clauses -----------------------------------------------------------------------------------

  datatype Clause = Clause(text: string, inverted: bool)

  function Trimmings(s: string, parts: seq<Part>): seq<Clause>
    requires forall p :: p in parts ==> p.lo <= p.hi <= |s|
  {
    if parts == [] then []
    else
      var rest, p := Trimmings(s, parts[..|parts| - 1]), parts[|parts| - 1];
      rest + if Blank(s[p.lo..p.hi]) then [] else [Clause(Strip(s[p.lo..p.hi]), p.inverted)]
  }

  function Cut(line: string): (parts: seq<Part>)
    ensures forall p :: p in parts ==> p.lo <= p.hi <= |line|
  {
    var used := Used(Spans(line, 0), Found(line, 0));
    FoundInOrder(line, 0);
    UsedInOrder(line, Spans(line, 0), Found(line, 0), 0);
    PartsFit(line, 0, false, used);
    Parts(|line|, 0, false, used)
  }

  function ClausesOf(line: string): seq<Clause> {
    var kept := Trimmings(line, Cut(line));
    if kept == [] then [Clause(line, false)] else kept
  }

  function UsedIn(line: string): seq<Separator> {
    Used(Spans(line, 0), Found(line, 0))
  }

  /** What stands between two parts. */
  function Between(line: string, q: Separator): string {
    if q.start <= q.end <= |line| then line[q.start..q.end] else ""
  }

  lemma UsedContrasts(line: string, q: Separator)
    requires q in UsedIn(line)
    ensures q.contrast <==> IsContrast(Between(line, q))
  {
    UsedAreFound(Spans(line, 0), Found(line, 0), q);
    FoundAreSeparators(line, 0, q);
    ContrastIsInTheText(line, q.start);
  }

  /**
   The cut of any line: nothing is lost, a part is inverted exactly when what stands directly before it is
   "instead of", "rather than" or ", not", no quoted span is cut, and every separator outside the spans is
   honoured.
   */
  lemma CutIsFaithful(line: string)
    ensures Fits(line, Cut(line), UsedIn(line)) && Rebuilt(line, Cut(line), UsedIn(line)) == line
    ensures forall j :: 0 <= j < |Cut(line)| ==> (Cut(line)[j].inverted <==> j > 0 && UsedIn(line)[j - 1].contrast)
    ensures forall q :: q in UsedIn(line) ==> (q.contrast <==> IsContrast(Between(line, q)))
    ensures forall p :: p in Spans(line, 0) ==>
              exists part :: part in Cut(line) && part.lo <= p.start && p.end <= part.hi
    ensures forall i :: 0 <= i <= |line| && SeparatorAt(line, i).Some? && !Quoted(Spans(line, 0), i) ==>
              exists q :: q in UsedIn(line) && q.start <= i < q.end
  {
    var spans, used := Spans(line, 0), UsedIn(line);
    FoundInOrder(line, 0);
    UsedInOrder(line, spans, Found(line, 0), 0);
    PartsRebuild(line, 0, false, used);
    assert line[0..] == line;
    forall j | 0 <= j < |Cut(line)| ensures Cut(line)[j].inverted <==> j > 0 && used[j - 1].contrast {
      InvertedIffAfterContrast(|line|, 0, false, used, j);
    }
    forall q | q in used ensures q.contrast <==> IsContrast(Between(line, q)) {
      UsedContrasts(line, q);
    }
    forall p | p in spans ensures exists part :: part in Cut(line) && part.lo <= p.start && p.end <= part.hi {
      UsedAvoidSpans(line, spans, Found(line, 0), 0, p);
      SpanIsWhole(line, 0, false, used, p);
    }
    forall i | 0 <= i <= |line| && SeparatorAt(line, i).Some? && !Quoted(spans, i)
      ensures exists q :: q in used && q.start <= i < q.end
    {
      NoneIsMissed(line, spans, 0, i);
    }
  }

  /** The parts still to come, with the search at `pos`. */
  function Remaining(line: string, pos: nat, cursor: nat, inverted: bool): seq<Part>
    requires pos <= |line|
  {
    Parts(|line|, cursor, inverted, Used(Spans(line, 0), Found(line, pos)))
  }

  lemma SearchStep(line: string, pos: nat, cursor: nat, inverted: bool)
    requires pos <= |line|
    ensures var sep := SeparatorAt(line, pos);
            Remaining(line, pos, cursor, inverted) ==
              if sep.None? then
                if pos == |line| then [Part(cursor, |line|, inverted)] else Remaining(line, pos + 1, cursor, inverted)
              else if Quoted(Spans(line, 0), pos) then Remaining(line, sep.value.end, cursor, inverted)
              else [Part(cursor, pos, inverted)] + Remaining(line, sep.value.end, sep.value.end, sep.value.contrast)
  {
    var sep := SeparatorAt(line, pos);
    if sep.Some? {
      var later := Found(line, sep.value.end);
      assert Found(line, pos)[1..] == later;
      var used := Used(Spans(line, 0), later);
      assert ([sep.value] + used)[1..] == used;
    }
  }

  lemma Moved(parts: seq<Part>, part: Part, rest: seq<Part>)
    ensures parts + ([part] + rest) == (parts + [part]) + rest
  {
  }

  lemma TrimmingsNext(s: string, parts: seq<Part>, i: nat)
    requires i < |parts| && forall p :: p in parts ==> p.lo <= p.hi <= |s|
    ensures var text := s[parts[i].lo..parts[i].hi];
            Trimmings(s, parts[..i + 1])
            == Trimmings(s, parts[..i]) + if Blank(text) then [] else [Clause(Strip(text), parts[i].inverted)]
  {
    assert parts[..i + 1][..i] == parts[..i];
  }

  method SplitParts(line: string) returns (parts: seq<Part>)
    ensures parts == Cut(line)
  {
    var spans := Spans(line, 0);
    var pos, cursor, inverted := 0, 0, false;
    parts := [];
    ghost var cut := Cut(line);
    assert cut == Remaining(line, 0, 0, false);
    while true
      invariant pos <= |line|
      invariant parts + Remaining(line, pos, cursor, inverted) == cut
      decreases |line| - pos
    {
      SearchStep(line, pos, cursor, inverted);
      match SeparatorAt(line, pos)
      case None =>
        if pos == |line| { break; }
        pos := pos + 1;
      case Some(sep) =>
        if !Quoted(spans, sep.start) {
          Moved(parts, Part(cursor, pos, inverted), Remaining(line, sep.end, sep.end, sep.contrast));
          parts := parts + [Part(cursor, sep.start, inverted)];
          inverted, cursor := sep.contrast, sep.end;
        }
        pos := sep.end;
    }
    parts := parts + [Part(cursor, |line|, inverted)];
  }

  method SplitClauses(line: string) returns (out: seq<Clause>)
    ensures out == ClausesOf(line)
  {
    var parts := SplitParts(line);
    out := [];
    for i := 0 to |parts|
      invariant forall p :: p in parts[..i] ==> p.lo <= p.hi <= |line|
      invariant out == Trimmings(line, parts[..i])
    {
      assert parts[i] in parts;
      TrimmingsNext(line, parts, i);
      var text := line[parts[i].lo..parts[i].hi];
      if !Blank(text) { out := out + [Clause(Strip(text), parts[i].inverted)]; }
    }
    assert parts[..|parts|] == parts;
    if out == [] { out := [Clause(line, false)]; }
  }

  // ----- mining ------------------------------------------------------------------------------------

  datatype Kind = Parameter | Test | Requirement | Literal | Forbidden | Signal | Identifier | Prose

  datatype Key = Key(kind: Kind, target: string, value: string)

  datatype Directive = Directive(key: Key, text: string)

  /** What the patterns find in a clause.  Snippets look like code, tokens never do. */
  datatype Miner = Miner(parameters: string -> seq<(string, string)>, tests: string -> seq<string>,
                         requirements: string -> seq<string>, snippets: string -> seq<string>, hints: Hints)

  datatype Hints = Hints(forbids: string -> bool, addsPort: string -> bool, requires_: string -> bool,
                         ports: string -> seq<string>, tokens: string -> seq<string>)

  /** A prohibition, turned round once more behind a contrast marker. */
  predicate Forbidding(m: Miner, c: Clause) {
    m.hints.forbids(c.text) != c.inverted
  }

  function Keys(kind: Kind, targets: seq<string>): seq<Key> {
    seq(|targets|, i requires 0 <= i < |targets| => Key(kind, targets[i], ""))
  }

  function FirstOf(xs: seq<string>, n: nat): seq<string> {
    if n < |xs| then xs[..n] else xs
  }

  /** Everything one clause asks for, in the order it is added. */
  function Asked(m: Miner, c: Clause): seq<Key> {
    var tokens, named := m.hints.tokens(c.text), m.hints.ports(c.text);
    var parameters := m.parameters(c.text);
    seq(|parameters|, i requires 0 <= i < |parameters| => Key(Parameter, parameters[i].0, parameters[i].1))
    + Keys(Test, m.tests(c.text))
    + Keys(Requirement, m.requirements(c.text))
    + Keys(if Forbidding(m, c) then Forbidden else Literal, m.snippets(c.text))
    + if !Forbidding(m, c) && m.hints.addsPort(c.text) then
        Keys(Signal, if named != [] then named else FirstOf(tokens, 1))
      else if Forbidding(m, c) then Keys(Forbidden, FirstOf(tokens, 2))
      else if m.hints.requires_(c.text) then Keys(Identifier, FirstOf(tokens, 2))
      else []
  }

  function KeysOf(ds: seq<Directive>): set<Key> {
    set d | d in ds :: d.key
  }

  /** Nothing is taken back, and whatever is new quotes `line`. */
  predicate Extends(before: seq<Directive>, after: seq<Directive>, line: string) {
    && |before| <= |after| && (forall i :: 0 <= i < |before| ==> after[i] == before[i])
    && forall i :: |before| <= i < |after| ==> after[i].text == line
  }

  class Extractor {
    const miner: Miner
    var seen: set<Key>
    var directives: seq<Directive>

    ghost predicate Valid()
      reads this
    {
      seen == KeysOf(directives)
    }

    constructor (m: Miner)
      ensures Valid() && miner == m && directives == []
    {
      miner, seen, directives := m, {}, [];
    }

    /** Each key is kept once, with the line that first asked for it. */
    method Add(key: Key, line: string) returns (added: bool)
      requires Valid()
      modifies this
      ensures Valid()
      ensures added <==> key.target != "" && key !in old(seen)
      ensures directives == old(directives) + if added then [Directive(key, line)] else []
      ensures seen == old(seen) + if added then {key} else {}
    {
      if key.target == "" || key in seen { return false; }
      seen := seen + {key};
      directives := directives + [Directive(key, line)];
      return true;
    }

    method AddAll(keys: seq<Key>, line: string) returns (decided: bool)
      requires Valid()
      modifies this
      ensures Valid() && Extends(old(directives), directives, line)
      ensures seen == old(seen) + Wanted(keys)
      ensures decided <==> seen != old(seen)
    {
      decided := false;
      for i := 0 to |keys|
        invariant Valid() && Extends(old(directives), directives, line)
        invariant seen == old(seen) + Wanted(keys[..i])
        invariant decided <==> seen != old(seen)
      {
        WantedNext(keys, i);
        var added := Add(keys[i], line);
        decided := decided || added;
      }
      assert keys[..|keys|] == keys;
    }

    /** One clause: what it asks for is what is now known besides what was known, whatever that was. */
    method MineClause(c: Clause, line: string) returns (decided: bool)
      requires Valid()
      modifies this
      ensures Valid() && Extends(old(directives), directives, line)
      ensures seen == old(seen) + Wanted(Asked(miner, c))
      ensures decided <==> seen != old(seen)
    {
      decided := AddAll(Asked(miner, c), line);
    }

    method MineClauses(clauses: seq<Clause>, line: string) returns (decided: bool)
      requires Valid()
      modifies this
      ensures Valid() && Extends(old(directives), directives, line)
      ensures seen == old(seen) + WantedBy(miner, clauses)
      ensures decided <==> seen != old(seen)
    {
      decided := false;
      for i := 0 to |clauses|
        invariant Valid() && Extends(old(directives), directives, line)
        invariant seen == old(seen) + WantedBy(miner, clauses[..i])
        invariant decided <==> seen != old(seen)
      {
        WantedByNext(miner, clauses, i);
        var more := MineClause(clauses[i], line);
        decided := decided || more;
      }
      assert clauses[..|clauses|] == clauses;
    }

    /**
     One line: the directives it adds are exactly those its clauses ask for, each clause on its own account,
     or the line itself as prose when that adds nothing.
     */
    method MineLine(line: string)
      requires Valid()
      modifies this
      ensures Valid() && Extends(old(directives), directives, line)
      ensures var asked := old(seen) + WantedBy(miner, ClausesOf(line));
              seen == if asked == old(seen) && line != "" then asked + {Key(Prose, line, "")} else asked
    {
      var clauses := SplitClauses(line);
      var decided := MineClauses(clauses, line);
      if !decided {
        var added := Add(Key(Prose, line, ""), line);
      }
    }
  }

  /** The keys that name something. */
  function Wanted(keys: seq<Key>): set<Key> {
    set k | k in keys && k.target != "" :: k
  }

  function WantedBy(m: Miner, clauses: seq<Clause>): set<Key> {
    set c, k | c in clauses && k in Wanted(Asked(m, c)) :: k
  }

  lemma WantedNext(keys: seq<Key>, i: nat)
    requires i < |keys|
    ensures Wanted(keys[..i + 1]) == Wanted(keys[..i]) + if keys[i].target != "" then {keys[i]} else {}
  {
    assert keys[..i + 1] == keys[..i] + [keys[i]];
  }

  lemma WantedByNext(m: Miner, clauses: seq<Clause>, i: nat)
    requires i < |clauses|
    ensures WantedBy(m, clauses[..i + 1]) == WantedBy(m, clauses[..i]) + Wanted(Asked(m, clauses[i]))
  {
    assert clauses[..i + 1] == clauses[..i] + [clauses[i]];
  }

  /**
   A prohibition asks for nothing of the kind it speaks of: names and snippets in it are only ever forbidden; and
   nothing else forbids anything.
   */
  lemma SignsDoNotMix(m: Miner, c: Clause, k: Key)
    requires k in Asked(m, c)
    ensures k.kind in {Literal, Signal, Identifier} ==> !Forbidding(m, c)
    ensures k.kind == Forbidden ==> Forbidding(m, c)
  {
    var tokens, named := m.hints.tokens(c.text), m.hints.ports(c.text);
    KeysHold(Test, m.tests(c.text), k.target);
    KeysHold(Requirement, m.requirements(c.text), k.target);
    KeysHold(if Forbidding(m, c) then Forbidden else Literal, m.snippets(c.text), k.target);
    KeysHold(Signal, if named != [] then named else FirstOf(tokens, 1), k.target);
    KeysHold(Forbidden, FirstOf(tokens, 2), k.target);
    KeysHold(Identifier, FirstOf(tokens, 2), k.target);
  }

  /** The first two names of a prohibition are forbidden; a port to be added is asked for under its own name. */
  lemma NamesAreTaken(m: Miner, c: Clause, i: nat)
    requires i < |m.hints.tokens(c.text)| && i < 2
    ensures Forbidding(m, c) ==> Key(Forbidden, m.hints.tokens(c.text)[i], "") in Asked(m, c)
    ensures !Forbidding(m, c) && m.hints.addsPort(c.text) && m.hints.ports(c.text) != [] ==>
              forall p :: p in m.hints.ports(c.text) ==> Key(Signal, p, "") in Asked(m, c)
    ensures !Forbidding(m, c) && m.hints.addsPort(c.text) && m.hints.ports(c.text) == [] && i == 0 ==>
              Key(Signal, m.hints.tokens(c.text)[0], "") in Asked(m, c)
    ensures !Forbidding(m, c) && !m.hints.addsPort(c.text) && m.hints.requires_(c.text) ==>
              Key(Identifier, m.hints.tokens(c.text)[i], "") in Asked(m, c)
  {
    var tokens, named := m.hints.tokens(c.text), m.hints.ports(c.text);
    assert tokens[i] in FirstOf(tokens, 2) && FirstOf(tokens, 1)[0] == tokens[0];
    KeysHold(Forbidden, FirstOf(tokens, 2), tokens[i]);
    KeysHold(Identifier, FirstOf(tokens, 2), tokens[i]);
    KeysHold(Signal, FirstOf(tokens, 1), tokens[0]);
    forall p | p in named ensures Key(Signal, p, "") in Keys(Signal, named) { KeysHold(Signal, named, p); }
  }

  /** Code is quoted code; the bare words and quoted names that tokens are never look like code. */
  ghost predicate TellsCodeFromNames(m: Miner, code: string -> bool) {
    && (forall text: string, t :: t in m.snippets(text) ==> code(t))
    && (forall text: string, t :: t in m.hints.tokens(text) ==> !code(t))
  }

  lemma AskedSnippets(m: Miner, c: Clause, code: string -> bool, snippet: string)
    requires TellsCodeFromNames(m, code) && code(snippet)
    ensures Key(Forbidden, snippet, "") in Asked(m, c) <==> snippet in m.snippets(c.text) && Forbidding(m, c)
    ensures Key(Literal, snippet, "") in Asked(m, c) <==> snippet in m.snippets(c.text) && !Forbidding(m, c)
  {
    var kind := if Forbidding(m, c) then Forbidden else Literal;
    var snippets, tokens := m.snippets(c.text), m.hints.tokens(c.text);
    KeysHold(kind, snippets, snippet);
    KeysHold(Forbidden, FirstOf(tokens, 2), snippet);
    FirstAreIn(tokens, 2);
  }

  lemma FirstAreIn(xs: seq<string>, n: nat)
    ensures forall x :: x in FirstOf(xs, n) ==> x in xs
  {
  }

  lemma KeysHold(kind: Kind, targets: seq<string>, target: string)
    ensures Key(kind, target, "") in Keys(kind, targets) <==> target in targets
    ensures forall k :: k in Keys(kind, targets) ==> k.kind == kind
  {
    if target in targets {
      var i :| 0 <= i < |targets| && targets[i] == target;
      assert Keys(kind, targets)[i] == Key(kind, target, "");
    }
  }

  /**
   A quoted piece of code becomes forbidden exactly when some clause holds it whose own prohibition differs
   from its inversion, and required exactly when some clause holds it whose prohibition does not: no other
   clause of the line has a say.
   */
  lemma SnippetSignIsItsClauses(m: Miner, line: string, code: string -> bool, snippet: string)
    requires TellsCodeFromNames(m, code) && code(snippet) && snippet != ""
    ensures Key(Forbidden, snippet, "") in WantedBy(m, ClausesOf(line)) <==>
      exists c :: c in ClausesOf(line) && snippet in m.snippets(c.text) && m.hints.forbids(c.text) != c.inverted
    ensures Key(Literal, snippet, "") in WantedBy(m, ClausesOf(line)) <==>
      exists c :: c in ClausesOf(line) && snippet in m.snippets(c.text) && m.hints.forbids(c.text) == c.inverted
  {
    var clauses := ClausesOf(line);
    forall c ensures Key(Forbidden, snippet, "") in Wanted(Asked(m, c))
                     <==> snippet in m.snippets(c.text) && m.hints.forbids(c.text) != c.inverted
             ensures Key(Literal, snippet, "") in Wanted(Asked(m, c))
                     <==> snippet in m.snippets(c.text) && m.hints.forbids(c.text) == c.inverted
    {
      AskedSnippets(m, c, code, snippet);
    }
  }
}
