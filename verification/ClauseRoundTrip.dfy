/**
 Two clauses joined by a separator come apart as they were, each with its own sign
 (app/modules/blocks/directives.py).
 */
module ClauseRoundTrip {
  import opened Common
  import opened Text
  import opened Clauses

  ghost predicate Has(s: string, word: string) {
    exists i: nat :: OpensAt(s, i, word)
  }

  /** Nothing in it reads as a separator, or as the beginning of one. */
  ghost predicate Quiet(s: string) {
    && ';' !in s && '.' !in s && !Has(s, "instead") && !Has(s, "rather")
    && (',' in s ==> !Has(s, "not"))
  }

  /** A clause as a writer puts it down. */
  ghost predicate IsClause(s: string) {
    s != "" && Trimmed(s) && Quiet(s)
  }

  // ----- no separator inside a clause --------------------------------------------------------------

  lemma LetterOf(s: string, j: nat, word: string, n: nat)
    requires OpensAt(s, j, word) && j <= n < j + |word|
    ensures s[n] in word
  {
    assert s[j..j + |word|][n - j] == s[n];
  }

  lemma OpensInPart(s: string, lo: nat, n: nat, j: nat, word: string)
    requires lo <= j && j + |word| <= n <= |s| && OpensAt(s, j, word)
    ensures OpensAt(s[lo..n], j - lo, word)
  {
    var part, k := s[lo..n], j - lo;
    assert forall i :: 0 <= i < |part| ==> part[i] == s[lo + i];
    assert part[k..k + |word|] == s[j..j + |word|] == word;
  }

  /** A word that opens in `s[lo..n]` lies in it, if it cannot go on with the character at `n`. */
  lemma WordIsWithin(s: string, lo: nat, n: nat, j: nat, word: string)
    requires lo <= j < n <= |s| && OpensAt(s, j, word) && (n < |s| ==> s[n] !in word)
    ensures Has(s[lo..n], word)
  {
    if n < j + |word| { LetterOf(s, j, word, n); }
    OpensInPart(s, lo, n, j, word);
  }

  /** What may stand right behind a clause: the end, or a character that begins a separator. */
  ghost predicate Ends(s: string, n: nat) {
    && n <= |s| && (n < |s| ==> s[n] !in "instead" && s[n] !in "rather" && s[n] !in "not")
    && !OpensAt(s, SkipSpaces(s, n), "not")
  }

  lemma NoSemicolonInside(s: string, lo: nat, n: nat, i: nat)
    requires lo <= i < n <= |s| && !IsSpace(s[n - 1]) && ';' !in s[lo..n]
    ensures SkipSpaces(s, i) < n && Semicolon(s, i) == 0
  {
    var j := SkipSpaces(s, i);
    assert s[lo..n][j - lo] == s[j];
  }

  lemma NoInsteadInside(s: string, lo: nat, n: nat, i: nat)
    requires lo <= i < n && Ends(s, n) && SkipSpaces(s, i) < n
    requires !Has(s[lo..n], "instead") && !Has(s[lo..n], "rather")
    ensures InsteadOf(s, i) == 0
  {
    var j := SkipSpaces(s, i);
    if OpensAt(s, j, "instead") { WordIsWithin(s, lo, n, j, "instead"); }
    if OpensAt(s, j, "rather") { WordIsWithin(s, lo, n, j, "rather"); }
  }

  lemma NoCommaNotInside(s: string, lo: nat, n: nat, i: nat)
    requires lo <= i < n && Ends(s, n) && !IsSpace(s[n - 1])
    requires ',' in s[lo..n] ==> !Has(s[lo..n], "not")
    ensures CommaNot(s, i) == 0
  {
    if s[i] == ',' {
      assert s[lo..n][i - lo] == ',';
      var j := SkipSpaces(s, i + 1);
      if j < n && OpensAt(s, j, "not") { WordIsWithin(s, lo, n, j, "not"); }
      assert i + 1 < n ==> j < n;
    }
  }

  lemma NoSeparatorInside(s: string, lo: nat, n: nat, i: nat)
    requires lo <= i < n && Ends(s, n) && !IsSpace(s[n - 1]) && Quiet(s[lo..n])
    ensures SeparatorAt(s, i).None?
  {
    NoSemicolonInside(s, lo, n, i);
    NoInsteadInside(s, lo, n, i);
    NoCommaNotInside(s, lo, n, i);
    assert s[lo..n][i - lo] == s[i];
  }

  lemma {:induction false} FoundSkips(s: string, i: nat, n: nat)
    requires i <= n <= |s| && forall k :: i <= k < n ==> SeparatorAt(s, k).None?
    ensures Found(s, i) == Found(s, n)
    decreases n - i
  {
    if i < n { FoundSkips(s, i + 1, n); }
  }

  // ----- the separator itself ----------------------------------------------------------------------

  predicate SolidAt(s: string, n: nat) {
    n < |s| ==> !IsSpace(s[n])
  }

  lemma OpensApart(s: string, i: nat, a: string, b: string)
    requires OpensAt(s, i, a + b)
    ensures OpensAt(s, i, a) && OpensAt(s, i + |a|, b)
  {
    var n := i + |a| + |b|;
    assert s[i..i + |a|] == s[i..n][..|a|] == a;
    assert s[i + |a|..n] == s[i..n][|a|..] == b;
  }

  lemma FirstIs(s: string, i: nat, word: string)
    requires OpensAt(s, i, word) && word != ""
    ensures i < |s| && s[i] == word[0]
  {
    assert s[i..i + |word|][0] == s[i];
  }

  lemma GapIsSkipped(s: string, i: nat, gap: string, j: nat)
    requires OpensAt(s, i, gap) && Blank(gap) && j == i + |gap| && SolidAt(s, j)
    ensures SkipSpaces(s, i) == j
  {
    forall k | i <= k < j ensures IsSpace(s[k]) { assert s[k] == s[i..j][k - i]; }
  }

  lemma SemicolonSeparates(s: string, i: nat, j: nat, end: nat)
    requires i <= j < |s| && SkipSpaces(s, i) == j && s[j] == ';' && SkipSpaces(s, j + 1) == end
    ensures SeparatorAt(s, i) == Some(Separator(i, end, false))
  {
  }

  lemma TwoWordsOpen(s: string, j: nat, first: string, b: nat, second: string, end: nat)
    requires '`' !in first && '`' !in second
    requires OpensAt(s, j, first) && SkipSpaces(s, j + |first|) == b > j + |first|
    requires OpensAt(s, b, second) && SkipSpaces(s, b + |second|) == end > b + |second|
    ensures TwoWords(s, j, first, second) == end
  {
  }

  lemma NotBoth(s: string, j: nat)
    requires j <= |s| && OpensAt(s, j, "rather")
    ensures TwoWords(s, j, "instead", "of") == 0
  {
    FirstIs(s, j, "rather");
    if OpensAt(s, j, "instead") { FirstIs(s, j, "instead"); }
  }

  lemma InsteadSeparates(s: string, i: nat, j: nat, end: nat)
    requires i < j < end && j < |s| && SkipSpaces(s, i) == j && s[j] != ';'
    requires || TwoWords(s, j, "instead", "of") == end
             || (TwoWords(s, j, "instead", "of") == 0 && TwoWords(s, j, "rather", "than") == end)
    ensures SeparatorAt(s, i) == Some(Separator(i, end, true))
  {
  }

  lemma NotSeparates(s: string, i: nat, j: nat, end: nat)
    requires i < |s| && s[i] == ',' && SkipSpaces(s, i + 1) == j && OpensAt(s, j, "not")
    requires SkipSpaces(s, j + 3) == end > j + 3
    ensures SeparatorAt(s, i) == Some(Separator(i, end, true))
  {
  }

  lemma StopSeparates(s: string, i: nat, end: nat)
    requires 2 <= i < |s| && s[i] == '.' && ClosesWord(s[i - 1]) && ClosesWord(s[i - 2])
    requires SkipSpaces(s, i + 1) == end > i + 1
    ensures SeparatorAt(s, i) == Some(Separator(i, end, false))
  {
  }

  /** The pieces of `m` one behind the other from `i` to `end`. */
  ghost predicate Stands(s: string, i: nat, m: Marker, end: nat) {
    match m
    case Semi(gap, after) =>
      var j := i + |gap|;
      OpensAt(s, i, gap) && OpensAt(s, j, ";") && OpensAt(s, j + 1, after) && end == j + 1 + |after|
    case Contrast(gap, false, between, after) =>
      var j := i + |gap|;
      var b := j + 7 + |between|;
      && OpensAt(s, i, gap) && OpensAt(s, j, "instead") && OpensAt(s, j + 7, between)
      && OpensAt(s, b, "of") && OpensAt(s, b + 2, after) && end == b + 2 + |after|
    case Contrast(gap, true, between, after) =>
      var j := i + |gap|;
      var b := j + 6 + |between|;
      && OpensAt(s, i, gap) && OpensAt(s, j, "rather") && OpensAt(s, j + 6, between)
      && OpensAt(s, b, "than") && OpensAt(s, b + 4, after) && end == b + 4 + |after|
    case Not(between, after) =>
      var j := i + 1 + |between|;
      && OpensAt(s, i, ",") && OpensAt(s, i + 1, between) && OpensAt(s, j, "not") && OpensAt(s, j + 3, after)
      && end == j + 3 + |after|
    case Stop(after) => OpensAt(s, i, ".") && OpensAt(s, i + 1, after) && end == i + 1 + |after|
  }

  lemma ThreeApart(s: string, i: nat, a: string, b: string, c: string)
    requires OpensAt(s, i, a + b + c)
    ensures OpensAt(s, i, a) && OpensAt(s, i + |a|, b) && OpensAt(s, i + |a| + |b|, c)
  {
    OpensApart(s, i, a + b, c);
    OpensApart(s, i, a, b);
  }

  lemma FiveApart(s: string, i: nat, a: string, j: nat, b: string, k: nat, c: string, l: nat, d: string, n: nat,
                  e: string)
    requires OpensAt(s, i, a + b + c + d + e)
    requires j == i + |a| && k == j + |b| && l == k + |c| && n == l + |d|
    ensures OpensAt(s, i, a) && OpensAt(s, j, b) && OpensAt(s, k, c) && OpensAt(s, l, d) && OpensAt(s, n, e)
  {
    OpensApart(s, i, a + b + c + d, e);
    OpensApart(s, i, a + b + c, d);
    ThreeApart(s, i, a, b, c);
  }

  lemma FourApart(s: string, i: nat, a: string, b: string, c: string, d: string)
    requires OpensAt(s, i, a + b + c + d)
    ensures OpensAt(s, i, a) && OpensAt(s, i + |a|, b) && OpensAt(s, i + |a| + |b|, c)
    ensures OpensAt(s, i + |a| + |b| + |c|, d)
  {
    OpensApart(s, i, a + b + c, d);
    ThreeApart(s, i, a, b, c);
  }

  lemma PrintStands(s: string, i: nat, m: Marker, end: nat)
    requires OpensAt(s, i, m.Print()) && end == i + |m.Print()|
    ensures Stands(s, i, m, end)
  {
    match m {
      case Semi(_, _) => SemiStands(s, i, m, end);
      case Contrast(_, _, _, _) => ContrastStands(s, i, m, end);
      case Not(_, _) => NotStands(s, i, m, end);
      case Stop(after) => OpensApart(s, i, ".", after);
    }
  }

  lemma SemiStands(s: string, i: nat, m: Marker, end: nat)
    requires m.Semi? && OpensAt(s, i, m.Print()) && end == i + |m.Print()|
    ensures Stands(s, i, m, end)
  {
    ThreeApart(s, i, m.gap, ";", m.after);
  }

  lemma InsteadPieces(s: string, i: nat, gap: string, j: nat, between: string, b: nat, after: string)
    requires OpensAt(s, i, gap + "instead" + between + "of" + after) && j == i + |gap| && b == j + 7 + |between|
    ensures OpensAt(s, i, gap) && OpensAt(s, j, "instead") && OpensAt(s, j + 7, between)
    ensures OpensAt(s, b, "of") && OpensAt(s, b + 2, after)
  {
    FiveApart(s, i, gap, j, "instead", j + 7, between, b, "of", b + 2, after);
  }

  lemma InsteadStands(s: string, i: nat, m: Marker, end: nat)
    requires m.Contrast? && !m.rather && OpensAt(s, i, m.gap + "instead" + m.between + "of" + m.after)
    requires end == i + |m.gap| + 7 + |m.between| + 2 + |m.after|
    ensures Stands(s, i, m, end)
  {
    InsteadPieces(s, i, m.gap, i + |m.gap|, m.between, i + |m.gap| + 7 + |m.between|, m.after);
  }

  lemma RatherPieces(s: string, i: nat, gap: string, j: nat, between: string, b: nat, after: string)
    requires OpensAt(s, i, gap + "rather" + between + "than" + after) && j == i + |gap| && b == j + 6 + |between|
    ensures OpensAt(s, i, gap) && OpensAt(s, j, "rather") && OpensAt(s, j + 6, between)
    ensures OpensAt(s, b, "than") && OpensAt(s, b + 4, after)
  {
    FiveApart(s, i, gap, j, "rather", j + 6, between, b, "than", b + 4, after);
  }

  lemma RatherStands(s: string, i: nat, m: Marker, end: nat)
    requires m.Contrast? && m.rather && OpensAt(s, i, m.gap + "rather" + m.between + "than" + m.after)
    requires end == i + |m.gap| + 6 + |m.between| + 4 + |m.after|
    ensures Stands(s, i, m, end)
  {
    RatherPieces(s, i, m.gap, i + |m.gap|, m.between, i + |m.gap| + 6 + |m.between|, m.after);
  }

  lemma ContrastStands(s: string, i: nat, m: Marker, end: nat)
    requires m.Contrast? && OpensAt(s, i, m.Print()) && end == i + |m.Print()|
    ensures Stands(s, i, m, end)
  {
    if m.rather {
      RatherStands(s, i, m, end);
    } else {
      InsteadStands(s, i, m, end);
    }
  }

  lemma NotStands(s: string, i: nat, m: Marker, end: nat)
    requires m.Not? && OpensAt(s, i, m.Print()) && end == i + |m.Print()|
    ensures Stands(s, i, m, end)
  {
    FourApart(s, i, ",", m.between, "not", m.after);
  }

  lemma SemiIsSkipped(s: string, i: nat, gap: string, j: nat, after: string, end: nat)
    requires OpensAt(s, i, gap) && j == i + |gap| && OpensAt(s, j, ";") && OpensAt(s, j + 1, after)
    requires end == j + 1 + |after| && Blank(gap) && Blank(after) && SolidAt(s, end)
    ensures j < |s| && SkipSpaces(s, i) == j && s[j] == ';' && SkipSpaces(s, j + 1) == end
  {
    FirstIs(s, j, ";");
    GapIsSkipped(s, i, gap, j);
    GapIsSkipped(s, j + 1, after, end);
  }

  lemma SemiIsSeen(s: string, i: nat, m: Marker, end: nat)
    requires m.Semi? && m.Valid() && Stands(s, i, m, end) && SolidAt(s, end)
    ensures SeparatorAt(s, i) == Some(Separator(i, end, false))
  {
    SemiIsSkipped(s, i, m.gap, i + |m.gap|, m.after, end);
    SemicolonSeparates(s, i, i + |m.gap|, end);
  }

  lemma NotIsSkipped(s: string, i: nat, between: string, j: nat, after: string, end: nat)
    requires OpensAt(s, i, ",") && OpensAt(s, i + 1, between) && j == i + 1 + |between|
    requires OpensAt(s, j, "not") && OpensAt(s, j + 3, after) && end == j + 3 + |after|
    requires Blank(between) && Blank(after) && SolidAt(s, end)
    ensures i < |s| && s[i] == ',' && SkipSpaces(s, i + 1) == j && SkipSpaces(s, j + 3) == end
  {
    FirstIs(s, i, ",");
    FirstIs(s, j, "not");
    GapIsSkipped(s, i + 1, between, j);
    GapIsSkipped(s, j + 3, after, end);
  }

  lemma NotIsSeen(s: string, i: nat, m: Marker, end: nat)
    requires m.Not? && m.Valid() && Stands(s, i, m, end) && SolidAt(s, end)
    ensures SeparatorAt(s, i) == Some(Separator(i, end, true))
  {
    var j := i + 1 + |m.between|;
    NotIsSkipped(s, i, m.between, j, m.after, end);
    NotSeparates(s, i, j, end);
  }

  lemma WordsAreSkipped(s: string, i: nat, gap: string, j: nat, first: string, between: string, b: nat,
                        second: string, after: string, end: nat)
    requires OpensAt(s, i, gap) && j == i + |gap| && OpensAt(s, j, first)
    requires OpensAt(s, j + |first|, between) && b == j + |first| + |between| && OpensAt(s, b, second)
    requires OpensAt(s, b + |second|, after) && end == b + |second| + |after| && SolidAt(s, end)
    requires Blank(gap) && Blank(between) && Blank(after)
    requires first != "" && !IsSpace(first[0]) && second != "" && !IsSpace(second[0])
    ensures j < |s| && s[j] == first[0] && SkipSpaces(s, i) == j
    ensures SkipSpaces(s, j + |first|) == b && SkipSpaces(s, b + |second|) == end
  {
    FirstIs(s, j, first);
    FirstIs(s, b, second);
    GapIsSkipped(s, i, gap, j);
    GapIsSkipped(s, j + |first|, between, b);
    GapIsSkipped(s, b + |second|, after, end);
  }

  lemma InsteadIsSeen(s: string, i: nat, j: nat, b: nat, end: nat)
    requires i < j < |s| && SkipSpaces(s, i) == j && s[j] == 'i' && OpensAt(s, j, "instead")
    requires SkipSpaces(s, j + 7) == b > j + 7 && OpensAt(s, b, "of") && SkipSpaces(s, b + 2) == end > b + 2
    ensures SeparatorAt(s, i) == Some(Separator(i, end, true))
  {
    TwoWordsOpen(s, j, "instead", b, "of", end);
    InsteadSeparates(s, i, j, end);
  }

  lemma RatherIsSeen(s: string, i: nat, j: nat, b: nat, end: nat)
    requires i < j < |s| && SkipSpaces(s, i) == j && s[j] == 'r' && OpensAt(s, j, "rather")
    requires SkipSpaces(s, j + 6) == b > j + 6 && OpensAt(s, b, "than") && SkipSpaces(s, b + 4) == end > b + 4
    ensures SeparatorAt(s, i) == Some(Separator(i, end, true))
  {
    TwoWordsOpen(s, j, "rather", b, "than", end);
    NotBoth(s, j);
    InsteadSeparates(s, i, j, end);
  }

  lemma InsteadReads(s: string, i: nat, gap: string, j: nat, between: string, b: nat, after: string, end: nat)
    requires OpensAt(s, i, gap) && j == i + |gap| && OpensAt(s, j, "instead")
    requires OpensAt(s, j + 7, between) && b == j + 7 + |between| && OpensAt(s, b, "of")
    requires OpensAt(s, b + 2, after) && end == b + 2 + |after| && SolidAt(s, end)
    requires gap != "" && Blank(gap) && between != "" && Blank(between) && after != "" && Blank(after)
    ensures SeparatorAt(s, i) == Some(Separator(i, end, true))
  {
    WordsAreSkipped(s, i, gap, j, "instead", between, b, "of", after, end);
    InsteadIsSeen(s, i, j, b, end);
  }

  lemma RatherReads(s: string, i: nat, gap: string, j: nat, between: string, b: nat, after: string, end: nat)
    requires OpensAt(s, i, gap) && j == i + |gap| && OpensAt(s, j, "rather")
    requires OpensAt(s, j + 6, between) && b == j + 6 + |between| && OpensAt(s, b, "than")
    requires OpensAt(s, b + 4, after) && end == b + 4 + |after| && SolidAt(s, end)
    requires gap != "" && Blank(gap) && between != "" && Blank(between) && after != "" && Blank(after)
    ensures SeparatorAt(s, i) == Some(Separator(i, end, true))
  {
    WordsAreSkipped(s, i, gap, j, "rather", between, b, "than", after, end);
    RatherIsSeen(s, i, j, b, end);
  }

  lemma ContrastIsSeen(s: string, i: nat, m: Marker, end: nat)
    requires m.Contrast? && m.Valid() && Stands(s, i, m, end) && SolidAt(s, end)
    ensures SeparatorAt(s, i) == Some(Separator(i, end, true))
  {
    var j := i + |m.gap|;
    if m.rather {
      RatherReads(s, i, m.gap, j, m.between, j + 6 + |m.between|, m.after, end);
    } else {
      InsteadReads(s, i, m.gap, j, m.between, j + 7 + |m.between|, m.after, end);
    }
  }

  lemma StopIsSeen(s: string, i: nat, m: Marker, end: nat)
    requires m.Stop? && m.Valid() && Stands(s, i, m, end) && SolidAt(s, end)
    requires i >= 2 && ClosesWord(s[i - 1]) && ClosesWord(s[i - 2])
    ensures SeparatorAt(s, i) == Some(Separator(i, end, false))
  {
    FirstIs(s, i, ".");
    GapIsSkipped(s, i + 1, m.after, end);
    StopSeparates(s, i, end);
  }

  /** Wherever it is written, a separator is seen as it was meant, up to what follows it. */
  lemma MarkerSeparates(s: string, i: nat, m: Marker, end: nat)
    requires m.Valid() && Stands(s, i, m, end) && SolidAt(s, end)
    requires m.Stop? ==> i >= 2 && ClosesWord(s[i - 1]) && ClosesWord(s[i - 2])
    ensures SeparatorAt(s, i) == Some(Separator(i, end, m.Contrasts()))
  {
    match m {
      case Semi(_, _) => SemiIsSeen(s, i, m, end);
      case Contrast(_, _, _, _) => ContrastIsSeen(s, i, m, end);
      case Not(_, _) => NotIsSeen(s, i, m, end);
      case Stop(_) => StopIsSeen(s, i, m, end);
    }
  }

  lemma NoTickInside(m: Marker)
    requires m.Valid()
    ensures m.Print() != "" && '`' !in m.Print()
  {
    match m {
      case Semi(gap, after) =>
        BlankHas(gap, '`');
        BlankHas(after, '`');
        assert '`' !in ";";
      case Contrast(gap, _, between, after) =>
        BlankHas(gap, '`');
        BlankHas(between, '`');
        BlankHas(after, '`');
        assert '`' !in "instead" && '`' !in "of" && '`' !in "rather" && '`' !in "than";
      case Not(between, after) =>
        BlankHas(between, '`');
        BlankHas(after, '`');
        assert '`' !in "not" && '`' !in ",";
      case Stop(after) =>
        BlankHas(after, '`');
        assert '`' !in ".";
    }
  }

  // ----- two clauses and what stands between them --------------------------------------------------

  lemma NotIsNotAt(s: string, j: nat)
    requires j < |s| ==> s[j] != 'n'
    ensures !OpensAt(s, j, "not")
  {
    if OpensAt(s, j, "not") { FirstIs(s, j, "not"); }
  }

  lemma SkipsNothing(s: string, i: nat)
    requires i <= |s| && SolidAt(s, i)
    ensures SkipSpaces(s, i) == i
  {
  }

  /** A separator begins with a blank or with a character of its own, and none of them goes on as "not". */
  lemma MarkerEnds(s: string, n: nat, m: Marker, end: nat)
    requires m.Valid() && Stands(s, n, m, end)
    ensures Ends(s, n)
  {
    match m {
      case Semi(gap, _) =>
        FirstIs(s, n + |gap|, ";");
        Border(s, n, gap, n + |gap|);
      case Contrast(_, _, _, _) =>
        ContrastEnds(s, n, m, end);
      case Not(_, _) =>
        FirstIs(s, n, ",");
        SkipsNothing(s, n);
        NotIsNotAt(s, n);
      case Stop(_) =>
        FirstIs(s, n, ".");
        SkipsNothing(s, n);
        NotIsNotAt(s, n);
    }
  }

  lemma ContrastEnds(s: string, n: nat, m: Marker, end: nat)
    requires m.Contrast? && m.Valid() && Stands(s, n, m, end)
    ensures Ends(s, n)
  {
    var j := n + |m.gap|;
    if m.rather {
      FirstIs(s, j, "rather");
    } else {
      FirstIs(s, j, "instead");
    }
    Border(s, n, m.gap, j);
  }

  lemma Border(s: string, n: nat, gap: string, j: nat)
    requires OpensAt(s, n, gap) && Blank(gap) && j == n + |gap| < |s| && s[j] in {';', 'i', 'r'}
    requires gap == "" ==> s[j] == ';'
    ensures Ends(s, n)
  {
    GapIsSkipped(s, n, gap, j);
    NotIsNotAt(s, j);
    if gap != "" { FirstIs(s, n, gap); }
  }

  lemma NothingAtTheEnd(s: string)
    ensures SeparatorAt(s, |s|).None? && Ends(s, |s|)
  {
  }

  /** A clause at the end of the line, from `lo` on. */
  lemma NothingBehind(s: string, lo: nat)
    requires lo < |s| && !IsSpace(s[|s| - 1]) && Quiet(s[lo..])
    ensures Found(s, lo) == []
  {
    NothingAtTheEnd(s);
    assert s[lo..|s|] == s[lo..];
    forall i | lo <= i < |s| ensures SeparatorAt(s, i).None? { NoSeparatorInside(s, lo, |s|, i); }
    FoundSkips(s, lo, |s|);
  }

  /** A clause at the start of the line, up to `n`. */
  lemma NothingBefore(s: string, n: nat)
    requires 0 < n && Ends(s, n) && !IsSpace(s[n - 1]) && Quiet(s[..n])
    ensures Found(s, 0) == Found(s, n)
  {
    assert s[0..n] == s[..n];
    forall i | 0 <= i < n ensures SeparatorAt(s, i).None? { NoSeparatorInside(s, 0, n, i); }
    FoundSkips(s, 0, n);
  }

  lemma UsedOfOne(spans: seq<Span>, q: Separator)
    ensures Used(spans, [q]) == if Quoted(spans, q.start) then [] else [q]
  {
    assert [q][1..] == [] && Used(spans, []) == [];
  }

  lemma PartsOfOne(n: nat, q: Separator)
    ensures Parts(n, 0, false, [q]) == [Part(0, q.start, false), Part(q.end, n, q.contrast)]
  {
    assert [q][1..] == [] && Parts(n, q.end, q.contrast, []) == [Part(q.end, n, q.contrast)];
  }

  lemma CutIsOfTheUsed(line: string)
    ensures Cut(line) == Parts(|line|, 0, false, UsedIn(line))
  {
  }

  lemma CutAtOne(line: string, q: Separator)
    requires Found(line, 0) == [q]
    ensures Cut(line) == if Quoted(Spans(line, 0), q.start) then [Part(0, |line|, false)]
                         else [Part(0, q.start, false), Part(q.end, |line|, q.contrast)]
  {
    CutIsOfTheUsed(line);
    UsedOfOne(Spans(line, 0), q);
    PartsOfOne(|line|, q);
  }

  lemma TwoTexts(line: string, a: string, n: nat, end: nat, b: string, contrast: bool)
    requires n <= end <= |line| && line[0..n] == a && line[end..|line|] == b
    requires a != "" && Trimmed(a) && b != "" && Trimmed(b)
    ensures Trimmings(line, [Part(0, n, false), Part(end, |line|, contrast)]) == [Clause(a, false), Clause(b, contrast)]
  {
    var first, both := [Part(0, n, false)], [Part(0, n, false), Part(end, |line|, contrast)];
    assert first[..0] == [] && both[..1] == first;
    assert Trimmings(line, []) == [];
    assert Trimmings(line, first) == [Clause(a, false)];
  }

  lemma OneText(line: string)
    requires line != "" && Trimmed(line)
    ensures Trimmings(line, [Part(0, |line|, false)]) == [Clause(line, false)]
  {
    assert [Part(0, |line|, false)][..0] == [] && line[0..|line|] == line;
  }

  /** What is known of `line` besides what stands between `a` and `b`. */
  ghost predicate Around(line: string, n: nat, end: nat, a: string, b: string) {
    && n == |a| && 0 < n < end < |line| && line[..n] == a && line[0..n] == a
    && line[end..] == b && line[end..|line|] == b && Trimmed(line)
    && !IsSpace(line[n - 1]) && !IsSpace(line[|line| - 1]) && SolidAt(line, end)
    && (n >= 2 ==> line[n - 1] == a[n - 1] && line[n - 2] == a[n - 2])
  }

  lemma LineOf(a: string, p: string, b: string)
    requires a != "" && Trimmed(a) && p != "" && b != "" && Trimmed(b)
    ensures Around(a + p + b, |a|, |a| + |p|, a, b) && OpensAt(a + p + b, |a|, p)
  {
    var line, n, end := a + p + b, |a|, |a| + |p|;
    assert line[end] == b[0] && line[|line| - 1] == b[|b| - 1] && line[0] == a[0] && line[n - 1] == a[n - 1];
  }

  ghost predicate Follows(a: string, m: Marker) {
    m.Stop? ==> |a| >= 2 && ClosesWord(a[|a| - 1]) && ClosesWord(a[|a| - 2])
  }

  /** `s` is a clause up to `n`, then `m` up to `end`, then a clause. */
  ghost predicate Joined(s: string, n: nat, m: Marker, end: nat) {
    && 0 < n < end < |s| && m.Valid() && Stands(s, n, m, end) && SolidAt(s, end)
    && (m.Stop? ==> n >= 2 && ClosesWord(s[n - 1]) && ClosesWord(s[n - 2]))
    && !IsSpace(s[n - 1]) && !IsSpace(s[|s| - 1]) && Quiet(s[..n]) && Quiet(s[end..])
  }

  /** Those clauses are `a` and `b`. */
  ghost predicate Joins(line: string, n: nat, m: Marker, end: nat, a: string, b: string) {
    && Joined(line, n, m, end) && Trimmed(line) && line[0..n] == a && line[end..|line|] == b
    && a != "" && Trimmed(a) && b != "" && Trimmed(b)
  }

  lemma PartsJoin(line: string, n: nat, m: Marker, end: nat, a: string, b: string)
    requires IsClause(a) && IsClause(b) && m.Valid() && Follows(a, m)
    requires Around(line, n, end, a, b) && Stands(line, n, m, end)
    ensures Joins(line, n, m, end, a, b)
  {
  }

  lemma LineIsJoined(line: string, n: nat, m: Marker, end: nat, a: string, b: string)
    requires IsClause(a) && IsClause(b) && m.Valid() && Follows(a, m)
    requires line == a + m.Print() + b && n == |a| && end == n + |m.Print()|
    ensures Joins(line, n, m, end, a, b)
  {
    NoTickInside(m);
    LineOf(a, m.Print(), b);
    PrintStands(line, n, m, end);
    PartsJoin(line, n, m, end, a, b);
  }

  lemma FoundHere(s: string, i: nat, q: Separator)
    requires i <= |s| && SeparatorAt(s, i) == Some(q)
    ensures Found(s, i) == [q] + Found(s, q.end)
  {
  }

  lemma OneIsFound(s: string, n: nat, m: Marker, end: nat)
    requires Joined(s, n, m, end)
    ensures Found(s, 0) == [Separator(n, end, m.Contrasts())]
  {
    MarkerEnds(s, n, m, end);
    NothingBefore(s, n);
    NothingBehind(s, end);
    MarkerSeparates(s, n, m, end);
    FoundHere(s, n, Separator(n, end, m.Contrasts()));
  }

  lemma ClausesOfOne(line: string, q: Separator, a: string, b: string)
    requires Found(line, 0) == [q] && q.start <= q.end <= |line| && line[0..q.start] == a && line[q.end..|line|] == b
    requires a != "" && Trimmed(a) && b != "" && Trimmed(b) && line != "" && Trimmed(line)
    ensures ClausesOf(line) == if Quoted(Spans(line, 0), q.start) then [Clause(line, false)]
                               else [Clause(a, false), Clause(b, q.contrast)]
  {
    CutAtOne(line, q);
    OneText(line);
    TwoTexts(line, a, q.start, q.end, b, q.contrast);
  }

  lemma JoinedComesApart(line: string, n: nat, m: Marker, end: nat, a: string, b: string)
    requires Joins(line, n, m, end, a, b)
    ensures ClausesOf(line) == if Quoted(Spans(line, 0), n) then [Clause(line, false)]
                               else [Clause(a, false), Clause(b, m.Contrasts())]
  {
    OneIsFound(line, n, m, end);
    ClausesOfOne(line, Separator(n, end, m.Contrasts()), a, b);
  }

  /**
   Any two clauses joined by any separator come apart as they were, the second inverted iff the separator
   contrasts; within a quoted span the separator is none, and the line is one clause.
   */
  lemma ClausesComeApart(a: string, m: Marker, b: string)
    requires IsClause(a) && IsClause(b) && m.Valid() && Follows(a, m)
    ensures var line := a + m.Print() + b;
            ClausesOf(line) == if Quoted(Spans(line, 0), |a|) then [Clause(line, false)]
                               else [Clause(a, false), Clause(b, m.Contrasts())]
  {
    var line, n, end := a + m.Print() + b, |a|, |a| + |m.Print()|;
    LineIsJoined(line, n, m, end, a, b);
    JoinedComesApart(line, n, m, end, a, b);
  }

  /** A separator can only be quoted if there is a backtick on either side of it. */
  lemma QuotedBetweenTicks(a: string, m: Marker, b: string)
    requires m.Valid() && Quoted(Spans(a + m.Print() + b, 0), |a|)
    ensures '`' in a && '`' in b
  {
    NoTickInside(m);
    var i, j := TicksAround(a + m.Print() + b, |a|);
    TickIsBefore(a, m.Print(), b, i);
    TickIsBehind(a, m.Print(), b, j);
  }

  lemma TicksAround(s: string, n: nat) returns (i: nat, j: nat)
    requires Quoted(Spans(s, 0), n)
    ensures i <= n <= j < |s| && s[i] == '`' && s[j] == '`'
  {
    var p :| p in Spans(s, 0) && p.start <= n < p.end;
    return p.start, p.end - 1;
  }

  lemma TickIsBefore(a: string, p: string, b: string, i: nat)
    requires '`' !in p && p != "" && i <= |a| && (a + p + b)[i] == '`'
    ensures '`' in a
  {
    assert (a + p + b)[|a|] == p[0] && p[0] in p;
    assert i < |a| && a[i] == '`';
  }

  lemma MiddleIs(a: string, p: string, b: string, i: nat)
    requires |a| <= i < |a| + |p|
    ensures (a + p + b)[i] in p
  {
    assert (a + p + b)[i] == p[i - |a|];
  }

  lemma TickIsBehind(a: string, p: string, b: string, i: nat)
    requires '`' !in p && |a| <= i < |a + p + b| && (a + p + b)[i] == '`'
    ensures '`' in b
  {
    if i < |a| + |p| { MiddleIs(a, p, b, i); }
    assert b[i - |a| - |p|] == '`';
  }
}
