/**
 Reading the ports out of a Verilog module header (app/modules/blocks/hdl.py): comments blanked, brackets
 balanced, items split at the outermost commas, the last usable identifier of each item kept.
 A header is `module`, a simple identifier, an optional parameter list and a port list, ANSI or non-ANSI
 (section 23.2.2 of IEEE 1800-2017); a lifetime or a package import between them is not covered.
 */
module VerilogHeader {
  import opened Common
  import opened Text

  // ----- characters --------------------------------------------------------------------------------

  predicate IsIdentStart(c: char) {
    'a' <= c <= 'z' || 'A' <= c <= 'Z' || c == '_'
  }

  /** `$` may stand in an identifier but is no word character. */
  predicate IsIdentChar(c: char) {
    IsWordChar(c) || c == '$'
  }

  predicate IsIdent(s: string) {
    s != "" && IsIdentStart(s[0]) && forall i :: 0 <= i < |s| ==> IsIdentChar(s[i])
  }

  function TrimStart(s: string): (r: string)
    ensures r == "" || !IsSpace(r[0])
  {
    s[SkipSpaces(s, 0)..]
  }

  // ----- comments ----------------------------------------------------------------------------------

  predicate Opens(s: string, word: string) {
    word <= s
  }

  /** Index of the first newline at or after `i`, or the end. */
  function LineEnd(s: string, i: nat): (j: nat)
    requires i <= |s|
    ensures i <= j <= |s|
    decreases |s| - i
  {
    if i == |s| || s[i] == '\n' then i else LineEnd(s, i + 1)
  }

  /** Index just past the first comment close at or after `i`, or 0 if there is none. */
  function CommentEnd(s: string, i: nat): (j: nat)
    requires i <= |s|
    ensures j == 0 || i + 2 <= j <= |s|
    decreases |s| - i
  {
    if i + 1 >= |s| then 0 else if s[i] == '*' && s[i + 1] == '/' then i + 2 else CommentEnd(s, i + 1)
  }

  /** Each comment becomes one space; an unclosed block comment is left as it stands. */
  function StripComments(s: string): string
    decreases |s|
  {
    if s == "" then ""
    else if Opens(s, "//") then " " + StripComments(s[LineEnd(s, 2)..])
    else if Opens(s, "/*") && CommentEnd(s, 2) > 0 then " " + StripComments(s[CommentEnd(s, 2)..])
    else [s[0]] + StripComments(s[1..])
  }

  predicate NoComment(s: string) {
    forall i :: 0 <= i < |s| && s[i] == '/' ==> i + 1 < |s| && s[i + 1] != '/' && s[i + 1] != '*'
  }

  lemma Assoc<T>(a: seq<T>, b: seq<T>, c: seq<T>)
    ensures a + b + c == a + (b + c)
  {
  }

  lemma OtherCharIsKept(c: char, rest: string)
    requires c == '/' ==> rest != "" && rest[0] != '/' && rest[0] != '*'
    ensures StripComments([c] + rest) == [c] + StripComments(rest)
  {
    var t := [c] + rest;
    assert t[1..] == rest && t[0] == c;
    if c == '/' { assert t[1] == rest[0]; }
    assert !Opens(t, "//") && !Opens(t, "/*");
  }

  lemma TailHasNoComment(s: string)
    requires NoComment(s) && s != ""
    ensures NoComment(s[1..])
  {
    var tail := s[1..];
    forall i | 0 <= i < |tail| && tail[i] == '/'
      ensures i + 1 < |tail| && tail[i + 1] != '/' && tail[i + 1] != '*'
    {
      assert s[i + 1] == '/';
    }
  }

  lemma {:induction false} StripCommentsKeeps(s: string, rest: string)
    requires NoComment(s)
    ensures StripComments(s + rest) == s + StripComments(rest)
  {
    if s == "" {
      assert s + rest == rest;
    } else {
      var c, tail := s[0], s[1..];
      TailHasNoComment(s);
      StripCommentsKeeps(tail, rest);
      OtherCharIsKept(c, tail + rest);
      Assoc([c], tail, rest);
      Assoc([c], tail, StripComments(rest));
      assert s == [c] + tail;
    }
  }

  lemma {:induction false} LineEndIs(s: string, i: nat, n: nat)
    requires i <= n < |s| && s[n] == '\n' && forall k :: i <= k < n ==> s[k] != '\n'
    ensures LineEnd(s, i) == n
    decreases n - i
  {
    if i < n { LineEndIs(s, i + 1, n); }
  }

  lemma {:induction false} CommentEndIs(s: string, i: nat, n: nat)
    requires i <= n && n + 1 < |s| && s[n] == '*' && s[n + 1] == '/'
    requires forall k :: i <= k < n ==> s[k] != '*' || s[k + 1] != '/'
    ensures CommentEnd(s, i) == n + 2
    decreases n - i
  {
    if i < n { CommentEndIs(s, i + 1, n); }
  }

  lemma FirstNewline(s: string, i: nat, c: string, rest: string)
    requires i <= |s| && s[i..] == c + ("\n" + rest) && '\n' !in c
    ensures LineEnd(s, i) == i + |c| && s[i + |c|..] == "\n" + rest
  {
    Behind(s, i, c, "\n" + rest);
    assert s[i + |c|..][0] == '\n';
    assert forall k :: 0 <= k < |c| ==> s[i + k] == c[k];
    LineEndIs(s, i, i + |c|);
  }

  lemma FirstClosing(s: string, i: nat, c: string, rest: string)
    requires i <= |s| && s[i..] == c + ("*/" + rest)
    requires forall k :: 0 <= k < |c| - 1 ==> c[k] != '*' || c[k + 1] != '/'
    ensures CommentEnd(s, i) == i + |c| + 2 && s[i + |c| + 2..] == rest
  {
    Behind(s, i, c, "*/" + rest);
    Behind(s, i + |c|, "*/", rest);
    assert s[i + |c|..][0] == '*' && s[i + |c|..][1] == '/';
    assert forall k :: 0 <= k < |c| ==> s[i + k] == c[k];
    CommentEndIs(s, i, i + |c|);
  }

  /** A line comment becomes one space in front of its line's end. */
  lemma LineCommentIsBlanked(comment: string, rest: string)
    requires '\n' !in comment
    ensures StripComments("//" + (comment + ("\n" + rest))) == " " + StripComments("\n" + rest)
  {
    var body := comment + ("\n" + rest);
    var s := "//" + body;
    assert s[2..] == body && Opens(s, "//");
    FirstNewline(s, 2, comment, rest);
  }

  /** A closed block comment becomes one space. */
  lemma BlockCommentIsBlanked(comment: string, rest: string)
    requires forall k :: 0 <= k < |comment| - 1 ==> comment[k] != '*' || comment[k + 1] != '/'
    ensures StripComments("/*" + (comment + ("*/" + rest))) == " " + StripComments(rest)
  {
    var body := comment + ("*/" + rest);
    var s := "/*" + body;
    assert s[2..] == body && Opens(s, "/*") && s[1] == '*';
    FirstClosing(s, 2, comment, rest);
  }

  // ----- finding the module ------------------------------------------------------------------------

  /** Where a match of `\bmodule\s+NAME\b` starting at `i` ends. */
  function MatchEnd(s: string, i: nat, name: string): (end: Option<nat>)
    requires i <= |s|
    ensures end.Some? ==> i < end.value <= |s|
  {
    if !Opens(s[i..], "module") || (i > 0 && IsWordChar(s[i - 1])) then None
    else
      var j := SkipSpaces(s, i + 6);
      if j == i + 6 || !Opens(s[j..], name) || name == "" then None
      else
        var end := j + |name|;
        var inside, outside := IsWordChar(name[|name| - 1]), end < |s| && IsWordChar(s[end]);
        if inside != outside then Some(end) else None
  }

  function FindModule(s: string, i: nat, name: string): (end: Option<nat>)
    requires i <= |s|
    ensures end.Some? ==> i < end.value <= |s|
    decreases |s| - i
  {
    if MatchEnd(s, i, name).Some? then MatchEnd(s, i, name)
    else if i == |s| then None else FindModule(s, i + 1, name)
  }

  lemma {:induction false} FindsFirst(s: string, i: nat, at: nat, name: string)
    requires i <= at <= |s| && MatchEnd(s, at, name).Some?
    requires forall k :: i <= k < at ==> MatchEnd(s, k, name).None?
    ensures FindModule(s, i, name) == MatchEnd(s, at, name)
    decreases at - i
  {
    if i < at { FindsFirst(s, i + 1, at, name); }
  }

  // ----- brackets ----------------------------------------------------------------------------------

  datatype Brackets = Round | AnyKind

  function Weight(kind: Brackets, c: char): int {
    if c == '(' || (kind.AnyKind? && c in "[{") then 1
    else if c == ')' || (kind.AnyKind? && c in "]}") then -1 else 0
  }

  function Depth(kind: Brackets, s: string): int {
    if s == "" then 0 else Depth(kind, s[..|s| - 1]) + Weight(kind, s[|s| - 1])
  }

  lemma DepthSnoc(kind: Brackets, s: string, c: char)
    ensures Depth(kind, s + [c]) == Depth(kind, s) + Weight(kind, c)
  {
    assert (s + [c])[..|s|] == s;
  }

  lemma {:induction false} DepthAdds(kind: Brackets, a: string, b: string)
    ensures Depth(kind, a + b) == Depth(kind, a) + Depth(kind, b)
  {
    if b == "" {
      assert a + b == a;
    } else {
      var init, c := b[..|b| - 1], b[|b| - 1];
      DepthAdds(kind, a, init);
      DepthSnoc(kind, a + init, c);
      assert a + b == a + init + [c];
    }
  }

  /** The group opening at `t[0]` closes at `i`: a `)` that brings the depth to zero. */
  predicate ClosesAt(t: string, i: nat) {
    i < |t| && t[i] == ')' && Depth(Round, t[..i + 1]) == 0
  }

  function FirstClose(t: string, i: nat): (j: nat)
    requires i <= |t|
    ensures i <= j <= |t|
    ensures j < |t| ==> ClosesAt(t, j)
    ensures forall k :: i <= k < j ==> !ClosesAt(t, k)
    decreases |t| - i
  {
    if i == |t| || ClosesAt(t, i) then i else FirstClose(t, i + 1)
  }

  /** The contents of the parenthesised group `t` opens with; empty if it is never closed. */
  function Group(t: string): (inner: string)
    requires t != "" && t[0] == '('
    ensures inner != "" ==> |inner| + 2 <= |t| && t[1..|inner| + 1] == inner
  {
    var j := FirstClose(t, 0);
    if j == |t| || j == 0 then "" else t[1..j]
  }

  /** Balanced text: no prefix closes more than it opens, the whole closes all it opens. */
  ghost predicate WellNested(s: string) {
    Depth(Round, s) == 0 && forall k :: 0 <= k <= |s| ==> Depth(Round, s[..k]) >= 0
  }

  lemma GroupIsMatched(inner: string, rest: string)
    requires WellNested(inner)
    ensures Group("(" + inner + ")" + rest) == inner
  {
    var t, n := "(" + inner + ")" + rest, |inner| + 1;
    assert t[..n + 1] == "(" + inner + ")";
    DepthSnoc(Round, "(" + inner, ')');
    DepthAdds(Round, "(", inner);
    assert ClosesAt(t, n);
    forall k | 0 <= k < n ensures !ClosesAt(t, k) {
      if t[k] == ')' {
        assert t[..k + 1] == "(" + inner[..k];
        DepthAdds(Round, "(", inner[..k]);
      }
    }
    assert FirstClose(t, 0) == n;
    assert t[1..n] == inner;
  }

  lemma GroupEnds(t: string, j: nat)
    requires t != "" && t[0] == '(' && 0 < j <= |t|
    requires j < |t| ==> ClosesAt(t, j)
    requires forall k :: 0 <= k < j ==> !ClosesAt(t, k)
    ensures Group(t) == if j == |t| then "" else t[1..j]
  {
    assert FirstClose(t, 0) == j;
  }

  lemma DepthNext(t: string, i: nat)
    requires i < |t|
    ensures Depth(Round, t[..i + 1]) == Depth(Round, t[..i]) + Weight(Round, t[i])
  {
    assert t[..i + 1][..i] == t[..i];
  }

  method Balanced(text: string, start: nat) returns (inner: string)
    requires start < |text| && text[start] == '('
    ensures inner == Group(text[start..])
  {
    ghost var t := text[start..];
    var depth := 0;
    for index := start to |text|
      invariant depth == Depth(Round, t[..index - start])
      invariant forall k :: 0 <= k < index - start ==> !ClosesAt(t, k)
    {
      DepthNext(t, index - start);
      if text[index] == '(' {
        depth := depth + 1;
      } else if text[index] == ')' {
        depth := depth - 1;
        if depth == 0 {
          GroupEnds(t, index - start);
          return text[start + 1..index];
        }
      }
    }
    GroupEnds(t, |t|);
    return "";
  }

  // ----- items -------------------------------------------------------------------------------------

  /** The finished items and the one under way. */
  datatype Cut = Cut(items: seq<string>, current: string)

  function CutUp(text: string): Cut {
    if text == "" then Cut([], "")
    else
      var c, before := text[|text| - 1], CutUp(text[..|text| - 1]);
      if c == ',' && Depth(AnyKind, text) == 0 then Cut(before.items + [before.current], "")
      else Cut(before.items, before.current + [c])
  }

  function NonBlank(items: seq<string>): seq<string> {
    if items == [] then []
    else NonBlank(items[..|items| - 1]) + if Blank(items[|items| - 1]) then [] else [items[|items| - 1]]
  }

  function Items(text: string): seq<string> {
    NonBlank(CutUp(text).items + [CutUp(text).current])
  }

  function JoinedByCommas(items: seq<string>): string
    requires items != []
  {
    if |items| == 1 then items[0] else JoinedByCommas(items[..|items| - 1]) + "," + items[|items| - 1]
  }

  lemma JoinedOpens(items: seq<string>)
    requires items != []
    ensures JoinedByCommas(items + [""]) == JoinedByCommas(items) + [',']
  {
    assert (items + [""])[..|items|] == items;
  }

  lemma JoinedGrows(items: seq<string>, current: string, c: char)
    ensures JoinedByCommas(items + [current + [c]]) == JoinedByCommas(items + [current]) + [c]
  {
    assert (items + [current + [c]])[..|items|] == items == (items + [current])[..|items|];
  }

  /** Nothing but the cut commas is lost. */
  lemma {:induction false} CuttingLosesNothing(text: string)
    ensures JoinedByCommas(CutUp(text).items + [CutUp(text).current]) == text
  {
    if text != "" {
      var init, c := text[..|text| - 1], text[|text| - 1];
      CuttingLosesNothing(init);
      var before := CutUp(init);
      JoinedOpens(before.items + [before.current]);
      JoinedGrows(before.items, before.current, c);
      assert init + [c] == text;
    }
  }

  /** No comma stands at depth zero. */
  ghost predicate NoOuterComma(s: string) {
    forall k :: 0 <= k < |s| && s[k] == ',' ==> Depth(AnyKind, s[..k]) != 0
  }

  /** An item as it stands between two outermost commas. */
  ghost predicate IsItem(s: string) {
    Depth(AnyKind, s) == 0 && NoOuterComma(s)
  }

  lemma NoOuterCommaBefore(s: string)
    requires NoOuterComma(s) && s != ""
    ensures NoOuterComma(s[..|s| - 1]) && (s[|s| - 1] == ',' ==> Depth(AnyKind, s[..|s| - 1]) != 0)
  {
    var init := s[..|s| - 1];
    forall k | 0 <= k < |init| && init[k] == ',' ensures Depth(AnyKind, init[..k]) != 0 {
      assert init[..k] == s[..k];
    }
  }

  lemma CutSnoc(text: string, c: char)
    requires c == ',' ==> Depth(AnyKind, text) != 0
    ensures CutUp(text + [c]) == Cut(CutUp(text).items, CutUp(text).current + [c])
  {
    assert (text + [c])[..|text|] == text;
    DepthSnoc(AnyKind, text, c);
  }

  lemma CutOneMore(text: string, s: string, c: char)
    requires Depth(AnyKind, text) == 0 && (c == ',' ==> Depth(AnyKind, s) != 0)
    requires CutUp(text + s) == Cut(CutUp(text).items, CutUp(text).current + s)
    ensures CutUp(text + (s + [c])) == Cut(CutUp(text).items, CutUp(text).current + (s + [c]))
  {
    DepthAdds(AnyKind, text, s);
    CutSnoc(text + s, c);
    Assoc(text, s, [c]);
    Assoc(CutUp(text).current, s, [c]);
  }

  lemma {:induction false} CutContinues(text: string, s: string)
    requires Depth(AnyKind, text) == 0
    requires NoOuterComma(s)
    ensures CutUp(text + s) == Cut(CutUp(text).items, CutUp(text).current + s)
  {
    if s == "" {
      assert text + s == text && CutUp(text).current + s == CutUp(text).current;
    } else {
      var init, c := s[..|s| - 1], s[|s| - 1];
      NoOuterCommaBefore(s);
      CutContinues(text, init);
      CutOneMore(text, init, c);
      assert s == init + [c];
    }
  }

  lemma {:induction false} JoinedDepth(items: seq<string>)
    requires items != [] && forall i :: 0 <= i < |items| ==> IsItem(items[i])
    ensures Depth(AnyKind, JoinedByCommas(items)) == 0
  {
    var last := |items| - 1;
    assert IsItem(items[last]);
    if last > 0 {
      var front := JoinedByCommas(items[..last]);
      JoinedDepth(items[..last]);
      DepthSnoc(AnyKind, front, ',');
      DepthAdds(AnyKind, front + ",", items[last]);
    }
  }

  lemma CutAtComma(text: string)
    requires Depth(AnyKind, text) == 0
    ensures Depth(AnyKind, text + ",") == 0
    ensures CutUp(text + ",") == Cut(CutUp(text).items + [CutUp(text).current], "")
  {
    DepthSnoc(AnyKind, text, ',');
    assert (text + ",")[..|text|] == text;
  }

  lemma CutItem(text: string, item: string)
    requires Depth(AnyKind, text) == 0 && IsItem(item)
    ensures CutUp(text + "," + item) == Cut(CutUp(text).items + [CutUp(text).current], item)
  {
    CutAtComma(text);
    CutContinues(text + ",", item);
    assert "" + item == item;
  }

  lemma ApartStep(init: seq<string>, front: string, item: string)
    requires init != [] && CutUp(front) == Cut(init[..|init| - 1], init[|init| - 1])
    requires Depth(AnyKind, front) == 0 && IsItem(item)
    ensures CutUp(front + "," + item) == Cut(init, item)
  {
    CutItem(front, item);
    assert init[..|init| - 1] + [init[|init| - 1]] == init;
  }

  /** The cuts are at exactly the outermost commas: joined items come apart as they were. */
  lemma {:induction false} ItemsComeApart(items: seq<string>)
    requires items != [] && forall i :: 0 <= i < |items| ==> IsItem(items[i])
    ensures CutUp(JoinedByCommas(items)) == Cut(items[..|items| - 1], items[|items| - 1])
  {
    var last := |items| - 1;
    assert IsItem(items[last]);
    if last == 0 {
      CutContinues("", items[0]);
      assert "" + items[0] == items[0];
    } else {
      var init, item := items[..last], items[last];
      var front := JoinedByCommas(init);
      ItemsComeApart(init);
      JoinedDepth(init);
      ApartStep(init, front, item);
    }
  }

  method SplitTopLevel(text: string) returns (kept: seq<string>)
    ensures kept == Items(text)
  {
    var items, current, depth := [], "", 0;
    ghost var read := "";
    for i := 0 to |text|
      invariant read == text[..i] && depth == Depth(AnyKind, read) && CutUp(read) == Cut(items, current)
    {
      var c := text[i];
      DepthSnoc(AnyKind, read, c);
      assert (read + [c])[..|read|] == read;
      read := read + [c];
      if c in "([{" {
        depth := depth + 1;
      } else if c in ")]}" {
        depth := depth - 1;
      }
      if c == ',' && depth == 0 {
        items, current := items + [current], "";
      } else {
        current := current + [c];
      }
    }
    assert read == text;
    items := items + [current];
    kept := [];
    for i := 0 to |items|
      invariant kept == NonBlank(items[..i])
    {
      assert items[..i + 1][..i] == items[..i];
      if !Blank(items[i]) { kept := kept + [items[i]]; }
    }
    assert items[..|items|] == items;
  }

  // ----- names -------------------------------------------------------------------------------------

  const PORT_NOISE := {
    "input", "output", "inout", "wire", "reg", "logic", "signed", "unsigned",
    "bit", "byte", "int", "integer", "real", "time", "tri", "wand", "wor",
    "supply0", "supply1", "parameter", "localparam", "var"}

  function IdentEnd(s: string, i: nat): (j: nat)
    requires i <= |s|
    ensures i <= j <= |s|
    ensures forall k :: i <= k < j ==> IsIdentChar(s[k])
    ensures j < |s| ==> !IsIdentChar(s[j])
    decreases |s| - i
  {
    if i == |s| || !IsIdentChar(s[i]) then i else IdentEnd(s, i + 1)
  }

  /** Every identifier, left to right, each as long as possible. */
  function Idents(s: string): seq<string>
    decreases |s|
  {
    if s == "" then []
    else if IsIdentStart(s[0]) then [s[..IdentEnd(s, 1)]] + Idents(s[IdentEnd(s, 1)..])
    else Idents(s[1..])
  }

  function Usable(names: seq<string>): seq<string> {
    if names == [] then []
    else Usable(names[..|names| - 1]) + if names[|names| - 1] in PORT_NOISE then [] else [names[|names| - 1]]
  }

  /** The last usable identifier of an item, if it has one. */
  function Chosen(item: string): seq<string> {
    var names := Usable(Idents(item));
    if names == [] then [] else [names[|names| - 1]]
  }

  function Named(items: seq<string>): seq<string> {
    if items == [] then [] else Named(items[..|items| - 1]) + Chosen(items[|items| - 1])
  }

  // ----- the header --------------------------------------------------------------------------------

  function PortList(t: string): seq<string> {
    if t == "" || t[0] != '(' then [] else Named(Items(Group(t)))
  }

  /** The text behind a parameter list, read from just behind its `#`; None if it cannot be told where it ends. */
  function BehindHash(t: string): Option<string> {
    var v := TrimStart(t);
    if v == "" || v[0] != '(' || Group(v) == "" then None else Some(TrimStart(v[|Group(v)| + 2..]))
  }

  /** The text behind the parameter list, if there is one. */
  function BehindParams(t: string): Option<string> {
    var u := TrimStart(t);
    if u == "" || u[0] != '#' then Some(u) else BehindHash(u[1..])
  }

  /** The ports, read from just behind the module's name. */
  function AfterName(t: string): seq<string> {
    match BehindParams(t)
    case None => []
    case Some(u) => PortList(u)
  }

  function Ports(rtl: string, top: string): seq<string> {
    var source, name := StripComments(rtl), Strip(top);
    var end := FindModule(source, 0, name);
    if name == "" || end.None? then [] else AfterName(source[end.value..])
  }

  method SkipSpace(source: string, index: nat) returns (pos: nat)
    requires index <= |source|
    ensures index <= pos <= |source| && source[pos..] == TrimStart(source[index..])
  {
    pos := index;
    while pos < |source| && IsSpace(source[pos])
      invariant index <= pos <= |source|
      invariant forall k :: index <= k < pos ==> IsSpace(source[k])
    {
      pos := pos + 1;
    }
    ghost var t, n := source[index..], SkipSpaces(source[index..], 0);
    assert forall k :: 0 <= k < |t| ==> t[k] == source[index + k];
    assert n == pos - index;
  }

  method PortNames(items: seq<string>) returns (ports: seq<string>)
    ensures ports == Named(items)
  {
    ports := [];
    for i := 0 to |items|
      invariant ports == Named(items[..i])
    {
      assert items[..i + 1][..i] == items[..i];
      var names := Usable(Idents(items[i]));
      if names != [] { ports := ports + [names[|names| - 1]]; }
    }
    assert items[..|items|] == items;
  }

  method ReadPorts(source: string, pos: nat) returns (ports: seq<string>)
    requires pos <= |source|
    ensures ports == PortList(source[pos..])
  {
    if pos >= |source| || source[pos] != '(' { return []; }
    var text := Balanced(source, pos);
    var items := SplitTopLevel(text);
    ports := PortNames(items);
  }

  lemma Suffix(s: string, i: nat, k: nat)
    requires i + k <= |s|
    ensures s[i..][k..] == s[i + k..]
  {
  }

  lemma GroupIsSkipped(t: string, v: string)
    requires v == TrimStart(t) && v != "" && v[0] == '('
    ensures BehindHash(t) == if Group(v) == "" then None else Some(TrimStart(v[|Group(v)| + 2..]))
  {
  }

  /** Just behind the group at `start`, unless it is empty or unclosed. */
  method SkipBalanced(source: string, start: nat) returns (pos: nat, ok: bool)
    requires start < |source| && source[start] == '('
    ensures ok <==> Group(source[start..]) != ""
    ensures pos <= |source| && (ok ==> source[pos..] == source[start..][|Group(source[start..])| + 2..])
  {
    var params := Balanced(source, start);
    if params == "" { return start, false; }
    Suffix(source, start, |params| + 2);
    return start + |params| + 2, true;
  }

  method SkipGroup(source: string, start: nat) returns (pos: nat, ok: bool)
    requires start <= |source|
    ensures pos <= |source|
    ensures BehindHash(source[start..]) == if ok then Some(source[pos..]) else None
  {
    pos := SkipSpace(source, start);
    if pos >= |source| || source[pos] != '(' { return pos, false; }
    GroupIsSkipped(source[start..], source[pos..]);
    pos, ok := SkipBalanced(source, pos);
    if ok { pos := SkipSpace(source, pos); }
  }

  lemma HashIsSkipped(t: string, v: string)
    requires v == TrimStart(t)
    ensures BehindParams(t) == if v == "" || v[0] != '#' then Some(v) else BehindHash(v[1..])
  {
  }

  /** Past the parameter list, if there is one to get past. */
  method SkipParams(source: string, start: nat) returns (pos: nat, ok: bool)
    requires start <= |source|
    ensures pos <= |source|
    ensures BehindParams(source[start..]) == if ok then Some(source[pos..]) else None
  {
    ok := true;
    pos := SkipSpace(source, start);
    HashIsSkipped(source[start..], source[pos..]);
    if pos < |source| && source[pos] == '#' {
      Suffix(source, pos, 1);
      pos, ok := SkipGroup(source, pos + 1);
    }
  }

  method ModulePorts(rtl: string, top: string) returns (ports: seq<string>)
    ensures ports == Ports(rtl, top)
  {
    var source, name := StripComments(rtl), Strip(top);
    if name == "" { return []; }
    var found := FindModule(source, 0, name);
    if found.None? { return []; }
    var pos, ok := SkipParams(source, found.value);
    if !ok { return []; }
    ports := ReadPorts(source, pos);
  }

  // ----- printing a header -------------------------------------------------------------------------

  /** A port as it is written: whatever precedes its name, the name, whatever follows up to the comma. */
  datatype Port = Port(before: string, name: string, after: string)
  {
    function Print(): string {
      before + name + after
    }

    ghost predicate Valid() {
      && IsIdent(name) && name !in PORT_NOISE
      && (before != "" ==> !IsIdentChar(before[|before| - 1]))
      && (after != "" ==> !IsIdentChar(after[0]))
      && IsItem(Print()) && WellNested(Print())
    }

    /** What is taken for the name: the last usable identifier behind it, such as one in a dimension or a default. */
    function Read(): string {
      var behind := Usable(Idents(after));
      if behind == [] then name else behind[|behind| - 1]
    }
  }

  datatype Params = NoParams | Params(gap: string, inner: string, gap': string)

  datatype Header = Header(gap: string, name: string, gap': string, params: Params, ports: seq<Port>)
  {
    ghost predicate Valid() {
      && gap != "" && Blank(gap) && IsIdent(name) && Blank(gap') && ports != []
      && (params.Params? ==> Blank(params.gap) && Blank(params.gap') && WellNested(params.inner))
      && forall i :: 0 <= i < |ports| ==> ports[i].Valid()
    }

    function Names(): seq<string> {
      seq(|ports|, i requires 0 <= i < |ports| => ports[i].name)
    }

    function Reads(): seq<string> {
      seq(|ports|, i requires 0 <= i < |ports| => ports[i].Read())
    }

    function Printed(): seq<string> {
      seq(|ports|, i requires 0 <= i < |ports| => ports[i].Print())
    }

    function PrintPorts(): string
      requires ports != []
    {
      "(" + JoinedByCommas(Printed()) + ")"
    }

    /** What follows the name, with `rest` behind the header. */
    function PrintTail(rest: string): string
      requires ports != []
    {
      match params
      case NoParams => gap' + (PrintPorts() + rest)
      case Params(g, inner, g') => gap' + ("#" + (g + ("(" + inner + ")" + (g' + (PrintPorts() + rest)))))
    }

    function Print(rest: string): string
      requires ports != []
    {
      "module" + (gap + (name + PrintTail(rest)))
    }
  }

  lemma TrimStartFinds(gap: string, t: string)
    requires Blank(gap) && t != "" && !IsSpace(t[0])
    ensures TrimStart(gap + t) == t
  {
    var s := gap + t;
    assert s[|gap|] == t[0];
    assert forall k :: 0 <= k < |gap| ==> s[k] == gap[k];
    assert SkipSpaces(s, 0) == |gap|;
  }

  lemma {:induction false} JoinedIsNested(items: seq<string>)
    requires items != [] && forall i :: 0 <= i < |items| ==> WellNested(items[i])
    ensures WellNested(JoinedByCommas(items))
  {
    var last := |items| - 1;
    assert WellNested(items[last]);
    if last > 0 {
      JoinedIsNested(items[..last]);
      var front := JoinedByCommas(items[..last]);
      NestedComma(front);
      NestedAppend(front + ",", items[last]);
    }
  }

  lemma NestedComma(a: string)
    requires WellNested(a)
    ensures WellNested(a + ",")
  {
    DepthSnoc(Round, a, ',');
    forall k | 0 <= k <= |a + ","| ensures Depth(Round, (a + ",")[..k]) >= 0 {
      if k <= |a| { assert (a + ",")[..k] == a[..k]; } else { assert (a + ",")[..k] == a + ","; }
    }
  }

  lemma NestedAppend(a: string, b: string)
    requires WellNested(a) && WellNested(b)
    ensures WellNested(a + b)
  {
    DepthAdds(Round, a, b);
    forall k | 0 <= k <= |a + b| ensures Depth(Round, (a + b)[..k]) >= 0 {
      if k <= |a| {
        assert (a + b)[..k] == a[..k];
      } else {
        assert (a + b)[..k] == a + b[..k - |a|];
        DepthAdds(Round, a, b[..k - |a|]);
      }
    }
  }

  lemma {:induction false} NonBlankKeepsAll(items: seq<string>)
    requires forall i :: 0 <= i < |items| ==> !Blank(items[i])
    ensures NonBlank(items) == items
  {
    if items != [] {
      NonBlankKeepsAll(items[..|items| - 1]);
      assert items[..|items| - 1] + [items[|items| - 1]] == items;
    }
  }

  lemma {:induction false} IdentEndIs(s: string, i: nat, n: nat)
    requires i <= n <= |s|
    requires forall k :: i <= k < n ==> IsIdentChar(s[k])
    requires n < |s| ==> !IsIdentChar(s[n])
    ensures IdentEnd(s, i) == n
    decreases n - i
  {
    if i < n { IdentEndIs(s, i + 1, n); }
  }

  lemma DropAcross<T>(a: seq<T>, b: seq<T>, n: nat)
    requires n <= |a|
    ensures (a + b)[n..] == a[n..] + b && (a + b)[..n] == a[..n]
  {
  }

  lemma IdentsSplitFirst(a: string, b: string, n: nat)
    requires a != "" && IsIdentStart(a[0]) && n == IdentEnd(a, 1) < |a|
    requires Idents(a[n..] + b) == Idents(a[n..]) + Idents(b)
    ensures Idents(a + b) == Idents(a) + Idents(b)
  {
    DropAcross(a, b, n);
    IdentEndIs(a + b, 1, n);
    assert Idents(a + b) == [a[..n]] + Idents(a[n..] + b);
  }

  lemma IdentsSplitOther(a: string, b: string)
    requires a != "" && !IsIdentStart(a[0])
    requires Idents(a[1..] + b) == Idents(a[1..]) + Idents(b)
    ensures Idents(a + b) == Idents(a) + Idents(b)
  {
    DropAcross(a, b, 1);
  }

  /** Text that ends outside an identifier is scanned apart from what follows it. */
  lemma {:induction false} IdentsSplit(a: string, b: string)
    requires a != "" ==> !IsIdentChar(a[|a| - 1])
    ensures Idents(a + b) == Idents(a) + Idents(b)
    decreases |a|
  {
    if a == "" {
      assert a + b == b;
    } else if IsIdentStart(a[0]) {
      var n := IdentEnd(a, 1);
      assert n < |a| && a[n..][|a| - n - 1] == a[|a| - 1];
      IdentsSplit(a[n..], b);
      IdentsSplitFirst(a, b, n);
    } else {
      assert |a| > 1 ==> a[1..][|a| - 2] == a[|a| - 1];
      IdentsSplit(a[1..], b);
      IdentsSplitOther(a, b);
    }
  }

  lemma {:induction false} NoIdents(s: string)
    requires forall i :: 0 <= i < |s| ==> !IsIdentStart(s[i])
    ensures Idents(s) == []
  {
    if s != "" { NoIdents(s[1..]); }
  }

  lemma {:induction false} UsableKeepsLast(names: seq<string>, name: string)
    requires name !in PORT_NOISE
    ensures Usable(names + [name]) == Usable(names) + [name]
  {
    assert (names + [name])[..|names|] == names;
  }

  lemma {:induction false} UsableAdds(a: seq<string>, b: seq<string>)
    ensures Usable(a + b) == Usable(a) + Usable(b)
  {
    if b == [] {
      assert a + b == a && Usable(a) + [] == Usable(a);
    } else {
      var init := b[..|b| - 1];
      UsableAdds(a, init);
      assert (a + b)[..|a + b| - 1] == a + init;
    }
  }

  lemma IdentsOfName(name: string, after: string)
    requires IsIdent(name) && (after != "" ==> !IsIdentChar(after[0]))
    ensures Idents(name + after) == [name] + Idents(after)
  {
    var t := name + after;
    IdentEndIs(t, 1, |name|);
    assert t[..|name|] == name && t[|name|..] == after;
  }

  lemma PortIdents(p: Port)
    requires p.Valid()
    ensures Idents(p.Print()) == Idents(p.before) + [p.name] + Idents(p.after)
  {
    Assoc(p.before, p.name, p.after);
    IdentsSplit(p.before, p.name + p.after);
    IdentsOfName(p.name, p.after);
    Assoc(Idents(p.before), [p.name], Idents(p.after));
  }

  lemma LastOf(a: seq<string>, name: string, b: seq<string>)
    ensures var u := a + [name] + b; u != [] && u[|u| - 1] == if b == [] then name else b[|b| - 1]
  {
  }

  lemma PortIsRead(p: Port)
    requires p.Valid()
    ensures Chosen(p.Print()) == [p.Read()]
  {
    PortIdents(p);
    UsableAdds(Idents(p.before) + [p.name], Idents(p.after));
    UsableKeepsLast(Idents(p.before), p.name);
    LastOf(Usable(Idents(p.before)), p.name, Usable(Idents(p.after)));
  }

  lemma PortIsNotBlank(p: Port)
    requires p.Valid()
    ensures !Blank(p.Print())
  {
    assert p.Print()[|p.before|] == p.name[0];
  }

  lemma NamedSnoc(items: seq<string>, item: string)
    ensures Named(items + [item]) == Named(items) + Chosen(item)
  {
    assert (items + [item])[..|items|] == items;
  }

  lemma TakeNext<T>(s: seq<T>, n: nat)
    requires n < |s|
    ensures s[..n + 1] == s[..n] + [s[n]]
  {
  }

  lemma {:induction false} PortsAreRead(h: Header, n: nat)
    requires h.Valid() && n <= |h.ports|
    ensures Named(h.Printed()[..n]) == h.Reads()[..n]
  {
    if n > 0 {
      var port := h.ports[n - 1];
      PortsAreRead(h, n - 1);
      assert port.Valid();
      PortIsRead(port);
      TakeNext(h.Printed(), n - 1);
      TakeNext(h.Reads(), n - 1);
      NamedSnoc(h.Printed()[..n - 1], port.Print());
    }
  }

  lemma CutIsKept(cut: Cut, items: seq<string>)
    requires items != [] && forall i :: 0 <= i < |items| ==> !Blank(items[i])
    requires cut == Cut(items[..|items| - 1], items[|items| - 1])
    ensures NonBlank(cut.items + [cut.current]) == items
  {
    assert cut.items + [cut.current] == items;
    NonBlankKeepsAll(items);
  }

  lemma ItemsAreFound(items: seq<string>)
    requires items != [] && forall i :: 0 <= i < |items| ==> IsItem(items[i]) && !Blank(items[i])
    ensures Items(JoinedByCommas(items)) == items
  {
    var cut := CutUp(JoinedByCommas(items));
    ItemsComeApart(items);
    CutIsKept(cut, items);
  }

  lemma PrintedItems(h: Header)
    requires h.Valid()
    ensures forall i :: 0 <= i < |h.Printed()| ==>
      IsItem(h.Printed()[i]) && WellNested(h.Printed()[i]) && !Blank(h.Printed()[i])
  {
    forall i | 0 <= i < |h.ports| ensures !Blank(h.ports[i].Print()) && h.ports[i].Valid() {
      assert h.ports[i].Valid();
      PortIsNotBlank(h.ports[i]);
    }
  }

  lemma AllPortsAreRead(h: Header)
    requires h.Valid()
    ensures Named(h.Printed()) == h.Reads()
  {
    PortsAreRead(h, |h.ports|);
    assert h.Printed()[..|h.ports|] == h.Printed() && h.Reads()[..|h.ports|] == h.Reads();
  }

  lemma PortListReads(h: Header, rest: string)
    requires h.Valid()
    ensures PortList(h.PrintPorts() + rest) == h.Reads()
  {
    var items := h.Printed();
    PrintedItems(h);
    JoinedIsNested(items);
    GroupIsMatched(JoinedByCommas(items), rest);
    ItemsAreFound(items);
    AllPortsAreRead(h);
  }

  lemma ParamsAreRead(g: string, inner: string, g': string, ports: string)
    requires Blank(g) && Blank(g') && WellNested(inner) && ports != "" && ports[0] == '('
    ensures BehindHash(g + ("(" + inner + ")" + (g' + ports))) == if inner == "" then None else Some(ports)
  {
    var v := "(" + inner + ")" + (g' + ports);
    assert v[0] == '(' && !IsSpace('(');
    TrimStartFinds(g, v);
    GroupIsMatched(inner, g' + ports);
    if inner != "" {
      assert v[|inner| + 2..] == g' + ports;
      TrimStartFinds(g', ports);
    }
  }

  lemma ParamsAreFound(gap: string, t: string)
    requires Blank(gap)
    ensures BehindParams(gap + ("#" + t)) == BehindHash(t)
  {
    var u := "#" + t;
    assert u[0] == '#' && u[1..] == t && !IsSpace('#');
    TrimStartFinds(gap, u);
  }

  /** Behind the name: every port is read in its way if the parameter list, where there is one, is not empty. */
  lemma TailReads(h: Header, rest: string)
    requires h.Valid()
    ensures AfterName(h.PrintTail(rest)) == if h.params.Params? && h.params.inner == "" then [] else h.Reads()
  {
    var ports := h.PrintPorts() + rest;
    assert ports[0] == '(' && !IsSpace('(');
    PortListReads(h, rest);
    match h.params
    case NoParams =>
      TrimStartFinds(h.gap', ports);
    case Params(g, inner, g') =>
      ParamsAreRead(g, inner, g', ports);
      ParamsAreFound(h.gap', g + ("(" + inner + ")" + (g' + ports)));
  }

  // ----- round trip --------------------------------------------------------------------------------

  predicate EndsAsWord(name: string) {
    name != "" && IsWordChar(name[|name| - 1])
  }

  lemma TailIsNotWord(h: Header, rest: string)
    requires h.Valid()
    ensures var t := h.PrintTail(rest); t != "" && !IsIdentChar(t[0])
  {
    var t := h.PrintTail(rest);
    if h.gap' != "" {
      assert t[0] == h.gap'[0];
    } else {
      assert t[0] in "#(";
    }
  }

  lemma Behind(s: string, i: nat, a: string, b: string)
    requires i <= |s| && s[i..] == a + b
    ensures i + |a| <= |s| && s[i + |a|..] == b && a <= s[i..] && (a != "" ==> s[i] == a[0])
  {
    Suffix(s, i, |a|);
    assert (a + b)[|a|..] == b;
    assert a != "" ==> s[i] == s[i..][0];
  }

  lemma SkipsGap(s: string, i: nat, gap: string, t: string)
    requires i <= |s| && s[i..] == gap + t && Blank(gap) && t != "" && !IsSpace(t[0])
    ensures SkipSpaces(s, i) == i + |gap|
  {
    assert forall k :: 0 <= k < |gap| ==> s[i + k] == gap[k];
    assert s[i + |gap|] == s[i..][|gap|] == t[0];
  }

  lemma GapIsSkipped(s: string, at: nat, word: string, gap: string, w: string)
    requires at <= |s| && s[at..] == word + (gap + w) && Blank(gap) && w != "" && !IsSpace(w[0])
    ensures word <= s[at..] && at + |word| + |gap| <= |s| && s[at + |word| + |gap|..] == w
    ensures SkipSpaces(s, at + |word|) == at + |word| + |gap|
  {
    Behind(s, at, word, gap + w);
    Behind(s, at + |word|, gap, w);
    SkipsGap(s, at + |word|, gap, w);
  }

  lemma MatchIs(s: string, at: nat, start: nat, name: string)
    requires at + 6 < start <= |s| && "module" <= s[at..] && (at > 0 ==> !IsWordChar(s[at - 1]))
    requires SkipSpaces(s, at + 6) == start && name != "" && name <= s[start..]
    requires start + |name| < |s| && !IsWordChar(s[start + |name|])
    ensures MatchEnd(s, at, name) == if EndsAsWord(name) then Some(start + |name|) else None
  {
  }

  lemma NameEnds(s: string, start: nat, name: string, t: string)
    requires start <= |s| && s[start..] == name + t && t != ""
    ensures name <= s[start..] && start + |name| < |s|
    ensures s[start + |name|..] == t && s[start + |name|] == t[0]
  {
    Behind(s, start, name, t);
    assert s[start + |name|..][0] == t[0];
  }

  lemma NameIsFound(s: string, at: nat, start: nat, name: string, t: string)
    requires at + 6 < start <= |s| && "module" <= s[at..] && (at > 0 ==> !IsWordChar(s[at - 1]))
    requires SkipSpaces(s, at + 6) == start && s[start..] == name + t
    requires IsIdent(name) && t != "" && !IsWordChar(t[0])
    ensures var found := MatchEnd(s, at, name);
            if EndsAsWord(name) then found.Some? && s[found.value..] == t else found.None?
  {
    NameEnds(s, start, name, t);
    MatchIs(s, at, start, name);
  }

  /** The name of a header printed at `at`, and where it starts. */
  lemma HeaderNames(s: string, at: nat, h: Header, rest: string) returns (start: nat, t: string)
    requires h.Valid() && at <= |s| && s[at..] == h.Print(rest)
    ensures start == at + 6 + |h.gap| && t == h.PrintTail(rest)
    ensures at + 6 < start <= |s| && "module" <= s[at..] && SkipSpaces(s, at + 6) == start
    ensures s[start..] == h.name + t && IsIdent(h.name) && t != "" && !IsIdentChar(t[0])
  {
    start, t := at + 6 + |h.gap|, h.PrintTail(rest);
    var w := h.name + t;
    assert w[0] == h.name[0] && !IsSpace(w[0]);
    TailIsNotWord(h, rest);
    GapIsSkipped(s, at, "module", h.gap, w);
  }

  /** A header is recognised by its name only if the name ends in a letter, a digit or `_`, not in `$`. */
  lemma HeaderIsFound(s: string, at: nat, h: Header, rest: string)
    requires h.Valid() && at <= |s| && s[at..] == h.Print(rest) && (at > 0 ==> !IsWordChar(s[at - 1]))
    ensures var found := MatchEnd(s, at, h.name);
            if EndsAsWord(h.name) then found.Some? && s[found.value..] == h.PrintTail(rest) else found.None?
  {
    var start, t := HeaderNames(s, at, h, rest);
    assert !IsWordChar(t[0]);
    NameIsFound(s, at, start, h.name, t);
  }

  lemma PortsAt(rtl: string, top: string, at: nat, name: string)
    requires Strip(top) == name && name != "" && at <= |StripComments(rtl)|
    requires MatchEnd(StripComments(rtl), at, name).Some?
    requires forall k :: 0 <= k < at ==> MatchEnd(StripComments(rtl), k, name).None?
    ensures Ports(rtl, top) == AfterName(StripComments(rtl)[MatchEnd(StripComments(rtl), at, name).value..])
  {
    FindsFirst(StripComments(rtl), 0, at, name);
  }

  /** Once its comments are blanked, the text holds the printed header, with no earlier mention of the module. */
  ghost predicate Declares(rtl: string, at: nat, h: Header, rest: string) {
    var s := StripComments(rtl);
    && h.Valid() && at <= |s| && s[at..] == h.Print(rest) && (at > 0 ==> !IsWordChar(s[at - 1]))
    && forall k :: 0 <= k < at ==> MatchEnd(s, k, h.name).None?
  }

  /** The name ends as a word, and a parameter list is not empty. */
  predicate Found(h: Header) {
    EndsAsWord(h.name) && (h.params.Params? ==> h.params.inner != "")
  }

  /** And behind no port's name stands a usable identifier, unless the last one is that name again. */
  predicate Readable(h: Header) {
    Found(h) && forall i :: 0 <= i < |h.ports| ==> h.ports[i].Read() == h.ports[i].name
  }

  lemma ReadableReads(h: Header)
    requires h.ports != []
    ensures h.Reads() == h.Names() <==> forall i :: 0 <= i < |h.ports| ==> h.ports[i].Read() == h.ports[i].name
    ensures h.Reads() != [] && h.Names() != []
  {
    assert forall i :: 0 <= i < |h.ports| ==> h.Reads()[i] == h.ports[i].Read() && h.Names()[i] == h.ports[i].name;
    assert |h.Reads()| == |h.Names()| == |h.ports|;
  }

  /** Header round trip: reading gives back exactly the names of the printed ports in order. */
  lemma HeaderRoundTrip(rtl: string, top: string, at: nat, h: Header, rest: string)
    requires Declares(rtl, at, h, rest) && Readable(h) && Strip(top) == h.name
    ensures Ports(rtl, top) == h.Names() != []
  {
    HeaderIsFound(StripComments(rtl), at, h, rest);
    PortsAt(rtl, top, at, h.name);
    TailReads(h, rest);
    ReadableReads(h);
  }

  lemma {:induction false} PrintGoesOn(h: Header, rest: string)
    requires h.Valid()
    ensures h.Print("") + rest == h.Print(rest)
  {
    var ports := h.PrintPorts();
    assert ports + "" == ports;
    match h.params
    case NoParams =>
      FrontsMove("module", h.gap, h.name, h.gap', ports, rest);
    case Params(g, inner, g') =>
      var list := "(" + inner + ")";
      FrontsMove("#", g, list, g', ports, rest);
      var tail := "#" + (g + (list + (g' + ports)));
      FrontsMove("module", h.gap, h.name, h.gap', tail, rest);
  }

  lemma FrontsMove(a: string, b: string, c: string, d: string, e: string, rest: string)
    ensures a + (b + (c + (d + e))) + rest == a + (b + (c + (d + (e + rest))))
  {
    Assoc(d, e, rest);
    Assoc(c, d + e, rest);
    Assoc(b, c + (d + e), rest);
    Assoc(a, b + (c + (d + e)), rest);
  }

  /** For a header printed at the head of a text, whatever the text goes on with. */
  lemma PrintedHeaderReadsBack(h: Header, rest: string)
    requires h.Valid() && Readable(h) && NoComment(h.Print(""))
    ensures Ports(h.Print("") + rest, h.name) == h.Names()
  {
    var rtl := h.Print("") + rest;
    StripCommentsKeeps(h.Print(""), rest);
    PrintGoesOn(h, StripComments(rest));
    var s := StripComments(rtl);
    assert s == h.Print(StripComments(rest)) && s[0..] == s;
    NameIsStripped(h.name);
    HeaderRoundTrip(rtl, h.name, 0, h, StripComments(rest));
  }

  lemma NameIsStripped(name: string)
    requires IsIdent(name)
    ensures Strip(name) == name
  {
  }

  lemma {:induction false} FindsNothing(s: string, i: nat, name: string)
    requires i <= |s| && forall k :: i <= k <= |s| ==> MatchEnd(s, k, name).None?
    ensures FindModule(s, i, name).None?
    decreases |s| - i
  {
    if i < |s| { FindsNothing(s, i + 1, name); }
  }

  /** The module is mentioned nowhere else. */
  ghost predicate OnlyMention(rtl: string, at: nat, name: string) {
    forall k :: 0 <= k <= |StripComments(rtl)| && k != at ==> MatchEnd(StripComments(rtl), k, name).None?
  }

  lemma PortsOfOnlyHeader(rtl: string, top: string, at: nat, h: Header, rest: string)
    requires Declares(rtl, at, h, rest) && OnlyMention(rtl, at, h.name) && Strip(top) == h.name
    ensures Ports(rtl, top) == if EndsAsWord(h.name) then AfterName(h.PrintTail(rest)) else []
  {
    HeaderIsFound(StripComments(rtl), at, h, rest);
    if EndsAsWord(h.name) {
      PortsAt(rtl, top, at, h.name);
    } else {
      FindsNothing(StripComments(rtl), 0, h.name);
    }
  }

  /**
   What a module mentioned once is read as, exactly: nothing if its parameter list is empty or its name ends
   in `$`, else for each port the last usable identifier behind its name, or the name where there is none.
   */
  lemma ReadBackIff(rtl: string, top: string, at: nat, h: Header, rest: string)
    requires Declares(rtl, at, h, rest) && OnlyMention(rtl, at, h.name) && Strip(top) == h.name
    ensures Ports(rtl, top) == if Found(h) then h.Reads() else []
    ensures Ports(rtl, top) == h.Names() <==> Readable(h)
  {
    PortsOfOnlyHeader(rtl, top, at, h, rest);
    TailReads(h, rest);
    ReadableReads(h);
  }

  /** Text without brackets and commas. */
  ghost predicate Flat(s: string) {
    forall i :: 0 <= i < |s| ==> Weight(AnyKind, s[i]) == 0 && s[i] != ','
  }

  lemma {:induction false} FlatDepth(kind: Brackets, s: string)
    requires Flat(s)
    ensures Depth(kind, s) == 0
  {
    if s != "" {
      assert Weight(AnyKind, s[|s| - 1]) == 0;
      FlatDepth(kind, s[..|s| - 1]);
    }
  }

  lemma FlatIsNested(s: string)
    requires Flat(s)
    ensures WellNested(s)
  {
    FlatDepth(Round, s);
    forall k | 0 <= k <= |s| ensures Depth(Round, s[..k]) >= 0 { FlatDepth(Round, s[..k]); }
  }

  lemma ItemGoesOn(item: string, after: string)
    requires IsItem(item) && Depth(AnyKind, after) == 0 && ',' !in after
    ensures IsItem(item + after)
  {
    DepthAdds(AnyKind, item, after);
    var s := item + after;
    forall k | 0 <= k < |s| && s[k] == ',' ensures Depth(AnyKind, s[..k]) != 0 {
      assert k < |item|;
      assert s[..k] == item[..k];
    }
  }

  /** A port may go on after its name with anything that leaves the brackets balanced and opens no new item. */
  lemma PortGoesOn(p: Port, after: string)
    requires p.Valid() && p.after == "" && after != "" && !IsIdentChar(after[0])
    requires WellNested(after) && Depth(AnyKind, after) == 0 && ',' !in after
    ensures p.(after := after).Valid()
  {
    var item := p.Print();
    assert item == p.before + p.name;
    NestedAppend(item, after);
    ItemGoesOn(item, after);
  }

  lemma WordIsUsable(gap: string, word: string, rest: string)
    requires IsIdent(word) && word !in PORT_NOISE && gap != "" && !IsIdentChar(gap[|gap| - 1])
    requires (forall i :: 0 <= i < |gap| ==> !IsIdentStart(gap[i]))
    requires rest != "" ==> !IsIdentChar(rest[0])
    requires forall i :: 0 <= i < |rest| ==> !IsIdentStart(rest[i])
    ensures Usable(Idents(gap + (word + rest))) == [word]
  {
    IdentsSplit(gap, word + rest);
    NoIdents(gap);
    IdentsOfName(word, rest);
    NoIdents(rest);
    assert [] + ([word] + []) == [word];
    UsableKeepsLast([], word);
    assert [] + [word] == [word];
  }

  /** A legal ANSI port is read under a wrong name: that of its dimension. */
  lemma DimensionIsRead(p: Port, word: string)
    requires p.Valid() && p.after == "" && IsIdent(word) && word !in PORT_NOISE
    ensures var q := p.(after := " [" + (word + "]")); q.Valid() && q.Read() == word
  {
    WordIsUsable(" [", word, "]");
    WordIsFlat(word);
    DimensionIsBalanced(word);
    PortGoesOn(p, " [" + (word + "]"));
  }

  /** Or that of its default value. */
  lemma DefaultIsRead(p: Port, word: string)
    requires p.Valid() && p.after == "" && IsIdent(word) && word !in PORT_NOISE
    ensures var q := p.(after := " = " + (word + "")); q.Valid() && q.Read() == word
  {
    WordIsUsable(" = ", word, "");
    WordIsFlat(word);
    DefaultIsBalanced(word);
    PortGoesOn(p, " = " + (word + ""));
  }

  lemma DefaultIsBalanced(word: string)
    requires Flat(word)
    ensures var e := " = " + (word + ""); WellNested(e) && Depth(AnyKind, e) == 0 && ',' !in e
  {
    var e := " = " + (word + "");
    assert Flat(e);
    FlatIsNested(e);
    FlatDepth(AnyKind, e);
  }

  lemma WordIsFlat(word: string)
    requires IsIdent(word)
    ensures Flat(word)
  {
    forall i | 0 <= i < |word| ensures Weight(AnyKind, word[i]) == 0 && word[i] != ',' { assert IsIdentChar(word[i]); }
  }

  lemma DepthOfOne(kind: Brackets, c: char)
    ensures Depth(kind, [c]) == Weight(kind, c)
  {
    DepthSnoc(kind, "", c);
    assert "" + [c] == [c];
  }

  lemma DimensionDepth(word: string)
    requires Flat(word)
    ensures Depth(AnyKind, " [" + (word + "]")) == 0
  {
    FlatDepth(AnyKind, word);
    DepthOfOne(AnyKind, ' ');
    DepthOfOne(AnyKind, ']');
    DepthSnoc(AnyKind, " ", '[');
    DepthAdds(AnyKind, word, "]");
    DepthAdds(AnyKind, " [", word + "]");
  }

  lemma NoRoundNested(s: string)
    requires '(' !in s && ')' !in s
    ensures WellNested(s)
  {
    forall k | 0 <= k <= |s| ensures Depth(Round, s[..k]) == 0 { NoRound(s[..k]); }
    assert s[..|s|] == s;
  }

  lemma DimensionIsBalanced(word: string)
    requires Flat(word)
    ensures var d := " [" + (word + "]"); WellNested(d) && Depth(AnyKind, d) == 0
  {
    var d := " [" + (word + "]");
    DimensionDepth(word);
    assert forall c :: c in word ==> Weight(AnyKind, c) == 0;
    assert '(' !in word && ')' !in word;
    NoRoundNested(d);
  }

  lemma {:induction false} NoRound(s: string)
    requires '(' !in s && ')' !in s
    ensures Depth(Round, s) == 0
  {
    if s != "" {
      assert s[|s| - 1] in s;
      NoRound(s[..|s| - 1]);
    }
  }

  // ----- the top module ----------------------------------------------------------------------------

  datatype Declaration = Declaration(name: string, end: nat)

  /** A match of `^\s*module\s+(NAME)` at `i`, line by line. */
  function DeclarationAt(s: string, i: nat): (d: Option<Declaration>)
    requires i <= |s|
    ensures d.Some? ==> i < d.value.end <= |s| && IsIdent(d.value.name)
  {
    var q := SkipSpaces(s, i);
    if (i > 0 && s[i - 1] != '\n') || !Opens(s[q..], "module") then None
    else
      var j := SkipSpaces(s, q + 6);
      if j == q + 6 || j == |s| || !IsIdentStart(s[j]) then None
      else Some(Declaration(s[j..IdentEnd(s, j + 1)], IdentEnd(s, j + 1)))
  }

  function Declared(s: string, i: nat): (names: seq<string>)
    requires i <= |s|
    ensures forall n :: n in names ==> IsIdent(n)
    decreases |s| - i
  {
    match DeclarationAt(s, i)
    case Some(d) => [d.name] + Declared(s, d.end)
    case None => if i == |s| then [] else Declared(s, i + 1)
  }

  /** The last module declared, or the fallback; always an identifier where the fallback is one. */
  function InferTop(rtl: string, fallback: string := "top"): (top: string)
    ensures IsIdent(fallback) ==> IsIdent(top) && Trimmed(top)
  {
    var names := Declared(rtl, 0);
    assert names != [] ==> names[|names| - 1] in names;
    if names != [] then names[|names| - 1] else fallback
  }

  lemma DeclarationSpans(s: string, at: nat, start: nat, end: nat)
    requires at + 6 < start < end <= |s| && (at > 0 ==> s[at - 1] == '\n')
    requires SkipSpaces(s, at) == at && "module" <= s[at..] && SkipSpaces(s, at + 6) == start
    requires IsIdentStart(s[start]) && IdentEnd(s, start + 1) == end
    ensures DeclarationAt(s, at) == Some(Declaration(s[start..end], end))
  {
  }

  lemma DeclarationIs(s: string, at: nat, start: nat, name: string, t: string)
    requires at + 6 < start <= |s| && (at > 0 ==> s[at - 1] == '\n')
    requires "module" <= s[at..] && SkipSpaces(s, at + 6) == start
    requires s[start..] == name + t && IsIdent(name) && t != "" && !IsIdentChar(t[0])
    ensures DeclarationAt(s, at) == Some(Declaration(name, start + |name|))
  {
    NoGapToSkip(s, at);
    NameEnds(s, start, name, t);
    NameIsWhole(s, start, name);
    DeclarationSpans(s, at, start, start + |name|);
  }

  lemma NoGapToSkip(s: string, at: nat)
    requires at <= |s| && "module" <= s[at..]
    ensures SkipSpaces(s, at) == at
  {
    assert s[at] == s[at..][0] == "module"[0];
  }

  lemma NameIsWhole(s: string, start: nat, name: string)
    requires start < |s| && IsIdent(name) && name <= s[start..] && start + |name| < |s|
    requires !IsIdentChar(s[start + |name|])
    ensures IsIdentStart(s[start]) && IdentEnd(s, start + 1) == start + |name|
    ensures s[start..start + |name|] == name
  {
    assert forall k :: 0 <= k < |name| ==> s[start..][k] == name[k] && s[start + k] == s[start..][k];
    assert forall k :: start <= k < start + |name| ==> IsIdentChar(s[k]) by {
      assert forall k :: start <= k < start + |name| ==> s[k] == name[k - start];
    }
    IdentEndIs(s, start + 1, start + |name|);
  }

  /** No declaration opens at or after `end`, and none before `at` reaches beyond it. */
  ghost predicate NoOther(s: string, at: nat, end: nat)
    requires end <= |s|
  {
    && (forall i :: 0 <= i < at && i <= |s| && DeclarationAt(s, i).Some? ==> DeclarationAt(s, i).value.end <= at)
    && forall i :: end <= i <= |s| ==> DeclarationAt(s, i).None?
  }

  lemma {:induction false} NoneDeclared(s: string, i: nat)
    requires i <= |s| && forall k :: i <= k <= |s| ==> DeclarationAt(s, k).None?
    ensures Declared(s, i) == []
    decreases |s| - i
  {
    if i < |s| { NoneDeclared(s, i + 1); }
  }

  lemma {:induction false} LastDeclared(s: string, i: nat, at: nat, d: Declaration)
    requires i <= at <= |s| && DeclarationAt(s, at) == Some(d) && d.end <= |s| && NoOther(s, at, d.end)
    ensures Declared(s, i) != [] && Declared(s, i)[|Declared(s, i)| - 1] == d.name
    decreases at - i
  {
    if i == at {
      NoneDeclared(s, d.end);
    } else {
      var found := DeclarationAt(s, i);
      var next := if found.Some? then found.value.end else i + 1;
      assert next <= at;
      LastDeclared(s, next, at, d);
      assert Declared(s, i) == if found.Some? then [found.value.name] + Declared(s, next) else Declared(s, next);
    }
  }

  lemma TopIsLast(s: string, at: nat, start: nat, name: string, t: string, fallback: string)
    requires at + 6 < start <= |s| && (at > 0 ==> s[at - 1] == '\n')
    requires "module" <= s[at..] && SkipSpaces(s, at + 6) == start
    requires s[start..] == name + t && IsIdent(name) && t != "" && !IsIdentChar(t[0])
    requires start + |name| <= |s| && NoOther(s, at, start + |name|)
    ensures InferTop(s, fallback) == name
  {
    DeclarationIs(s, at, start, name, t);
    LastDeclared(s, 0, at, Declaration(name, start + |name|));
  }

  /** The inferred top is the name in the last header that opens a line. */
  lemma TopIsLastHeader(s: string, at: nat, h: Header, rest: string, fallback: string)
    requires h.Valid() && at <= |s| && s[at..] == h.Print(rest) && (at > 0 ==> s[at - 1] == '\n')
    requires at + 6 + |h.gap| + |h.name| <= |s| ==> NoOther(s, at, at + 6 + |h.gap| + |h.name|)
    ensures InferTop(s, fallback) == h.name
  {
    var start, t := HeaderNames(s, at, h, rest);
    assert |s[start..]| == |s| - start;
    TopIsLast(s, at, start, h.name, t, fallback);
  }
}
