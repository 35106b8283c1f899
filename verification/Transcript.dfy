/**
 The provider-neutral agent transcript and its two translations (app/core/llm.py).

 The Anthropic translation coalesces consecutive tool entries into one user message;
 the OpenAI one maps entry by entry.  What each of them preserves is proved here, and
 so is the shape a block agent's instruction takes once translated.
 */
module Transcript {

  /** A JSON argument: `Other` is any non-string, with its truth value and its `str()` form. */
  datatype ArgValue = Null | Str(s: string) | Other(truthy: bool, rendered: string)

  datatype ToolCall = ToolCall(id: string, name: string, args: map<string, ArgValue>)

  /** A provider's own content block, replayed verbatim. */
  datatype Block = TextBlock(text: string) | Thinking(payload: string) | ToolUse(call: ToolCall)

  /** One neutral entry.  `raw == []` stands for an absent or empty `raw_content`. */
  datatype Message =
    | User(content: string)
    | System(content: string)
    | Assistant(content: string, calls: seq<ToolCall>, raw: seq<Block>)
    | ToolEntry(callId: string, content: string, isError: bool)

  datatype Role = UserRole | SystemRole | AssistantRole

  datatype ResultBlock = ResultBlock(toolUseId: string, content: string, isError: bool)

  datatype AMessage =
    | Plain(role: Role, text: string)
    | Turn(blocks: seq<Block>)
    | Results(results: seq<ResultBlock>)

  datatype OMessage =
    | OPlain(role: Role, text: string)
    | OTurn(text: string, calls: seq<ToolCall>)
    | OTool(toolCallId: string, content: string)

  function RoleOf(m: Message): Role
    requires !m.ToolEntry?
  {
    match m
    case User(_) => UserRole
    case System(_) => SystemRole
    case Assistant(_, _, _) => AssistantRole
  }

  // ── The OpenAI translation ─────────────────────────────────────────────────

  function OpenAiEntry(m: Message): OMessage {
    if m.ToolEntry? then OTool(m.callId, m.content)
    else if m.Assistant? && m.calls != [] then OTurn(m.content, m.calls)
    else OPlain(RoleOf(m), m.content)
  }

  function OpenAi(ms: seq<Message>): seq<OMessage> {
    if ms == [] then [] else OpenAi(ms[..|ms| - 1]) + [OpenAiEntry(ms[|ms| - 1])]
  }

  method ToOpenAiMessages(messages: seq<Message>) returns (out: seq<OMessage>)
    ensures out == OpenAi(messages)
  {
    out := [];
    for i := 0 to |messages|
      invariant out == OpenAi(messages[..i])
    {
      assert messages[..i + 1][..i] == messages[..i];
      var m := messages[i];
      if m.ToolEntry? {
        out := out + [OTool(m.callId, m.content)];
        continue;
      }
      if m.Assistant? && m.calls != [] {
        out := out + [OTurn(m.content, m.calls)];
        continue;
      }
      out := out + [OPlain(RoleOf(m), m.content)];
    }
    assert messages[..|messages|] == messages;
  }

  /** The entry a message of the OpenAI form stands for. */
  function EntryOf(o: OMessage): Message {
    match o
    case OTool(id, content) => ToolEntry(id, content, false)
    case OTurn(text, calls) => Assistant(text, calls, [])
    case OPlain(UserRole, text) => User(text)
    case OPlain(SystemRole, text) => System(text)
    case OPlain(AssistantRole, text) => Assistant(text, [], [])
  }

  /** An entry without what the OpenAI form has no room for: another provider's blocks and the error flag. */
  function Portable(m: Message): Message {
    match m
    case Assistant(content, calls, _) => Assistant(content, calls, [])
    case ToolEntry(id, content, _) => ToolEntry(id, content, false)
    case _ => m
  }

  /** Read back, the OpenAI form is the transcript entry for entry, and no turn in it lists no calls. */
  lemma {:induction false} OpenAiPreservesEntries(ms: seq<Message>)
    ensures |OpenAi(ms)| == |ms|
    ensures forall i :: 0 <= i < |ms| ==> EntryOf(OpenAi(ms)[i]) == Portable(ms[i])
    ensures forall i :: 0 <= i < |ms| && OpenAi(ms)[i].OTurn? ==> OpenAi(ms)[i].calls != []
  {
    if ms != [] {
      var init, last := ms[..|ms| - 1], ms[|ms| - 1];
      OpenAiPreservesEntries(init);
      assert OpenAi(ms) == OpenAi(init) + [OpenAiEntry(last)];
    }
  }

  // ── The Anthropic translation ──────────────────────────────────────────────

  function ResultOf(m: Message): ResultBlock
    requires m.ToolEntry?
  {
    ResultBlock(m.callId, if m.content == "" then "(no output)" else m.content, m.isError)
  }

  function ToolUses(calls: seq<ToolCall>): (blocks: seq<Block>)
    ensures |blocks| == |calls|
    ensures forall i :: 0 <= i < |calls| ==> blocks[i] == ToolUse(calls[i])
  {
    seq(|calls|, i requires 0 <= i < |calls| => ToolUse(calls[i]))
  }

  /** The single message a non-tool entry becomes. */
  function Render(m: Message): AMessage
    requires !m.ToolEntry?
  {
    if m.Assistant? && m.raw != [] then Turn(m.raw)
    else if m.Assistant? && m.calls != [] then
      Turn((if m.content != "" then [TextBlock(m.content)] else []) + ToolUses(m.calls))
    else Plain(RoleOf(m), m.content)
  }

  /** Joins the trailing results message, or opens one. */
  function AddResult(out: seq<AMessage>, r: ResultBlock): seq<AMessage> {
    if out != [] && out[|out| - 1].Results?
    then out[..|out| - 1] + [Results(out[|out| - 1].results + [r])]
    else out + [Results([r])]
  }

  function Anthropic(ms: seq<Message>): seq<AMessage> {
    if ms == [] then []
    else
      Extend(Anthropic(ms[..|ms| - 1]), ms[|ms| - 1])
  }

  function Extend(out: seq<AMessage>, m: Message): seq<AMessage> {
    if m.ToolEntry? then AddResult(out, ResultOf(m)) else out + [Render(m)]
  }

  lemma AnthropicSnoc(ms: seq<Message>, m: Message)
    ensures Anthropic(ms + [m]) == Extend(Anthropic(ms), m)
  {
    assert (ms + [m])[..|ms|] == ms;
  }

  lemma AnthropicNext(ms: seq<Message>, i: nat)
    requires i < |ms|
    ensures Anthropic(ms[..i + 1]) == Extend(Anthropic(ms[..i]), ms[i])
  {
    assert ms[..i + 1][..i] == ms[..i];
  }

  function Flush(out: seq<AMessage>, pending: seq<ResultBlock>): seq<AMessage> {
    if pending == [] then out else out + [Results(pending)]
  }

  /** One pass of the loop: flush if needed, then append; or hold the result back. */
  lemma FlushStep(out: seq<AMessage>, pending: seq<ResultBlock>, m: Message)
    requires out == [] || !out[|out| - 1].Results?
    ensures m.ToolEntry? ==> Flush(out, pending + [ResultOf(m)]) == Extend(Flush(out, pending), m)
    ensures !m.ToolEntry? ==> Flush(out, pending) + [Render(m)] == Extend(Flush(out, pending), m)
  {
    if m.ToolEntry? && pending == [] {
      assert pending + [ResultOf(m)] == [ResultOf(m)];
    } else if m.ToolEntry? {
      var f := Flush(out, pending);
      assert f[..|f| - 1] == out;
    }
  }

  /** The body of the loop over the transcript. */
  method TakeMessage(sent: seq<AMessage>, held: seq<ResultBlock>, m: Message)
    returns (out: seq<AMessage>, pending: seq<ResultBlock>)
    requires sent == [] || !sent[|sent| - 1].Results?
    ensures out == [] || !out[|out| - 1].Results?
    ensures Flush(out, pending) == Extend(Flush(sent, held), m)
  {
    out, pending := sent, held;
    FlushStep(sent, held, m);
    if m.ToolEntry? {
      pending := pending + [ResultOf(m)];
    } else {
      if pending != [] {
        out := out + [Results(pending)];
        pending := [];
      }
      out := out + [Render(m)];
    }
  }

  method ToAnthropicMessages(messages: seq<Message>) returns (out: seq<AMessage>)
    ensures out == Anthropic(messages)
  {
    out := [];
    var pending: seq<ResultBlock> := [];
    for i := 0 to |messages|
      invariant Flush(out, pending) == Anthropic(messages[..i])
      invariant out == [] || !out[|out| - 1].Results?
    {
      AnthropicNext(messages, i);
      out, pending := TakeMessage(out, pending, messages[i]);
    }
    assert messages[..|messages|] == messages;
    if pending != [] {
      out := out + [Results(pending)];
    }
  }

  // ── What the Anthropic translation means ───────────────────────────────────

  /** A message, or one tool result on its own. */
  datatype Item = Whole(m: AMessage) | OneResult(r: ResultBlock)

  function ItemOf(m: Message): Item {
    if m.ToolEntry? then OneResult(ResultOf(m)) else Whole(Render(m))
  }

  function Items(ms: seq<Message>): seq<Item> {
    if ms == [] then [] else Items(ms[..|ms| - 1]) + [ItemOf(ms[|ms| - 1])]
  }

  function Singles(rs: seq<ResultBlock>): (items: seq<Item>)
    ensures |items| == |rs|
    ensures forall i :: 0 <= i < |rs| ==> items[i] == OneResult(rs[i])
  {
    seq(|rs|, i requires 0 <= i < |rs| => OneResult(rs[i]))
  }

  function ExpandOne(m: AMessage): seq<Item> {
    if m.Results? then Singles(m.results) else [Whole(m)]
  }

  /** The output with every results message taken apart again. */
  function Expand(out: seq<AMessage>): seq<Item> {
    if out == [] then [] else Expand(out[..|out| - 1]) + ExpandOne(out[|out| - 1])
  }

  /** No results message is empty and no two of them touch. */
  ghost predicate Coalesced(out: seq<AMessage>) {
    && (forall i :: 0 <= i < |out| && out[i].Results? ==> out[i].results != [])
    && (forall i :: 0 < i < |out| && out[i].Results? ==> !out[i - 1].Results?)
  }

  lemma ExpandSnoc(out: seq<AMessage>, m: AMessage)
    ensures Expand(out + [m]) == Expand(out) + ExpandOne(m)
  {
    assert (out + [m])[..|out|] == out;
  }

  lemma SinglesSnoc(rs: seq<ResultBlock>, r: ResultBlock)
    ensures Singles(rs + [r]) == Singles(rs) + [OneResult(r)]
  {
  }

  lemma ExpandMerged(init: seq<AMessage>, rs: seq<ResultBlock>, r: ResultBlock)
    ensures Expand(init + [Results(rs + [r])]) == Expand(init + [Results(rs)]) + [OneResult(r)]
  {
    ExpandSnoc(init, Results(rs + [r]));
    ExpandSnoc(init, Results(rs));
    SinglesSnoc(rs, r);
    assert Expand(init) + (Singles(rs) + [OneResult(r)]) == Expand(init) + Singles(rs) + [OneResult(r)];
  }

  lemma ExpandAddResult(out: seq<AMessage>, r: ResultBlock)
    ensures Expand(AddResult(out, r)) == Expand(out) + [OneResult(r)]
  {
    if out != [] && out[|out| - 1].Results? {
      var init, rs := out[..|out| - 1], out[|out| - 1].results;
      assert out == init + [Results(rs)] && AddResult(out, r) == init + [Results(rs + [r])];
      ExpandMerged(init, rs, r);
    } else {
      ExpandSnoc(out, Results([r]));
      assert Singles([r]) == [OneResult(r)];
    }
  }

  lemma ExtendKeepsCoalesced(out: seq<AMessage>, m: Message)
    requires Coalesced(out)
    ensures Coalesced(Extend(out, m))
  {
  }

  /** Order, ids, contents and error flags survive, and every maximal run is one message. */
  lemma {:induction false} TranslationPreservesEntries(ms: seq<Message>)
    ensures Expand(Anthropic(ms)) == Items(ms)
    ensures Coalesced(Anthropic(ms))
  {
    if ms != [] {
      var init, m := ms[..|ms| - 1], ms[|ms| - 1];
      TranslationPreservesEntries(init);
      ExtendKeepsCoalesced(Anthropic(init), m);
      if m.ToolEntry? {
        ExpandAddResult(Anthropic(init), ResultOf(m));
      } else {
        ExpandSnoc(Anthropic(init), Render(m));
      }
    }
  }

  /** The two properties above leave no freedom: at most one output has them. */
  lemma {:induction false} TranslationIsForced(a: seq<AMessage>, b: seq<AMessage>)
    requires Expand(a) == Expand(b) && Coalesced(a) && Coalesced(b)
    ensures a == b
    decreases |a|
  {
    ExpandNonEmpty(a);
    ExpandNonEmpty(b);
    if a != [] && b != [] {
      var m, n := a[|a| - 1], b[|b| - 1];
      var a', b' := a[..|a| - 1], b[..|b| - 1];
      assert a == a' + [m] && b == b' + [n];
      LastIsWhole(a', m);
      LastIsWhole(b', n);
      SameTail(Expand(a'), ExpandOne(m), Expand(b'), ExpandOne(n));
      SameMessage(m, n);
      TranslationIsForced(a', b');
    }
  }

  ghost predicate Run(items: seq<Item>) {
    items != [] && ((|items| == 1 && items[0].Whole?) || forall i :: 0 <= i < |items| ==> items[i].OneResult?)
  }

  ghost predicate EndsInOneWay(x: seq<Item>, s: seq<Item>) {
    Run(s) && (s[0].OneResult? && x != [] ==> x[|x| - 1].Whole?)
  }

  lemma NotShorter(x: seq<Item>, s: seq<Item>, y: seq<Item>, t: seq<Item>)
    requires x + s == y + t && EndsInOneWay(x, s) && EndsInOneWay(y, t)
    ensures |y| <= |x|
  {
    assert (x + s)[|y|] == (y + t)[|y|] == t[0];
    if y != [] {
      assert (x + s)[|y| - 1] == (y + t)[|y| - 1] == y[|y| - 1];
    }
  }

  /** A run of results preceded by a whole item, or a single whole item, ends a sequence in one way. */
  lemma SameTail(x: seq<Item>, s: seq<Item>, y: seq<Item>, t: seq<Item>)
    requires x + s == y + t && EndsInOneWay(x, s) && EndsInOneWay(y, t)
    ensures x == y && s == t
  {
    NotShorter(x, s, y, t);
    NotShorter(y, t, x, s);
    assert x == (x + s)[..|x|] && y == (y + t)[..|x|];
    assert s == (x + s)[|x|..] && t == (y + t)[|x|..];
  }

  lemma SameMessage(m: AMessage, n: AMessage)
    requires ExpandOne(m) == ExpandOne(n) && ExpandOne(m) != []
    ensures m == n
  {
    assert ExpandOne(m)[0] == ExpandOne(n)[0];
    if m.Results? {
      assert forall i :: 0 <= i < |m.results| ==> ExpandOne(m)[i] == OneResult(m.results[i]);
      assert forall i :: 0 <= i < |n.results| ==> ExpandOne(n)[i] == OneResult(n.results[i]);
      assert m.results == n.results;
    }
  }

  lemma ExpandNonEmpty(a: seq<AMessage>)
    requires Coalesced(a)
    ensures Expand(a) == [] <==> a == []
  {
  }

  /** In front of a results message the expansion ends in a whole message. */
  lemma LastIsWhole(a: seq<AMessage>, m: AMessage)
    requires Coalesced(a + [m])
    ensures Coalesced(a) && Run(ExpandOne(m))
    ensures m.Results? && a != [] ==> Expand(a) != [] && Expand(a)[|Expand(a)| - 1].Whole?
  {
    var am := a + [m];
    assert am[|a|] == m;
    assert forall i :: 0 <= i < |a| ==> am[i] == a[i];
  }

  /** Translation is local: it may be cut in front of any non-tool entry. */
  lemma {:induction false} TranslationSplits(pre: seq<Message>, suf: seq<Message>)
    requires suf != [] ==> !suf[0].ToolEntry?
    ensures Anthropic(pre + suf) == Anthropic(pre) + Anthropic(suf)
    decreases |suf|
  {
    if suf == [] {
      assert pre + suf == pre;
    } else if |suf| == 1 {
      SplitFirst(pre, suf);
    } else {
      TranslationSplits(pre, suf[..|suf| - 1]);
      SplitStep(pre, suf);
    }
  }

  lemma SplitFirst(pre: seq<Message>, suf: seq<Message>)
    requires |suf| == 1 && !suf[0].ToolEntry?
    ensures Anthropic(pre + suf) == Anthropic(pre) + Anthropic(suf)
  {
    assert suf == [suf[0]] == [] + [suf[0]];
    AnthropicSnoc(pre, suf[0]);
    AnthropicSnoc([], suf[0]);
  }

  lemma SplitStep(pre: seq<Message>, suf: seq<Message>)
    requires |suf| > 1
    requires Anthropic(pre + suf[..|suf| - 1]) == Anthropic(pre) + Anthropic(suf[..|suf| - 1])
    ensures Anthropic(pre + suf) == Anthropic(pre) + Anthropic(suf)
  {
    var init, m := suf[..|suf| - 1], suf[|suf| - 1];
    LastApart(pre, suf);
    SplitSnoc(pre, init, m);
  }

  lemma LastApart(pre: seq<Message>, suf: seq<Message>)
    requires suf != []
    ensures pre + suf == pre + suf[..|suf| - 1] + [suf[|suf| - 1]]
    ensures suf == suf[..|suf| - 1] + [suf[|suf| - 1]]
  {
  }

  lemma SplitSnoc(pre: seq<Message>, init: seq<Message>, m: Message)
    requires init != [] && Anthropic(pre + init) == Anthropic(pre) + Anthropic(init)
    ensures Anthropic(pre + init + [m]) == Anthropic(pre) + Anthropic(init + [m])
  {
    AnthropicSnoc(pre + init, m);
    AnthropicSnoc(init, m);
    TranslationNonEmpty(init);
    ExtendIsLocal(Anthropic(pre), Anthropic(init), m);
  }

  lemma ExtendIsLocal(a: seq<AMessage>, b: seq<AMessage>, m: Message)
    requires b != []
    ensures Extend(a + b, m) == a + Extend(b, m)
  {
  }

  lemma TranslationNonEmpty(ms: seq<Message>)
    requires ms != []
    ensures Anthropic(ms) != []
  {
  }

  // ── Calls and results, in order, under both providers ──────────────────────

  datatype Event = Called(id: string) | Answered(id: string)

  function CallEvents(calls: seq<ToolCall>): (es: seq<Event>)
    ensures |es| == |calls| && forall i :: 0 <= i < |calls| ==> es[i] == Called(calls[i].id)
  {
    seq(|calls|, i requires 0 <= i < |calls| => Called(calls[i].id))
  }

  function CallsOf(blocks: seq<Block>): seq<ToolCall> {
    if blocks == [] then []
    else CallsOf(blocks[..|blocks| - 1])
         + (if blocks[|blocks| - 1].ToolUse? then [blocks[|blocks| - 1].call] else [])
  }

  function ResultEvents(rs: seq<ResultBlock>): (es: seq<Event>)
    ensures |es| == |rs| && forall i :: 0 <= i < |rs| ==> es[i] == Answered(rs[i].toolUseId)
  {
    seq(|rs|, i requires 0 <= i < |rs| => Answered(rs[i].toolUseId))
  }

  function AEventsOf(m: AMessage): seq<Event> {
    match m
    case Plain(_, _) => []
    case Turn(blocks) => CallEvents(CallsOf(blocks))
    case Results(rs) => ResultEvents(rs)
  }

  function AEvents(out: seq<AMessage>): seq<Event> {
    if out == [] then [] else AEvents(out[..|out| - 1]) + AEventsOf(out[|out| - 1])
  }

  function OEventsOf(m: OMessage): seq<Event> {
    match m
    case OPlain(_, _) => []
    case OTurn(_, calls) => CallEvents(calls)
    case OTool(id, _) => [Answered(id)]
  }

  function OEvents(out: seq<OMessage>): seq<Event> {
    if out == [] then [] else OEvents(out[..|out| - 1]) + OEventsOf(out[|out| - 1])
  }

  /** Raw content, when kept, carries the turn's own calls. */
  predicate RawMatches(m: Message) {
    m.Assistant? && m.raw != [] ==> CallsOf(m.raw) == m.calls
  }

  lemma CallsOfSnoc(blocks: seq<Block>, call: ToolCall)
    ensures CallsOf(blocks + [ToolUse(call)]) == CallsOf(blocks) + [call]
  {
    assert (blocks + [ToolUse(call)])[..|blocks|] == blocks;
  }

  lemma LastUse(text: seq<Block>, calls: seq<ToolCall>)
    requires calls != []
    ensures text + ToolUses(calls) == text + ToolUses(calls[..|calls| - 1]) + [ToolUse(calls[|calls| - 1])]
  {
  }

  lemma {:induction false} ReconstructedCalls(text: seq<Block>, calls: seq<ToolCall>)
    requires CallsOf(text) == []
    ensures CallsOf(text + ToolUses(calls)) == calls
    decreases |calls|
  {
    if calls == [] {
      assert text + ToolUses(calls) == text;
    } else {
      var init, last := calls[..|calls| - 1], calls[|calls| - 1];
      ReconstructedCalls(text, init);
      CallsOfSnoc(text + ToolUses(init), last);
      LastUse(text, calls);
      assert calls == init + [last];
    }
  }

  /** The texts of a turn, joined. */
  function JoinedText(content: seq<Block>): string {
    if content == [] then ""
    else (if content[0].TextBlock? then content[0].text else "") + JoinedText(content[1..])
  }

  /** The texts of a turn's content are joined in order. */
  lemma {:induction false} TextsAreJoinedInOrder(a: seq<Block>, b: Block)
    ensures JoinedText(a + [b]) == JoinedText(a) + if b.TextBlock? then b.text else ""
  {
    if a == [] {
      assert a + [b] == [b] && [b][1..] == [] && JoinedText([]) == "";
    } else {
      TextsAreJoinedInOrder(a[1..], b);
      assert (a + [b])[1..] == a[1..] + [b] && (a + [b])[0] == a[0];
      assert JoinedText(a + [b]) == (if a[0].TextBlock? then a[0].text else "") + JoinedText(a[1..] + [b]);
    }
  }

  lemma {:induction false} UsesHaveNoText(calls: seq<ToolCall>)
    ensures JoinedText(ToolUses(calls)) == ""
  {
    if calls != [] {
      UsesHaveNoText(calls[1..]);
      assert ToolUses(calls)[1..] == ToolUses(calls[1..]);
    }
  }

  /** What one part of the Anthropic form says of the entry it stands for. */
  predicate Represents(item: Item, m: Message) {
    match m
    case User(content) => item == Whole(Plain(UserRole, content))
    case System(content) => item == Whole(Plain(SystemRole, content))
    case ToolEntry(id, content, isError) =>
      && item.OneResult? && item.r.toolUseId == id && item.r.isError == isError
      && item.r.content != "" && (content != "" ==> item.r.content == content)
    case Assistant(content, calls, raw) =>
      if raw != [] then item == Whole(Turn(raw))
      else if calls == [] then item == Whole(Plain(AssistantRole, content))
      else item.Whole? && item.m.Turn? && CallsOf(item.m.blocks) == calls && JoinedText(item.m.blocks) == content
  }

  lemma ItemRepresents(m: Message)
    ensures Represents(ItemOf(m), m)
  {
    if m.Assistant? && m.raw == [] && m.calls != [] {
      var text := if m.content != "" then [TextBlock(m.content)] else [];
      assert CallsOf(text) == [] by { if text != [] { assert text[..0] == []; } }
      ReconstructedCalls(text, m.calls);
      UsesHaveNoText(m.calls);
      if text == [] {
        assert text + ToolUses(m.calls) == ToolUses(m.calls);
      } else {
        assert (text + ToolUses(m.calls))[1..] == ToolUses(m.calls);
      }
    }
  }

  lemma {:induction false} ItemsRepresent(ms: seq<Message>, i: nat)
    requires i < |ms|
    ensures |Items(ms)| == |ms| && Represents(Items(ms)[i], ms[i])
    decreases |ms|
  {
    var n := |ms| - 1;
    ItemRepresents(ms[n]);
    if n > 0 { ItemsRepresent(ms[..n], if i < n then i else 0); }
  }

  /**
   Part by part the Anthropic form says what the entries say: roles, texts, calls, answered ids and error flags; an
   assistant turn of the provider's own goes back unchanged, and no result is empty.
   */
  lemma EntriesAreRepresented(ms: seq<Message>, i: nat)
    requires i < |ms|
    ensures |Expand(Anthropic(ms))| == |ms| && Represents(Expand(Anthropic(ms))[i], ms[i])
  {
    TranslationPreservesEntries(ms);
    ItemsRepresent(ms, i);
  }

  lemma TurnCalls(m: Message)
    requires m.Assistant? && RawMatches(m)
    ensures Render(m).Turn? ==> CallsOf(Render(m).blocks) == m.calls
    ensures Render(m).Plain? ==> m.calls == []
  {
    if m.raw == [] && m.calls != [] {
      var text := if m.content != "" then [TextBlock(m.content)] else [];
      assert CallsOf(text) == [] by { if text != [] { assert text[..0] == []; } }
      ReconstructedCalls(text, m.calls);
    }
  }

  lemma AEventsSnoc(out: seq<AMessage>, m: AMessage)
    ensures AEvents(out + [m]) == AEvents(out) + AEventsOf(m)
  {
    assert (out + [m])[..|out|] == out;
  }

  lemma ResultEventsSnoc(rs: seq<ResultBlock>, r: ResultBlock)
    ensures ResultEvents(rs + [r]) == ResultEvents(rs) + [Answered(r.toolUseId)]
  {
  }

  lemma AppendLast(a: seq<Event>, b: seq<Event>, e: Event)
    ensures a + (b + [e]) == a + b + [e]
  {
  }

  lemma EventsOfMerged(init: seq<AMessage>, rs: seq<ResultBlock>, r: ResultBlock)
    ensures AEvents(init + [Results(rs + [r])]) == AEvents(init + [Results(rs)]) + [Answered(r.toolUseId)]
  {
    AEventsSnoc(init, Results(rs + [r]));
    AEventsSnoc(init, Results(rs));
    ResultEventsSnoc(rs, r);
    AppendLast(AEvents(init), ResultEvents(rs), Answered(r.toolUseId));
  }

  lemma EventsOfResult(out: seq<AMessage>, m: Message)
    requires m.ToolEntry?
    ensures AEvents(AddResult(out, ResultOf(m))) == AEvents(out) + [Answered(m.callId)]
  {
    if out != [] && out[|out| - 1].Results? {
      var init, rs, r := out[..|out| - 1], out[|out| - 1].results, ResultOf(m);
      assert init + [Results(rs)] == out;
      assert AddResult(out, r) == init + [Results(rs + [r])];
      EventsOfMerged(init, rs, r);
    } else {
      AEventsSnoc(out, Results([ResultOf(m)]));
      assert ResultEvents([ResultOf(m)]) == [Answered(m.callId)];
    }
  }

  lemma EventsOfExtend(out: seq<AMessage>, m: Message)
    requires RawMatches(m)
    ensures AEvents(Extend(out, m)) == AEvents(out) + OEventsOf(OpenAiEntry(m))
  {
    if m.ToolEntry? {
      EventsOfResult(out, m);
    } else {
      AEventsSnoc(out, Render(m));
      if m.Assistant? {
        TurnCalls(m);
        assert m.calls == [] ==> CallEvents(m.calls) == [];
      }
    }
  }

  lemma OEventsSnoc(out: seq<OMessage>, m: OMessage)
    ensures OEvents(out + [m]) == OEvents(out) + OEventsOf(m)
  {
    assert (out + [m])[..|out|] == out;
  }

  /** Both providers see the same calls and answers in the same order. */
  lemma {:induction false} ProvidersAgreeOnCalls(ms: seq<Message>)
    requires forall i :: 0 <= i < |ms| ==> RawMatches(ms[i])
    ensures AEvents(Anthropic(ms)) == OEvents(OpenAi(ms))
  {
    if ms != [] {
      var init, m := ms[..|ms| - 1], ms[|ms| - 1];
      ProvidersAgreeOnCalls(init);
      EventsOfExtend(Anthropic(init), m);
      OEventsSnoc(OpenAi(init), OpenAiEntry(m));
    }
  }

  // ── Legality, and the shape of one instruction ─────────────────────────────

  predicate UserSide(m: AMessage) {
    m.Results? || (m.Plain? && m.role == UserRole)
  }

  predicate AssistantSide(m: AMessage) {
    m.Turn? || (m.Plain? && m.role == AssistantRole)
  }

  /** `rs` answers the calls of `blocks`, one for one and in order. */
  ghost predicate Answers(rs: seq<ResultBlock>, blocks: seq<Block>) {
    ResultEvents(rs) == AnswerEvents(CallsOf(blocks))
  }

  function AnswerEvents(calls: seq<ToolCall>): (es: seq<Event>)
    ensures |es| == |calls| && forall i :: 0 <= i < |calls| ==> es[i] == Answered(calls[i].id)
  {
    seq(|calls|, i requires 0 <= i < |calls| => Answered(calls[i].id))
  }

  /** What the API accepts between one message and the next (`None` past the end). */
  ghost predicate LegalStep(out: seq<AMessage>, i: nat)
    requires i < |out|
  {
    && (out[i].Turn? && CallsOf(out[i].blocks) != [] ==>
          i + 1 < |out| && out[i + 1].Results? && Answers(out[i + 1].results, out[i].blocks))
    && (out[i].Results? ==>
          i > 0 && out[i - 1].Turn? && Answers(out[i].results, out[i - 1].blocks))
    && (out[i].Plain? && out[i].role == SystemRole ==>
          i > 0 && UserSide(out[i - 1]) && (i + 1 < |out| ==> AssistantSide(out[i + 1])))
  }

  ghost predicate Legal(out: seq<AMessage>) {
    forall i :: 0 <= i < |out| ==> LegalStep(out, i)
  }

  /** An assistant turn with its calls, and the entries that answer them. */
  datatype Group = Group(turn: Message, results: seq<Message>)

  predicate WellFormed(g: Group) {
    && g.turn.Assistant? && g.turn.calls != [] && RawMatches(g.turn)
    && |g.results| == |g.turn.calls|
    && forall i :: 0 <= i < |g.results| ==>
         g.results[i].ToolEntry? && g.results[i].callId == g.turn.calls[i].id
  }

  /** One instruction so far: what it started from, its opening message, and its answered turns. */
  datatype Talk = Opened(before: seq<Message>, opening: string) | Replied(prev: Talk, group: Group)

  function Said(t: Talk): (ms: seq<Message>)
    ensures ms != []
  {
    match t
    case Opened(before, opening) => before + [User(opening)]
    case Replied(prev, g) => Said(prev) + [g.turn] + g.results
  }

  /** The instruction as it began. */
  function Start(t: Talk): (start: Talk)
    ensures start.Opened?
  {
    if t.Opened? then t else Start(t.prev)
  }

  function Before(t: Talk): seq<Message> {
    Start(t).before
  }

  /** What has been said is what was there before, then the opening message, then the answered turns. */
  lemma {:induction false} SaidOpens(t: Talk)
    ensures |Before(t)| < |Said(t)| && Said(t)[..|Before(t)|] == Before(t)
    ensures Said(t)[|Before(t)|] == User(Start(t).opening)
  {
    if t.Replied? {
      SaidOpens(t.prev);
      var n := |Before(t)|;
      assert Said(t)[..n] == Said(t.prev)[..n] && Said(t)[n] == Said(t.prev)[n];
    }
  }

  /** The loop never stores a system entry; the canvas context only rides along. */
  predicate NoSystem(ms: seq<Message>) {
    forall i :: 0 <= i < |ms| ==> !ms[i].System?
  }

  predicate Proper(t: Talk) {
    match t
    case Opened(before, _) => NoSystem(before)
    case Replied(prev, g) => Proper(prev) && WellFormed(g)
  }

  function ResultsOf(ms: seq<Message>): (rs: seq<ResultBlock>)
    requires forall i :: 0 <= i < |ms| ==> ms[i].ToolEntry?
    ensures |rs| == |ms| && forall i :: 0 <= i < |ms| ==> rs[i] == ResultOf(ms[i])
  {
    seq(|ms|, i requires 0 <= i < |ms| => ResultOf(ms[i]))
  }

  lemma {:induction false} ResultsTranslate(out0: seq<Message>, rs: seq<Message>)
    requires out0 != [] && !out0[|out0| - 1].ToolEntry?
    requires rs != [] && forall i :: 0 <= i < |rs| ==> rs[i].ToolEntry?
    ensures Anthropic(out0 + rs) == Anthropic(out0) + [Results(ResultsOf(rs))]
    decreases |rs|
  {
    var init, r := rs[..|rs| - 1], rs[|rs| - 1];
    assert rs == init + [r];
    assert out0 + rs == (out0 + init) + [r];
    AnthropicSnoc(out0 + init, r);
    if init == [] {
      assert out0 + init == out0;
      LastRendered(out0);
      assert ResultsOf(rs) == [ResultOf(r)];
    } else {
      ResultsTranslate(out0, init);
      ResultsGrow(Anthropic(out0), init, r);
    }
  }

  lemma ResultsGrow(a: seq<AMessage>, rs: seq<Message>, r: Message)
    requires r.ToolEntry? && forall i :: 0 <= i < |rs| ==> rs[i].ToolEntry?
    ensures Extend(a + [Results(ResultsOf(rs))], r) == a + [Results(ResultsOf(rs + [r]))]
  {
    assert ResultsOf(rs + [r]) == ResultsOf(rs) + [ResultOf(r)];
    assert (a + [Results(ResultsOf(rs))])[..|a|] == a;
  }

  lemma LastRendered(ms: seq<Message>)
    requires ms != [] && !ms[|ms| - 1].ToolEntry?
    ensures Anthropic(ms) != [] && !Anthropic(ms)[|Anthropic(ms)| - 1].Results?
  {
  }

  lemma OneGroupTranslates(pre: seq<Message>, g: Group)
    requires WellFormed(g)
    ensures Anthropic(pre + [g.turn] + g.results)
         == Anthropic(pre) + [Render(g.turn), Results(ResultsOf(g.results))]
  {
    AnthropicSnoc(pre, g.turn);
    ResultsTranslate(pre + [g.turn], g.results);
  }

  /** Earlier transcript, one user message, then exactly two messages for every answered turn. */
  function TranslatedTalk(t: Talk): seq<AMessage>
    requires Proper(t)
  {
    match t
    case Opened(before, opening) => Anthropic(before) + [Plain(UserRole, opening)]
    case Replied(prev, g) => TranslatedTalk(prev) + [Render(g.turn), Results(ResultsOf(g.results))]
  }

  lemma {:induction false} TalkTranslates(t: Talk)
    requires Proper(t)
    ensures Anthropic(Said(t)) == TranslatedTalk(t)
  {
    match t {
      case Opened(before, opening) => AnthropicSnoc(before, User(opening));
      case Replied(prev, g) =>
        TalkTranslates(prev);
        OneGroupTranslates(Said(prev), g);
    }
  }

  lemma LegalAfterUser(out: seq<AMessage>, text: string)
    requires out == [] || !out[|out| - 1].Plain? || out[|out| - 1].role != SystemRole
    ensures Legal(out + [Plain(UserRole, text)]) <==> Legal(out)
  {
    var all := out + [Plain(UserRole, text)];
    forall i | 0 <= i < |out|
      ensures LegalStep(all, i) <==> LegalStep(out, i)
    {
      assert all[i] == out[i];
    }
    assert forall i :: |out| <= i < |all| ==> LegalStep(all, i);
  }

  /** An answered turn changes nothing about the legality of what is in front of it. */
  lemma LegalAfterPair(out: seq<AMessage>, turn: AMessage, results: AMessage)
    requires turn.Turn? && CallsOf(turn.blocks) != []
    requires results.Results? && Answers(results.results, turn.blocks)
    ensures Legal(out + [turn, results]) <==> Legal(out)
  {
    var all := out + [turn, results];
    forall i | 0 <= i < |out|
      ensures LegalStep(all, i) <==> LegalStep(out, i)
    {
      assert all[i] == out[i];
    }
    assert forall i :: |out| <= i < |all| ==> LegalStep(all, i);
  }

  /** The closing request or canvas context may follow any user-side message. */
  lemma LegalAfterLast(out: seq<AMessage>, last: AMessage)
    requires out != [] && UserSide(out[|out| - 1]) && last.Plain? && last.role != AssistantRole
    ensures Legal(out + [last]) <==> Legal(out)
  {
    var all := out + [last];
    forall i | 0 <= i < |out|
      ensures LegalStep(all, i) <==> LegalStep(out, i)
    {
      assert all[i] == out[i];
    }
    assert forall i :: |out| <= i < |all| ==> LegalStep(all, i);
  }

  lemma OneGroupShape(g: Group)
    requires WellFormed(g)
    ensures Render(g.turn).Turn? && CallsOf(Render(g.turn).blocks) == g.turn.calls
    ensures Answers(ResultsOf(g.results), Render(g.turn).blocks)
  {
    TurnCalls(g.turn);
    assert ResultEvents(ResultsOf(g.results)) == AnswerEvents(g.turn.calls);
  }

  /** An instruction at rest is as legal as the transcript it grew from. */
  lemma {:induction false} TalkIsLegal(t: Talk)
    requires Proper(t)
    ensures Legal(TranslatedTalk(t)) <==> Legal(Anthropic(Before(t)))
    ensures TranslatedTalk(t) != [] && UserSide(TranslatedTalk(t)[|TranslatedTalk(t)| - 1])
    ensures !Said(t)[|Said(t)| - 1].Assistant?
  {
    match t {
      case Opened(before, opening) =>
        NoSystemAtEnd(before);
        LegalAfterUser(Anthropic(before), opening);
      case Replied(prev, g) =>
        TalkIsLegal(prev);
        OneGroupShape(g);
        LegalAfterPair(TranslatedTalk(prev), Render(g.turn), Results(ResultsOf(g.results)));
    }
  }

  lemma NoSystemAtEnd(ms: seq<Message>)
    requires NoSystem(ms)
    ensures var out := Anthropic(ms);
            out == [] || !out[|out| - 1].Plain? || out[|out| - 1].role != SystemRole
  {
  }

  /**
   The end-to-end obligation: what is sent is legal exactly when the transcript the instruction
   started from was, and the canvas context (or the wrap-up request) is last and directly
   follows a user-side message.
   */
  lemma SentIsLegal(t: Talk, last: Message)
    requires Proper(t) && (last.User? || last.System?)
    ensures Legal(Anthropic(Said(t) + [last])) <==> Legal(Anthropic(Before(t)))
    ensures Anthropic(Said(t) + [last]) == TranslatedTalk(t) + [Plain(RoleOf(last), last.content)]
    ensures TranslatedTalk(t) != [] && UserSide(TranslatedTalk(t)[|TranslatedTalk(t)| - 1])
  {
    TalkTranslates(t);
    TalkIsLegal(t);
    AnthropicSnoc(Said(t), last);
    LegalAfterLast(TranslatedTalk(t), Render(last));
  }

  /** How an instruction may leave the transcript: answered, with its wrap-up request, or mid-turn. */
  predicate Closing(tail: seq<Message>) {
    || tail == []
    || (|tail| == 1 && tail[0].User?)
    || (|tail| == 1 && tail[0].Assistant? && tail[0].calls != [] && RawMatches(tail[0]))
  }

  /**
   What an instruction leaves behind is legal exactly when what it found was and its last turn
   was answered, so an agent that ended with `finish` resumes on a transcript the API refuses.
   */
  lemma LeftBehind(t: Talk, tail: seq<Message>)
    requires Proper(t) && Closing(tail)
    ensures var ms := Said(t) + tail;
            Legal(Anthropic(ms)) <==> Legal(Anthropic(Before(t))) && !ms[|ms| - 1].Assistant?
  {
    TalkTranslates(t);
    TalkIsLegal(t);
    if tail == [] {
      assert Said(t) + tail == Said(t);
    } else if tail[0].User? {
      assert tail == [tail[0]];
      SentIsLegal(t, tail[0]);
    } else {
      assert tail == [tail[0]];
      AnthropicSnoc(Said(t), tail[0]);
      TurnCalls(tail[0]);
      OpenTurnIsIllegal(TranslatedTalk(t), Render(tail[0]));
    }
  }

  lemma OpenTurnIsIllegal(out: seq<AMessage>, turn: AMessage)
    requires turn.Turn? && CallsOf(turn.blocks) != []
    ensures !Legal(out + [turn])
  {
    assert !LegalStep(out + [turn], |out|);
  }
}
