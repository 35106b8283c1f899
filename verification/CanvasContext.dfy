/**
 Rendering the canvas into a character budget (app/modules/session/canvas_context.py).  How one block is
 written out is left open: each block carries its text as an active block and as any other block.
 */
module CanvasContext {
  import opened Common
  import opened Text

  /** One element of a client list: not a dict, or a block with its name (if any) and its two renderings. */
  datatype Item = NotADict | Block(name: Option<string>, asActive: string, asOther: string)

  /** Parts joined by a blank line. */
  function Join(parts: seq<string>): string {
    if parts == [] then ""
    else if |parts| == 1 then parts[0]
    else Join(parts[..|parts| - 1]) + "\n\n" + parts[|parts| - 1]
  }

  function Note(omitted: nat): string {
    "…(" + Decimal(omitted) + " more block(s) not shown to save space; ask about them "
    + "by name and call read_port_value for their port contents.)"
  }

  // ----- what is rendered --------------------------------------------------------------------------

  predicate Named(b: Item) {
    b.Block? && b.name.Some? && b.name.value != ""
  }

  function Payload(active: seq<Item>): seq<Item> {
    if active == [] then []
    else Payload(active[..|active| - 1]) + if Named(active[|active| - 1]) then [active[|active| - 1]] else []
  }

  function Names(payload: seq<Item>): set<Option<string>> {
    set b | b in payload && b.Block? :: b.name
  }

  function AsActive(payload: seq<Item>): seq<string> {
    seq(|payload|, i requires 0 <= i < |payload| => if payload[i].Block? then payload[i].asActive else "")
  }

  function Others(blocks: seq<Item>, names: set<Option<string>>): seq<string> {
    if blocks == [] then []
    else
      var b := blocks[|blocks| - 1];
      Others(blocks[..|blocks| - 1], names) + if b.Block? && b.name !in names then [b.asOther] else []
  }

  predicate IsOther(b: Item, names: set<Option<string>>) {
    b.Block? && b.name !in names
  }

  function OtherThan(names: set<Option<string>>): Item -> bool {
    b => IsOther(b, names)
  }

  /** How many of the first `i` are to keep, which is the place of the next one that is. */
  function Rank(items: seq<Item>, keep: Item -> bool, i: nat): nat
    requires i <= |items|
  {
    if i == 0 then 0 else Rank(items, keep, i - 1) + if keep(items[i - 1]) then 1 else 0
  }

  lemma PayloadNext(active: seq<Item>, i: nat)
    requires i < |active|
    ensures Payload(active[..i + 1]) == Payload(active[..i]) + if Named(active[i]) then [active[i]] else []
  {
    assert active[..i + 1][..i] == active[..i];
  }

  lemma {:induction false} PayloadSize(active: seq<Item>, i: nat)
    requires i <= |active|
    ensures |Payload(active[..i])| == Rank(active, Named, i)
  {
    if i > 0 {
      PayloadSize(active, i - 1);
      PayloadNext(active, i - 1);
    }
  }

  lemma {:induction false} PayloadGrows(active: seq<Item>, i: nat, j: nat)
    requires i <= j <= |active|
    ensures Payload(active[..i]) <= Payload(active[..j])
    decreases j
  {
    if i < j {
      PayloadGrows(active, i, j - 1);
      PayloadNext(active, j - 1);
    }
  }

  /** The active part is the named active blocks and nothing else, in order, each written out as active. */
  lemma PayloadIsTheNamed(active: seq<Item>, i: nat)
    requires i < |active|
    ensures |AsActive(Payload(active))| == Rank(active, Named, |active|)
    ensures Named(active[i]) ==>
              && Rank(active, Named, i) < |Payload(active)| && Payload(active)[Rank(active, Named, i)] == active[i]
              && AsActive(Payload(active))[Rank(active, Named, i)] == active[i].asActive
  {
    assert active[..|active|] == active;
    PayloadSize(active, |active|);
    PayloadSize(active, i);
    PayloadNext(active, i);
    PayloadGrows(active, i + 1, |active|);
  }

  lemma OthersNext(blocks: seq<Item>, names: set<Option<string>>, i: nat)
    requires i < |blocks|
    ensures Others(blocks[..i + 1], names)
         == Others(blocks[..i], names) + if IsOther(blocks[i], names) then [blocks[i].asOther] else []
  {
    assert blocks[..i + 1][..i] == blocks[..i];
  }

  lemma {:induction false} OthersSize(blocks: seq<Item>, names: set<Option<string>>, i: nat)
    requires i <= |blocks|
    ensures |Others(blocks[..i], names)| == Rank(blocks, OtherThan(names), i)
  {
    if i > 0 {
      OthersSize(blocks, names, i - 1);
      OthersNext(blocks, names, i - 1);
    }
  }

  lemma {:induction false} OthersGrow(blocks: seq<Item>, names: set<Option<string>>, i: nat, j: nat)
    requires i <= j <= |blocks|
    ensures Others(blocks[..i], names) <= Others(blocks[..j], names)
    decreases j
  {
    if i < j {
      OthersGrow(blocks, names, i, j - 1);
      OthersNext(blocks, names, j - 1);
    }
  }

  /** The others are the blocks whose names are not active and nothing else, in order, written out as others. */
  lemma OthersAreTheRest(blocks: seq<Item>, names: set<Option<string>>, i: nat)
    requires i < |blocks|
    ensures |Others(blocks, names)| == Rank(blocks, OtherThan(names), |blocks|)
    ensures IsOther(blocks[i], names) ==>
              && Rank(blocks, OtherThan(names), i) < |Others(blocks, names)|
              && Others(blocks, names)[Rank(blocks, OtherThan(names), i)] == blocks[i].asOther
  {
    assert blocks[..|blocks|] == blocks;
    OthersSize(blocks, names, |blocks|);
    OthersSize(blocks, names, i);
    OthersNext(blocks, names, i);
    OthersGrow(blocks, names, i + 1, |blocks|);
  }

  // ----- which of the others are shown -------------------------------------------------------------

  /** The chosen ones, in their order. */
  function Pick(chunks: seq<string>, shown: seq<bool>): seq<string>
    requires |shown| == |chunks|
  {
    if chunks == [] then []
    else
      var n := |chunks| - 1;
      Pick(chunks[..n], shown[..n]) + if shown[n] then [chunks[n]] else []
  }

  /** A chunk is shown when the text that ends with it is within the budget. */
  function Shown(front: seq<string>, chunks: seq<string>, budget: int): (shown: seq<bool>)
    ensures |shown| == |chunks|
  {
    if chunks == [] then []
    else
      var n := |chunks| - 1;
      var before := Shown(front, chunks[..n], budget);
      before + [|Join(front + Pick(chunks[..n], before) + [chunks[n]])| <= budget]
  }

  function Packed(front: seq<string>, chunks: seq<string>, budget: int): seq<string> {
    front + Pick(chunks, Shown(front, chunks, budget))
  }

  function Dropped(shown: seq<bool>): nat {
    if shown == [] then 0 else Dropped(shown[..|shown| - 1]) + if shown[|shown| - 1] then 0 else 1
  }

  function Context(blocks: seq<Item>, active: seq<Item>, budget: int): string {
    var front := AsActive(Payload(active));
    var others := Others(blocks, Names(Payload(active)));
    var omitted := Dropped(Shown(front, others, budget));
    Join(Packed(front, others, budget) + if omitted > 0 then [Note(omitted)] else [])
  }

  lemma JoinSnoc(parts: seq<string>, last: string)
    ensures Join(parts + [last]) == if parts == [] then last else Join(parts) + "\n\n" + last
    ensures |Join(parts + [last])| >= |Join(parts)|
  {
    assert (parts + [last])[..|parts|] == parts;
  }

  lemma ShownSnoc(front: seq<string>, chunks: seq<string>, next: string, budget: int)
    ensures var shown := Shown(front, chunks, budget);
            var fits := |Join(Packed(front, chunks, budget) + [next])| <= budget;
            && Shown(front, chunks + [next], budget) == shown + [fits]
            && Packed(front, chunks + [next], budget) == Packed(front, chunks, budget) + (if fits then [next] else [])
            && Dropped(shown + [fits]) == Dropped(shown) + if fits then 0 else 1
  {
    var shown, all := Shown(front, chunks, budget), chunks + [next];
    var fits := |Join(Packed(front, chunks, budget) + [next])| <= budget;
    assert all[..|chunks|] == chunks;
    assert (shown + [fits])[..|shown|] == shown;
    assert Pick(all, shown + [fits]) == Pick(chunks, shown) + if fits then [next] else [];
    assert front + (Pick(chunks, shown) + [next]) == front + Pick(chunks, shown) + [next];
  }

  /** Nothing is lost uncounted: every other block is either shown or in the note's number. */
  lemma {:induction false} ShownPlusDroppedIsAll(front: seq<string>, chunks: seq<string>, budget: int)
    ensures |Packed(front, chunks, budget)| + Dropped(Shown(front, chunks, budget)) == |front| + |chunks|
  {
    if chunks != [] {
      var init, last := chunks[..|chunks| - 1], chunks[|chunks| - 1];
      assert chunks == init + [last];
      ShownPlusDroppedIsAll(front, init, budget);
      PackedSnoc(front, init, last, budget);
    }
  }

  function Left(shown: seq<bool>): set<nat> {
    set k: nat | k < |shown| && !shown[k]
  }

  /** The number in the note counts the blocks that are not shown. */
  lemma {:induction false} DroppedCounts(shown: seq<bool>)
    ensures Dropped(shown) == |Left(shown)|
  {
    if shown != [] {
      var n := |shown| - 1;
      DroppedCounts(shown[..n]);
      assert Left(shown) == Left(shown[..n]) + if shown[n] then {} else {n};
    }
  }

  lemma {:induction false} ShownIsPicked(chunks: seq<string>, shown: seq<bool>, k: nat)
    requires |shown| == |chunks| && k < |chunks| && shown[k]
    ensures chunks[k] in Pick(chunks, shown)
  {
    var n := |chunks| - 1;
    if k < n {
      ShownIsPicked(chunks[..n], shown[..n], k);
    } else {
      var front := Pick(chunks[..n], shown[..n]);
      assert (front + [chunks[n]])[|front|] == chunks[n];
    }
  }

  /** No block of the canvas goes unaccounted for: it is active by name, a part of the text, or counted in the note. */
  lemma EveryBlockIsAccountedFor(blocks: seq<Item>, active: seq<Item>, budget: int, i: nat)
    requires i < |blocks| && blocks[i].Block?
    ensures var names := Names(Payload(active));
            var others := Others(blocks, names);
            var shown := Shown(AsActive(Payload(active)), others, budget);
            || blocks[i].name in names
            || blocks[i].asOther in Packed(AsActive(Payload(active)), others, budget)
            || (Dropped(shown) == |Left(shown)| && exists k :: k in Left(shown) && others[k] == blocks[i].asOther)
  {
    var names := Names(Payload(active));
    if blocks[i].name !in names {
      var front, others := AsActive(Payload(active)), Others(blocks, names);
      var shown := Shown(front, others, budget);
      OthersAreTheRest(blocks, names, i);
      var k := Rank(blocks, OtherThan(names), i);
      DroppedCounts(shown);
      if shown[k] {
        ShownIsPicked(others, shown, k);
      } else {
        assert k in Left(shown);
      }
    }
  }

  /** The text ends with the note, and with the right number, iff any block was left out; else the parts are all. */
  lemma NoteTellsWhatIsLeft(blocks: seq<Item>, active: seq<Item>, budget: int)
    ensures var front, others := AsActive(Payload(active)), Others(blocks, Names(Payload(active)));
            var left, text := |Left(Shown(front, others, budget))|, Context(blocks, active, budget);
            if left == 0 then text == Join(Packed(front, others, budget))
            else |Note(left)| <= |text| && text[|text| - |Note(left)|..] == Note(left)
  {
    var front, others := AsActive(Payload(active)), Others(blocks, Names(Payload(active)));
    var packed, left := Packed(front, others, budget), |Left(Shown(front, others, budget))|;
    DroppedCounts(Shown(front, others, budget));
    assert packed + [] == packed;
    LastPartIsLast(packed, Note(left));
  }

  lemma LastPartIsLast(parts: seq<string>, last: string)
    ensures var text := Join(parts + [last]); |last| <= |text| && text[|text| - |last|..] == last
  {
    JoinSnoc(parts, last);
  }

  lemma BudgetStep(front: seq<string>, init: seq<string>, last: string, budget: int)
    requires |Join(front)| <= |Join(Packed(front, init, budget))|
    requires |Join(Packed(front, init, budget))| <= budget || Packed(front, init, budget) == front
    ensures |Join(front)| <= |Join(Packed(front, init + [last], budget))|
    ensures |Join(Packed(front, init + [last], budget))| <= budget || Packed(front, init + [last], budget) == front
  {
    PackedSnoc(front, init, last, budget);
    JoinSnoc(Packed(front, init, budget), last);
  }

  /** The text before the note exceeds the budget only if the active blocks alone do. */
  lemma {:induction false} BudgetHolds(front: seq<string>, chunks: seq<string>, budget: int)
    ensures |Join(front)| <= |Join(Packed(front, chunks, budget))|
    ensures |Join(Packed(front, chunks, budget))| <= budget || Packed(front, chunks, budget) == front
  {
    if chunks == [] {
      assert Packed(front, chunks, budget) == front;
    } else {
      var init, last := chunks[..|chunks| - 1], chunks[|chunks| - 1];
      BudgetHolds(front, init, budget);
      BudgetStep(front, init, last, budget);
      assert chunks == init + [last];
    }
  }

  lemma PackedNext(front: seq<string>, chunks: seq<string>, budget: int, i: nat)
    requires i < |chunks|
    ensures var packed := Packed(front, chunks[..i], budget);
            var fits := |Join(packed + [chunks[i]])| <= budget;
            && Packed(front, chunks[..i + 1], budget) == (if fits then packed + [chunks[i]] else packed)
            && Dropped(Shown(front, chunks[..i + 1], budget))
               == Dropped(Shown(front, chunks[..i], budget)) + if fits then 0 else 1
  {
    var init, next := chunks[..i], chunks[i];
    PackedSnoc(front, init, next, budget);
    assert chunks[..i + 1] == init + [next];
  }

  lemma PackedSnoc(front: seq<string>, chunks: seq<string>, next: string, budget: int)
    ensures var packed := Packed(front, chunks, budget);
            var fits := |Join(packed + [next])| <= budget;
            && Packed(front, chunks + [next], budget) == (if fits then packed + [next] else packed)
            && Dropped(Shown(front, chunks + [next], budget))
               == Dropped(Shown(front, chunks, budget)) + if fits then 0 else 1
  {
    ShownSnoc(front, chunks, next, budget);
  }

  /** A dropped block does not fit behind the finished text either: the packing cannot be extended. */
  lemma {:induction false} DroppedNeverFits(front: seq<string>, chunks: seq<string>, budget: int, i: nat)
    requires i < |chunks| && !Shown(front, chunks, budget)[i]
    ensures |Join(Packed(front, chunks, budget) + [chunks[i]])| > budget
  {
    var init, last := chunks[..|chunks| - 1], chunks[|chunks| - 1];
    var before := Packed(front, init, budget);
    assert chunks == init + [last];
    ShownNext(front, init, last, budget, i);
    PackedSnoc(front, init, last, budget);
    if i < |init| {
      DroppedNeverFits(front, init, budget, i);
      NeverFitsLater(before, last, chunks[i]);
    }
  }

  /** One more chunk changes nothing for those before it, and is itself shown iff it fits behind them. */
  lemma ShownNext(front: seq<string>, chunks: seq<string>, next: string, budget: int, i: nat)
    requires i <= |chunks|
    ensures Shown(front, chunks + [next], budget)[i]
        <==> if i < |chunks| then Shown(front, chunks, budget)[i]
             else |Join(Packed(front, chunks, budget) + [next])| <= budget
  {
    ShownSnoc(front, chunks, next, budget);
  }

  lemma NeverFitsLater(before: seq<string>, last: string, c: string)
    ensures |Join(before + [last] + [c])| >= |Join(before + [c])|
  {
    JoinSnoc(before, last);
    JoinSnoc(before, c);
    JoinSnoc(before + [last], c);
  }

  /** Named active blocks lead the text in their own order, whatever the budget and the canvas. */
  lemma ActiveBlocksComeFirst(blocks: seq<Item>, active: seq<Item>, budget: int)
    ensures Join(AsActive(Payload(active))) <= Context(blocks, active, budget)
  {
    var front := AsActive(Payload(active));
    var others := Others(blocks, Names(Payload(active)));
    var omitted := Dropped(Shown(front, others, budget));
    var rest := Pick(others, Shown(front, others, budget)) + if omitted > 0 then [Note(omitted)] else [];
    JoinExtends(front, rest);
    assert Packed(front, others, budget) + (if omitted > 0 then [Note(omitted)] else []) == front + rest;
  }

  lemma {:induction false} JoinExtends(front: seq<string>, rest: seq<string>)
    ensures Join(front) <= Join(front + rest)
  {
    if rest == [] {
      assert front + rest == front;
    } else {
      var n := |rest| - 1;
      JoinExtends(front, rest[..n]);
      JoinSnoc(front + rest[..n], rest[n]);
      assert front + rest == front + rest[..n] + [rest[n]];
    }
  }

  // ----- the code ----------------------------------------------------------------------------------

  method ActivePayload(active: seq<Item>) returns (payload: seq<Item>)
    ensures payload == Payload(active) && forall b :: b in payload ==> Named(b)
  {
    payload := [];
    for i := 0 to |active|
      invariant payload == Payload(active[..i]) && forall b :: b in payload ==> Named(b)
    {
      PayloadNext(active, i);
      if Named(active[i]) { payload := payload + [active[i]]; }
    }
    assert active[..|active|] == active;
  }

  /** The active part.  The second loop, meant to fall back to the canvas, never adds anything. */
  method RenderActive(blocks: seq<Item>, payload: seq<Item>) returns (parts: seq<string>)
    requires forall b :: b in payload ==> Named(b)
    ensures parts == AsActive(payload)
  {
    parts := [];
    var names, seen := Names(payload), {};
    for i := 0 to |payload|
      invariant parts == AsActive(payload[..i]) && seen == Names(payload[..i])
    {
      assert payload[i] in payload;
      assert payload[..i + 1] == payload[..i] + [payload[i]];
      parts, seen := parts + [payload[i].asActive], seen + {payload[i].name};
    }
    assert payload[..|payload|] == payload;
    for i := 0 to |blocks|
      invariant parts == AsActive(payload) && seen == names
    {
      match blocks[i]
      case NotADict =>
      case Block(name, asActive, _) =>
        if name in names && name !in seen { parts, seen := parts + [asActive], seen + {name}; }
    }
  }

  method RenderOthers(blocks: seq<Item>, names: set<Option<string>>) returns (others: seq<string>)
    ensures others == Others(blocks, names)
  {
    others := [];
    for i := 0 to |blocks|
      invariant others == Others(blocks[..i], names)
    {
      OthersNext(blocks, names, i);
      if blocks[i].Block? && blocks[i].name !in names { others := others + [blocks[i].asOther]; }
    }
    assert blocks[..|blocks|] == blocks;
  }

  /** `used` is the length of the text so far with the separator the next part would need. */
  predicate Counts(used: int, parts: seq<string>) {
    used == if parts == [] then 0 else |Join(parts)| + 2
  }

  /** Active blocks are always included. */
  method PackActive(front: seq<string>) returns (used: int)
    ensures Counts(used, front)
  {
    used := 0;
    for i := 0 to |front|
      invariant Counts(used, front[..i])
    {
      JoinSnoc(front[..i], front[i]);
      assert front[..i + 1] == front[..i] + [front[i]];
      used := used + |front[i]| + 2;
    }
    assert front[..|front|] == front;
  }

  lemma PackedNothing(front: seq<string>, chunks: seq<string>, budget: int)
    ensures Packed(front, chunks[..0], budget) == front && Dropped(Shown(front, chunks[..0], budget)) == 0
  {
    assert chunks[..0] == [];
  }

  /** What the packing loop holds after `chunks`. */
  ghost predicate Holds(front: seq<string>, chunks: seq<string>, budget: int, parts: seq<string>, omitted: nat,
                        used: int) {
    && parts == Packed(front, chunks, budget) && omitted == Dropped(Shown(front, chunks, budget))
    && Counts(used, parts)
  }

  /** The running count decides as the length of the whole text would. */
  lemma CountingPacks(front: seq<string>, others: seq<string>, budget: int, i: nat, parts: seq<string>, omitted: nat,
                      used: int)
    requires i < |others| && Holds(front, others[..i], budget, parts, omitted, used)
    ensures if used + |others[i]| > budget then Holds(front, others[..i + 1], budget, parts, omitted + 1, used)
            else Holds(front, others[..i + 1], budget, parts + [others[i]], omitted, used + |others[i]| + 2)
  {
    PackedNext(front, others, budget, i);
    JoinSnoc(parts, others[i]);
  }

  method Pack(front: seq<string>, others: seq<string>, budget: int) returns (parts: seq<string>, omitted: nat)
    ensures parts == Packed(front, others, budget)
    ensures omitted == Dropped(Shown(front, others, budget))
  {
    var used := PackActive(front);
    parts, omitted := front, 0;
    PackedNothing(front, others, budget);
    for i := 0 to |others|
      invariant Holds(front, others[..i], budget, parts, omitted, used)
    {
      CountingPacks(front, others, budget, i, parts, omitted, used);
      if used + |others[i]| > budget {
        omitted := omitted + 1;
      } else {
        parts, used := parts + [others[i]], used + |others[i]| + 2;
      }
    }
    assert others[..|others|] == others;
  }

  method RenderCanvasContext(blocks: seq<Item>, active: seq<Item>, budget: int) returns (text: string)
    ensures text == Context(blocks, active, budget)
  {
    var payload := ActivePayload(active);
    var front := RenderActive(blocks, payload);
    var others := RenderOthers(blocks, Names(payload));
    var parts, omitted := Pack(front, others, budget);
    assert Packed(front, others, budget) + [] == Packed(front, others, budget);
    if omitted > 0 { parts := parts + [Note(omitted)]; }
    text := Join(parts);
  }
}
