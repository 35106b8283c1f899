/**
 Repairing a design under a `top` that is not its own (app/modules/blocks/hdl.py, app/modules/blocks/router.py):
 the frozen interface is then not the design's.
 */
module StaleTop {
  import opened RepairLoops
  import opened Text
  import V = VerilogHeader

  lemma {:induction false} ContainsEnd(a: string, word: string)
    ensures Contains(a + word, word)
  {
    if a == "" {
      assert a + word == word;
    } else {
      ContainsEnd(a[1..], word);
      assert (a + word)[1..] == a[1..] + word;
    }
  }

  /** A one-line design that is just a header and an end. */
  function Design(h: V.Header): string
    requires h.ports != []
  {
    h.Print(";endmodule")
  }

  lemma TrimmedWhole(s: string)
    requires s != "" && !IsSpace(s[0]) && !IsSpace(s[|s| - 1])
    ensures Strip(s) == s && !Blank(s)
  {
  }

  lemma EndedIsTrimmed(head: string)
    requires head != "" && !IsSpace(head[0])
    ensures var s := head + ";endmodule"; Strip(s) == s && !Blank(s) && Contains(s, "endmodule")
  {
    var s, begun := head + ";endmodule", head + ";";
    assert s == begun + "endmodule";
    ContainsEnd(begun, "endmodule");
    assert s[0] == head[0] && s[|s| - 1] == 'e';
    TrimmedWhole(s);
  }

  lemma DesignIsTrimmed(h: V.Header)
    requires h.Valid()
    ensures Strip(Design(h)) == Design(h) && !Blank(Design(h)) && Contains(Design(h), "endmodule")
  {
    V.PrintGoesOn(h, ";endmodule");
    assert h.Print("")[0] == 'm';
    EndedIsTrimmed(h.Print(""));
  }

  lemma DesignTop(h: V.Header)
    requires h.Valid() && '\n' !in Design(h)
    ensures V.InferTop(Design(h)) == h.name
  {
    var s := Design(h);
    forall i | 0 < i <= |s| ensures V.DeclarationAt(s, i).None? { assert s[i - 1] in s; }
    assert s[0..] == s;
    V.TopIsLastHeader(s, 0, h, ";endmodule", "top");
  }

  lemma RenameIsAccepted(code: string, previous: string, name: string)
    requires Strip(code) == code && !Blank(code) && Contains(code, "endmodule") && Strip(previous) == previous
    requires Strip(name) == name && name != "" && V.Ports(previous, name) == []
    requires V.InferTop(code) == name && V.InferTop(previous) != name
    ensures !OwnTop(previous, name) && IsRepair(code, previous, FrozenTop(previous, name))
    ensures RtlFixProblems(code, previous, name) == []
  {
    AcceptedIsRepair(code, previous, name);
  }

  /**
   A stale top lets a repair rename the module and give it any ports: a design that does not mention the
   requested top is "repaired" by any other design of that name.
   */
  lemma StaleTopRenames(h: V.Header, h': V.Header)
    requires h.Valid() && h'.Valid() && h.name != h'.name
    requires '\n' !in Design(h) && '\n' !in Design(h')
    requires V.FindModule(V.StripComments(Design(h)), 0, h'.name).None?
    ensures !OwnTop(Design(h), h'.name)
    ensures IsRepair(Design(h'), Design(h), FrozenTop(Design(h), h'.name))
    ensures RtlFixProblems(Design(h'), Design(h), h'.name) == []
  {
    DesignIsTrimmed(h);
    DesignIsTrimmed(h');
    DesignTop(h);
    DesignTop(h');
    V.NameIsStripped(h'.name);
    assert V.Ports(Design(h), h'.name) == [];
    RenameIsAccepted(Design(h'), Design(h), h'.name);
  }

  // ----- the smallest case -------------------------------------------------------------------------

  /** One module, one port. */
  function Tiny(name: string, port: string): V.Header {
    V.Header(" ", name, "", V.NoParams, [V.Port("", port, "")])
  }

  /** Names as designers write them: identifiers that end as a word, ports that are no keyword. */
  predicate Ordinary(name: string, port: string) {
    V.IsIdent(name) && V.EndsAsWord(name) && V.IsIdent(port) && port !in V.PORT_NOISE
  }

  lemma TinyIsReadable(name: string, port: string)
    requires Ordinary(name, port)
    ensures Tiny(name, port).Valid() && V.Readable(Tiny(name, port))
    ensures Tiny(name, port).Names() == [port]
  {
    var p := V.Port("", port, "");
    assert p.Print() == port;
    V.WordIsFlat(port);
    V.FlatIsNested(port);
    V.FlatDepth(V.AnyKind, port);
  }

  lemma TinyPorts(name: string, port: string)
    ensures Tiny(name, port).PrintPorts() == "(" + port + ")"
  {
    assert V.Port("", port, "").Print() == port;
    assert Tiny(name, port).Printed() == [port];
  }

  /** No character stands in a tiny design but its own and those of its parts. */
  lemma TinyAvoids(name: string, port: string, rest: string, c: char)
    requires c !in name && c !in port && c !in rest && c !in "module" && c !in " ()"
    ensures c !in Tiny(name, port).Print(rest)
  {
    TinyPorts(name, port);
    assert c != " ()"[0] && c != " ()"[1] && c != " ()"[2];
  }

  lemma DesignPorts(h: V.Header)
    requires h.Valid() && V.Readable(h) && '/' !in h.Print("")
    ensures V.Ports(Design(h), h.name) == h.Names()
  {
    V.PrintGoesOn(h, ";endmodule");
    V.PrintedHeaderReadsBack(h, ";endmodule");
  }

  lemma NoSlashNoComment(s: string)
    requires '/' !in s
    ensures V.StripComments(s) == s
  {
    V.StripCommentsKeeps(s, "");
    assert s + "" == s;
  }

  lemma IdentAvoids(name: string, c: char)
    requires V.IsIdent(name) && !V.IsIdentChar(c)
    ensures c !in name
  {
  }

  lemma TinyIsPlain(name: string, port: string, rest: string, c: char)
    requires Ordinary(name, port) && !V.IsIdentChar(c) && c !in " ();" && rest in {"", ";endmodule"}
    ensures c !in Tiny(name, port).Print(rest)
  {
    IdentAvoids(name, c);
    IdentAvoids(port, c);
    IdentAvoids("endmodule", c);
    IdentAvoids("module", c);
    assert c != " ();"[0] && c != " ();"[1] && c != " ();"[2] && c != " ();"[3];
    assert ";endmodule" == ";" + "endmodule";
    TinyAvoids(name, port, rest, c);
  }

  /** Each tiny design declares just its name with just its port. */
  lemma TinyIsRead(name: string, port: string)
    requires Ordinary(name, port)
    ensures V.InferTop(Design(Tiny(name, port))) == name && V.Ports(Design(Tiny(name, port)), name) == [port]
    ensures '\n' !in Design(Tiny(name, port)) && V.StripComments(Design(Tiny(name, port))) == Design(Tiny(name, port))
  {
    TinyIsReadable(name, port);
    TinyIsPlain(name, port, ";endmodule", '\n');
    TinyIsPlain(name, port, ";endmodule", '/');
    TinyIsPlain(name, port, "", '/');
    DesignTop(Tiny(name, port));
    DesignPorts(Tiny(name, port));
    NoSlashNoComment(Design(Tiny(name, port)));
  }

  lemma StartsWithItsFirst(s: string, j: nat, name: string)
    requires j <= |s| && name != ""
    ensures name <= s[j..] ==> name[0] in s
  {
    if name <= s[j..] { assert s[j..][0] == name[0] && s[j..][0] == s[j]; }
  }

  lemma {:induction false} AbsentNameIsNotFound(s: string, i: nat, name: string)
    requires i <= |s| && name != "" && name[0] !in s
    ensures V.FindModule(s, i, name).None?
    decreases |s| - i
  {
    StartsWithItsFirst(s, if i + 6 <= |s| then SkipSpaces(s, i + 6) else |s|, name);
    if i < |s| { AbsentNameIsNotFound(s, i + 1, name); }
  }

  /** A repair of the tiny design of `name`, requested under the stale top `other`. */
  function StaleJob(name: string, port: string, other: string): Job {
    Job("", other, ";", Design(Tiny(name, port)), false, false)
  }

  lemma StaleJobIsFixing(name: string, port: string, other: string)
    requires Ordinary(name, port) && V.IsIdent(other)
    ensures Fixing(StaleJob(name, port, other)) && TopOf(StaleJob(name, port, other)) == other
  {
    TinyIsReadable(name, port);
    DesignIsTrimmed(Tiny(name, port));
    V.NameIsStripped(other);
    assert !IsSpace(";"[0]);
  }

  /**
   The stale top is real: a module `name` with port `port` may come back as module `other` with port `port'`,
   unopposed, for instance `c` with `a` as `f` with `b`.
   */
  lemma StaleTopWitness(name: string, port: string, other: string, port': string)
    requires Ordinary(name, port) && Ordinary(other, port') && name != other
    requires other[0] !in Design(Tiny(name, port))
    ensures var job := StaleJob(name, port, other);
            && Fixing(job) && TopOf(job) == other
            && V.InferTop(job.previous) == name && V.Ports(job.previous, name) == [port]
    ensures var code := Design(Tiny(other, port'));
            && RtlFixProblems(code, StaleJob(name, port, other).previous, other) == []
            && V.InferTop(code) == other && V.Ports(code, other) == [port']
  {
    StaleJobIsFixing(name, port, other);
    TinyIsReadable(name, port);
    TinyIsReadable(other, port');
    TinyIsRead(name, port);
    TinyIsRead(other, port');
    AbsentNameIsNotFound(Design(Tiny(name, port)), 0, other);
    StaleTopRenames(Tiny(name, port), Tiny(other, port'));
  }
}
