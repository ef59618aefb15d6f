/** The grammar of a phased command body, independent of the pass that recognizes it.

A body is a header of blank, metadata and at most one title line, then one chunk for each
expected section: its start marker, plain lines, its end marker and a gap. */
module PhasedGrammar {
  import opened Protocol
  import opened PhasedTask

  datatype Chunk = Chunk(section: Section, body: seq<Line>, gap: seq<Line>)

  datatype Layout = Layout(head: seq<Line>, chunks: seq<Chunk>)

  predicate AllPlain(lines: seq<Line>) {
    forall i :: 0 <= i < |lines| ==> lines[i].Plain?
  }

  predicate AllGaps(lines: seq<Line>) {
    forall i :: 0 <= i < |lines| ==> IsGap(lines[i])
  }

  predicate HeadOk(head: seq<Line>) {
    && (forall i :: 0 <= i < |head| ==> IsGap(head[i]) || IsTitle(head[i]))
    && (forall i, j :: 0 <= i < j < |head| && IsTitle(head[i]) ==> !IsTitle(head[j]))
  }

  predicate HasTitle(head: seq<Line>) {
    exists i :: 0 <= i < |head| && IsTitle(head[i])
  }

  function Content(l: Line): string {
    if l.Plain? then l.content else ""
  }

  function Contents(body: seq<Line>): (r: seq<string>)
    ensures |r| == |body| && forall i :: 0 <= i < |r| ==> r[i] == Content(body[i])
  {
    seq(|body|, i requires 0 <= i < |body| => Content(body[i]))
  }

  function ChunkText(c: Chunk): string {
    Text(Contents(c.body))
  }

  predicate ChunkOk(c: Chunk) {
    AllPlain(c.body) && AllGaps(c.gap) && ChunkText(c) != ""
  }

  function ChunkLines(c: Chunk): seq<Line> {
    [Marker(c.section, true)] + c.body + [Marker(c.section, false)] + c.gap
  }

  function Flatten(chunks: seq<Chunk>): seq<Line> {
    if chunks == [] then [] else Flatten(chunks[..|chunks| - 1]) + ChunkLines(chunks[|chunks| - 1])
  }

  function Lines(l: Layout): seq<Line> {
    l.head + Flatten(l.chunks)
  }

  predicate LayoutOk(l: Layout) {
    HeadOk(l.head) && forall i :: 0 <= i < |l.chunks| ==> ChunkOk(l.chunks[i])
  }

  function Sections(chunks: seq<Chunk>): (r: seq<Section>)
    ensures |r| == |chunks| && forall i :: 0 <= i < |r| ==> r[i] == chunks[i].section
  {
    seq(|chunks|, i requires 0 <= i < |chunks| => chunks[i].section)
  }

  function Blocks(chunks: seq<Chunk>): (r: seq<Block>)
    ensures |r| == |chunks| && forall i :: 0 <= i < |r| ==> r[i] == Block(chunks[i].section, ChunkText(chunks[i]))
  {
    seq(|chunks|, i requires 0 <= i < |chunks| => Block(chunks[i].section, ChunkText(chunks[i])))
  }

  /** `lines`, declarations aside, spell the layout, and its sections are the declared ones. */
  predicate Derives(l: Layout, phases: seq<PhaseId>, lines: seq<Line>) {
    LayoutOk(l) && Sections(l.chunks) == ExpectedOrder(phases) && Lines(l) == Undeclared(lines)
  }

  predicate DerivesTask(l: Layout, phases: seq<PhaseId>, lines: seq<Line>, task: Task) {
    Derives(l, phases, lines) && |l.chunks| == |phases| + 2 && task == TaskOf(phases, Texts(Blocks(l.chunks)))
  }

  function Undeclared(lines: seq<Line>): seq<Line> {
    if lines == [] then []
    else
      var n := |lines| - 1;
      Undeclared(lines[..n]) + (if lines[n].Declaration? then [] else [lines[n]])
  }

  // ------------------------------------------------------ the pass, composed

  lemma {:induction false} PassConcat(s: Option<Scan>, a: seq<Line>, b: seq<Line>, phases: seq<PhaseId>)
    ensures Pass(s, a + b, phases) == Pass(Pass(s, a, phases), b, phases)
    decreases |b|
  {
    if b == [] {
      assert a + b == a;
    } else {
      var n := |b| - 1;
      assert (a + b)[..|a| + n] == a + b[..n];
      PassConcat(s, a, b[..n], phases);
    }
  }

  lemma {:induction false} PassOne(s: Option<Scan>, l: Line, phases: seq<PhaseId>)
    ensures Pass(s, [l], phases) == if s.None? then None else Step(s.value, l, phases)
  {
    assert [l][..0] == [];
  }

  lemma {:induction false} PassUndeclared(lines: seq<Line>, phases: seq<PhaseId>)
    ensures Pass(Some(START), lines, phases) == Pass(Some(START), Undeclared(lines), phases)
    decreases |lines|
  {
    if lines != [] {
      var n := |lines| - 1;
      var before := Undeclared(lines[..n]);
      PassUndeclared(lines[..n], phases);
      if lines[n].Declaration? {
        assert Undeclared(lines) == before;
      } else {
        PassConcat(Some(START), before, [lines[n]], phases);
        PassOne(Pass(Some(START), before, phases), lines[n], phases);
        hide Step;
      }
    }
  }

  lemma {:induction false} UndeclaredHasNone(lines: seq<Line>)
    ensures forall i :: 0 <= i < |Undeclared(lines)| ==> !Undeclared(lines)[i].Declaration?
    decreases |lines|
  {
    if lines != [] {
      UndeclaredHasNone(lines[..|lines| - 1]);
    }
  }

  // ------------------------------------------------------------ completeness

  lemma {:induction false} PassHead(head: seq<Line>, phases: seq<PhaseId>)
    requires HeadOk(head)
    ensures Pass(Some(START), head, phases) == Some(START.(titleSeen := HasTitle(head)))
    decreases |head|
  {
    if head != [] {
      var n := |head| - 1;
      PassHead(head[..n], phases);
      assert forall i :: 0 <= i < n ==> head[..n][i] == head[i];
      assert HasTitle(head) <==> HasTitle(head[..n]) || IsTitle(head[n]) by {
        if HasTitle(head[..n]) {
          var i :| 0 <= i < n && IsTitle(head[..n][i]);
          assert IsTitle(head[i]);
        }
      }
    }
  }

  lemma {:induction false} PassBody(s: Scan, body: seq<Line>, phases: seq<PhaseId>)
    requires AllPlain(body) && s.open.Some?
    ensures Pass(Some(s), body, phases) == Some(s.(body := s.body + Contents(body)))
    decreases |body|
  {
    if body == [] {
      assert s.body + Contents(body) == s.body;
    } else {
      var n := |body| - 1;
      PassBody(s, body[..n], phases);
      assert s.body + Contents(body) == s.body + Contents(body[..n]) + [body[n].content];
    }
  }

  lemma {:induction false} PassGap(s: Scan, gap: seq<Line>, phases: seq<PhaseId>)
    requires AllGaps(gap) && s.open.None?
    ensures Pass(Some(s), gap, phases) == Some(s)
    decreases |gap|
  {
    if gap != [] {
      PassGap(s, gap[..|gap| - 1], phases);
    }
  }

  lemma PassChunk(s: Scan, c: Chunk, phases: seq<PhaseId>)
    requires ChunkOk(c) && s.open.None? && s.body == [] && Allowed(c.section, phases) && c.section !in Keys(s.closed)
    ensures Pass(Some(s), ChunkLines(c), phases)
            == Some(s.(closed := s.closed + [Block(c.section, ChunkText(c))]))
  {
    var start, end := Marker(c.section, true), Marker(c.section, false);
    var begun := s.(open := Some(c.section));
    var filled := begun.(body := Contents(c.body));
    assert Order(s) == Keys(s.closed);
    PassOne(Some(s), start, phases);
    PassConcat(Some(s), [start], c.body, phases);
    PassBody(begun, c.body, phases);
    assert [] + Contents(c.body) == Contents(c.body);
    PassConcat(Some(s), [start] + c.body, [end], phases);
    PassOne(Some(filled), end, phases);
    PassConcat(Some(s), [start] + c.body + [end], c.gap, phases);
    PassGap(s.(closed := s.closed + [Block(c.section, ChunkText(c))]), c.gap, phases);
  }

  lemma NextChunk(s: Scan, done: seq<Chunk>, c: Chunk, phases: seq<PhaseId>)
    requires s.open.None? && s.body == []
    requires Pass(Some(s), Flatten(done), phases) == Some(s.(closed := Blocks(done)))
    requires ChunkOk(c) && Allowed(c.section, phases) && c.section !in Sections(done)
    ensures Pass(Some(s), Flatten(done + [c]), phases) == Some(s.(closed := Blocks(done + [c])))
  {
    assert (done + [c])[..|done|] == done;
    assert Keys(Blocks(done)) == Sections(done);
    PassConcat(Some(s), Flatten(done), ChunkLines(c), phases);
    PassChunk(s.(closed := Blocks(done)), c, phases);
    assert Blocks(done + [c]) == Blocks(done) + [Block(c.section, ChunkText(c))];
  }

  lemma {:induction false} PassChunks(s: Scan, chunks: seq<Chunk>, phases: seq<PhaseId>)
    requires s.closed == [] && s.open.None? && s.body == []
    requires forall i :: 0 <= i < |chunks| ==> ChunkOk(chunks[i]) && Allowed(chunks[i].section, phases)
    requires forall i, j :: 0 <= i < j < |chunks| ==> chunks[i].section != chunks[j].section
    ensures Pass(Some(s), Flatten(chunks), phases) == Some(s.(closed := Blocks(chunks)))
    decreases |chunks|
  {
    hide ChunkOk, Allowed;
    if chunks != [] {
      var n := |chunks| - 1;
      PassChunks(s, chunks[..n], phases);
      hide Pass, Flatten, Blocks;
      NextChunk(s, chunks[..n], chunks[n], phases);
      assert chunks[..n] + [chunks[n]] == chunks;
    }
  }

  lemma ExpectedDistinct(phases: seq<PhaseId>)
    requires forall i, j :: 0 <= i < j < |phases| ==> phases[i] != phases[j]
    ensures var e := ExpectedOrder(phases);
            && (forall i, j :: 0 <= i < j < |e| ==> e[i] != e[j])
            && (forall i :: 0 <= i < |e| ==> Allowed(e[i], phases))
  {
  }

  lemma DeclaredDistinct(lines: seq<Line>)
    requires DeclarationOf(lines).Phases?
    ensures var phases := DeclarationOf(lines).ids;
            && 1 <= |phases| <= |PHASE_IDS| && phases == PHASE_IDS[..|phases|]
            && forall i, j :: 0 <= i < j < |phases| ==> phases[i] != phases[j]
  {
  }

  /** Whatever the grammar derives is accepted, with the texts of its layout. */
  lemma GrammarIsAccepted(lines: seq<Line>, l: Layout)
    requires DeclarationOf(lines).Phases? && Derives(l, DeclarationOf(lines).ids, lines)
    ensures Parse(lines) == Phased(TaskOf(DeclarationOf(lines).ids, Texts(Blocks(l.chunks))))
  {
    var phases := DeclarationOf(lines).ids;
    DeclaredDistinct(lines);
    ExpectedDistinct(phases);
    var sections := Sections(l.chunks);
    forall i | 0 <= i < |l.chunks| ensures Allowed(l.chunks[i].section, phases) {
      assert sections[i] == l.chunks[i].section;
    }
    forall i, j | 0 <= i < j < |l.chunks| ensures l.chunks[i].section != l.chunks[j].section {
      assert sections[i] != sections[j];
    }
    PassUndeclared(lines, phases);
    PassHead(l.head, phases);
    PassConcat(Some(START), l.head, Flatten(l.chunks), phases);
    PassChunks(START.(titleSeen := HasTitle(l.head)), l.chunks, phases);
    assert Keys(Blocks(l.chunks)) == sections;
  }

  // -------------------------------------------------------------- soundness

  /** A pass that has come this far has read a layout, and perhaps the start of one more chunk. */
  predicate Fits(l: Layout, tail: seq<Line>, lines: seq<Line>, s: Scan) {
    && LayoutOk(l) && AllPlain(tail)
    && lines == Lines(l) + (if s.open.Some? then [Marker(s.open.value, true)] + tail else [])
    && (HasTitle(l.head) ==> s.titleSeen)
    && s.closed == Blocks(l.chunks)
    && (s.open.Some? ==> s.body == Contents(tail))
  }

  lemma GapExtends(l: Layout, line: Line) returns (m: Layout)
    requires LayoutOk(l) && (IsGap(line) || (IsTitle(line) && l.chunks == [] && !HasTitle(l.head)))
    ensures LayoutOk(m) && Lines(m) == Lines(l) + [line] && Blocks(m.chunks) == Blocks(l.chunks)
    ensures HasTitle(m.head) ==> HasTitle(l.head) || IsTitle(line)
  {
    var n := |l.chunks|;
    if n == 0 {
      m := Layout(l.head + [line], []);
      forall i, j | 0 <= i < j < |m.head| && IsTitle(m.head[i]) ensures !IsTitle(m.head[j]) {
        if j == |l.head| {
          assert l.head[i] == m.head[i];
        }
      }
    } else {
      var c := l.chunks[n - 1];
      var d := c.(gap := c.gap + [line]);
      m := l.(chunks := l.chunks[..n - 1] + [d]);
      assert ChunkOk(d);
      assert m.chunks[..n - 1] == l.chunks[..n - 1];
      assert ChunkLines(d) == ChunkLines(c) + [line];
      assert Blocks(m.chunks) == Blocks(l.chunks);
    }
  }

  lemma ChunkCloses(l: Layout, k: Section, tail: seq<Line>) returns (m: Layout)
    requires LayoutOk(l) && AllPlain(tail) && Text(Contents(tail)) != ""
    ensures LayoutOk(m) && m.head == l.head
    ensures Lines(m) == Lines(l) + [Marker(k, true)] + tail + [Marker(k, false)]
    ensures Blocks(m.chunks) == Blocks(l.chunks) + [Block(k, Text(Contents(tail)))]
  {
    var c := Chunk(k, tail, []);
    m := l.(chunks := l.chunks + [c]);
    assert m.chunks[..|l.chunks|] == l.chunks;
    assert ChunkOk(c);
    assert ChunkLines(c) == [Marker(k, true)] + tail + [Marker(k, false)];
  }

  lemma PlainFits(l: Layout, tail: seq<Line>, lines: seq<Line>, s: Scan, line: Line, phases: seq<PhaseId>)
    returns (m: Layout, rest: seq<Line>)
    requires Fits(l, tail, lines, s) && line.Plain? && Step(s, line, phases).Some?
    ensures Fits(m, rest, lines + [line], Step(s, line, phases).value)
  {
    hide LayoutOk, Lines, Blocks;
    if s.open.Some? {
      m, rest := l, tail + [line];
      assert Contents(rest) == Contents(tail) + [line.content];
      assert lines + [line] == Lines(l) + ([Marker(s.open.value, true)] + rest);
    } else {
      m := GapExtends(l, line);
      rest := [];
      assert Lines(l) + [] == Lines(l) && Lines(m) + [] == Lines(m);
    }
  }

  lemma MarkerFits(l: Layout, tail: seq<Line>, lines: seq<Line>, s: Scan, line: Line, phases: seq<PhaseId>)
    returns (m: Layout, rest: seq<Line>)
    requires Fits(l, tail, lines, s) && line.Marker? && Step(s, line, phases).Some?
    ensures Fits(m, rest, lines + [line], Step(s, line, phases).value)
  {
    hide LayoutOk, Lines, Blocks, Text;
    rest := [];
    if line.starts {
      m := l;
      assert Lines(l) + [] == Lines(l) && [line] + [] == [line];
    } else {
      m := ChunkCloses(l, line.section, tail);
      assert lines + [line] == Lines(l) + [Marker(line.section, true)] + tail + [line];
      assert Lines(m) + [] == Lines(m);
    }
  }

  lemma RefusesBroken(s: Scan, line: Line, phases: seq<PhaseId>)
    ensures line.BrokenMarker? ==> Step(s, line, phases).None?
  {
  }

  lemma NothingFits() returns (l: Layout, tail: seq<Line>)
    ensures Fits(l, tail, [], START)
  {
    hide ChunkOk, ChunkLines, IsGap, IsTitle;
    l, tail := Layout([], []), [];
  }

  lemma {:induction false} PassFits(lines: seq<Line>, phases: seq<PhaseId>) returns (l: Layout, tail: seq<Line>)
    requires Pass(Some(START), lines, phases).Some?
    requires forall i :: 0 <= i < |lines| ==> !lines[i].Declaration?
    ensures Fits(l, tail, lines, Pass(Some(START), lines, phases).value)
    decreases |lines|
  {
    hide Step, Fits;
    if lines == [] {
      l, tail := NothingFits();
    } else {
      var n := |lines| - 1;
      var m, rest := PassFits(lines[..n], phases);
      var s := Pass(Some(START), lines[..n], phases).value;
      if lines[n].Plain? {
        l, tail := PlainFits(m, rest, lines[..n], s, lines[n], phases);
      } else {
        RefusesBroken(s, lines[n], phases);
        l, tail := MarkerFits(m, rest, lines[..n], s, lines[n], phases);
      }
      assert lines[..n] + [lines[n]] == lines;
    }
  }

  /** Whatever is accepted is derived. */
  lemma AcceptedIsDerived(lines: seq<Line>, phases: seq<PhaseId>, s: Scan) returns (l: Layout)
    requires Pass(Some(START), lines, phases) == Some(s)
    requires s.open.None? && Keys(s.closed) == ExpectedOrder(phases)
    ensures Derives(l, phases, lines) && Blocks(l.chunks) == s.closed && |l.chunks| == |phases| + 2
  {
    UndeclaredHasNone(lines);
    PassUndeclared(lines, phases);
    assert |ExpectedOrder(phases)| == |phases| + 2;
    hide Pass, ExpectedOrder, LayoutOk;
    var tail;
    l, tail := PassFits(Undeclared(lines), phases);
    assert Sections(l.chunks) == Keys(Blocks(l.chunks));
    assert Lines(l) + [] == Lines(l);
  }

  /** The parser accepts exactly what the grammar derives, and returns the derived texts. */
  lemma AcceptsIffDerives(lines: seq<Line>, task: Task)
    ensures Parse(lines) == Phased(task) <==>
            DeclarationOf(lines).Phases? &&
            exists l :: DerivesTask(l, DeclarationOf(lines).ids, lines, task)
  {
    hide Pass, DeclarationOf, TaskOf, Derives, ExpectedOrder;
    if DeclarationOf(lines).Phases? {
      var phases := DeclarationOf(lines).ids;
      if l :| DerivesTask(l, phases, lines, task) {
        GrammarIsAccepted(lines, l);
      }
      if Parse(lines) == Phased(task) {
        var l := AcceptedIsDerived(lines, phases, Pass(Some(START), lines, phases).value);
        assert DerivesTask(l, phases, lines, task);
      }
    }
  }

  // -------------------------------------------------------------- round trip

  predicate Stripped(s: string) {
    s != "" && !IsSpace(s[0]) && !IsSpace(s[|s| - 1])
  }

  /** What a parsed task always is. */
  predicate TaskOk(t: Task) {
    && 1 <= |t.phases| <= |PHASE_IDS| && t.phases == PHASE_IDS[..|t.phases|]
    && |t.phaseTexts| == |t.phases|
    && Stripped(t.globalText) && Stripped(t.finalText)
    && forall i :: 0 <= i < |t.phaseTexts| ==> Stripped(t.phaseTexts[i])
  }

  function Split(s: string): (r: seq<string>)
    ensures r != []
  {
    if s == [] then [""]
    else if s[0] == '\n' then [""] + Split(s[1..])
    else [[s[0]] + Split(s[1..])[0]] + Split(s[1..])[1..]
  }

  lemma {:induction false} JoinSplit(s: string)
    ensures Join(Split(s)) == s
    decreases |s|
  {
    if s != [] {
      JoinSplit(s[1..]);
      var rest := Split(s[1..]);
      assert s == [s[0]] + s[1..];
      if s[0] == '\n' {
        assert ([""] + rest)[1..] == rest;
      } else {
        assert ([[s[0]] + rest[0]] + rest[1..])[1..] == rest[1..];
      }
    }
  }

  /** How lines are written, and what the lines of a written one are classified as. */
  datatype Notation = Notation(write: Line -> string, read: string -> seq<Line>)

  /** The line is read as itself: it looks like no marker or declaration, and holds no
      character at which it would be broken. */
  predicate ReadsPlain(n: Notation, s: string) {
    n.read(s) == [Plain(Other, s)] || n.read(s) == [Plain(Title, s)] || n.read(s) == [Plain(Metadata, s)]
  }

  /** The reader knows its own declaration and markers, and every line of the texts is plain. */
  ghost predicate Faithful(n: Notation, t: Task)
    requires TaskOk(t)
  {
    && n.read(n.write(DeclarationLine(t))) == [DeclarationLine(t)]
    && (forall k: Section, starts: bool :: n.read(n.write(Marker(k, starts))) == [Marker(k, starts)])
    && forall i :: 0 <= i < |AllTexts(t)| ==> LinesPlain(n, AllTexts(t)[i])
  }

  predicate LinesPlain(n: Notation, text: string) {
    forall j :: 0 <= j < |Split(text)| ==> ReadsPlain(n, Split(text)[j])
  }

  function LineOf(n: Notation, s: string): Line {
    if |n.read(s)| == 1 then n.read(s)[0] else Plain(Other, s)
  }

  function Canonical(n: Notation, k: Section, text: string): Chunk {
    var lines := Split(text);
    Chunk(k, seq(|lines|, i requires 0 <= i < |lines| => LineOf(n, lines[i])), [])
  }

  function AllTexts(t: Task): seq<string> {
    [t.globalText] + t.phaseTexts + [t.finalText]
  }

  function CanonicalLayout(n: Notation, t: Task): Layout
    requires TaskOk(t)
  {
    var keys := ExpectedOrder(t.phases);
    Layout([], seq(|keys|, i requires 0 <= i < |keys| => Canonical(n, keys[i], AllTexts(t)[i])))
  }

  function DeclarationLine(t: Task): Line {
    Declaration(Some(Payload(true, Present(SCHEMA_VERSION),
                             Present(seq(|t.phases|, i requires 0 <= i < |t.phases| => Some(t.phases[i]))))))
  }

  function WriteSection(n: Notation, k: Section, text: string): seq<string> {
    [n.write(Marker(k, true))] + Split(text) + [n.write(Marker(k, false))]
  }

  function WriteSections(n: Notation, keys: seq<Section>, texts: seq<string>): seq<string>
    requires |keys| == |texts|
  {
    if keys == [] then []
    else
      var m := |keys| - 1;
      WriteSections(n, keys[..m], texts[..m]) + WriteSection(n, keys[m], texts[m])
  }

  /** A canonical rendering of a task, line by line. */
  function Write(n: Notation, t: Task): seq<string>
    requires TaskOk(t)
  {
    [n.write(DeclarationLine(t))] + WriteSections(n, ExpectedOrder(t.phases), AllTexts(t))
  }

  /** The classified lines of a text given line by line. */
  function Read(n: Notation, doc: seq<string>): seq<Line> {
    if doc == [] then [] else Read(n, doc[..|doc| - 1]) + n.read(doc[|doc| - 1])
  }

  lemma {:induction false} ReadConcat(n: Notation, a: seq<string>, b: seq<string>)
    ensures Read(n, a + b) == Read(n, a) + Read(n, b)
    decreases |b|
  {
    if b == [] {
      assert a + b == a;
    } else {
      assert (a + b)[..|a + b| - 1] == a + b[..|b| - 1];
      ReadConcat(n, a, b[..|b| - 1]);
    }
  }

  lemma ReadOne(n: Notation, s: string)
    ensures Read(n, [s]) == n.read(s)
  {
    assert [s][..0] == [];
  }

  lemma {:induction false} ReadBody(n: Notation, lines: seq<string>)
    requires forall j :: 0 <= j < |lines| ==> ReadsPlain(n, lines[j])
    ensures Read(n, lines) == seq(|lines|, i requires 0 <= i < |lines| => LineOf(n, lines[i]))
    decreases |lines|
  {
    if lines != [] {
      var m := |lines| - 1;
      ReadBody(n, lines[..m]);
      assert n.read(lines[m]) == [LineOf(n, lines[m])];
    }
  }

  lemma ReadSection(n: Notation, k: Section, text: string)
    requires n.read(n.write(Marker(k, true))) == [Marker(k, true)]
    requires n.read(n.write(Marker(k, false))) == [Marker(k, false)]
    requires LinesPlain(n, text)
    ensures Read(n, WriteSection(n, k, text)) == ChunkLines(Canonical(n, k, text))
  {
    var start, end := n.write(Marker(k, true)), n.write(Marker(k, false));
    hide LineOf, Split, Read;
    ReadOne(n, start);
    ReadOne(n, end);
    ReadBody(n, Split(text));
    ReadConcat(n, [start], Split(text));
    ReadConcat(n, [start] + Split(text), [end]);
  }

  lemma {:induction false} ReadSections(n: Notation, keys: seq<Section>, texts: seq<string>, chunks: seq<Chunk>)
    requires |keys| == |texts| == |chunks|
    requires forall i :: 0 <= i < |chunks| ==> chunks[i] == Canonical(n, keys[i], texts[i])
    requires forall k: Section, starts: bool :: n.read(n.write(Marker(k, starts))) == [Marker(k, starts)]
    requires forall i :: 0 <= i < |texts| ==> LinesPlain(n, texts[i])
    ensures Read(n, WriteSections(n, keys, texts)) == Flatten(chunks)
    decreases |keys|
  {
    if keys != [] {
      hide Canonical, WriteSection, LinesPlain, ChunkLines;
      var m := |keys| - 1;
      ReadSections(n, keys[..m], texts[..m], chunks[..m]);
      ReadSection(n, keys[m], texts[m]);
      ReadConcat(n, WriteSections(n, keys[..m], texts[..m]), WriteSection(n, keys[m], texts[m]));
    }
  }

  /** What the canonical rendering is read as. */
  function Rendered(n: Notation, t: Task): seq<Line>
    requires TaskOk(t)
  {
    [DeclarationLine(t)] + Lines(CanonicalLayout(n, t))
  }

  lemma WrittenIsRendered(n: Notation, t: Task)
    requires TaskOk(t) && Faithful(n, t)
    ensures Read(n, Write(n, t)) == Rendered(n, t)
  {
    hide Read, LinesPlain, WriteSections;
    var keys := ExpectedOrder(t.phases);
    CanonicalHead(n, t);
    ReadOne(n, n.write(DeclarationLine(t)));
    ReadConcat(n, [n.write(DeclarationLine(t))], WriteSections(n, keys, AllTexts(t)));
    ReadSections(n, keys, AllTexts(t), CanonicalLayout(n, t).chunks);
  }

  lemma CanonicalBody(n: Notation, k: Section, text: string)
    requires LinesPlain(n, text)
    ensures AllPlain(Canonical(n, k, text).body) && Contents(Canonical(n, k, text).body) == Split(text)
  {
    hide Split;
    forall i | 0 <= i < |Split(text)| ensures LineOf(n, Split(text)[i]).Plain? && Content(LineOf(n, Split(text)[i])) == Split(text)[i] {
      assert ReadsPlain(n, Split(text)[i]);
    }
    hide LineOf, ReadsPlain, LinesPlain;
  }

  lemma StrippedStays(text: string)
    requires Stripped(text)
    ensures Strip(text) == text
  {
  }

  lemma CanonicalText(n: Notation, k: Section, text: string)
    requires Stripped(text) && LinesPlain(n, text)
    ensures ChunkOk(Canonical(n, k, text)) && ChunkText(Canonical(n, k, text)) == text
  {
    JoinSplit(text);
    CanonicalBody(n, k, text);
    StrippedStays(text);
    hide LineOf, Split, Join, LinesPlain, Contents, Strip;
  }

  lemma {:induction false} OneDeclaration(d: Line, lines: seq<Line>)
    requires d.Declaration? && forall i :: 0 <= i < |lines| ==> !lines[i].Declaration?
    ensures Payloads([d] + lines) == [d.payload] && Undeclared([d] + lines) == lines
    decreases |lines|
  {
    var all := [d] + lines;
    if lines == [] {
      assert all == [d] && all[..0] == [];
      assert Payloads(all) == Payloads([]) + [d.payload];
    } else {
      var n := |lines| - 1;
      OneDeclaration(d, lines[..n]);
      assert all[..n + 1] == [d] + lines[..n];
      assert [d.payload] + [] == [d.payload];
      assert lines[..n] + [lines[n]] == lines;
    }
  }

  lemma {:induction false} NoDeclarations(chunks: seq<Chunk>)
    requires forall i :: 0 <= i < |chunks| ==> ChunkOk(chunks[i])
    ensures forall i :: 0 <= i < |Flatten(chunks)| ==> !Flatten(chunks)[i].Declaration?
    decreases |chunks|
  {
    if chunks != [] {
      NoDeclarations(chunks[..|chunks| - 1]);
    }
  }

  lemma CanonicalDerives(n: Notation, t: Task)
    requires TaskOk(t) && Faithful(n, t)
    ensures var l := CanonicalLayout(n, t);
            LayoutOk(l) && Sections(l.chunks) == ExpectedOrder(t.phases) && Texts(Blocks(l.chunks)) == AllTexts(t)
  {
    var l, keys, texts := CanonicalLayout(n, t), ExpectedOrder(t.phases), AllTexts(t);
    forall i | 0 <= i < |l.chunks| ensures ChunkOk(l.chunks[i]) && Blocks(l.chunks)[i] == Block(keys[i], texts[i]) {
      assert Stripped(texts[i]);
      CanonicalText(n, keys[i], texts[i]);
    }
  }

  lemma PayloadDeclares(lines: seq<Line>, t: Task)
    requires TaskOk(t) && Payloads(lines) == [DeclarationLine(t).payload]
    ensures DeclarationOf(lines) == Phases(t.phases)
  {
    hide Payloads;
    var p := DeclarationLine(t).payload.value;
    assert DeclaredPhases(p) == Some(t.phases);
    assert None !in Payloads(lines);
  }

  lemma RenderDeclares(n: Notation, t: Task)
    requires TaskOk(t) && Faithful(n, t)
    ensures DeclarationOf(Rendered(n, t)) == Phases(t.phases) && Undeclared(Rendered(n, t)) == Lines(CanonicalLayout(n, t))
  {
    CanonicalDerives(n, t);
    NoDeclarations(CanonicalLayout(n, t).chunks);
    hide CanonicalLayout, Payloads, Undeclared, TaskOk, LayoutOk, Flatten, DeclarationOf;
    assert Lines(CanonicalLayout(n, t)) == Flatten(CanonicalLayout(n, t).chunks) by {
      CanonicalHead(n, t);
    }
    OneDeclaration(DeclarationLine(t), Lines(CanonicalLayout(n, t)));
    PayloadDeclares(Rendered(n, t), t);
  }

  lemma CanonicalHead(n: Notation, t: Task)
    requires TaskOk(t)
    ensures Lines(CanonicalLayout(n, t)) == Flatten(CanonicalLayout(n, t).chunks)
  {
    assert CanonicalLayout(n, t).head == [];
    hide CanonicalLayout, Flatten;
  }

  /** Writing a task and parsing what is read back gives the task, in every notation that
      reads the task's lines as they were meant. */
  lemma RoundTrip(n: Notation, t: Task)
    requires TaskOk(t) && Faithful(n, t)
    ensures Parse(Read(n, Write(n, t))) == Phased(t)
  {
    WrittenIsRendered(n, t);
    var l := CanonicalLayout(n, t);
    CanonicalDerives(n, t);
    RenderDeclares(n, t);
    hide CanonicalLayout, ExpectedOrder, Rendered, LayoutOk, DeclarationOf, Blocks, Parse, Faithful, Read, Write;
    GrammarIsAccepted(Rendered(n, t), l);
    assert AllTexts(t)[1..|AllTexts(t)| - 1] == t.phaseTexts;
  }

  /** Everything the parser returns is such a task, so parsing after rendering changes nothing. */
  lemma ParsedIsOk(lines: seq<Line>)
    requires Parse(lines).Phased?
    ensures TaskOk(Parse(lines).task)
  {
    hide Pass, DeclarationOf, Strip;
    DeclaredDistinct(lines);
    var phases := DeclarationOf(lines).ids;
    var s := Pass(Some(START), lines, phases).value;
    var l := AcceptedIsDerived(lines, phases, s);
    forall i | 0 <= i < |s.closed| ensures Stripped(Texts(s.closed)[i]) {
      assert ChunkOk(l.chunks[i]);
    }
  }
}
