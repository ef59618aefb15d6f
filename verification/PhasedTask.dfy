/** `phased_task.py`, the parser: one strict pass over the lines of a command body.

Lines come classified, as the five regular expressions of the source classify them: a
declaration, a section marker, a line that only looks like a marker, or a plain line, which
may further be a command title or command metadata. */
module PhasedTask {
  import opened Protocol

  datatype PhaseId = A | B | C | D

  datatype Section = Global | Phase(id: PhaseId) | Final

  /** A JSON object behind `bridge-phased-task:`; a phase that is no known id is None. */
  datatype Payload = Payload(exactFields: bool, schemaVersion: Field<int>, phases: Field<seq<Option<PhaseId>>>)

  datatype Shape = Title | Metadata | Other

  datatype Line =
    | Declaration(payload: Option<Payload>)
    | Marker(section: Section, starts: bool)
    | BrokenMarker
    | Plain(shape: Shape, content: string)

  datatype Task = Task(phases: seq<PhaseId>, globalText: string, phaseTexts: seq<string>, finalText: string)

  datatype Parsed = Ordinary | Refused | Phased(task: Task)

  const SCHEMA_VERSION := 1
  const PHASE_IDS: seq<PhaseId> := [A, B, C, D]

  // ------------------------------------------------------------------- text

  predicate IsSpace(c: char) {
    c == ' ' || c == '\t' || c == '\n' || c == '\r' || c == '\U{000B}' || c == '\U{000C}'
  }

  predicate Blank(s: string) {
    forall i :: 0 <= i < |s| ==> IsSpace(s[i])
  }

  function Strip(s: string): (r: string)
    ensures r == [] || (!IsSpace(r[0]) && !IsSpace(r[|r| - 1]))
  {
    if s == [] then []
    else if IsSpace(s[0]) then Strip(s[1..])
    else if IsSpace(s[|s| - 1]) then Strip(s[..|s| - 1])
    else s
  }

  function Join(lines: seq<string>): string {
    if lines == [] then []
    else if |lines| == 1 then lines[0]
    else lines[0] + "\n" + Join(lines[1..])
  }

  /** A section body as it is kept: joined, stripped. */
  function Text(body: seq<string>): string {
    Strip(Join(body))
  }

  // ------------------------------------------------------------ declaration

  function Payloads(lines: seq<Line>): seq<Option<Payload>> {
    if lines == [] then []
    else
      var n := |lines| - 1;
      Payloads(lines[..n]) + (if lines[n].Declaration? then [lines[n].payload] else [])
  }

  /** The ordered prefix of the phase ids that a payload declares. */
  function DeclaredPhases(p: Payload): Option<seq<PhaseId>> {
    if p.exactFields && p.schemaVersion == Present(SCHEMA_VERSION) && p.phases.Present?
       && 1 <= |p.phases.value| <= |PHASE_IDS|
       && forall i :: 0 <= i < |p.phases.value| ==> p.phases.value[i] == Some(PHASE_IDS[i])
    then Some(PHASE_IDS[..|p.phases.value|]) else None
  }

  datatype Declared = Nothing | Malformed | Phases(ids: seq<PhaseId>)

  function DeclarationOf(lines: seq<Line>): Declared {
    var all := Payloads(lines);
    if None in all then Declared.Malformed
    else if all == [] then Nothing
    else if |all| != 1 then Declared.Malformed
    else match DeclaredPhases(all[0].value)
      case None => Declared.Malformed
      case Some(ids) => Phases(ids)
  }

  /** `parse_declaration`. */
  method ParseDeclaration(lines: seq<Line>) returns (d: Declared)
    ensures d == DeclarationOf(lines)
  {
    var matches: seq<Payload> := [];
    for i := 0 to |lines|
      invariant None !in Payloads(lines[..i])
      invariant |matches| == |Payloads(lines[..i])|
      invariant forall k :: 0 <= k < |matches| ==> Payloads(lines[..i])[k] == Some(matches[k])
    {
      assert lines[..i + 1][..i] == lines[..i];
      if lines[i].Declaration? {
        if lines[i].payload.None? {
          MalformedStays(lines, i + 1);
          return Declared.Malformed;
        }
        matches := matches + [lines[i].payload.value];
      }
    }
    assert lines[..|lines|] == lines;
    if matches == [] { return Nothing; }
    if |matches| != 1 { return Declared.Malformed; }
    match DeclaredPhases(matches[0])
    case None => return Declared.Malformed;
    case Some(ids) => return Phases(ids);
  }

  lemma {:induction false} MalformedStays(lines: seq<Line>, n: nat)
    requires n <= |lines| && None in Payloads(lines[..n])
    ensures None in Payloads(lines)
    decreases |lines|
  {
    if n == |lines| {
      assert lines[..n] == lines;
    } else {
      assert lines[..|lines| - 1][..n] == lines[..n];
      MalformedStays(lines[..|lines| - 1], n);
    }
  }

  // ---------------------------------------------------------------- one pass

  datatype Block = Block(section: Section, text: string)

  datatype Scan = Scan(closed: seq<Block>, open: Option<Section>, body: seq<string>, titleSeen: bool)

  const START := Scan([], None, [], false)

  function Keys(blocks: seq<Block>): (k: seq<Section>)
    ensures |k| == |blocks| && forall i :: 0 <= i < |k| ==> k[i] == blocks[i].section
  {
    seq(|blocks|, i requires 0 <= i < |blocks| => blocks[i].section)
  }

  /** Every section started so far, in order. */
  function Order(s: Scan): seq<Section> {
    Keys(s.closed) + (if s.open.Some? then [s.open.value] else [])
  }

  predicate Allowed(k: Section, phases: seq<PhaseId>) {
    k.Phase? ==> k.id in phases
  }

  predicate IsGap(l: Line) {
    l.Plain? && (Blank(l.content) || l.shape == Metadata)
  }

  predicate IsTitle(l: Line) {
    l.Plain? && l.shape == Title && !Blank(l.content)
  }

  function Step(s: Scan, l: Line, phases: seq<PhaseId>): Option<Scan> {
    match l
    case Declaration(_) => Some(s)
    case BrokenMarker => None
    case Plain(_, content) =>
      if s.open.Some? then Some(s.(body := s.body + [content]))
      else if IsGap(l) then Some(s)
      else if IsTitle(l) && !s.titleSeen && s.closed == [] then Some(s.(titleSeen := true))
      else None
    case Marker(k, true) =>
      if Allowed(k, phases) && s.open.None? && k !in Order(s) then Some(s.(open := Some(k), body := [])) else None
    case Marker(k, false) =>
      if Allowed(k, phases) && s.open == Some(k) && Text(s.body) != ""
      then Some(s.(closed := s.closed + [Block(k, Text(s.body))], open := None, body := [])) else None
  }

  /** The whole pass from `s`; None once a line is refused. */
  function Pass(s: Option<Scan>, lines: seq<Line>, phases: seq<PhaseId>): Option<Scan> {
    if lines == [] then s
    else match Pass(s, lines[..|lines| - 1], phases)
      case None => None
      case Some(t) => Step(t, lines[|lines| - 1], phases)
  }

  function ExpectedOrder(phases: seq<PhaseId>): seq<Section> {
    [Global] + seq(|phases|, i requires 0 <= i < |phases| => Phase(phases[i])) + [Final]
  }

  function TaskOf(phases: seq<PhaseId>, texts: seq<string>): Task
    requires |texts| == |phases| + 2
  {
    Task(phases, texts[0], texts[1..|texts| - 1], texts[|texts| - 1])
  }

  function Texts(blocks: seq<Block>): (t: seq<string>)
    ensures |t| == |blocks| && forall i :: 0 <= i < |t| ==> t[i] == blocks[i].text
  {
    seq(|blocks|, i requires 0 <= i < |blocks| => blocks[i].text)
  }

  predicate HasMarker(lines: seq<Line>) {
    exists i :: 0 <= i < |lines| && (lines[i].Marker? || lines[i].BrokenMarker?)
  }

  function Parse(lines: seq<Line>): Parsed {
    match DeclarationOf(lines)
    case Malformed => Refused
    case Nothing => if HasMarker(lines) then Refused else Ordinary
    case Phases(phases) =>
      match Pass(Some(START), lines, phases)
      case None => Refused
      case Some(s) =>
        if s.open.None? && Keys(s.closed) == ExpectedOrder(phases) then Phased(TaskOf(phases, Texts(s.closed)))
        else Refused
  }

  /** The source keeps the sections in a dict and their order in a list. */
  ghost predicate SameScan(s: Scan, sections: map<Section, string>, order: seq<Section>, current: Option<Section>,
                           body: seq<string>, titleSeen: bool, sectionSeen: bool)
  {
    && order == Order(s)
    && current == s.open
    && (current.Some? ==> body == s.body)
    && titleSeen == s.titleSeen
    && sectionSeen == (order != [])
    && sections.Keys == (set k | k in Keys(s.closed))
    && (forall i :: 0 <= i < |s.closed| ==> s.closed[i].section in sections
                                            && sections[s.closed[i].section] == s.closed[i].text)
    && (forall i, j :: 0 <= i < j < |order| ==> order[i] != order[j])
  }

  /** The variables of the parsing loop. */
  class SectionReader {
    var sections: map<Section, string>
    var order: seq<Section>
    var current: Option<Section>
    var bodyLines: seq<string>
    var titleSeen: bool
    var sectionSeen: bool
    ghost var scan: Scan

    ghost predicate Valid()
      reads this
    {
      SameScan(scan, sections, order, current, bodyLines, titleSeen, sectionSeen)
    }

    constructor ()
      ensures Valid() && scan == START
    {
      sections, order, current, bodyLines := map[], [], None, [];
      titleSeen, sectionSeen, scan := false, false, START;
    }

    /** One line of the body: false where the parser raises. */
    method Take(line: Line, phases: seq<PhaseId>) returns (ok: bool)
      requires Valid()
      modifies this
      ensures ok <==> Step(old(scan), line, phases).Some?
      ensures ok ==> Valid() && Some(scan) == Step(old(scan), line, phases)
    {
      hide Text, Blank;
      match line
      case Declaration(_) =>
        return true;
      case BrokenMarker =>
        return false;
      case Plain(shape, content) =>
        if current.Some? {
          bodyLines, scan := bodyLines + [content], scan.(body := scan.body + [content]);
        } else if !Blank(content) && shape != Metadata {
          if shape != Title || titleSeen || sectionSeen { return false; }
          titleSeen, scan := true, scan.(titleSeen := true);
        }
        return true;
      case Marker(key, starts) =>
        if key.Phase? && key.id !in phases { return false; }
        if starts {
          if current.Some? { return false; }
          if key in sections || key in order { return false; }
          StartKept(scan, sections, order, bodyLines, titleSeen, sectionSeen, key);
          current, bodyLines, order, sectionSeen := Some(key), [], order + [key], true;
          scan := scan.(open := Some(key), body := []);
        } else {
          if current != Some(key) { return false; }
          var text := Text(bodyLines);
          if text == "" { return false; }
          EndKept(scan, sections, order, bodyLines, titleSeen, sectionSeen, key, text);
          sections, current, bodyLines := sections[key := text], None, [];
          scan := scan.(closed := scan.closed + [Block(key, text)], open := None, body := []);
        }
        return true;
    }
  }

  /** `parse_phased_task`. */
  method ParsePhasedTask(lines: seq<Line>) returns (r: Parsed)
    ensures r == Parse(lines)
  {
    var declared := ParseDeclaration(lines);
    if declared == Declared.Malformed { return Refused; }
    if declared == Nothing {
      return if HasMarker(lines) then Refused else Ordinary;
    }
    var phases := declared.ids;
    var reader := new SectionReader();
    hide Pass, Step, HasMarker, DeclarationOf;
    for i := 0 to |lines|
      invariant fresh(reader) && reader.Valid()
      invariant Pass(Some(START), lines[..i], phases) == Some(reader.scan)
    {
      PassStep(lines, i, reader.scan, phases);
      var ok := reader.Take(lines[i], phases);
      if !ok { return Refused; }
    }
    assert lines[..|lines|] == lines;
    if reader.current.Some? { return Refused; }
    r := Assemble(phases, reader.order, reader.sections, reader.scan);
  }

  /** The end of `parse_phased_task`: the sections must be the declared ones, in order. */
  method Assemble(phases: seq<PhaseId>, order: seq<Section>, sections: map<Section, string>, ghost s: Scan)
    returns (r: Parsed)
    requires s.open.None? && order == Keys(s.closed)
    requires forall i :: 0 <= i < |s.closed| ==> s.closed[i].section in sections
                                                 && sections[s.closed[i].section] == s.closed[i].text
    ensures r == if Keys(s.closed) == ExpectedOrder(phases) then Phased(TaskOf(phases, Texts(s.closed))) else Refused
  {
    if order != ExpectedOrder(phases) { return Refused; }
    SectionsHoldTexts(s, sections, phases);
    return Phased(Task(phases, sections[Global],
                       seq(|phases|, i requires 0 <= i < |phases| => sections[Phase(phases[i])]), sections[Final]));
  }

  lemma SectionsHoldTexts(s: Scan, sections: map<Section, string>, phases: seq<PhaseId>)
    requires s.open.None? && Keys(s.closed) == ExpectedOrder(phases)
    requires forall i :: 0 <= i < |s.closed| ==> s.closed[i].section in sections
                                                 && sections[s.closed[i].section] == s.closed[i].text
    ensures Global in sections && Final in sections
    ensures forall i :: 0 <= i < |phases| ==> Phase(phases[i]) in sections
    ensures Task(phases, sections[Global], seq(|phases|, i requires 0 <= i < |phases| => sections[Phase(phases[i])]),
                 sections[Final]) == TaskOf(phases, Texts(s.closed))
  {
    var keys, n := ExpectedOrder(phases), |phases|;
    assert s.closed[0].section == keys[0] && s.closed[n + 1].section == keys[n + 1];
    forall i | 0 <= i < n ensures Phase(phases[i]) in sections && sections[Phase(phases[i])] == s.closed[i + 1].text {
      assert s.closed[i + 1].section == keys[i + 1];
    }
  }

  lemma StartKept(s: Scan, sections: map<Section, string>, order: seq<Section>, body: seq<string>,
                  titleSeen: bool, sectionSeen: bool, key: Section)
    requires SameScan(s, sections, order, None, body, titleSeen, sectionSeen) && key !in order
    ensures SameScan(s.(open := Some(key), body := []), sections, order + [key], Some(key), [], titleSeen, true)
  {
  }

  lemma EndKept(s: Scan, sections: map<Section, string>, order: seq<Section>, body: seq<string>,
                titleSeen: bool, sectionSeen: bool, key: Section, text: string)
    requires SameScan(s, sections, order, Some(key), body, titleSeen, sectionSeen)
    ensures SameScan(s.(closed := s.closed + [Block(key, text)], open := None, body := []),
                     sections[key := text], order, None, [], titleSeen, sectionSeen)
  {
    var after := s.closed + [Block(key, text)];
    assert Keys(after) == Keys(s.closed) + [key];
    forall i | 0 <= i < |after| ensures after[i].section in sections[key := text]
                                        && sections[key := text][after[i].section] == after[i].text {
      if i < |s.closed| {
        assert order[i] != order[|s.closed|];
      }
    }
    forall k ensures k in sections[key := text].Keys <==> k in Keys(after) {
      if k == key {
        assert Keys(after)[|s.closed|] == k;
      }
    }
  }

  lemma PassStep(lines: seq<Line>, i: nat, s: Scan, phases: seq<PhaseId>)
    requires i < |lines| && Pass(Some(START), lines[..i], phases) == Some(s)
    ensures Pass(Some(START), lines[..i + 1], phases) == Step(s, lines[i], phases)
    ensures Step(s, lines[i], phases).None? ==> Pass(Some(START), lines, phases).None?
  {
    assert lines[..i + 1][..i] == lines[..i];
    PassRefuses(lines, i + 1, phases);
  }

  lemma {:induction false} PassRefuses(lines: seq<Line>, n: nat, phases: seq<PhaseId>)
    requires n <= |lines|
    ensures Pass(Some(START), lines[..n], phases).None? ==> Pass(Some(START), lines, phases).None?
    decreases |lines|
  {
    if n == |lines| {
      assert lines[..n] == lines;
    } else {
      assert lines[..|lines| - 1][..n] == lines[..n];
      PassRefuses(lines[..|lines| - 1], n, phases);
    }
  }
}
