/**
  The SOAP note generator, without the language-model call and the store:
  the line-by-line parser that splits the model's free-text answer into the
  Subjective / Objective / Assessment / Plan sections, the chief-complaint and
  diagnosis extractors, the transcript formatter used to build the prompt, and
  the ICD-10 enrichment from disease detections.
 */
module Soap {
  import opened Wrappers
  import opened Text
  import opened Seqs

  // ---------------------------------------------------------------------------
  // The note

  /** The structured note; the generator fills it in and the enrichment step updates it in place. */
  class SoapNote {
    var subjective: string
    var objective: string
    var assessment: string
    var plan: string
    var sessionId: string
    var generatedAt: string
    var chiefComplaint: Option<string>
    var historyPresentIllness: Option<string>
    var reviewOfSystems: Option<string>
    var physicalExam: Option<string>
    var differentialDiagnoses: Option<seq<string>>
    var primaryDiagnosis: Option<string>
    var icd10Codes: Option<seq<string>>
    var medicationsPrescribed: Option<seq<map<string, string>>>
    var followUp: Option<string>

    /** The dataclass constructor as the parser calls it: the optional fields it does not pass stay absent. */
    constructor (subjective: string, objective: string, assessment: string, plan: string,
                 sessionId: string, generatedAt: string, chiefComplaint: Option<string>,
                 primaryDiagnosis: Option<string>, differentialDiagnoses: Option<seq<string>>)
      ensures this.subjective == subjective && this.objective == objective
      ensures this.assessment == assessment && this.plan == plan
      ensures this.sessionId == sessionId && this.generatedAt == generatedAt
      ensures this.chiefComplaint == chiefComplaint
      ensures this.primaryDiagnosis == primaryDiagnosis
      ensures this.differentialDiagnoses == differentialDiagnoses
      ensures historyPresentIllness == None && reviewOfSystems == None && physicalExam == None
      ensures icd10Codes == None && medicationsPrescribed == None && followUp == None
    {
      this.subjective := subjective;
      this.objective := objective;
      this.assessment := assessment;
      this.plan := plan;
      this.sessionId := sessionId;
      this.generatedAt := generatedAt;
      this.chiefComplaint := chiefComplaint;
      historyPresentIllness := None;
      reviewOfSystems := None;
      physicalExam := None;
      this.differentialDiagnoses := differentialDiagnoses;
      this.primaryDiagnosis := primaryDiagnosis;
      icd10Codes := None;
      medicationsPrescribed := None;
      followUp := None;
    }

    /** Every field except the ICD-10 codes, as one value. */
    function Fields(): NoteFields
      reads this`subjective, this`objective, this`assessment, this`plan, this`sessionId, this`generatedAt
      reads this`chiefComplaint, this`historyPresentIllness, this`reviewOfSystems, this`physicalExam
      reads this`differentialDiagnoses, this`primaryDiagnosis, this`medicationsPrescribed, this`followUp
    {
      NoteFields(subjective, objective, assessment, plan, sessionId, generatedAt, chiefComplaint,
                 historyPresentIllness, reviewOfSystems, physicalExam, differentialDiagnoses, primaryDiagnosis,
                 medicationsPrescribed, followUp)
    }
  }

  /** The fields of a note other than its ICD-10 codes. */
  datatype NoteFields = NoteFields(
    subjective: string, objective: string, assessment: string, plan: string,
    sessionId: string, generatedAt: string, chiefComplaint: Option<string>,
    historyPresentIllness: Option<string>, reviewOfSystems: Option<string>, physicalExam: Option<string>,
    differentialDiagnoses: Option<seq<string>>, primaryDiagnosis: Option<string>,
    medicationsPrescribed: Option<seq<map<string, string>>>, followUp: Option<string>)

  // ---------------------------------------------------------------------------
  // Section headers

  datatype Section = Subjective | Objective | Assessment | Plan

  /** The order in which the header tests run. */
  function Order(s: Section): nat
  {
    match s
    case Subjective => 0
    case Objective => 1
    case Assessment => 2
    case Plan => 3
  }

  function Keyword(s: Section): string
  {
    match s
    case Subjective => "SUBJECTIVE"
    case Objective => "OBJECTIVE"
    case Assessment => "ASSESSMENT"
    case Plan => "PLAN"
  }

  function Letter(s: Section): char
  {
    match s
    case Subjective => 'S'
    case Objective => 'O'
    case Assessment => 'A'
    case Plan => 'P'
  }

  /**
    The header test for one section on an upper-cased cleaned line: it names
    the section, starts with its letter and a colon or with the letter, a space
    and a dash, or is the letter alone.
   */
  predicate IsHeaderFor(u: string, s: Section)
  {
    Contains(u, Keyword(s)) || [Letter(s), ':'] <= u || [Letter(s), ' ', '-'] <= u || u == [Letter(s)]
  }

  /** The section a line opens: the first, in test order, whose header test matches. */
  function HeaderOf(u: string): (r: Option<Section>)
    ensures r.Some? ==> IsHeaderFor(u, r.value)
    ensures r.Some? ==> forall s :: Order(s) < Order(r.value) ==> !IsHeaderFor(u, s)
    ensures r.None? <==> forall s :: !IsHeaderFor(u, s)
  {
    if IsHeaderFor(u, Subjective) then Some(Subjective)
    else if IsHeaderFor(u, Objective) then Some(Objective)
    else if IsHeaderFor(u, Assessment) then Some(Assessment)
    else if IsHeaderFor(u, Plan) then Some(Plan)
    else None
  }

  /** The line stripped, its leading `#`s removed, then surrounding `*`s, then whitespace again. */
  function Clean(line: string): (r: string)
    ensures |r| <= |line|
  {
    Strip(StripSet(LStripSet(Strip(line), {'#'}), {'*'}))
  }

  /** The cleaned line is stripped and is a piece of the stripped line. */
  lemma CleanShape(line: string)
    ensures IsStrippedOf(Clean(line), Whitespace)
    ensures Contains(Strip(line), Clean(line))
  {
    var a := Strip(line);
    var b := LStripSet(a, {'#'});
    var c := StripSet(b, {'*'});
    StripSetShape(c, Whitespace);
    LStripSetContained(a, {'#'});
    StripSetContained(b, {'*'});
    StripSetContained(c, Whitespace);
    ContainsTrans(a, b, c);
    ContainsTrans(a, c, Clean(line));
  }

  /** A line with no leading `#` and no surrounding `*` is only stripped. */
  lemma CleanOfPlain(line: string)
    requires var a := Strip(line); a == [] || (a[0] != '#' && a[0] != '*' && a[|a| - 1] != '*')
    ensures Clean(line) == Strip(line)
  {
    var a := Strip(line);
    StripSetShape(line, Whitespace);
    StripSetOfStripped(a, Whitespace);
    NoHashes(a);
    NoStars(a);
    CleanSteps(line, a, a, a, a);
  }

  /** `lstrip('#')` leaves a string that does not start with `#`. */
  lemma NoHashes(a: string)
    requires a == [] || a[0] != '#'
    ensures LStripSet(a, {'#'}) == a
  {
  }

  /** `strip('*')` leaves a string that neither starts nor ends with `*`. */
  lemma NoStars(a: string)
    requires a == [] || (a[0] != '*' && a[|a| - 1] != '*')
    ensures StripSet(a, {'*'}) == a
  {
    assert IsStrippedOf(a, {'*'});
    StripSetOfStripped(a, {'*'});
  }

  /** The cleaning, step by step. */
  lemma CleanSteps(line: string, a: string, b: string, c: string, d: string)
    requires Strip(line) == a && LStripSet(a, {'#'}) == b
    requires StripSet(b, {'*'}) == c && Strip(c) == d
    ensures Clean(line) == d
  {
  }

  /** Stripping `*` from `**text**` gives the text. */
  lemma StripStars(a: string, d: string, z: string)
    requires forall i :: 0 <= i < |a| ==> a[i] == '*'
    requires forall i :: 0 <= i < |z| ==> z[i] == '*'
    requires d != [] && d[0] != '*' && d[|d| - 1] != '*'
    ensures StripSet(a + d + z, {'*'}) == d
  {
    assert a + d + z == a + (d + z);
    LStripSetBehind(a, d + z, {'*'});
    RStripSetSuffix(d, z, {'*'});
    NoStars(d);
  }

  /** A markdown header line neither starts nor ends with whitespace. */
  lemma MarkdownStripped(h: string, rest: string)
    requires forall i :: 0 <= i < |h| ==> h[i] == '#'
    requires rest != [] && !IsSpace(rest[0]) && !IsSpace(rest[|rest| - 1])
    ensures IsStrippedOf(h + rest, Whitespace)
  {
    var line := h + rest;
    assert !IsSpace('#');
    assert line[0] == if h == [] then rest[0] else '#';
    assert line[|line| - 1] == rest[|rest| - 1];
  }

  /** `## ` in front of `**text**` is removed by `lstrip('#')`. */
  lemma HashesRemoved(h: string, a: string, d: string, z: string)
    requires forall i :: 0 <= i < |h| ==> h[i] == '#'
    requires forall i :: 0 <= i < |a| ==> a[i] == '*'
    requires d != [] && d[0] != '#'
    ensures LStripSet(h + (a + d + z), {'#'}) == a + d + z
  {
    var rest := a + d + z;
    assert rest[0] == if a == [] then d[0] else '*';
    LStripSetBehind(h, rest, {'#'});
  }

  /** `## **text**` is already stripped of whitespace. */
  lemma MarkdownIsStripped(h: string, a: string, d: string, z: string)
    requires forall i :: 0 <= i < |h| ==> h[i] == '#'
    requires forall i :: 0 <= i < |a| ==> a[i] == '*'
    requires forall i :: 0 <= i < |z| ==> z[i] == '*'
    requires d != [] && IsStrippedOf(d, Whitespace)
    ensures Strip(h + (a + d + z)) == h + (a + d + z)
  {
    var rest := a + d + z;
    assert rest[0] == if a == [] then d[0] else '*';
    assert rest[|rest| - 1] == if z == [] then d[|d| - 1] else '*';
    assert !IsSpace('*') && !IsSpace(d[0]) && !IsSpace(d[|d| - 1]);
    MarkdownStripped(h, rest);
    StripSetOfStripped(h + rest, Whitespace);
  }

  /** A markdown header `## **text**` cleans to its text. */
  lemma CleanMarkdown(h: string, a: string, d: string, z: string)
    requires forall i :: 0 <= i < |h| ==> h[i] == '#'
    requires forall i :: 0 <= i < |a| ==> a[i] == '*'
    requires forall i :: 0 <= i < |z| ==> z[i] == '*'
    requires d != [] && IsStrippedOf(d, Whitespace)
    requires d[0] != '#' && d[0] != '*' && d[|d| - 1] != '*'
    ensures Clean(h + a + d + z) == d
  {
    assert h + a + d + z == h + (a + d + z);
    MarkdownIsStripped(h, a, d, z);
    HashesRemoved(h, a, d, z);
    StripStars(a, d, z);
    StripSetOfStripped(d, Whitespace);
    CleanSteps(h + (a + d + z), h + (a + d + z), a + d + z, d, d);
  }

  /**
    What a header line carries after its label: with `:` and `-` turned into
    spaces, the second piece of a one-split on whitespace, stripped; nothing
    when the cleaned line has neither character or only one piece.
   */
  function Capture(clean: string): (r: Option<string>)
    ensures r.Some? ==> |r.value| < |clean|
  {
    if ':' in clean || '-' in clean then
      var parts := SplitFirstWord(ReplaceChar(ReplaceChar(clean, ':', ' '), '-', ' '));
      if |parts| > 1 && parts[1] != "" then Some(Strip(parts[1])) else None
    else None
  }

  /** What one line of the answer is to the parser. */
  datatype LineKind =
    | Header(section: Section, capture: Option<string>)
    | Content
    | Skip

  function Classify(line: string): LineKind
  {
    var clean := Clean(line);
    match HeaderOf(Upper(clean))
    case Some(s) => Header(s, Capture(clean))
    case None =>
      var stripped := Strip(line);
      if stripped != "" && stripped[0] != '#' then Content else Skip
  }

  // ---------------------------------------------------------------------------
  // Section buffers and the parser

  /** The four section buffers the parser appends to. */
  datatype Buffers = Buffers(subjective: string, objective: string, assessment: string, plan: string)
  {
    function Get(s: Section): string
    {
      match s
      case Subjective => subjective
      case Objective => objective
      case Assessment => assessment
      case Plan => plan
    }

    /** `sections[s] += t`: one buffer grows by `t`, the others stay. */
    function Add(s: Section, t: string): (b: Buffers)
      ensures b.Get(s) == Get(s) + t
      ensures forall s' :: s' != s ==> b.Get(s') == Get(s')
    {
      match s
      case Subjective => this.(subjective := subjective + t)
      case Objective => this.(objective := objective + t)
      case Assessment => this.(assessment := assessment + t)
      case Plan => this.(plan := plan + t)
    }
  }

  const Empty := Buffers("", "", "", "")

  datatype ParseState = ParseState(current: Option<Section>, buffers: Buffers)

  const Start := ParseState(None, Empty)

  /** One iteration of the parser's loop, for a line of kind `k`. */
  function Apply(st: ParseState, k: LineKind, line: string): ParseState
  {
    match k
    case Header(s, cap) =>
      ParseState(Some(s), if cap.Some? then st.buffers.Add(s, cap.value + "\n") else st.buffers)
    case Content =>
      if st.current.Some? then ParseState(st.current, st.buffers.Add(st.current.value, line + "\n")) else st
    case Skip => st
  }

  /** The kinds of the lines, in order. */
  function ClassifyAll(lines: seq<string>): (r: seq<LineKind>)
    ensures |r| == |lines|
  {
    MapSeq(Classify, lines)
  }

  /** The parser's loop from state `st` over lines of the given kinds, as a left fold. */
  function Run(st: ParseState, kinds: seq<LineKind>, lines: seq<string>): ParseState
    requires |kinds| == |lines|
  {
    if lines == [] then st
    else
      var n := |lines| - 1;
      Apply(Run(st, kinds[..n], lines[..n]), kinds[n], lines[n])
  }

  /** The state after parsing the lines. */
  function Parse(lines: seq<string>): ParseState
  {
    Run(Start, ClassifyAll(lines), lines)
  }

  /** The unstripped section buffers after parsing the whole answer. */
  function Sections(text: string): Buffers
  {
    Parse(Split(text, '\n')).buffers
  }

  lemma RunNext(st: ParseState, kinds: seq<LineKind>, lines: seq<string>, i: nat)
    requires |kinds| == |lines| && i < |lines|
    ensures Run(st, kinds[..i + 1], lines[..i + 1]) == Apply(Run(st, kinds[..i], lines[..i]), kinds[i], lines[i])
  {
    assert kinds[..i + 1][..i] == kinds[..i];
    assert lines[..i + 1][..i] == lines[..i];
  }

  /** The parser's loop over lines already classified. */
  method ParseLines(kinds: seq<LineKind>, lines: seq<string>) returns (current: Option<Section>, sections: Buffers)
    requires |kinds| == |lines|
    ensures ParseState(current, sections) == Run(Start, kinds, lines)
  {
    current := None;
    sections := Empty;
    for i := 0 to |lines|
      invariant ParseState(current, sections) == Run(Start, kinds[..i], lines[..i])
    {
      var line := lines[i];
      match kinds[i] {
        case Header(s, cap) =>
          current := Some(s);
          if cap.Some? {
            sections := sections.Add(s, cap.value + "\n");
          }
        case Content =>
          if current.Some? {
            sections := sections.Add(current.value, line + "\n");
          }
        case Skip =>
      }
      RunNext(Start, kinds, lines, i);
    }
    assert kinds[..|lines|] == kinds && lines[..|lines|] == lines;
  }

  /** Split the answer into lines, classify each and run the loop. */
  method ParseSections(soapText: string) returns (sections: Buffers)
    ensures sections == Sections(soapText)
  {
    var lines := Split(soapText, '\n');
    var _, s := ParseLines(ClassifyAll(lines), lines);
    sections := s;
  }

  // ---------------------------------------------------------------------------
  // Properties of the parser

  /**
    A header line switches to its section and adds exactly its capture and a
    newline, which is shorter than the line: the header line itself is never
    added as content.
   */
  lemma HeaderLineNotAppended(st: ParseState, line: string)
    requires HeaderOf(Upper(Clean(line))).Some?
    ensures var s := HeaderOf(Upper(Clean(line))).value;
      var cap := Capture(Clean(line));
      var st' := Apply(st, Classify(line), line);
      && st'.current == Some(s)
      && (forall s' :: s' != s ==> st'.buffers.Get(s') == st.buffers.Get(s'))
      && st'.buffers.Get(s) == st.buffers.Get(s) + (if cap.Some? then cap.value + "\n" else "")
      && |st'.buffers.Get(s)| <= |st.buffers.Get(s)| + |line|
  {
    var s := HeaderOf(Upper(Clean(line))).value;
    var cap := Capture(Clean(line));
    assert Classify(line) == Header(s, cap);
    assert cap.Some? ==> |cap.value| < |line|;
    ApplyHeader(st, s, cap, line);
  }

  /** A header switches to its section and appends its capture, if any, with a newline. */
  lemma ApplyHeader(st: ParseState, s: Section, cap: Option<string>, line: string)
    ensures var st' := Apply(st, Header(s, cap), line);
      && st'.current == Some(s)
      && (forall s' :: s' != s ==> st'.buffers.Get(s') == st.buffers.Get(s'))
      && st'.buffers.Get(s) == st.buffers.Get(s) + (if cap.Some? then cap.value + "\n" else "")
  {
  }

  /** A label: a non-empty word without whitespace, `:` or `-`. */
  predicate IsLabel(w: string)
  {
    w != [] && forall i :: 0 <= i < |w| ==> !IsSpace(w[i]) && w[i] != ':' && w[i] != '-'
  }

  /** A separator between label and text: whitespace, `:` and `-`, with at least one `:` or `-`. */
  predicate IsSeparator(g: string)
  {
    (':' in g || '-' in g) && forall i :: 0 <= i < |g| ==> IsSpace(g[i]) || g[i] == ':' || g[i] == '-'
  }

  /** Text after a separator: non-empty, stripped, without `:` or `-` (which the capture would blank out). */
  predicate IsPlainText(t: string)
  {
    t != [] && !IsSpace(t[0]) && !IsSpace(t[|t| - 1]) && ':' !in t && '-' !in t
  }

  /** The first word of a label followed by whitespace is the label. */
  lemma {:induction false} WordOfLabel(w: string, g: string)
    requires forall i :: 0 <= i < |w| ==> w[i] !in Whitespace
    requires g != [] && g[0] in Whitespace
    ensures WordOf(w + g, Whitespace) == w
    decreases |w|
  {
    if w == [] {
      assert w + g == g;
    } else {
      assert (w + g)[1..] == w[1..] + g;
      WordOfLabel(w[1..], g);
    }
  }

  /** Blanking `:` and `-` keeps the label and the text and turns the separator into whitespace. */
  lemma BlankSeparator(w: string, g: string, t: string) returns (g': string)
    requires IsLabel(w) && IsSeparator(g) && IsPlainText(t)
    ensures g' != [] && forall i :: 0 <= i < |g'| ==> g'[i] in Whitespace
    ensures ReplaceChar(ReplaceChar(w + g + t, ':', ' '), '-', ' ') == w + g' + t
  {
    g' := ReplaceChar(ReplaceChar(g, ':', ' '), '-', ' ');
    assert IsSpace(' ');
    assert forall i :: 0 <= i < |g'| ==> g'[i] in Whitespace;
    assert ReplaceChar(ReplaceChar(w + g + t, ':', ' '), '-', ' ') == w + g' + t;
  }

  /** Splitting `label`, whitespace, `text` once on whitespace gives the label and the text. */
  lemma SplitLabel(w: string, g': string, t: string)
    requires IsLabel(w) && IsPlainText(t)
    requires g' != [] && forall i :: 0 <= i < |g'| ==> g'[i] in Whitespace
    ensures SplitFirstWord(w + g' + t) == [w, t]
  {
    var blank := w + g' + t;
    assert w[0] !in Whitespace;
    assert blank == w + (g' + t);
    LStripSetStops(w, g' + t, Whitespace);
    assert forall i :: 0 <= i < |w| ==> w[i] !in Whitespace;
    WordOfLabel(w, g' + t);
    assert blank[|w|..] == g' + t;
    assert t[0] !in Whitespace;
    LStripSetBehind(g', t, Whitespace);
  }

  /** A label, a separator and a text together hold a `:` or a `-`. */
  lemma SeparatorMarked(w: string, g: string, t: string)
    requires IsSeparator(g)
    ensures ':' in w + g + t || '-' in w + g + t
  {
    var k :| 0 <= k < |g| && (g[k] == ':' || g[k] == '-');
    assert (w + g + t)[|w| + k] == g[k];
  }

  /** The capture, given its ingredients. */
  lemma CaptureSteps(clean: string, w: string, t: string)
    requires ':' in clean || '-' in clean
    requires SplitFirstWord(ReplaceChar(ReplaceChar(clean, ':', ' '), '-', ' ')) == [w, t]
    requires t != "" && Strip(t) == t
    ensures Capture(clean) == Some(t)
  {
  }

  /** A header line `label: text` or `label - text` captures the text. */
  lemma CaptureAfterLabel(w: string, g: string, t: string)
    requires IsLabel(w) && IsSeparator(g) && IsPlainText(t)
    ensures Capture(w + g + t) == Some(t)
  {
    SeparatorMarked(w, g, t);
    var g' := BlankSeparator(w, g, t);
    SplitLabel(w, g', t);
    assert IsStrippedOf(t, Whitespace);
    StripSetOfStripped(t, Whitespace);
    CaptureSteps(w + g + t, w, t);
  }

  /** So a header line whose cleaned form is `label: text` or `label - text` adds the text and a newline. */
  lemma HeaderAddsText(st: ParseState, line: string, w: string, g: string, t: string)
    requires HeaderOf(Upper(Clean(line))).Some?
    requires Clean(line) == w + g + t && IsLabel(w) && IsSeparator(g) && IsPlainText(t)
    ensures var s := HeaderOf(Upper(Clean(line))).value;
      Apply(st, Classify(line), line).buffers.Get(s) == st.buffers.Get(s) + t + "\n"
  {
    CaptureAfterLabel(w, g, t);
    HeaderLineNotAppended(st, line);
  }

  /** A one-line answer that is a header. */
  lemma ParseOneHeader(line: string, s: Section, cap: Option<string>)
    requires HeaderOf(Upper(Clean(line))) == Some(s) && Capture(Clean(line)) == cap
    ensures Parse([line]) == ParseState(Some(s), if cap.Some? then Empty.Add(s, cap.value + "\n") else Empty)
  {
    ClassifyHeader(line, s, cap);
    MapSeqOne(Classify, line, Header(s, cap));
    RunOneHeader(line, s, cap);
  }

  lemma RunOneHeader(line: string, s: Section, cap: Option<string>)
    ensures Run(Start, [Header(s, cap)], [line]) == ParseState(Some(s), if cap.Some? then Empty.Add(s, cap.value + "\n") else Empty)
  {
    assert [line][..0] == [];
    assert [Header(s, cap)][..0] == [];
  }

  /** Blank lines and lines starting with `#` that are no header are skipped. */
  lemma SkippedLine(line: string)
    requires HeaderOf(Upper(Clean(line))).None?
    requires Strip(line) == "" || Strip(line)[0] == '#'
    ensures Classify(line) == Skip
  {
  }

  /** Any other line is content. */
  lemma ContentLine(line: string)
    requires HeaderOf(Upper(Clean(line))).None?
    requires Strip(line) != "" && Strip(line)[0] != '#'
    ensures Classify(line) == Content
  {
  }

  /** Running over two pieces runs over the first, then the second. */
  lemma {:induction false} RunAppend(st: ParseState, ka: seq<LineKind>, a: seq<string>, kb: seq<LineKind>, b: seq<string>)
    requires |ka| == |a| && |kb| == |b|
    ensures Run(st, ka + kb, a + b) == Run(Run(st, ka, a), kb, b)
    decreases |b|
  {
    if b == [] {
      assert ka + kb == ka && a + b == a;
    } else {
      var n := |b| - 1;
      assert (ka + kb)[..|ka + kb| - 1] == ka + kb[..n];
      assert (a + b)[..|a + b| - 1] == a + b[..n];
      RunAppend(st, ka, a, kb[..n], b[..n]);
    }
  }

  /** Lines that are no header leave the parser in its start state. */
  lemma {:induction false} RunWithoutHeader(kinds: seq<LineKind>, lines: seq<string>)
    requires |kinds| == |lines|
    requires forall i :: 0 <= i < |kinds| ==> !kinds[i].Header?
    ensures Run(Start, kinds, lines) == Start
    decreases |lines|
  {
    if lines != [] {
      var n := |lines| - 1;
      RunWithoutHeader(kinds[..n], lines[..n]);
    }
  }

  /** Whatever precedes the first header is discarded. */
  lemma BeforeFirstHeader(pre: seq<string>, rest: seq<string>)
    requires forall i :: 0 <= i < |pre| ==> !Classify(pre[i]).Header?
    ensures Parse(pre + rest) == Parse(rest)
  {
    var ka, kb := ClassifyAll(pre), ClassifyAll(rest);
    MapSeqAppend(Classify, pre, rest);
    assert ClassifyAll(pre + rest) == ka + kb;
    assert forall i :: 0 <= i < |ka| ==> !ka[i].Header?;
    RunWithoutHeader(ka, pre);
    RunAppend(Start, ka, pre, kb, rest);
  }

  /** Buffers only grow: each buffer of a state is a prefix of the same buffer later. */
  lemma {:induction false} RunExtends(st: ParseState, kinds: seq<LineKind>, lines: seq<string>, s: Section)
    requires |kinds| == |lines|
    ensures st.buffers.Get(s) <= Run(st, kinds, lines).buffers.Get(s)
    decreases |lines|
  {
    if lines != [] {
      var n := |lines| - 1;
      var prev := Run(st, kinds[..n], lines[..n]);
      RunExtends(st, kinds[..n], lines[..n], s);
      assert prev.buffers.Get(s) <= Apply(prev, kinds[n], lines[n]).buffers.Get(s);
    }
  }

  /** What the first lines put in a section stays at the front of that section. */
  lemma ParseExtends(lines: seq<string>, i: nat, s: Section)
    requires i <= |lines|
    ensures Parse(lines[..i]).buffers.Get(s) <= Parse(lines).buffers.Get(s)
  {
    var kinds := ClassifyAll(lines);
    assert lines == lines[..i] + lines[i..];
    assert kinds == kinds[..i] + kinds[i..];
    MapSeqAppend(Classify, lines[..i], lines[i..]);
    RunAppend(Start, kinds[..i], lines[..i], kinds[i..], lines[i..]);
    RunExtends(Parse(lines[..i]), kinds[i..], lines[i..], s);
  }

  /** Each line followed by a newline, concatenated. */
  function Appended(lines: seq<string>): (r: string)
    ensures |r| >= |lines|
  {
    if lines == [] then "" else Appended(lines[..|lines| - 1]) + lines[|lines| - 1] + "\n"
  }

  lemma AddTwice(b: Buffers, s: Section, x: string, y: string)
    ensures b.Add(s, x).Add(s, y) == b.Add(s, x + y)
  {
    match s
    case Subjective => assert b.subjective + x + y == b.subjective + (x + y);
    case Objective => assert b.objective + x + y == b.objective + (x + y);
    case Assessment => assert b.assessment + x + y == b.assessment + (x + y);
    case Plan => assert b.plan + x + y == b.plan + (x + y);
  }

  lemma AddNothing(b: Buffers, s: Section)
    ensures b.Add(s, "") == b
  {
    match s
    case Subjective => assert b.subjective + "" == b.subjective;
    case Objective => assert b.objective + "" == b.objective;
    case Assessment => assert b.assessment + "" == b.assessment;
    case Plan => assert b.plan + "" == b.plan;
  }

  /** Inside a section, content lines are appended verbatim, each followed by a newline, in order. */
  lemma {:induction false} ContentAppended(st: ParseState, kinds: seq<LineKind>, body: seq<string>)
    requires st.current.Some? && |kinds| == |body|
    requires forall i :: 0 <= i < |kinds| ==> kinds[i] == Content
    ensures Run(st, kinds, body) == ParseState(st.current, st.buffers.Add(st.current.value, Appended(body)))
    decreases |body|
  {
    if body == [] {
      AddNothing(st.buffers, st.current.value);
    } else {
      var n := |body| - 1;
      ContentAppended(st, kinds[..n], body[..n]);
      AddTwice(st.buffers, st.current.value, Appended(body[..n]), body[n] + "\n");
      assert Appended(body[..n]) + (body[n] + "\n") == Appended(body);
    }
  }

  predicate Capitals(k: string)
  {
    k != [] && forall i :: 0 <= i < |k| ==> 'A' <= k[i] <= 'Z'
  }

  /** A word of capital letters is left as it is by the cleaning. */
  lemma CapitalClean(k: string)
    requires Capitals(k)
    ensures Clean(k) == k
  {
    assert IsStrippedOf(k, Whitespace) by {
      assert !IsSpace(k[0]) && !IsSpace(k[|k| - 1]);
    }
    StripSetOfStripped(k, Whitespace);
    assert k[0] != '#' && k[0] != '*' && k[|k| - 1] != '*';
    assert IsStrippedOf(k, {'#'});
    StripSetOfStripped(k, {'#'});
    assert IsStrippedOf(k, {'*'});
    StripSetOfStripped(k, {'*'});
  }

  /** ... is its own upper-cased form ... */
  lemma CapitalUpper(k: string)
    requires Capitals(k)
    ensures Upper(k) == k
  {
    assert forall i :: 0 <= i < |k| ==> UpperChar(k[i]) == k[i];
  }

  /** ... and, as a header, captures nothing. */
  lemma CapitalCapture(k: string)
    requires Capitals(k)
    ensures Capture(k) == None
  {
    assert ':' !in k && '-' !in k;
  }

  /** A line that does not start with a section's letter nor names it is no header of that section. */
  lemma NotHeaderFor(u: string, s: Section)
    requires u != [] && u[0] != Letter(s) && !Contains(u, Keyword(s))
    ensures !IsHeaderFor(u, s)
  {
  }

  lemma HeaderOfSubjective()
    ensures HeaderOf("SUBJECTIVE") == Some(Subjective)
  {
    ContainsAt("SUBJECTIVE", "SUBJECTIVE", 0);
  }

  lemma HeaderOfObjective()
    ensures HeaderOf("OBJECTIVE") == Some(Objective)
  {
    ContainsAt("OBJECTIVE", "OBJECTIVE", 0);
    ContainsNotLonger("OBJECTIVE", "SUBJECTIVE");
    NotHeaderFor("OBJECTIVE", Subjective);
  }

  lemma HeaderOfAssessment()
    ensures HeaderOf("ASSESSMENT") == Some(Assessment)
  {
    ContainsAt("ASSESSMENT", "ASSESSMENT", 0);
    ContainsSameLength("ASSESSMENT", "SUBJECTIVE");
    assert "ASSESSMENT"[1..] == "SSESSMENT";
    ContainsSameLength("SSESSMENT", "OBJECTIVE");
    assert "ASSESSMENT"[0] != "OBJECTIVE"[0];
    NotHeaderFor("ASSESSMENT", Subjective);
    NotHeaderFor("ASSESSMENT", Objective);
  }

  lemma HeaderOfPlan()
    ensures HeaderOf("PLAN") == Some(Plan)
  {
    ContainsAt("PLAN", "PLAN", 0);
    ContainsNotLonger("PLAN", "SUBJECTIVE");
    ContainsNotLonger("PLAN", "OBJECTIVE");
    ContainsNotLonger("PLAN", "ASSESSMENT");
    NotHeaderFor("PLAN", Subjective);
    NotHeaderFor("PLAN", Objective);
    NotHeaderFor("PLAN", Assessment);
  }

  /** Each section keyword passes its own header test and no earlier one. */
  lemma HeaderOfKeyword(s: Section)
    ensures HeaderOf(Keyword(s)) == Some(s)
  {
    match s
    case Subjective => HeaderOfSubjective();
    case Objective => HeaderOfObjective();
    case Assessment => HeaderOfAssessment();
    case Plan => HeaderOfPlan();
  }

  lemma KeywordCapitals(s: Section)
    ensures Capitals(Keyword(s))
  {
    match s
    case Subjective => case Objective => case Assessment => case Plan =>
  }

  lemma ClassifyHeader(line: string, s: Section, cap: Option<string>)
    requires HeaderOf(Upper(Clean(line))) == Some(s) && Capture(Clean(line)) == cap
    ensures Classify(line) == Header(s, cap)
  {
  }

  /** A bare section keyword is a header of that section with nothing to capture. */
  lemma KeywordIsHeader(s: Section)
    ensures Classify(Keyword(s)) == Header(s, None)
  {
    var k := Keyword(s);
    KeywordCapitals(s);
    CapitalClean(k);
    CapitalUpper(k);
    CapitalCapture(k);
    HeaderOfKeyword(s);
    ClassifyHeader(k, s, None);
  }

  /** A header with nothing to capture followed by content lines puts those lines in its section. */
  lemma HeaderThenContent(s: Section, k: string, kinds: seq<LineKind>, body: seq<string>)
    requires |kinds| == |body|
    requires forall i :: 0 <= i < |kinds| ==> kinds[i] == Content
    ensures Run(Start, [Header(s, None)] + kinds, [k] + body) == ParseState(Some(s), Empty.Add(s, Appended(body)))
  {
    RunAppend(Start, [Header(s, None)], [k], kinds, body);
    assert Run(Start, [Header(s, None)], [k]) == ParseState(Some(s), Empty);
    ContentAppended(ParseState(Some(s), Empty), kinds, body);
  }

  lemma ContentKinds(body: seq<string>)
    requires forall i :: 0 <= i < |body| ==> Classify(body[i]) == Content
    ensures forall i :: 0 <= i < |body| ==> ClassifyAll(body)[i] == Content
  {
  }

  lemma ParseKeywordThenContent(s: Section, body: seq<string>)
    requires forall i :: 0 <= i < |body| ==> Classify(body[i]) == Content
    ensures Parse([Keyword(s)] + body) == ParseState(Some(s), Empty.Add(s, Appended(body)))
  {
    var kinds := ClassifyAll(body);
    ContentKinds(body);
    KeywordIsHeader(s);
    MapSeqOne(Classify, Keyword(s), Header(s, None));
    MapSeqAppend(Classify, [Keyword(s)], body);
    var all := ClassifyAll([Keyword(s)] + body);
    assert all == [Header(s, None)] + kinds;
    HeaderThenContent(s, Keyword(s), kinds, body);
  }

  lemma KeywordLines(s: Section, body: seq<string>)
    requires forall i :: 0 <= i < |body| ==> '\n' !in body[i]
    ensures forall i :: 0 <= i < |[Keyword(s)] + body| ==> '\n' !in ([Keyword(s)] + body)[i]
  {
    assert '\n' !in Keyword(s) by {
      match s
      case Subjective => case Objective => case Assessment => case Plan =>
    }
  }

  /**
    Render then parse: a section keyword on its own line followed by content
    lines yields exactly those lines, each with a newline, in that section, and
    leaves the other sections empty.
   */
  lemma SectionRoundTrip(s: Section, body: seq<string>)
    requires forall i :: 0 <= i < |body| ==> '\n' !in body[i]
    requires forall i :: 0 <= i < |body| ==> Classify(body[i]) == Content
    ensures Sections(Join([Keyword(s)] + body, "\n")) == Empty.Add(s, Appended(body))
  {
    var lines := [Keyword(s)] + body;
    KeywordLines(s, body);
    SplitJoin(lines, '\n');
    ParseKeywordThenContent(s, body);
  }

  // ---------------------------------------------------------------------------
  // Chief complaint

  /** A line that names the chief complaint, in any letter case. */
  predicate MentionsComplaint(line: string)
  {
    Contains(Lower(line), "chief complaint") || Contains(Lower(line), "cc:")
  }

  /** What the first complaint line says after its first colon, stripped; nothing without one. */
  function FirstComplaint(lines: seq<string>): (r: Option<string>)
    ensures r.None? <==> forall i :: 0 <= i < |lines| ==> !MentionsComplaint(lines[i])
  {
    if lines == [] then None
    else if MentionsComplaint(lines[0]) then Some(Strip(AfterFirst(lines[0], ':')))
    else
      assert forall i :: 1 <= i < |lines| ==> lines[i] == lines[1..][i - 1];
      FirstComplaint(lines[1..])
  }

  /** The chief complaint: the first complaint line's text, otherwise the first line, stripped. */
  function ChiefComplaint(subjective: string): string
  {
    var lines := Split(subjective, '\n');
    match FirstComplaint(lines)
    case Some(c) => c
    case None => Strip(lines[0])
  }

  lemma {:induction false} FirstComplaintIs(lines: seq<string>, i: nat)
    requires i < |lines| && MentionsComplaint(lines[i])
    requires forall j :: 0 <= j < i ==> !MentionsComplaint(lines[j])
    ensures FirstComplaint(lines) == Some(Strip(AfterFirst(lines[i], ':')))
    decreases i
  {
    if i > 0 {
      assert lines[1..][i - 1] == lines[i];
      assert forall j :: 0 <= j < i - 1 ==> lines[1..][j] == lines[j + 1];
      FirstComplaintIs(lines[1..], i - 1);
    }
  }

  /**
    The chief complaint is taken from the first line that names it, after that
    line's first colon.
   */
  lemma ChiefComplaintFirstMatch(subjective: string, i: nat)
    requires i < |Split(subjective, '\n')|
    requires MentionsComplaint(Split(subjective, '\n')[i])
    requires forall j :: 0 <= j < i ==> !MentionsComplaint(Split(subjective, '\n')[j])
    ensures ChiefComplaint(subjective) == Strip(AfterFirst(Split(subjective, '\n')[i], ':'))
  {
    FirstComplaintIs(Split(subjective, '\n'), i);
  }

  /** When no line names the chief complaint, it is the first line, stripped. */
  lemma ChiefComplaintFallback(subjective: string)
    requires forall i :: 0 <= i < |Split(subjective, '\n')| ==> !MentionsComplaint(Split(subjective, '\n')[i])
    ensures ChiefComplaint(subjective) == Strip(Split(subjective, '\n')[0])
  {
  }

  lemma ComplaintLabel(c: string)
    ensures MentionsComplaint("Chief complaint: " + c)
  {
    var line := "Chief complaint: " + c;
    assert Lower(line)[..15] == "chief complaint";
    ContainsAt(Lower(line), "chief complaint", 0);
  }

  lemma ComplaintText(c: string)
    requires IsStrippedOf(c, Whitespace)
    ensures Strip(AfterFirst("Chief complaint: " + c, ':')) == c
  {
    var name := "Chief complaint";
    assert "Chief complaint: " + c == name + [':'] + (" " + c);
    AfterFirstOfPrefix(name, " " + c, ':');
    StripSpaceBehind(c);
  }

  /** A subjective section opening with `Chief complaint: c` has chief complaint `c`. */
  lemma ChiefComplaintLabelled(c: string, rest: string)
    requires '\n' !in c && IsStrippedOf(c, Whitespace)
    ensures ChiefComplaint("Chief complaint: " + c + "\n" + rest) == c
  {
    var line := "Chief complaint: " + c;
    assert "Chief complaint: " + c + "\n" + rest == line + ['\n'] + rest;
    assert '\n' !in line;
    SplitFirst(line, rest, '\n');
    ComplaintLabel(c);
    ComplaintText(c);
    assert FirstComplaint([line] + Split(rest, '\n')) == Some(c);
  }

  // ---------------------------------------------------------------------------
  // Diagnoses

  /** The characters stripped from the front of a list item: digits, dots, dashes and bullets. */
  const ItemMarks: set<char> := {'0', '1', '2', '3', '4', '5', '6', '7', '8', '9', '.', '-', '\U{2022}'}

  /** A stripped line that starts a list item: `1.`, `2.`, `3.`, `-` or a bullet. */
  predicate IsListItem(l: string)
  {
    "1." <= l || "2." <= l || "3." <= l || "-" <= l || "\U{2022}" <= l
  }

  /** The diagnosis a line holds, when it is a list item with text after its marks. */
  function DiagnosisOf(line: string): (r: Option<string>)
    ensures r.Some? ==> r.value != "" && IsStrippedOf(r.value, Whitespace)
  {
    var l := Strip(line);
    if IsListItem(l) then
      var d := Strip(LStripSet(l, ItemMarks));
      StripSetShape(LStripSet(l, ItemMarks), Whitespace);
      if d != "" then Some(d) else None
    else None
  }

  /** The diagnoses of the lines, in order. */
  function Diagnoses(lines: seq<string>): (r: seq<string>)
    ensures |r| <= |lines|
  {
    Somes(MapSeq(DiagnosisOf, lines))
  }

  /** Every extracted diagnosis is non-empty, stripped, and the diagnosis of one of the lines. */
  lemma DiagnosesFromLines(lines: seq<string>, k: nat)
    requires k < |Diagnoses(lines)|
    ensures exists i :: 0 <= i < |lines| && DiagnosisOf(lines[i]) == Some(Diagnoses(lines)[k])
    ensures Diagnoses(lines)[k] != "" && IsStrippedOf(Diagnoses(lines)[k], Whitespace)
  {
    var xs := MapSeq(DiagnosisOf, lines);
    SomesFrom(xs, k);
    var i :| 0 <= i < |xs| && xs[i] == Some(Somes(xs)[k]);
    assert DiagnosisOf(lines[i]) == Some(Diagnoses(lines)[k]);
  }

  method ExtractDiagnoses(assessment: string) returns (diagnoses: seq<string>)
    ensures diagnoses == Diagnoses(Split(assessment, '\n'))
  {
    var lines := Split(assessment, '\n');
    diagnoses := [];
    for i := 0 to |lines|
      invariant diagnoses == Somes(MapSeq(DiagnosisOf, lines[..i]))
    {
      MapSeqSnoc(DiagnosisOf, lines, i);
      SomesSnoc(MapSeq(DiagnosisOf, lines[..i]), DiagnosisOf(lines[i]));
      var line := Strip(lines[i]);
      if IsListItem(line) {
        var diagnosis := Strip(LStripSet(line, ItemMarks));
        if diagnosis != "" {
          diagnoses := diagnoses + [diagnosis];
        }
      }
    }
    assert lines[..|lines|] == lines;
  }

  /** A diagnosis that survives being written as a dashed list item. */
  predicate Listable(d: string)
  {
    d != "" && '\n' !in d && IsStrippedOf(d, Whitespace) && d[0] !in ItemMarks
  }

  function Dashed(ds: seq<string>): (r: seq<string>)
    ensures |r| == |ds|
    ensures forall i :: 0 <= i < |ds| ==> r[i] == "- " + ds[i]
  {
    seq(|ds|, i requires 0 <= i < |ds| => "- " + ds[i])
  }

  lemma DashedStripped(d: string)
    requires Listable(d)
    ensures Strip("- " + d) == "- " + d
  {
    assert "- " + d == "-" + (" " + d);
    RStripSetStops("- ", d, Whitespace);
    LStripSetStops("-", " " + d, Whitespace);
  }

  lemma DashedMarks(d: string)
    requires Listable(d)
    ensures LStripSet("- " + d, ItemMarks) == " " + d
  {
    assert "- " + d == "-" + (" " + d);
    assert '-' in ItemMarks && ' ' !in ItemMarks;
    LStripSetBehind("-", " " + d, ItemMarks);
  }

  lemma DashedIsItem(d: string)
    ensures IsListItem("- " + d)
  {
    assert ("- " + d)[..1] == "-";
  }

  lemma DashedItem(d: string)
    requires Listable(d)
    ensures DiagnosisOf("- " + d) == Some(d)
  {
    var l := "- " + d;
    DashedStripped(d);
    DashedIsItem(d);
    DashedMarks(d);
    StripSpaceBehind(d);
    assert Strip(LStripSet(Strip(l), ItemMarks)) == d;
  }

  lemma DashedItems(ds: seq<string>)
    requires forall i :: 0 <= i < |ds| ==> Listable(ds[i])
    ensures forall i :: 0 <= i < |ds| ==> MapSeq(DiagnosisOf, Dashed(ds))[i] == Some(ds[i])
  {
    forall i | 0 <= i < |ds|
      ensures MapSeq(DiagnosisOf, Dashed(ds))[i] == Some(ds[i])
    {
      DashedItem(ds[i]);
    }
  }

  lemma DiagnosesOfDashed(ds: seq<string>)
    requires forall i :: 0 <= i < |ds| ==> Listable(ds[i])
    ensures Diagnoses(Dashed(ds)) == ds
  {
    DashedItems(ds);
    SomesAll(MapSeq(DiagnosisOf, Dashed(ds)), ds);
  }

  lemma NoDiagnosisInEmpty()
    ensures Diagnoses([""]) == []
  {
    assert DiagnosisOf("") == None;
    MapSeqOne(DiagnosisOf, "", None);
    SomesSnoc<string>([], None);
  }

  lemma DashedNoNewline(ds: seq<string>)
    requires forall i :: 0 <= i < |ds| ==> Listable(ds[i])
    ensures forall i :: 0 <= i < |Dashed(ds)| ==> '\n' !in Dashed(ds)[i]
  {
  }

  /** Writing diagnoses as a dashed list, one per line, and extracting them gives them back. */
  lemma DiagnosesRoundTrip(ds: seq<string>)
    requires forall i :: 0 <= i < |ds| ==> Listable(ds[i])
    ensures Diagnoses(Split(Join(Dashed(ds), "\n"), '\n')) == ds
  {
    if ds == [] {
      assert Split(Join([], "\n"), '\n') == [""];
      NoDiagnosisInEmpty();
    } else {
      DashedNoNewline(ds);
      SplitJoin(Dashed(ds), '\n');
      DiagnosesOfDashed(ds);
    }
  }

  // ---------------------------------------------------------------------------
  // Parsing the whole answer

  /** What the parser builds from an answer, for every field of the note except the ICD-10 codes. */
  function ParsedFields(soapText: string, sessionId: string, generatedAt: string): (f: NoteFields)
    ensures f.historyPresentIllness == None && f.reviewOfSystems == None && f.physicalExam == None
    ensures f.medicationsPrescribed == None && f.followUp == None
    ensures f.chiefComplaint.Some? && f.differentialDiagnoses.Some?
  {
    var b := Sections(soapText);
    var ds := Diagnoses(Split(b.assessment, '\n'));
    NoteFields(Strip(b.subjective), Strip(b.objective), Strip(b.assessment), Strip(b.plan),
               sessionId, generatedAt, Some(ChiefComplaint(b.subjective)), None, None, None,
               Some(if |ds| > 1 then ds[1..] else []), if ds != [] then Some(ds[0]) else None, None, None)
  }

  /** Parse the model's answer into a note; the timestamp is a parameter. */
  method ParseSoapResponse(soapText: string, sessionId: string, generatedAt: string) returns (note: SoapNote)
    ensures fresh(note)
    ensures note.Fields() == ParsedFields(soapText, sessionId, generatedAt)
    ensures note.icd10Codes == None
  {
    var sections := ParseSections(soapText);
    var chiefComplaint := ChiefComplaint(sections.subjective);
    var diagnoses := ExtractDiagnoses(sections.assessment);
    note := new SoapNote(
      Strip(sections.subjective), Strip(sections.objective), Strip(sections.assessment), Strip(sections.plan),
      sessionId, generatedAt, Some(chiefComplaint),
      if diagnoses != [] then Some(diagnoses[0]) else None,
      Some(if |diagnoses| > 1 then diagnoses[1..] else []));
  }

  // ---------------------------------------------------------------------------
  // ICD-10 codes and enrichment

  /** A disease detection as the note generator reads it. */
  datatype Detection = Detection(diseaseName: string, icd10Code: Option<string>)

  predicate HasCode(d: Detection)
  {
    d.icd10Code.Some? && d.icd10Code.value != ""
  }

  /** The detections' non-empty ICD-10 codes, in detection order. */
  function IcdCodes(detections: seq<Detection>): (r: seq<string>)
    ensures |r| <= |detections|
    ensures forall k :: 0 <= k < |r| ==> r[k] != ""
  {
    if detections == [] then []
    else
      var d := detections[|detections| - 1];
      IcdCodes(detections[..|detections| - 1]) + if HasCode(d) then [d.icd10Code.value] else []
  }

  /** The codes of a concatenation are the codes of the parts, in order. */
  lemma {:induction false} IcdCodesAppend(a: seq<Detection>, b: seq<Detection>)
    ensures IcdCodes(a + b) == IcdCodes(a) + IcdCodes(b)
    decreases |b|
  {
    if b == [] {
      assert a + b == a;
    } else {
      var n := |b| - 1;
      assert (a + b)[..|a + b| - 1] == a + b[..n];
      IcdCodesAppend(a, b[..n]);
    }
  }

  /** A code is listed exactly when some detection carries it. */
  lemma {:induction false} IcdCodesMembers(detections: seq<Detection>, c: string)
    ensures c in IcdCodes(detections) <==> exists i :: 0 <= i < |detections| && HasCode(detections[i]) && detections[i].icd10Code.value == c
    decreases |detections|
  {
    if detections != [] {
      var n := |detections| - 1;
      IcdCodesMembers(detections[..n], c);
      assert forall i :: 0 <= i < n ==> detections[..n][i] == detections[i];
    }
  }

  function DiseaseNames(detections: seq<Detection>): (r: seq<string>)
    ensures |r| == |detections|
    ensures forall i :: 0 <= i < |r| ==> r[i] == detections[i].diseaseName
  {
    seq(|detections|, i requires 0 <= i < |detections| => detections[i].diseaseName)
  }

  /** `detections[:5]`. */
  function FirstFive(detections: seq<Detection>): (r: seq<Detection>)
    ensures |r| <= 5 && r <= detections
    ensures |detections| >= 5 ==> |r| == 5
  {
    if |detections| <= 5 then detections else detections[..5]
  }

  /** Attach the codes of a non-empty detection list; fill an absent or empty differential from its first five names. */
  method EnrichSoapNote(soap: SoapNote, detections: seq<Detection>)
    modifies soap
    ensures detections == [] ==> soap.icd10Codes == old(soap.icd10Codes)
    ensures detections != [] ==> soap.icd10Codes == Some(IcdCodes(detections))
    ensures soap.differentialDiagnoses ==
      if detections != [] && old(soap.differentialDiagnoses) in {None, Some([])}
      then Some(DiseaseNames(FirstFive(detections)))
      else old(soap.differentialDiagnoses)
    ensures unchanged(soap`subjective, soap`objective, soap`assessment, soap`plan, soap`sessionId, soap`generatedAt)
    ensures unchanged(soap`chiefComplaint, soap`historyPresentIllness, soap`reviewOfSystems, soap`physicalExam)
    ensures unchanged(soap`primaryDiagnosis, soap`medicationsPrescribed, soap`followUp)
  {
    if detections != [] {
      soap.icd10Codes := Some(IcdCodes(detections));
      if soap.differentialDiagnoses == None || soap.differentialDiagnoses == Some([]) {
        soap.differentialDiagnoses := Some(DiseaseNames(FirstFive(detections)));
      }
    }
  }

  /** The note for an answer of the model: parsed, then given the detections' codes when there are detections. */
  method GenerateSoapNoteFromTranscript(soapContent: string, sessionId: string, generatedAt: string,
                                        detectedDiseases: seq<Detection>) returns (note: SoapNote)
    ensures fresh(note)
    ensures note.Fields() == ParsedFields(soapContent, sessionId, generatedAt)
    ensures note.icd10Codes == if detectedDiseases != [] then Some(IcdCodes(detectedDiseases)) else None
  {
    note := ParseSoapResponse(soapContent, sessionId, generatedAt);
    AttachCodes(note, detectedDiseases);
  }

  /** `if detected_diseases: soap.icd10_codes = [...]`, touching no other field. */
  method AttachCodes(note: SoapNote, detectedDiseases: seq<Detection>)
    modifies note`icd10Codes
    ensures note.icd10Codes == if detectedDiseases != [] then Some(IcdCodes(detectedDiseases)) else old(note.icd10Codes)
    ensures note.Fields() == old(note.Fields())
  {
    if detectedDiseases != [] {
      note.icd10Codes := Some(IcdCodes(detectedDiseases));
    }
  }

  // ---------------------------------------------------------------------------
  // Transcript formatting

  /** A transcript word as the formatter reads it: its speaker tag, when the key is present. */
  datatype TaggedWord = TaggedWord(speakerTag: Option<string>)

  datatype TranscriptSegment = TranscriptSegment(isFinal: bool, text: string, words: seq<TaggedWord>)

  /** `Speaker N` with `SPEAKER_` removed from the first word's tag, else `Speaker`. */
  function SpeakerLabel(words: seq<TaggedWord>): string
  {
    if words != [] && words[0].speakerTag.Some? then "Speaker " + Replace(words[0].speakerTag.value, "SPEAKER_", "")
    else "Speaker"
  }

  function LineOf(segment: TranscriptSegment): string
  {
    SpeakerLabel(segment.words) + ": " + segment.text
  }

  /** One line per final segment, in order. */
  function FormattedLines(segments: seq<TranscriptSegment>): (r: seq<string>)
    ensures |r| <= |segments|
  {
    if segments == [] then []
    else
      var s := segments[|segments| - 1];
      FormattedLines(segments[..|segments| - 1]) + if s.isFinal then [LineOf(s)] else []
  }

  method FormatTranscript(segments: seq<TranscriptSegment>) returns (r: string)
    ensures r == Join(FormattedLines(segments), "\n")
  {
    var formattedLines := [];
    for i := 0 to |segments|
      invariant formattedLines == FormattedLines(segments[..i])
    {
      assert segments[..i + 1][..i] == segments[..i];
      var segment := segments[i];
      if segment.isFinal {
        var speaker := SpeakerLabel(segment.words);
        formattedLines := formattedLines + [speaker + ": " + segment.text];
      }
    }
    assert segments[..|segments|] == segments;
    r := Join(formattedLines, "\n");
  }

  /** The lines of a concatenation are the lines of the parts, in order. */
  lemma {:induction false} FormattedLinesAppend(a: seq<TranscriptSegment>, b: seq<TranscriptSegment>)
    ensures FormattedLines(a + b) == FormattedLines(a) + FormattedLines(b)
    decreases |b|
  {
    if b == [] {
      assert a + b == a;
    } else {
      var n := |b| - 1;
      assert (a + b)[..|a + b| - 1] == a + b[..n];
      FormattedLinesAppend(a, b[..n]);
    }
  }

  /** A tag `SPEAKER_n` is shown as `Speaker n`. */
  lemma SpeakerLabelOfTag(n: string, rest: seq<TaggedWord>)
    requires !Contains(n, "SPEAKER_")
    ensures SpeakerLabel([TaggedWord(Some("SPEAKER_" + n))] + rest) == "Speaker " + n
  {
    var tag := "SPEAKER_" + n;
    assert "SPEAKER_" <= tag;
    assert tag[|"SPEAKER_"|..] == n;
    ReplaceAbsent(n, "SPEAKER_", "");
  }

  predicate NewlineFree(segment: TranscriptSegment)
  {
    '\n' !in segment.text && forall i :: 0 <= i < |segment.words| ==> segment.words[i].speakerTag.Some? ==> '\n' !in segment.words[i].speakerTag.value
  }

  lemma {:induction false} FormattedLinesNewlineFree(segments: seq<TranscriptSegment>)
    requires forall i :: 0 <= i < |segments| ==> NewlineFree(segments[i])
    ensures forall k :: 0 <= k < |FormattedLines(segments)| ==> '\n' !in FormattedLines(segments)[k]
    decreases |segments|
  {
    if segments != [] {
      var n := |segments| - 1;
      var s := segments[n];
      FormattedLinesNewlineFree(segments[..n]);
      if s.words != [] && s.words[0].speakerTag.Some? {
        ReplaceKeepsOut(s.words[0].speakerTag.value, "SPEAKER_", "", '\n');
      }
      assert '\n' !in LineOf(s);
    }
  }

  /** Without newlines inside texts and tags, the formatted transcript splits back into one line per final segment. */
  lemma FormatTranscriptLines(segments: seq<TranscriptSegment>)
    requires forall i :: 0 <= i < |segments| ==> NewlineFree(segments[i])
    requires FormattedLines(segments) != []
    ensures Split(Join(FormattedLines(segments), "\n"), '\n') == FormattedLines(segments)
  {
    FormattedLinesNewlineFree(segments);
    SplitJoin(FormattedLines(segments), '\n');
  }
}
