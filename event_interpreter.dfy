/** The event-script decompiler and compiler. A cursor scans a page's flat
    record list; a SHOW_TEXT record and its run of ADD_TEXT records fold into
    one `EventText`, choice and annotated comment records are wrapped, and
    every other record passes through. `Compile` expands the semantic events
    back into records.

    The behaviour is specified by value-level functions (`Decompiled`,
    `Compiled`) over `SemValue`, the value each semantic object holds; the
    imperative interpreter is proved to build objects whose values are
    exactly those. */
module EventInterpreter {
  import opened Common
  import opened EventBase
  import opened EventCommon
  import opened ActiveMessage

  /** The characters that open a quoted line in the speaker heuristic:
      「 " ( （ * [. */
  const OPEN_BRACE: set<char> := {'\U{300C}', '"', '(', '\U{FF08}', '*', '['}

  /** The value of a semantic event. */
  datatype SemValue =
    | VText(block: TextBlock)
    | VChoice(choice: Record)
    | VActive(active: Record)
    | VRecord(record: Record)

  /** A semantic event as the interpreter returns it: an object for the three
      wrapped kinds, the record itself otherwise. */
  datatype Sem =
    | SText(text: EventText)
    | SChoice(menu: EventChoice)
    | SActive(message: ActiveMessage)
    | SRecord(record: Record)

  function ObjOf(s: Sem): set<object> {
    match s
    case SText(t) => {t}
    case SChoice(c) => {c}
    case SActive(a) => {a}
    case SRecord(_) => {}
  }

  function ModelOf(s: Sem): SemValue
    reads ObjOf(s)
  {
    match s
    case SText(t) => VText(t.Model())
    case SChoice(c) => VChoice(c.Model())
    case SActive(a) => VActive(a.Model())
    case SRecord(r) => VRecord(r)
  }

  ghost function Footprint(ss: seq<Sem>): set<object> {
    set i, o | 0 <= i < |ss| && o in ObjOf(ss[i]) :: o
  }

  ghost function Models(ss: seq<Sem>): (r: seq<SemValue>)
    reads Footprint(ss)
    ensures |r| == |ss|
    ensures forall i :: 0 <= i < |ss| ==> r[i] == ModelOf(ss[i])
  {
    seq(|ss|, i requires 0 <= i < |ss| reads Footprint(ss) => ModelOf(ss[i]))
  }

  /** The values of the events depend on their objects alone. */
  twostate lemma ModelsUnchanged(ss: seq<Sem>)
    requires unchanged(Footprint(ss))
    ensures Models(ss) == old(Models(ss))
  {
  }

  /** No object is shared between two semantic events. */
  ghost predicate Distinct(ss: seq<Sem>) {
    forall i, j :: 0 <= i < |ss| && 0 <= j < |ss| && i != j ==> ObjOf(ss[i]) !! ObjOf(ss[j])
  }

  lemma ModelsSnoc(ss: seq<Sem>, s: Sem)
    ensures Models(ss + [s]) == Models(ss) + [ModelOf(s)]
  {
    assert forall k :: 0 <= k < |ss| ==> (ss + [s])[k] == ss[k];
  }

  lemma FootprintSnoc(ss: seq<Sem>, s: Sem)
    ensures Footprint(ss + [s]) == Footprint(ss) + ObjOf(s)
  {
    var t := ss + [s];
    assert forall k :: 0 <= k < |ss| ==> t[k] == ss[k];
    assert t[|ss|] == s;
  }

  /** An event whose objects are new to the list keeps the list distinct. */
  lemma DistinctFresh(ss: seq<Sem>, s: Sem, made: set<object>)
    requires Distinct(ss) && Footprint(ss) <= made && made !! ObjOf(s)
    ensures Distinct(ss + [s])
  {
    forall k | 0 <= k < |ss| ensures ObjOf(ss[k]) !! ObjOf(s) {
      assert ObjOf(ss[k]) <= Footprint(ss);
    }
    DistinctSnoc(ss, s);
  }

  lemma DistinctSnoc(ss: seq<Sem>, s: Sem)
    requires Distinct(ss) && forall k :: 0 <= k < |ss| ==> ObjOf(ss[k]) !! ObjOf(s)
    ensures Distinct(ss + [s])
  {
    var t := ss + [s];
    forall i, j | 0 <= i < |t| && 0 <= j < |t| && i != j ensures ObjOf(t[i]) !! ObjOf(t[j]) {
      if i < |ss| && j < |ss| {
        assert t[i] == ss[i] && t[j] == ss[j];
      }
    }
  }

  // ---------------------------------------------------------------------
  // The speaker heuristic

  /** `s` starts with an opening brace once leading whitespace is skipped. */
  ghost predicate OpensWithBrace(s: string) {
    exists k :: 0 <= k < |s| && s[k] in OPEN_BRACE && forall i :: 0 <= i < k ==> IsSpace(s[i])
  }

  lemma OpensWithBraceStrip(s: string)
    ensures OpensWithBrace(s) <==> (Strip(s) != [] && Strip(s)[0] in OPEN_BRACE)
  {
    StripFirst(s);
    if OpensWithBrace(s) {
      var k :| 0 <= k < |s| && s[k] in OPEN_BRACE && forall i :: 0 <= i < k ==> IsSpace(s[i]);
      BraceNotSpace(s[k]);
      assert Strip(s) != [];
      var k' :| 0 <= k' < |s| && Strip(s)[0] == s[k'] && !IsSpace(s[k'])
                && forall i :: 0 <= i < k' ==> IsSpace(s[i]);
      assert k' == k;
    } else if Strip(s) != [] {
      var k' :| 0 <= k' < |s| && Strip(s)[0] == s[k'] && !IsSpace(s[k'])
                && forall i :: 0 <= i < k' ==> IsSpace(s[i]);
      assert s[k'] !in OPEN_BRACE;
    }
  }

  lemma BraceNotSpace(c: char)
    requires c in OPEN_BRACE
    ensures !IsSpace(c)
  {
  }

  /** `is_speaker`: the candidate line itself when it is at most 40
      characters long and the next line opens with a brace after leading
      whitespace; the empty string otherwise. */
  function IsSpeaker(text: string, next: Record): (r: string)
    requires next.parameters != [] && next.parameters[0].JStr?
    ensures r == "" || r == text
    ensures r != "" ==> |text| <= 40 && Strip(next.parameters[0].s) != []
  {
    if |text| > 40 then ""
    else
      var nxt := Strip(next.parameters[0].s);
      if nxt != [] && Strip(nxt)[0] in OPEN_BRACE then text else ""
  }

  /** The heuristic in terms of the raw next line: stripping it twice is
      stripping it once, so the test is whether it opens with a brace. */
  lemma IsSpeakerSpec(text: string, next: Record)
    requires next.parameters != [] && next.parameters[0].JStr?
    ensures IsSpeaker(text, next) == (if |text| <= 40 && OpensWithBrace(next.parameters[0].s) then text else "")
  {
    OpensWithBraceStrip(next.parameters[0].s);
    StripIdempotent(next.parameters[0].s);
  }

  // ---------------------------------------------------------------------
  // Decompiling, as a function of the record list

  /** An ADD_TEXT record whose first parameter is its line. */
  predicate IsLine(r: Record) {
    r.code == ADD_TEXT && r.parameters != [] && r.parameters[0].JStr?
  }

  /** The end of the run of ADD_TEXT records that starts at `i`. */
  function RunEnd(e: seq<Record>, i: nat): (r: nat)
    requires i <= |e|
    ensures i <= r <= |e|
    ensures forall k :: i <= k < r ==> e[k].code == ADD_TEXT
    ensures r < |e| ==> e[r].code != ADD_TEXT
    decreases |e| - i
  {
    if i < |e| && e[i].code == ADD_TEXT then RunEnd(e, i + 1) else i
  }

  /** The lines of records `i` to `j`. */
  function LinesFrom(e: seq<Record>, i: nat, j: nat): (r: seq<string>)
    requires i <= j <= |e|
    requires forall k :: i <= k < j ==> IsLine(e[k])
    ensures |r| == j - i
    ensures forall k :: 0 <= k < |r| ==> IsLine(e[i + k]) && r[k] == e[i + k].parameters[0].s
    decreases j - i
  {
    if i == j then [] else assert IsLine(e[j - 1]); LinesFrom(e, i, j - 1) + [e[j - 1].parameters[0].s]
  }

  lemma LinesFromSnoc(e: seq<Record>, i: nat, j: nat)
    requires i <= j < |e| && forall k :: i <= k <= j ==> IsLine(e[k])
    ensures LinesFrom(e, i, j + 1) == LinesFrom(e, i, j) + [e[j].parameters[0].s]
  {
  }

  /** What `showTextParser` needs of the list at a SHOW_TEXT record in order
      to return: four or five parameters to unpack, a successor, and, when the
      successor is ADD_TEXT, a run of string lines that some later record ends. */
  predicate ShowTextOk(e: seq<Record>, p: nat)
    requires p < |e|
  {
    && (|e[p].parameters| == 4 || |e[p].parameters| == 5)
    && p + 1 < |e|
    && (e[p + 1].code == ADD_TEXT ==>
          RunEnd(e, p + 1) < |e| && forall k :: p + 1 <= k < RunEnd(e, p + 1) ==> IsLine(e[k]))
  }

  /** Where `showTextParser` leaves the cursor: after the run, or unchanged
      when no ADD_TEXT record follows. */
  function ShowTextNext(e: seq<Record>, p: nat): nat
    requires p < |e| && ShowTextOk(e, p)
  {
    if e[p + 1].code == ADD_TEXT then RunEnd(e, p + 1) else p
  }

  /** The name a SHOW_TEXT record gives explicitly: its fifth parameter, or
      None for four. */
  function GivenName(r: Record): Json {
    if |r.parameters| == 5 then r.parameters[4] else JNull
  }

  /** Is the first line of the run at `p` taken as the speaker's name? */
  function Predicted(e: seq<Record>, p: nat, check: bool): bool
    requires p < |e| && ShowTextOk(e, p)
  {
    && check && GivenName(e[p]) == JNull
    && e[p + 1].code == ADD_TEXT && p + 2 < RunEnd(e, p + 1)
    && IsSpeaker(e[p + 1].parameters[0].s, e[p + 2]) != ""
  }

  /** The name of the block `showTextParser` builds at `p`: the predicted
      speaker, or the one the record gives. */
  function ShowTextName(e: seq<Record>, p: nat, check: bool): Json
    requires p < |e| && ShowTextOk(e, p)
  {
    if Predicted(e, p, check) then JStr(e[p + 1].parameters[0].s) else GivenName(e[p])
  }

  /** What the loop of `showTextParser` has collected when it reaches `q`:
      nothing at the start of the run; afterwards the predicted name, or
      the given one, and the lines after it. */
  function RunState(e: seq<Record>, p: nat, check: bool, q: nat): (seq<string>, Json, bool)
    requires p < |e| && ShowTextOk(e, p) && e[p + 1].code == ADD_TEXT && p + 1 <= q <= RunEnd(e, p + 1)
  {
    if q == p + 1 then ([], GivenName(e[p]), false)
    else if Predicted(e, p, check) then (LinesFrom(e, p + 2, q), JStr(e[p + 1].parameters[0].s), true)
    else (LinesFrom(e, p + 1, q), GivenName(e[p]), false)
  }

  /** One pass of the loop: the first line becomes the name when the
      heuristic says so, any other line is collected. */
  lemma RunStateStep(e: seq<Record>, p: nat, check: bool, q: nat)
    requires p < |e| && ShowTextOk(e, p) && e[p + 1].code == ADD_TEXT && p + 1 <= q < RunEnd(e, p + 1)
    ensures q + 1 < |e| && IsLine(e[q]) && (e[q + 1].code == ADD_TEXT ==> IsLine(e[q + 1]))
    ensures var st := RunState(e, p, check, q);
      var text := e[q].parameters[0].s;
      RunState(e, p, check, q + 1) ==
        if check && st.1 == JNull && q - (p + 1) == 0 && e[q + 1].code == ADD_TEXT && IsSpeaker(text, e[q + 1]) != ""
        then (st.0, JStr(text), true)
        else (st.0 + [text], st.1, st.2)
  {
    PredictedCases(e, p, check);
    if q > p + 1 {
      if Predicted(e, p, check) {
        LinesFromSnoc(e, p + 2, q);
      } else {
        LinesFromSnoc(e, p + 1, q);
      }
    } else if !Predicted(e, p, check) {
      assert LinesFrom(e, p + 1, p + 2) == [e[p + 1].parameters[0].s];
    }
  }

  /** At the end of the run the loop has collected the block's name, its
      prediction flag and its lines. */
  lemma RunStateEnd(e: seq<Record>, p: nat, check: bool)
    requires p < |e| && ShowTextOk(e, p) && e[p + 1].code == ADD_TEXT
    ensures RunState(e, p, check, RunEnd(e, p + 1)) ==
      (LinesFrom(e, if Predicted(e, p, check) then p + 2 else p + 1, RunEnd(e, p + 1)),
       ShowTextName(e, p, check), Predicted(e, p, check))
  {
    assert RunEnd(e, p + 1) == RunEnd(e, p + 2);
  }

  /** The block at `p`, given the lines the loop collects. */
  lemma ShowTextBlockIs(e: seq<Record>, p: nat, check: bool, texts: seq<string>)
    requires p < |e| && ShowTextOk(e, p)
    requires texts == LinesFrom(e, if Predicted(e, p, check) then p + 2 else p + 1,
                                if e[p + 1].code == ADD_TEXT then RunEnd(e, p + 1) else p + 1)
    ensures var name := ShowTextName(e, p, check);
      var ps := e[p].parameters;
      ShowTextBlock(e, p, check) ==
        TextBlock(e[p].indent, ps[0], ps[1], ps[2], ps[3],
                  if !check || name == JNull then Join(texts, "\n") else Join(texts, " "),
                  name, Predicted(e, p, check))
  {
  }

  /** With a run after the SHOW_TEXT record, the first line is the speaker
      exactly when a second ADD_TEXT line follows that opens with a brace. */
  lemma PredictedCases(e: seq<Record>, p: nat, check: bool)
    requires p < |e| && ShowTextOk(e, p) && e[p + 1].code == ADD_TEXT
    ensures p + 2 < |e| && IsLine(e[p + 1])
    ensures e[p + 2].code == ADD_TEXT ==> IsLine(e[p + 2])
    ensures Predicted(e, p, check) <==>
              check && GivenName(e[p]) == JNull && e[p + 2].code == ADD_TEXT &&
              IsSpeaker(e[p + 1].parameters[0].s, e[p + 2]) != ""
  {
    assert RunEnd(e, p + 1) == RunEnd(e, p + 2);
  }

  /** The block `showTextParser` builds at `p`. */
  function ShowTextBlock(e: seq<Record>, p: nat, check: bool): TextBlock
    requires p < |e| && ShowTextOk(e, p)
  {
    var ps := e[p].parameters;
    var end := if e[p + 1].code == ADD_TEXT then RunEnd(e, p + 1) else p + 1;
    var predicted := Predicted(e, p, check);
    var name := if predicted then JStr(e[p + 1].parameters[0].s) else GivenName(e[p]);
    var lines := LinesFrom(e, if predicted then p + 2 else p + 1, end);
    var text := if !check || name == JNull then Join(lines, "\n") else Join(lines, " ");
    TextBlock(e[p].indent, ps[0], ps[1], ps[2], ps[3], text, name, predicted)
  }

  /** The value a record other than SHOW_TEXT decompiles to. */
  function Classify(r: Record): (v: SemValue)
    requires r.code != SHOW_TEXT
  {
    if r.code == SHOW_CHOICES then VChoice(r)
    else if (r.code == EVENT_COMMENT || r.code == EVENT_COMMENT_2) && Wraps(r) then VActive(r)
    else VRecord(r)
  }

  /** The record a value other than a text block stands for. */
  function Underlying(v: SemValue): Record
    requires !v.VText?
  {
    match v
    case VChoice(r) => r
    case VActive(r) => r
    case VRecord(r) => r
  }

  /** The scan can take a step at `p`: a SHOW_TEXT record must be followed
      by ADD_TEXT, or the cursor never moves. */
  predicate StepOk(e: seq<Record>, p: nat)
    requires p < |e|
  {
    e[p].code == SHOW_TEXT ==> ShowTextOk(e, p) && e[p + 1].code == ADD_TEXT
  }

  function StepNext(e: seq<Record>, p: nat): (q: nat)
    requires p < |e| && StepOk(e, p)
    ensures p < q <= |e|
  {
    if e[p].code == SHOW_TEXT then RunEnd(e, p + 1) else p + 1
  }

  function StepValue(e: seq<Record>, p: nat, check: bool): SemValue
    requires p < |e| && StepOk(e, p)
  {
    if e[p].code == SHOW_TEXT then VText(ShowTextBlock(e, p, check)) else Classify(e[p])
  }

  /** The scan from `p` reaches the end of the list without failing. */
  predicate DecompilableFrom(e: seq<Record>, p: nat)
    requires p <= |e|
    decreases |e| - p
  {
    p == |e| || (StepOk(e, p) && DecompilableFrom(e, StepNext(e, p)))
  }

  predicate Decompilable(e: seq<Record>) {
    DecompilableFrom(e, 0)
  }

  function DecompiledFrom(e: seq<Record>, p: nat, check: bool): (r: seq<SemValue>)
    requires p <= |e| && DecompilableFrom(e, p)
    ensures |r| <= |e| - p
    decreases |e| - p
  {
    if p == |e| then [] else [StepValue(e, p, check)] + DecompiledFrom(e, StepNext(e, p), check)
  }

  /** One step of the scan, appended to what came before it. */
  lemma DecompiledStep(before: seq<SemValue>, e: seq<Record>, p: nat, check: bool)
    requires p < |e| && DecompilableFrom(e, p)
    ensures DecompilableFrom(e, StepNext(e, p))
    ensures before + DecompiledFrom(e, p, check) == (before + [StepValue(e, p, check)]) + DecompiledFrom(e, StepNext(e, p), check)
  {
  }

  /** What `decompile` yields for a record list. */
  function Decompiled(e: seq<Record>, check: bool): (r: seq<SemValue>)
    requires Decompilable(e)
    ensures |r| <= |e|
  {
    DecompiledFrom(e, 0, check)
  }

  // ---------------------------------------------------------------------
  // Compiling, as a function of the semantic values

  /** What `compile` emits for one value. */
  function CompileOne(v: SemValue, fill: string -> string): (r: Result<seq<Record>>)
    ensures r.Err? <==> Rejected(v)
    ensures r.Ok? ==> |r.value| >= 1
    ensures r.Ok? && !v.VText? ==> r.value == [Underlying(v)]
  {
    match v
    case VText(b) => Ok(Expand(b, fill))
    case VChoice(r) => Ok([r])
    case VActive(r) => Ok([r])
    case VRecord(r) => if r.code < 0 then Err(NonConformingCode(r.code)) else Ok([r])
  }

  /** What `list(compile(vs))` returns, or the exception that ends it. */
  function Compiled(vs: seq<SemValue>, fill: string -> string): (r: Result<seq<Record>>)
    ensures r.Ok? <==> forall k :: 0 <= k < |vs| ==> !Rejected(vs[k])
    ensures r.Ok? ==> |r.value| >= |vs|
  {
    if vs == [] then Ok([])
    else
      match Compiled(vs[..|vs| - 1], fill)
      case Err(x) => Err(x)
      case Ok(a) =>
        match CompileOne(vs[|vs| - 1], fill)
        case Err(x) => Err(x)
        case Ok(b) => Ok(a + b)
  }

  /** A plain record `compile` refuses. */
  predicate Rejected(v: SemValue) {
    v.VRecord? && v.record.code < 0
  }

  /** Index of the first refused value, or the length when there is none. */
  function StopAt(vs: seq<SemValue>): (n: nat)
    ensures n <= |vs|
    ensures forall k :: 0 <= k < n ==> !Rejected(vs[k])
    ensures n < |vs| ==> Rejected(vs[n])
  {
    if vs == [] then 0 else if Rejected(vs[0]) then 0 else 1 + StopAt(vs[1..])
  }

  /** A value after `compile` has passed over it. */
  function AfterCompile(v: SemValue, fill: string -> string): SemValue {
    if v.VText? then VText(Expanded(v.block, fill)) else v
  }

  /** The values after `list(compile(vs))`: the text blocks before the point
      where compiling stops are filled and normalised. */
  function CompiledState(vs: seq<SemValue>, fill: string -> string): (r: seq<SemValue>)
    ensures |r| == |vs|
    ensures forall k :: 0 <= k < |vs| ==> r[k] == if k < StopAt(vs) then AfterCompile(vs[k], fill) else vs[k]
  {
    seq(|vs|, k requires 0 <= k < |vs| => if k < StopAt(vs) then AfterCompile(vs[k], fill) else vs[k])
  }

  /** `compile` succeeds exactly when no plain record has a negative code,
      and otherwise reports the first one. */
  lemma {:induction false} CompiledOutcome(vs: seq<SemValue>, fill: string -> string)
    ensures Compiled(vs, fill).Ok? <==> StopAt(vs) == |vs|
    ensures StopAt(vs) < |vs| ==> Compiled(vs, fill) == Err(NonConformingCode(vs[StopAt(vs)].record.code))
    decreases |vs|
  {
    if vs != [] {
      var init := vs[..|vs| - 1];
      CompiledOutcome(init, fill);
      assert forall k :: 0 <= k < |init| ==> init[k] == vs[k];
      if StopAt(init) < |init| {
        assert StopAt(vs) == StopAt(init) by {
          StopAtPrefix(vs, |init|);
        }
      } else {
        StopAtPrefix(vs, |init|);
      }
    }
  }

  /** The first refused index of a prefix is that of the whole when it lies
      inside the prefix. */
  lemma StopAtPrefix(vs: seq<SemValue>, n: nat)
    requires n <= |vs|
    ensures StopAt(vs[..n]) == if StopAt(vs) < n then StopAt(vs) else n
  {
    var a, b := StopAt(vs[..n]), StopAt(vs);
    assert forall k :: 0 <= k < n ==> vs[..n][k] == vs[k];
    if a < n { assert Rejected(vs[a]); }
    if b < n { assert Rejected(vs[..n][b]); }
  }

  /** The values while `compile` runs: those before `i` filled. */
  function Progress(vs: seq<SemValue>, i: nat, fill: string -> string): (r: seq<SemValue>)
    ensures |r| == |vs|
    ensures forall k :: 0 <= k < |vs| ==> r[k] == if k < i then AfterCompile(vs[k], fill) else vs[k]
  {
    seq(|vs|, k requires 0 <= k < |vs| => if k < i then AfterCompile(vs[k], fill) else vs[k])
  }

  lemma ProgressStep(vs: seq<SemValue>, i: nat, fill: string -> string)
    requires i < |vs|
    ensures Progress(vs, i, fill)[i := AfterCompile(vs[i], fill)] == Progress(vs, i + 1, fill)
  {
  }

  lemma ProgressStops(vs: seq<SemValue>, i: nat, fill: string -> string)
    requires i <= |vs| && StopAt(vs) == i
    ensures (i < |vs| ==> Progress(vs, i, fill)[i := vs[i]] == CompiledState(vs, fill))
    ensures Progress(vs, i, fill) == CompiledState(vs, fill)
  {
  }

  /** A step of `compile` that fails ends it there. */
  lemma CompileStops(vs: seq<SemValue>, i: nat, out: seq<Record>, fill: string -> string)
    requires i < |vs| && i <= StopAt(vs) && Compiled(vs[..i], fill) == Ok(out) && CompileOne(vs[i], fill).Err?
    ensures StopAt(vs) == i && Compiled(vs, fill) == CompileOne(vs[i], fill)
  {
    assert vs[..i + 1][..i] == vs[..i];
    CompiledErrPrefix(vs, i + 1, fill);
  }

  /** A step of `compile` that succeeds appends its records. */
  lemma CompileGoesOn(vs: seq<SemValue>, i: nat, out: seq<Record>, x: seq<Record>, fill: string -> string)
    requires i < |vs| && i <= StopAt(vs) && Compiled(vs[..i], fill) == Ok(out) && CompileOne(vs[i], fill) == Ok(x)
    ensures i + 1 <= StopAt(vs) && Compiled(vs[..i + 1], fill) == Ok(out + x)
  {
    var p := vs[..i + 1];
    assert p[..|p| - 1] == vs[..i];
    assert p[|p| - 1] == vs[i];
    StopAtPast(vs, i, fill);
  }

  lemma StopAtPast(vs: seq<SemValue>, i: nat, fill: string -> string)
    requires i < |vs| && i <= StopAt(vs) && CompileOne(vs[i], fill).Ok?
    ensures i + 1 <= StopAt(vs)
  {
    assert !Rejected(vs[i]);
  }

  /** Once a prefix fails, the whole list fails the same way. */
  lemma {:induction false} CompiledErrPrefix(vs: seq<SemValue>, n: nat, fill: string -> string)
    requires n <= |vs| && Compiled(vs[..n], fill).Err?
    ensures Compiled(vs, fill) == Compiled(vs[..n], fill)
    decreases |vs| - n
  {
    if n < |vs| {
      assert vs[..n + 1][..n] == vs[..n];
      CompiledErrPrefix(vs, n + 1, fill);
    } else {
      assert vs[..n] == vs;
    }
  }

  // ---------------------------------------------------------------------
  // Properties of the decompiler

  /** The speaker heuristic in full: the first line of a run becomes the
      name exactly when speaker checking is on, no name was given, another
      ADD_TEXT line follows, the first line is non-empty and at most 40
      characters, and the second opens with a brace. The name line is then
      left out of the text. */
  lemma PredictedSpec(e: seq<Record>, p: nat, check: bool)
    requires p < |e| && ShowTextOk(e, p) && e[p + 1].code == ADD_TEXT
    ensures var b := ShowTextBlock(e, p, check);
      var first := e[p + 1].parameters[0].s;
      && (b.isPredicted <==>
            (&& check && GivenName(e[p]) == JNull
             && p + 2 < RunEnd(e, p + 1)
             && first != [] && |first| <= 40 && OpensWithBrace(e[p + 2].parameters[0].s)))
      && (b.isPredicted ==> b.name == JStr(first) && b.text == Join(LinesFrom(e, p + 2, RunEnd(e, p + 1)), " "))
      && (!b.isPredicted ==> b.name == GivenName(e[p]))
  {
    if p + 2 < RunEnd(e, p + 1) {
      IsSpeakerSpec(e[p + 1].parameters[0].s, e[p + 2]);
    }
  }

  /** The join rule: lines are joined with newlines when speaker checking is
      off or no name is known, with spaces otherwise (an explicit fifth
      parameter included); the face, background, position and indent come
      from the SHOW_TEXT record. */
  lemma ShowTextFields(e: seq<Record>, p: nat, check: bool)
    requires p < |e| && ShowTextOk(e, p) && e[p + 1].code == ADD_TEXT
    ensures var b := ShowTextBlock(e, p, check);
      var body := LinesFrom(e, if b.isPredicted then p + 2 else p + 1, RunEnd(e, p + 1));
      && b.text == Join(body, if !check || b.name == JNull then "\n" else " ")
      && (!check ==> !b.isPredicted && b.name == GivenName(e[p]) && b.text == Join(LinesFrom(e, p + 1, RunEnd(e, p + 1)), "\n"))
      && b.indent == e[p].indent
      && [b.faceName, b.faceIndex, b.background, b.position] == e[p].parameters[..4]
  {
  }

  /** Each record from `p` on, classified on its own. */
  function ClassifiedFrom(e: seq<Record>, p: nat): seq<SemValue>
    requires p <= |e| && forall k :: p <= k < |e| ==> e[k].code != SHOW_TEXT
    decreases |e| - p
  {
    if p == |e| then [] else [Classify(e[p])] + ClassifiedFrom(e, p + 1)
  }

  /** The classified list holds one value per record. */
  lemma {:induction false} ClassifiedFromLength(e: seq<Record>, p: nat)
    requires p <= |e| && forall k :: p <= k < |e| ==> e[k].code != SHOW_TEXT
    ensures |ClassifiedFrom(e, p)| == |e| - p
    decreases |e| - p
  {
    if p < |e| {
      ClassifiedFromLength(e, p + 1);
    }
  }

  /** The classified list is in the order of the records. */
  lemma {:induction false} ClassifiedFromIndex(e: seq<Record>, p: nat, i: nat)
    requires p + i < |e| && forall k :: p <= k < |e| ==> e[k].code != SHOW_TEXT
    ensures |ClassifiedFrom(e, p)| == |e| - p
    ensures ClassifiedFrom(e, p)[i] == Classify(e[p + i])
    decreases i
  {
    ClassifiedFromLength(e, p);
    if i > 0 {
      ClassifiedFromIndex(e, p + 1, i - 1);
      assert ClassifiedFrom(e, p) == [Classify(e[p])] + ClassifiedFrom(e, p + 1);
      assert p + 1 + (i - 1) == p + i;
    }
  }

  /** A record other than SHOW_TEXT is one step of the scan. */
  lemma DecompiledPlain(e: seq<Record>, p: nat, check: bool)
    requires p < |e| && e[p].code != SHOW_TEXT && DecompilableFrom(e, p + 1)
    ensures DecompilableFrom(e, p)
    ensures DecompiledFrom(e, p, check) == [Classify(e[p])] + DecompiledFrom(e, p + 1, check)
  {
    assert StepOk(e, p) && StepNext(e, p) == p + 1;
  }

  /** A list without SHOW_TEXT records decompiles record by record. */
  lemma {:induction false} DecompileWithoutText(e: seq<Record>, p: nat, check: bool)
    requires p <= |e|
    requires forall k :: 0 <= k < |e| ==> e[k].code != SHOW_TEXT
    ensures DecompilableFrom(e, p)
    ensures DecompiledFrom(e, p, check) == ClassifiedFrom(e, p)
    decreases |e| - p
  {
    if p < |e| {
      DecompileWithoutText(e, p + 1, check);
      DecompiledPlain(e, p, check);
    }
  }

  /** Decompiling a list without SHOW_TEXT records classifies each record
      on its own, in place. */
  lemma DecompiledClassified(e: seq<Record>, check: bool)
    requires forall k :: 0 <= k < |e| ==> e[k].code != SHOW_TEXT
    ensures Decompilable(e) && |Decompiled(e, check)| == |e|
    ensures forall k :: 0 <= k < |e| ==> Decompiled(e, check)[k] == Classify(e[k])
  {
    DecompileWithoutText(e, 0, check);
    var cs := ClassifiedFrom(e, 0);
    assert Decompiled(e, check) == cs;
    ClassifiedFromLength(e, 0);
    forall k | 0 <= k < |e| ensures cs[k] == Classify(e[k]) {
      ClassifiedFromIndex(e, 0, k);
    }
  }

  /** Classified records compile back to themselves, up to the first record
      with a negative code. */
  lemma {:induction false} CompileClassified(e: seq<Record>, vs: seq<SemValue>, n: nat, fill: string -> string)
    requires |vs| == |e| && n <= |e|
    requires forall k :: 0 <= k < |e| ==> e[k].code != SHOW_TEXT && vs[k] == Classify(e[k])
    requires forall k :: 0 <= k < n ==> e[k].code >= 0
    ensures Compiled(vs[..n], fill) == Ok(e[..n])
  {
    if n > 0 {
      CompileClassified(e, vs, n - 1, fill);
      assert vs[..n][..n - 1] == vs[..n - 1];
      assert vs[..n][n - 1] == Classify(e[n - 1]);
      assert CompileOne(Classify(e[n - 1]), fill) == Ok([e[n - 1]]);
      assert e[..n - 1] + [e[n - 1]] == e[..n];
    }
  }

  /** Round trip: a list without SHOW_TEXT records compiles back from its
      decompiled form to itself, record for record, when no code is
      negative; otherwise compiling reports the first negative code. */
  lemma RoundTripWithoutText(e: seq<Record>, check: bool, fill: string -> string)
    requires forall k :: 0 <= k < |e| ==> e[k].code != SHOW_TEXT
    ensures Decompilable(e)
    ensures (forall k :: 0 <= k < |e| ==> e[k].code >= 0) ==> Compiled(Decompiled(e, check), fill) == Ok(e)
    ensures forall k :: 0 <= k < |e| && e[k].code < 0 && (forall j :: 0 <= j < k ==> e[j].code >= 0) ==>
              Compiled(Decompiled(e, check), fill) == Err(NonConformingCode(e[k].code))
  {
    DecompiledClassified(e, check);
    var vs := Decompiled(e, check);
    if forall k :: 0 <= k < |e| ==> e[k].code >= 0 {
      CompileClassified(e, vs, |e|, fill);
      assert vs[..|e|] == vs && e[..|e|] == e;
    }
    forall k | 0 <= k < |e| && e[k].code < 0 && (forall j :: 0 <= j < k ==> e[j].code >= 0)
      ensures Compiled(vs, fill) == Err(NonConformingCode(e[k].code))
    {
      ClassifiedStop(e, vs, k);
      CompiledOutcome(vs, fill);
    }
  }

  /** Among classified records, compiling stops at the first negative code. */
  lemma {:induction false} ClassifiedStop(e: seq<Record>, vs: seq<SemValue>, k: nat)
    requires |vs| == |e| && k < |e|
    requires forall i :: 0 <= i < |e| ==> e[i].code != SHOW_TEXT && vs[i] == Classify(e[i])
    requires e[k].code < 0 && forall j :: 0 <= j < k ==> e[j].code >= 0
    ensures StopAt(vs) == k && vs[k] == VRecord(e[k])
  {
    assert Rejected(vs[k]);
    assert forall j :: 0 <= j < k ==> !Rejected(vs[j]);
  }

  /** The text of a block compiled with speaker checking off decompiles back
      to the block, filled and with its face index normalised (a predicted
      speaker aside, which compiling turns into an ordinary first line). */
  lemma TextRoundTrip(b: TextBlock, fill: string -> string, after: Record)
    requires !b.isPredicted && after.code != ADD_TEXT
    ensures var e := Expand(b, fill) + [after];
      && ShowTextOk(e, 0) && e[1].code == ADD_TEXT
      && ShowTextBlock(e, 0, false) == Expanded(b, fill)
      && ShowTextNext(e, 0) == |Expand(b, fill)|
  {
    var x := Expand(b, fill);
    var e := x + [after];
    var lines := Split(fill(b.text), '\n');
    ExpandShape(b, fill);
    assert e[0] == x[0];
    forall k | 1 <= k < |x| ensures e[k].code == ADD_TEXT && IsLine(e[k]) {
      assert e[k] == x[k];
    }
    assert RunEnd(e, 1) == |x| by {
      RunEndAt(e, 1, |x|);
    }
    assert LinesFrom(e, 1, |x|) == LinesOfRecords(x[1..]) by {
      LinesFromRecords(e, 1, |x|);
      assert e[1..|x|] == x[1..];
    }
  }

  lemma {:induction false} RunEndAt(e: seq<Record>, i: nat, j: nat)
    requires i <= j < |e| && e[j].code != ADD_TEXT
    requires forall k :: i <= k < j ==> e[k].code == ADD_TEXT
    ensures RunEnd(e, i) == j
    decreases j - i
  {
    if i < j { RunEndAt(e, i + 1, j); }
  }

  lemma LinesFromRecords(e: seq<Record>, i: nat, j: nat)
    requires i <= j <= |e|
    requires forall k :: i <= k < j ==> IsLine(e[k])
    ensures LinesFrom(e, i, j) == LinesOfRecords(e[i..j])
    decreases j - i
  {
    var a, b := LinesFrom(e, i, j), LinesOfRecords(e[i..j]);
    LinesOfRecordsAt(e[i..j]);
    assert |a| == |b|;
  }

  lemma {:induction false} LinesOfRecordsAt(rs: seq<Record>)
    requires forall k :: 0 <= k < |rs| ==> rs[k].parameters != [] && rs[k].parameters[0].JStr?
    ensures |LinesOfRecords(rs)| == |rs|
    ensures forall k :: 0 <= k < |rs| ==> LinesOfRecords(rs)[k] == rs[k].parameters[0].s
  {
    if rs != [] {
      LinesOfRecordsAt(rs[1..]);
    }
  }

  // ---------------------------------------------------------------------
  // The wrapped branch of `compile` as written

  /** What `compile` as written yields: a record, or for a wrapped event the
      object `super(EventBase, event)`, a proxy that is not a record. */
  datatype Emitted = Emit(record: Record) | SuperProxy(wrapped: Record)

  function CompileOneAsWritten(v: SemValue, fill: string -> string): (r: Result<seq<Emitted>>)
    ensures r.Ok? <==> CompileOne(v, fill).Ok?
    ensures r.Ok? ==> |r.value| == |CompileOne(v, fill).value|
    ensures r.Ok? ==> forall k :: 0 <= k < |r.value| ==>
              && (r.value[k].SuperProxy? <==> v.VChoice? || v.VActive?)
              && (r.value[k].Emit? ==> r.value[k].record == CompileOne(v, fill).value[k])
              && (r.value[k].SuperProxy? ==> r.value[k].wrapped == CompileOne(v, fill).value[k])
  {
    match v
    case VText(b) => Ok(EmitAll(Expand(b, fill)))
    case VChoice(r) => Ok([SuperProxy(r)])
    case VActive(r) => Ok([SuperProxy(r)])
    case VRecord(r) => if r.code < 0 then Err(NonConformingCode(r.code)) else Ok([Emit(r)])
  }

  function EmitAll(rs: seq<Record>): (r: seq<Emitted>)
    ensures |r| == |rs| && forall k :: 0 <= k < |rs| ==> r[k] == Emit(rs[k])
  {
    if rs == [] then [] else [Emit(rs[0])] + EmitAll(rs[1..])
  }

  /** The finding: recompiling a page that holds a choice menu (or an
      annotated comment) puts a proxy object into the record list where the
      original record belongs; the corrected `Compiled` gives the record back. */
  lemma WrappedCompilesToProxy(r: Record, check: bool, fill: string -> string)
    requires r.code == SHOW_CHOICES || ((r.code == EVENT_COMMENT || r.code == EVENT_COMMENT_2) && Wraps(r))
    ensures Decompilable([r])
    ensures var vs := Decompiled([r], check);
      && |vs| == 1
      && CompileOneAsWritten(vs[0], fill) == Ok([SuperProxy(r)])
      && Compiled(vs, fill) == Ok([r])
  {
    DecompileWithoutText([r], 0, check);
    RoundTripWithoutText([r], check, fill);
  }

  // ---------------------------------------------------------------------
  // The interpreter

  class Interpreter {
    const events: seq<Record>
    const speakerCheck: bool
    var ptr: nat

    constructor (events: seq<Record>, speakerCheck: bool)
      ensures this.events == events && this.speakerCheck == speakerCheck && ptr == 0
    {
      this.events, this.speakerCheck, ptr := events, speakerCheck, 0;
    }

    /** `defaultParseFn`: the record itself, one step on. */
    method DefaultParseFn() returns (r: Record)
      requires ptr < |events|
      modifies this
      ensures r == events[old(ptr)] && ptr == old(ptr) + 1
    {
      r := events[ptr];
      ptr := ptr + 1;
    }

    /** `showChoices`: wrapping never fails, so the record is always wrapped. */
    method ShowChoices() returns (c: EventChoice)
      requires ptr < |events|
      modifies this
      ensures fresh(c) && c.Model() == events[old(ptr)] && ptr == old(ptr) + 1
    {
      var data := events[ptr];
      ptr := ptr + 1;
      c := new EventChoice.Wrap(data);
    }

    /** `eventCommentParser`: a comment carrying the ActiveMessage annotation
        is wrapped, any other is returned as it is. */
    method EventCommentParser() returns (s: Sem)
      requires ptr < |events|
      modifies this
      ensures ptr == old(ptr) + 1 && fresh(ObjOf(s))
      ensures ModelOf(s) == if Wraps(events[old(ptr)]) then VActive(events[old(ptr)]) else VRecord(events[old(ptr)])
    {
      var data := events[ptr];
      ptr := ptr + 1;
      var a := ActiveMessage.Wrap(data);
      if a != null {
        s := SActive(a);
      } else {
        s := SRecord(data);
      }
    }

    /** `showTextParser`: folds the SHOW_TEXT record at the cursor and the
        ADD_TEXT run after it into one block and moves the cursor past the run
        (or leaves it where it is when no ADD_TEXT record follows). */
    method ShowTextParser() returns (t: EventText)
      requires ptr < |events| && ShowTextOk(events, ptr)
      modifies this
      ensures fresh(t) && t.code == -1 && t.parameters == []
      ensures t.Model() == ShowTextBlock(events, old(ptr), speakerCheck)
      ensures ptr == ShowTextNext(events, old(ptr))
    {
      var p := ptr;
      var base := events[ptr];
      var ps := base.parameters;
      var name: Json := if |ps| == 5 then ps[4] else JNull;
      var texts: seq<string> := [];
      var isPredicted := false;
      if events[ptr + 1].code == ADD_TEXT {
        texts, name, isPredicted := AddTextRun(p);
      } else {
        assert !Predicted(events, p, speakerCheck);
      }
      ShowTextBlockIs(events, p, speakerCheck, texts);
      var joined := if !speakerCheck || name == JNull then Join(texts, "\n") else Join(texts, " ");
      t := new EventText(TextBlock(base.indent, ps[0], ps[1], ps[2], ps[3], joined, name, isPredicted));
    }

    /** The loop of `showTextParser` over the ADD_TEXT run after the SHOW_TEXT
        record at `p`: with the speaker check on and no name given, a first
        line followed by a line that opens with a brace becomes the name; the
        other lines are collected in order. */
    method AddTextRun(p: nat) returns (texts: seq<string>, name: Json, isPredicted: bool)
      requires p < |events| && ShowTextOk(events, p) && events[p + 1].code == ADD_TEXT && ptr == p
      modifies this
      ensures ptr == RunEnd(events, p + 1)
      ensures isPredicted == Predicted(events, p, speakerCheck)
      ensures name == ShowTextName(events, p, speakerCheck)
      ensures texts == LinesFrom(events, if isPredicted then p + 2 else p + 1, RunEnd(events, p + 1))
    {
      ghost var end := RunEnd(events, p + 1);
      name := GivenName(events[p]);
      texts := [];
      isPredicted := false;
      ptr := ptr + 1;
      var eventData := events[ptr];
      var step := 0;
      while eventData.code == ADD_TEXT
        invariant p + 1 <= ptr <= end < |events|
        invariant eventData == events[ptr]
        invariant step == ptr - (p + 1)
        invariant (texts, name, isPredicted) == RunState(events, p, speakerCheck, ptr)
        decreases |events| - ptr
      {
        assert ptr < end;
        RunStateStep(events, p, speakerCheck, ptr);
        var text := eventData.parameters[0].s;
        if speakerCheck && name == JNull && step == 0 && events[ptr + 1].code == ADD_TEXT && IsSpeaker(text, events[ptr + 1]) != "" {
          isPredicted := true;
          name := JStr(text);
        } else {
          texts := texts + [text];
        }
        step := step + 1;
        ptr := ptr + 1;
        eventData := events[ptr];
      }
      RunStateEnd(events, p, speakerCheck);
    }

    /** One step of `run`: the parser registered for the record's code, or
        `defaultParseFn`. */
    method Step() returns (s: Sem)
      requires ptr < |events| && StepOk(events, ptr)
      modifies this
      ensures events[old(ptr)].code == SHOW_TEXT ==> ptr == RunEnd(events, old(ptr) + 1)
      ensures events[old(ptr)].code != SHOW_TEXT ==> ptr == old(ptr) + 1
      ensures fresh(ObjOf(s)) && ModelOf(s) == StepValue(events, old(ptr), speakerCheck)
    {
      var code := events[ptr].code;
      if code == SHOW_TEXT {
        var t := ShowTextParser();
        s := SText(t);
      } else if code == SHOW_CHOICES {
        var c := ShowChoices();
        s := SChoice(c);
      } else if code == EVENT_COMMENT || code == EVENT_COMMENT_2 {
        s := EventCommentParser();
      } else {
        var r := DefaultParseFn();
        s := SRecord(r);
      }
    }

    /** `run`: steps from the start of the list to its end. */
    method Run() returns (out: seq<Sem>)
      requires Decompilable(events)
      modifies this
      ensures Models(out) == Decompiled(events, speakerCheck)
      ensures Distinct(out) && fresh(Footprint(out))
      ensures ptr == |events|
    {
      ptr := 0;
      out := [];
      ghost var made: set<object> := {};
      while ptr < |events|
        invariant ptr <= |events| && DecompilableFrom(events, ptr)
        invariant Models(out) + DecompiledFrom(events, ptr, speakerCheck) == Decompiled(events, speakerCheck)
        invariant Distinct(out)
        invariant fresh(made) && Footprint(out) <= made
        decreases |events| - ptr
      {
        ghost var p := ptr;
        ghost var before := Models(out);
        assert forall o :: o in made ==> allocated(o);
        label step:
        var s := Step();
        assert ptr == StepNext(events, p);
        ModelsUnchanged@step(out);
        DistinctFresh(out, s, made);
        ModelsSnoc(out, s);
        DecompiledStep(before, events, p, speakerCheck);
        assert Models(out + [s]) == before + [StepValue(events, p, speakerCheck)];
        FootprintSnoc(out, s);
        made := made + ObjOf(s);
        out := out + [s];
      }
    }

    /** `decompile`: a fresh interpreter run over the list. */
    static method Decompile(raw: seq<Record>, speakerCheck: bool) returns (out: seq<Sem>)
      requires Decompilable(raw)
      ensures Models(out) == Decompiled(raw, speakerCheck)
      ensures Distinct(out) && fresh(Footprint(out))
    {
      var it := new Interpreter(raw, speakerCheck);
      out := it.Run();
    }

    /** One step of `compile`: a text block expands (and is filled in
        place), a wrapped event gives back its record, a plain record passes
        through unless its code is negative. */
    static method CompileStep(s: Sem, fill: string -> string) returns (r: Result<seq<Record>>)
      modifies ObjOf(s)
      ensures r == CompileOne(old(ModelOf(s)), fill)
      ensures ModelOf(s) == if r.Ok? then AfterCompile(old(ModelOf(s)), fill) else old(ModelOf(s))
    {
      match s {
        case SText(t) =>
          var recs := t.AsEvtBase(fill);
          return Ok(recs);
        case SChoice(c) =>
          return Ok([c.Model()]);
        case SActive(a) =>
          return Ok([a.Model()]);
        case SRecord(rec) =>
          if rec.code < 0 {
            return Err(NonConformingCode(rec.code));
          }
          return Ok([rec]);
      }
    }

    /** `CompileStep` on the `i`-th event of a list: only that event's
        value changes, since no object is shared between events. */
    static method CompileAt(ss: seq<Sem>, i: nat, fill: string -> string) returns (r: Result<seq<Record>>)
      requires Distinct(ss) && i < |ss|
      modifies ObjOf(ss[i])
      ensures r == CompileOne(old(Models(ss))[i], fill)
      ensures Models(ss) == old(Models(ss))[i := if r.Ok? then AfterCompile(old(Models(ss))[i], fill) else old(Models(ss))[i]]
    {
      ghost var m := Models(ss);
      r := CompileStep(ss[i], fill);
      forall k | 0 <= k < |ss| && k != i ensures ModelOf(ss[k]) == m[k] {
        assert ObjOf(ss[k]) !! ObjOf(ss[i]);
      }
    }

    /** `compile`: text blocks expand (and are filled in place), wrapped
        events give back their record, plain records pass through, and a plain
        record with a negative code ends the compilation with an error. */
    static method Compile(ss: seq<Sem>, fill: string -> string) returns (r: Result<seq<Record>>)
      requires Distinct(ss)
      modifies Footprint(ss)
      ensures r == Compiled(old(Models(ss)), fill)
      ensures Models(ss) == CompiledState(old(Models(ss)), fill)
    {
      ghost var m0 := Models(ss);
      var out: seq<Record> := [];
      var i := 0;
      while i < |ss|
        invariant 0 <= i <= |ss| && i <= StopAt(m0)
        invariant Compiled(m0[..i], fill) == Ok(out)
        invariant Models(ss) == Progress(m0, i, fill)
        decreases |ss| - i
      {
        var one := CompileAt(ss, i, fill);
        if one.Err? {
          CompileStops(m0, i, out, fill);
          ProgressStops(m0, i, fill);
          return Err(one.error);
        }
        CompileGoesOn(m0, i, out, one.value, fill);
        ProgressStep(m0, i, fill);
        out := out + one.value;
        i := i + 1;
      }
      assert m0[..i] == m0;
      ProgressStops(m0, i, fill);
      r := Ok(out);
    }
  }
}
