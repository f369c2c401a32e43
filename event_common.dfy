/** The two semantic events built into the interpreter: a merged dialogue
    block (`EventText`) and a wrapped choice menu (`EventChoice`). */
module EventCommon {
  import opened Common
  import opened EventBase

  /** The value an `EventText` holds. `name == JNull` stands for Python's
      None; `faceIndex` is the second element of `faceData`. */
  datatype TextBlock = TextBlock(
    indent: int,
    faceName: Json,
    faceIndex: Json,
    background: Json,
    position: Json,
    text: string,
    name: Json,
    isPredicted: bool)

  /** A face index given as the empty string is written back as 0. */
  function NormalFace(j: Json): Json {
    if j == JStr("") then JInt(0) else j
  }

  /** The first parameters of the SHOW_TEXT record `as_evtbase` emits. */
  function RootParams(b: TextBlock): seq<Json> {
    [b.faceName, NormalFace(b.faceIndex), b.background, b.position]
  }

  /** The records `as_evtbase` emits before the body. */
  function HeadRecords(b: TextBlock): seq<Record> {
    if b.isPredicted then
      [Record(SHOW_TEXT, b.indent, RootParams(b)), Record(ADD_TEXT, b.indent, [b.name])]
    else if b.name != JNull then
      [Record(SHOW_TEXT, b.indent, RootParams(b) + [b.name])]
    else
      [Record(SHOW_TEXT, b.indent, RootParams(b))]
  }

  /** One ADD_TEXT record per line. */
  function LineRecords(indent: int, lines: seq<string>): (r: seq<Record>)
    ensures |r| == |lines|
    ensures forall k :: 0 <= k < |lines| ==> r[k] == Record(ADD_TEXT, indent, [JStr(lines[k])])
  {
    if lines == [] then [] else [Record(ADD_TEXT, indent, [JStr(lines[0])])] + LineRecords(indent, lines[1..])
  }

  lemma LineRecordsSnoc(indent: int, lines: seq<string>, i: nat)
    requires i < |lines|
    ensures LineRecords(indent, lines[..i + 1]) == LineRecords(indent, lines[..i]) + [Record(ADD_TEXT, indent, [JStr(lines[i])])]
  {
  }

  /** Everything `as_evtbase` emits for a block, `fill` standing for
      `textwrap.fill`. */
  function Expand(b: TextBlock, fill: string -> string): (r: seq<Record>)
    ensures |r| >= 2 && r[0].code == SHOW_TEXT
    ensures forall k :: 0 < k < |r| ==> r[k].code == ADD_TEXT
  {
    HeadRecords(b) + LineRecords(b.indent, Split(fill(b.text), '\n'))
  }

  /** The block as it stands after `as_evtbase` ran. */
  function Expanded(b: TextBlock, fill: string -> string): TextBlock {
    b.(faceIndex := NormalFace(b.faceIndex), text := fill(b.text))
  }

  /** The line texts of ADD_TEXT records that carry one string each. */
  function LinesOfRecords(rs: seq<Record>): seq<string>
    requires forall k :: 0 <= k < |rs| ==> rs[k].parameters != [] && rs[k].parameters[0].JStr?
  {
    if rs == [] then [] else [rs[0].parameters[0].s] + LinesOfRecords(rs[1..])
  }

  lemma {:induction false} LinesOfLineRecords(indent: int, lines: seq<string>)
    ensures LinesOfRecords(LineRecords(indent, lines)) == lines
  {
    if lines != [] {
      LinesOfLineRecords(indent, lines[1..]);
      assert LineRecords(indent, lines)[1..] == LineRecords(indent, lines[1..]);
    }
  }

  /** What `as_evtbase` promises: a SHOW_TEXT record with the face, background
      and position (and the name only for an explicit, non-predicted speaker),
      the predicted name as its own ADD_TEXT record, then at least one body
      record whose lines, joined again with newlines, are the filled text; all
      at the block's indent. */
  lemma ExpandShape(b: TextBlock, fill: string -> string)
    ensures var r := Expand(b, fill);
      var h := if b.isPredicted then 2 else 1;
      && |r| > h
      && r[0].code == SHOW_TEXT
      && r[0].parameters[..4] == [b.faceName, NormalFace(b.faceIndex), b.background, b.position]
      && |r[0].parameters| == (if !b.isPredicted && b.name != JNull then 5 else 4)
      && (|r[0].parameters| == 5 ==> r[0].parameters[4] == b.name)
      && (b.isPredicted ==> r[1] == Record(ADD_TEXT, b.indent, [b.name]))
      && (forall k :: h <= k < |r| ==> r[k].code == ADD_TEXT && |r[k].parameters| == 1 && r[k].parameters[0].JStr?)
      && Join(LinesOfRecords(r[h..]), "\n") == fill(b.text)
      && (forall k :: 0 <= k < |r| ==> r[k].indent == b.indent)
  {
    var r := Expand(b, fill);
    var h := if b.isPredicted then 2 else 1;
    var lines := Split(fill(b.text), '\n');
    assert r == HeadRecords(b) + LineRecords(b.indent, lines);
    assert r[h..] == LineRecords(b.indent, lines);
    LinesOfLineRecords(b.indent, lines);
    JoinSplit(fill(b.text), '\n');
    assert LinesOfRecords(r[h..]) == lines;
  }

  /** A dialogue block: one SHOW_TEXT record and its ADD_TEXT lines merged. */
  class EventText {
    const code: int
    const parameters: seq<Json>
    var indent: int
    var faceName: Json
    var faceIndex: Json
    var background: Json
    var position: Json
    var text: string
    var name: Json
    var isPredicted: bool

    function Model(): TextBlock
      reads this
    {
      TextBlock(indent, faceName, faceIndex, background, position, text, name, isPredicted)
    }

    /** The synthetic event: code -1 and no parameters of its own. */
    constructor (b: TextBlock)
      ensures Model() == b && code == -1 && parameters == []
    {
      code, parameters := -1, [];
      indent, faceName, faceIndex := b.indent, b.faceName, b.faceIndex;
      background, position := b.background, b.position;
      text, name, isPredicted := b.text, b.name, b.isPredicted;
    }

    /** `as_evtbase`: normalises the face index, overwrites the text with its
        filled form and emits the records of `Expand`. */
    method AsEvtBase(fill: string -> string) returns (out: seq<Record>)
      modifies this
      ensures out == Expand(old(Model()), fill)
      ensures Model() == Expanded(old(Model()), fill)
    {
      ghost var b := Model();
      if faceIndex == JStr("") {
        faceIndex := JInt(0);
      }
      var root := [faceName, faceIndex, background, position];
      if isPredicted {
        out := [Record(SHOW_TEXT, indent, root), Record(ADD_TEXT, indent, [name])];
      } else if name != JNull {
        out := [Record(SHOW_TEXT, indent, root + [name])];
      } else {
        out := [Record(SHOW_TEXT, indent, root)];
      }
      assert out == HeadRecords(b);
      text := fill(text);
      var ind := indent;
      var sections := Split(text, '\n');
      var i := 0;
      while i < |sections|
        invariant 0 <= i <= |sections|
        invariant out == HeadRecords(b) + LineRecords(ind, sections[..i])
        modifies {}
      {
        LineRecordsSnoc(ind, sections, i);
        out := out + [Record(ADD_TEXT, ind, [JStr(sections[i])])];
        i := i + 1;
      }
      assert sections[..i] == sections;
    }
  }

  /** A SHOW_CHOICES record wrapped so that its options can be read and set. */
  class EventChoice {
    const code: int
    const indent: int
    var parameters: seq<Json>

    function Model(): Record
      reads this
    {
      Record(code, indent, parameters)
    }

    /** `wrap`: code, indent and parameters copied unchanged. */
    constructor Wrap(r: Record)
      ensures Model() == r
    {
      code, indent, parameters := r.code, r.indent, r.parameters;
    }

    /** The `choices` getter, `tuple(parameters[0])`: the options of a list,
        or None where Python cannot iterate the first parameter. */
    function Choices(): (c: Option<seq<Json>>)
      reads this
      requires parameters != []
      ensures parameters[0].JList? ==> c == Some(parameters[0].items)
      ensures c.Some? <==> (parameters[0].JList? || parameters[0].JStr? || parameters[0].JObj?)
    {
      Iterate(parameters[0])
    }

    /** The `choices` setter: only the first parameter is replaced. */
    method SetChoices(value: seq<Json>)
      requires parameters != []
      modifies this
      ensures parameters == old(parameters)[0 := JList(value)]
      ensures Choices() == Some(value)
    {
      parameters := parameters[0 := JList(value)];
    }
  }
}
