/** The RPG Maker MV/MZ game-file parser: recognising what a decoded data
    file holds, extracting its translatable text into positional translation
    containers, and writing the translations back. Map pages and common
    events go through the event decompiler; items are handled field by
    field. */
module GameParser {
  import opened Common
  import opened Dict
  import opened EventBase
  import opened EventCommon
  import opened ActiveMessage
  import opened EventInterpreter
  import opened FumblerModels

  // ---------------------------------------------------------------------
  // The parts of the game data the parser touches

  datatype Page = Page(list: seq<Record>)

  datatype MapEvent = MapEvent(pages: seq<Page>)

  datatype CommonEvent = CommonEvent(list: seq<Record>)

  /** Name, description and note of an item (strings as loaded; whatever the
      translation supplies once written back). */
  datatype Item = Item(name: Json, description: Json, note: Json)

  /** A loaded data file: a map (its event slots), a list of common events or
      of items (null entries as None), or another list of which only the
      length matters here. */
  datatype Document =
    | MapDoc(events: seq<Option<MapEvent>>)
    | CommonList(commons: seq<Option<CommonEvent>>)
    | ItemList(items: seq<Option<Item>>)
    | OtherList(length: nat)

  /** Every event list of the document can be decompiled. */
  predicate DocDecompilable(doc: Document) {
    match doc
    case MapDoc(evs) =>
      forall i :: 0 <= i < |evs| && evs[i].Some? ==> PagesDecompilable(evs[i].value.pages)
    case CommonList(cs) =>
      forall i :: 0 <= i < |cs| && cs[i].Some? ==> Decompilable(cs[i].value.list)
    case _ => true
  }

  predicate PagesDecompilable(pages: seq<Page>) {
    forall p :: 0 <= p < |pages| ==> Decompilable(pages[p].list)
  }

  // ---------------------------------------------------------------------
  // Recognising a data file

  datatype Kind =
    | ActorList | ArmorList | ClassesList | CommonEventsList | EnemyList | ItemsList | SkillsList
    | MapFile

  /** The list kinds in the order they are tried. */
  const LIST_KINDS: seq<Kind> :=
    [ActorList, ArmorList, ClassesList, CommonEventsList, EnemyList, ItemsList, SkillsList]

  /** The keys whose presence identifies a kind. */
  function Signature(k: Kind): seq<string> {
    match k
    case ActorList => ["characterName"]
    case ArmorList => ["atypeId", "etypeId"]
    case ClassesList => ["expParams", "learnings"]
    case CommonEventsList => ["switchId", "trigger"]
    case EnemyList => ["battlerHue"]
    case ItemsList => ["consumable"]
    case SkillsList => ["requiredWtypeId1"]
    case MapFile => ["autoplayBgm"]
  }

  /** A value the `in` operator accepts on its right. */
  predicate Container(j: Json) {
    j.JObj? || j.JList? || j.JStr?
  }

  /** `key in j`: a key of an object, an element of a list, a substring of a
      string. */
  predicate Has(j: Json, key: string) {
    match j
    case JObj(entries) => key in KeysOf(entries)
    case JList(items) => JStr(key) in items
    case JStr(s) => Contains(s, key)
    case _ => false
  }

  /** The chain of tests `parse_files` applies to element 1 of a list, `has`
      being the `in` test on it. */
  function ClassifyBy(has: string -> bool): Option<Kind> {
    if has("characterName") then Some(ActorList)
    else if has("atypeId") && has("etypeId") then Some(ArmorList)
    else if has("expParams") && has("learnings") then Some(ClassesList)
    else if has("switchId") && has("trigger") then Some(CommonEventsList)
    else if has("battlerHue") then Some(EnemyList)
    else if has("consumable") then Some(ItemsList)
    else if has("requiredWtypeId1") then Some(SkillsList)
    else None
  }

  /** The classification of a list by its element 1; an element the `in`
      operator refuses (null, a number) raises TypeError. */
  function SniffElement(d: Json): Result<Option<Kind>> {
    if !Container(d) then Err(TypeError) else Ok(ClassifyBy(key => Has(d, key)))
  }

  /** The classifier of `parse_files`: a list of at least two elements by its
      element 1, an object holding `autoplayBgm` as a map, anything else not
      at all. */
  function Sniff(j: Json): (r: Result<Option<Kind>>)
    ensures r.Err? ==> r.error == TypeError && j.JList?
    ensures r == Ok(Some(MapFile)) ==> j.JObj?
  {
    match j
    case JList(items) => if |items| >= 2 then SniffElement(items[1]) else Ok(None)
    case JObj(entries) => Ok(if "autoplayBgm" in KeysOf(entries) then Some(MapFile) else None)
    case _ => Ok(None)
  }

  predicate HasAll(has: string -> bool, keys: seq<string>) {
    forall k :: 0 <= k < |keys| ==> has(keys[k])
  }

  /** The reference reading of the classifier: the first kind of `ks` whose
      signature keys all pass the test. */
  function FirstMatch(has: string -> bool, ks: seq<Kind>): (r: Option<Kind>)
    ensures r.Some? ==> r.value in ks && HasAll(has, Signature(r.value))
    ensures r.None? <==> forall i :: 0 <= i < |ks| ==> !HasAll(has, Signature(ks[i]))
  {
    if ks == [] then None
    else if HasAll(has, Signature(ks[0])) then Some(ks[0])
    else FirstMatch(has, ks[1..])
  }

  lemma HasAllOne(has: string -> bool, a: string)
    ensures HasAll(has, [a]) <==> has(a)
  {
    if HasAll(has, [a]) { assert has([a][0]); }
    if has(a) {
      forall k | 0 <= k < 1 ensures has([a][k]) { assert [a][k] == a; }
    }
  }

  lemma HasAllTwo(has: string -> bool, a: string, b: string)
    ensures HasAll(has, [a, b]) <==> has(a) && has(b)
  {
    if HasAll(has, [a, b]) { assert has([a, b][0]) && has([a, b][1]); }
    if has(a) && has(b) {
      forall k | 0 <= k < 2 ensures has([a, b][k]) { assert [a, b][k] == a || [a, b][k] == b; }
    }
  }

  lemma FirstMatchStep(has: string -> bool, ks: seq<Kind>, i: nat)
    requires i < |ks|
    ensures FirstMatch(has, ks[i..]) ==
              if HasAll(has, Signature(ks[i])) then Some(ks[i]) else FirstMatch(has, ks[i + 1..])
  {
    assert ks[i..][1..] == ks[i + 1..];
  }

  /** The kinds are tried in priority order: whatever the test, the chain
      picks the first kind of `LIST_KINDS` whose signature keys all pass, and
      nothing when no signature does. */
  lemma ClassifyPriority(has: string -> bool)
    ensures ClassifyBy(has) == FirstMatch(has, LIST_KINDS)
  {
    HasAllOne(has, "characterName");
    HasAllTwo(has, "atypeId", "etypeId");
    HasAllTwo(has, "expParams", "learnings");
    HasAllTwo(has, "switchId", "trigger");
    HasAllOne(has, "battlerHue");
    HasAllOne(has, "consumable");
    HasAllOne(has, "requiredWtypeId1");
    var ks := LIST_KINDS;
    assert ks[0..] == ks && ks[7..] == [];
    FirstMatchStep(has, ks, 0);
    FirstMatchStep(has, ks, 1);
    FirstMatchStep(has, ks, 2);
    FirstMatchStep(has, ks, 3);
    FirstMatchStep(has, ks, 4);
    FirstMatchStep(has, ks, 5);
    FirstMatchStep(has, ks, 6);
  }

  /** A list is classified as the first kind of `LIST_KINDS` whose signature
      keys its element 1 holds. */
  lemma SniffPriority(items: seq<Json>)
    requires |items| >= 2 && Container(items[1])
    ensures Sniff(JList(items)) == Ok(FirstMatch(key => Has(items[1], key), LIST_KINDS))
  {
    ClassifyPriority(key => Has(items[1], key));
  }

  /** The shapes a list or object can have: short lists and other values are
      not classified, a list fails exactly when its element 1 cannot be
      searched, and an object is a map exactly when it has `autoplayBgm`. */
  lemma SniffOutcome(j: Json)
    ensures Sniff(j).Err? <==> j.JList? && |j.items| >= 2 && !Container(j.items[1])
    ensures Sniff(j).Err? ==> Sniff(j).error == TypeError
    ensures Sniff(j) == Ok(Some(MapFile)) <==> j.JObj? && "autoplayBgm" in KeysOf(j.entries)
    ensures !j.JList? && !j.JObj? ==> Sniff(j) == Ok(None)
    ensures j.JList? && |j.items| < 2 ==> Sniff(j) == Ok(None)
  {
  }

  // ---------------------------------------------------------------------
  // Extracting the text of an event list

  /** The positional key of the `i`-th semantic event of a list. */
  function LKey(i: nat): string {
    "L_" + PaddedIndex(i, 2)
  }

  /** The positional key of the `i`-th item. */
  function ItemKey(i: nat): string {
    "IT_" + PaddedIndex(i, 4)
  }

  /** What `_interp_event_list` records for one semantic event: a text
      block's `[name, text]` when the name is truthy and its text otherwise,
      a choice menu's options, nothing for the other kinds; reading the
      options of a menu raises as `choices` does. */
  function EntryValue(v: SemValue): Result<Option<Json>> {
    match v
    case VText(b) => Ok(Some(if Truthy(b.name) then JList([b.name, JStr(b.text)]) else JStr(b.text)))
    case VChoice(r) =>
      if r.parameters == [] then Err(IndexError)
      else (
        match Iterate(r.parameters[0])
        case None => Err(TypeError)
        case Some(cs) => Ok(Some(JList(cs))))
    case _ => Ok(None)
  }

  /** The entries of the first semantic events, keyed by position. */
  function EventEntries(vs: seq<SemValue>): (r: Result<Dict<string, Json>>)
    ensures r.Ok? ==> |r.value| <= |vs|
    decreases |vs|
  {
    if vs == [] then Ok([]) else EntriesStep(EventEntries(vs[..|vs| - 1]), vs[|vs| - 1], |vs| - 1)
  }

  /** One pass of the loop, for the event at index `n`. */
  function EntriesStep(m: Result<Dict<string, Json>>, v: SemValue, n: nat): Result<Dict<string, Json>> {
    match m
    case Err(x) => Err(x)
    case Ok(d) =>
      match EntryValue(v)
      case Err(x) => Err(x)
      case Ok(None) => Ok(d)
      case Ok(Some(x)) => Ok(Put(d, LKey(n), x))
  }

  /** `_interp_event_list` on a record list. */
  function InterpEvents(list: seq<Record>, check: bool): Result<Dict<string, Json>>
    requires Decompilable(list)
  {
    EventEntries(Decompiled(list, check))
  }

  lemma EventEntriesSnoc(vs: seq<SemValue>, i: nat)
    requires i < |vs|
    ensures EventEntries(vs[..i + 1]) == EntriesStep(EventEntries(vs[..i]), vs[i], i)
  {
    assert vs[..i + 1][..i] == vs[..i];
  }

  lemma {:induction false} EventEntriesErrPrefix(vs: seq<SemValue>, n: nat)
    requires n <= |vs| && EventEntries(vs[..n]).Err?
    ensures EventEntries(vs) == EventEntries(vs[..n])
    decreases |vs| - n
  {
    if n < |vs| {
      EventEntriesSnoc(vs, n);
      EventEntriesErrPrefix(vs, n + 1);
    } else {
      assert vs[..n] == vs;
    }
  }

  /** One pass of the loop from the entries of the first `i` events. */
  lemma EntriesAdvance(vs: seq<SemValue>, i: nat, d: Dict<string, Json>, e: Result<Option<Json>>)
    requires i < |vs| && EventEntries(vs[..i]) == Ok(d) && e == EntryValue(vs[i])
    ensures e.Err? ==> EventEntries(vs) == Err(e.error)
    ensures e.Ok? ==> EventEntries(vs[..i + 1]) == Ok(if e.value.Some? then Put(d, LKey(i), e.value.value) else d)
  {
    EventEntriesSnoc(vs, i);
    if e.Err? {
      EventEntriesErrPrefix(vs, i + 1);
    }
  }

  lemma EntriesStepOk(m: Result<Dict<string, Json>>, v: SemValue, n: nat)
    ensures EntriesStep(m, v, n).Ok? <==> m.Ok? && EntryValue(v).Ok?
  {
  }

  lemma AllEntriesSnoc(vs: seq<SemValue>, init: seq<SemValue>)
    requires vs != [] && init == vs[..|vs| - 1]
    ensures (forall i :: 0 <= i < |vs| ==> EntryValue(vs[i]).Ok?) <==>
              (forall i :: 0 <= i < |init| ==> EntryValue(init[i]).Ok?) && EntryValue(vs[|vs| - 1]).Ok?
  {
    assert forall i :: 0 <= i < |init| ==> init[i] == vs[i];
  }

  /** Extraction fails exactly when reading some menu's options fails. */
  lemma {:induction false} EventEntriesOk(vs: seq<SemValue>)
    ensures EventEntries(vs).Ok? <==> forall i :: 0 <= i < |vs| ==> EntryValue(vs[i]).Ok?
    decreases |vs|
  {
    if vs != [] {
      var n := |vs| - 1;
      EventEntriesOk(vs[..n]);
      assert EventEntries(vs) == EntriesStep(EventEntries(vs[..n]), vs[n], n);
      EntriesStepOk(EventEntries(vs[..n]), vs[n], n);
      AllEntriesSnoc(vs, vs[..n]);
    }
  }

  /** The extracted keys are distinct, each an `L_` key of a position. */
  lemma {:induction false} EventEntriesKeys(vs: seq<SemValue>)
    requires EventEntries(vs).Ok?
    ensures var d := EventEntries(vs).value;
      && NoDupKeys(d)
      && (forall k :: k in KeysOf(d) ==> exists i :: 0 <= i < |vs| && k == LKey(i))
    decreases |vs|
  {
    if vs != [] {
      var n := |vs| - 1;
      var init := vs[..n];
      assert EventEntries(vs) == EntriesStep(EventEntries(init), vs[n], n);
      assert EventEntries(init).Ok?;
      EventEntriesKeys(init);
      var d0 := EventEntries(init).value;
      assert LKey(n) !in KeysOf(d0) by {
        if LKey(n) in KeysOf(d0) {
          var i :| 0 <= i < n && LKey(n) == LKey(i);
          PrefixedIndexInjective("L_", n, i, 2);
        }
      }
      if EntryValue(vs[n]).value.Some? {
        PutNoDup(d0, LKey(n), EntryValue(vs[n]).value.value);
      }
    }
  }

  /** Under `L_` and its index, each text block and each choice menu has
      exactly its entry and every other event has none. */
  lemma {:induction false} EventEntriesGet(vs: seq<SemValue>, i: nat)
    requires EventEntries(vs).Ok? && i < |vs|
    ensures EntryValue(vs[i]).Ok?
    ensures Get(EventEntries(vs).value, LKey(i)) == EntryValue(vs[i]).value
    decreases |vs|
  {
    var n := |vs| - 1;
    var init := vs[..n];
    assert EventEntries(vs) == EntriesStep(EventEntries(init), vs[n], n);
    assert EventEntries(init).Ok?;
    var d0 := EventEntries(init).value;
    if i < n {
      EventEntriesGet(init, i);
      assert init[i] == vs[i];
      if LKey(i) == LKey(n) { PrefixedIndexInjective("L_", i, n, 2); }
    } else {
      EventEntriesKeys(init);
      if LKey(n) in KeysOf(d0) {
        var j :| 0 <= j < n && LKey(n) == LKey(j);
        PrefixedIndexInjective("L_", n, j, 2);
      }
    }
  }

  /** `TranslationContainer(tl_type="event", data=...)` for a non-empty
      extraction, None for an empty one. */
  function EventContainer(d: Dict<string, Json>): Option<TranslationContainer> {
    if d == [] then None else Some(TranslationContainer("event", d, []))
  }

  /** The entry of one semantic event, read from the object. */
  function EntryOf(s: Sem): (r: Result<Option<Json>>)
    reads ObjOf(s)
    ensures r == EntryValue(ModelOf(s))
  {
    match s
    case SText(t) => Ok(Some(if Truthy(t.name) then JList([t.name, JStr(t.text)]) else JStr(t.text)))
    case SChoice(c) =>
      if c.parameters == [] then Err(IndexError)
      else (
        match c.Choices()
        case None => Err(TypeError)
        case Some(cs) => Ok(Some(JList(cs))))
    case SActive(_) => Ok(None)
    case SRecord(_) => Ok(None)
  }

  /** `_interp_event_list`: the list is decompiled and each text block and
      choice menu is recorded under its position. */
  method InterpEventList(list: seq<Record>, check: bool) returns (r: Result<Dict<string, Json>>)
    requires Decompilable(list)
    ensures r == InterpEvents(list, check)
  {
    var ss := Interpreter.Decompile(list, check);
    label decompiled:
    ghost var vs := Models(ss);
    var d: Dict<string, Json> := [];
    var i := 0;
    while i < |ss|
      invariant 0 <= i <= |ss| == |vs|
      invariant unchanged@decompiled(Footprint(ss))
      invariant EventEntries(vs[..i]) == Ok(d)
    {
      ModelsUnchanged@decompiled(ss);
      var e := EntryOf(ss[i]);
      assert ModelOf(ss[i]) == vs[i];
      EntriesAdvance(vs, i, d, e);
      if e.Err? {
        return Err(e.error);
      }
      if e.value.Some? {
        d := Put(d, LKey(i), e.value.value);
      }
      i := i + 1;
    }
    assert vs[..i] == vs;
    r := Ok(d);
  }

  // ---------------------------------------------------------------------
  // Preparing the translation containers
  //
  // Each event list is extracted on its own (`InterpEvents`); where the
  // containers go depends only on those extractions, so the layout is
  // stated over them.

  /** What extracting one event list gives. */
  type Extract = Result<Dict<string, Json>>

  /** The extraction of each page. */
  function PageExtracts(pages: seq<Page>, check: bool): (r: seq<Extract>)
    requires PagesDecompilable(pages)
    ensures |r| == |pages|
    ensures forall p :: 0 <= p < |pages| ==> r[p] == InterpEvents(pages[p].list, check)
  {
    seq(|pages|, p requires 0 <= p < |pages| => InterpEvents(pages[p].list, check))
  }

  predicate EventsDecompilable(evs: seq<Option<MapEvent>>) {
    forall i :: 0 <= i < |evs| && evs[i].Some? ==> PagesDecompilable(evs[i].value.pages)
  }

  /** The extractions of a map: None for a null event, the extraction of
      each page otherwise. */
  function MapExtracts(evs: seq<Option<MapEvent>>, check: bool): (r: seq<Option<seq<Extract>>>)
    requires EventsDecompilable(evs)
    ensures |r| == |evs|
    ensures forall i :: 0 <= i < |evs| ==>
              r[i] == if evs[i].None? then None else Some(PageExtracts(evs[i].value.pages, check))
  {
    seq(|evs|, i requires 0 <= i < |evs| =>
      if evs[i].None? then None else Some(PageExtracts(evs[i].value.pages, check)))
  }

  predicate CommonsDecompilable(cs: seq<Option<CommonEvent>>) {
    forall i :: 0 <= i < |cs| && cs[i].Some? ==> Decompilable(cs[i].value.list)
  }

  /** The extractions of a list of common events: None for a null entry. */
  function CommonExtracts(ces: seq<Option<CommonEvent>>, check: bool): (r: seq<Option<Extract>>)
    requires CommonsDecompilable(ces)
    ensures |r| == |ces|
    ensures forall i :: 0 <= i < |ces| ==>
              r[i] == if ces[i].None? then None else Some(InterpEvents(ces[i].value.list, check))
  {
    seq(|ces|, i requires 0 <= i < |ces| =>
      if ces[i].None? then None else Some(InterpEvents(ces[i].value.list, check)))
  }

  /** One container slot more: the container of an extraction, the first
      failed extraction failing the whole. */
  function SlotStep(m: Result<seq<Option<TranslationContainer>>>, d: Extract): Result<seq<Option<TranslationContainer>>> {
    match m
    case Err(x) => Err(x)
    case Ok(cs) =>
      match d
      case Err(x) => Err(x)
      case Ok(e) => Ok(cs + [EventContainer(e)])
  }

  /** The slots of a page list, one per page. */
  function PageSlots(ds: seq<Extract>): Result<seq<Option<TranslationContainer>>>
    decreases |ds|
  {
    if ds == [] then Ok([]) else SlotStep(PageSlots(ds[..|ds| - 1]), ds[|ds| - 1])
  }

  /** One pass of the event loop of a map. */
  function MapStep(m: Result<seq<Option<TranslationContainer>>>, x: Option<seq<Extract>>): Result<seq<Option<TranslationContainer>>> {
    match m
    case Err(e) => Err(e)
    case Ok(cs) =>
      match x
      case None => Ok(cs + [None])
      case Some(ds) =>
        match PageSlots(ds)
        case Err(e) => Err(e)
        case Ok(ps) => Ok(cs + ps + [None])
  }

  /** The slots of a map: a null event gives one None, an event gives its
      pages' slots and then one more None (the `else` of the page loop). */
  function MapSlots(xs: seq<Option<seq<Extract>>>): Result<seq<Option<TranslationContainer>>>
    decreases |xs|
  {
    if xs == [] then Ok([]) else MapStep(MapSlots(xs[..|xs| - 1]), xs[|xs| - 1])
  }

  /** One pass of the loop over common events. */
  function CommonStep(m: Result<seq<Option<TranslationContainer>>>, x: Option<Extract>): Result<seq<Option<TranslationContainer>>> {
    match x
    case None => (
      match m
      case Err(e) => Err(e)
      case Ok(cs) => Ok(cs + [None]))
    case Some(d) => SlotStep(m, d)
  }

  /** The slots of a list of common events, one per entry. */
  function CommonSlots(xs: seq<Option<Extract>>): Result<seq<Option<TranslationContainer>>>
    decreases |xs|
  {
    if xs == [] then Ok([]) else CommonStep(CommonSlots(xs[..|xs| - 1]), xs[|xs| - 1])
  }

  /** `any([name, description, note])`. */
  predicate AnyField(it: Item) {
    Truthy(it.name) || Truthy(it.description) || Truthy(it.note)
  }

  function ItemFields(it: Item): Json {
    JList([it.name, it.description, it.note])
  }

  /** The data of the item container: `[name, description, note]` under
      `IT_` and the index, for each item with some non-empty field. */
  function ItemData(items: seq<Option<Item>>): Dict<string, Json>
    decreases |items|
  {
    if items == [] then []
    else
      var n := |items| - 1;
      var d := ItemData(items[..n]);
      if items[n].Some? && AnyField(items[n].value) then Put(d, ItemKey(n), ItemFields(items[n].value)) else d
  }

  /** `prepare_tl_containers`: the container slots of a map, of a list of
      common events, or the single item container; an empty list for a list
      shorter than two; None for any other document. */
  function Prepare(doc: Document, check: bool): (r: Result<Option<seq<Option<TranslationContainer>>>>)
    requires DocDecompilable(doc)
    ensures r == Ok(None) <==>
              match doc
              case MapDoc(_) => false
              case CommonList(ces) => |ces| >= 2 && ces[1].None?
              case ItemList(items) => |items| >= 2 && items[1].None?
              case OtherList(n) => n >= 2
    ensures doc.ItemList? && r.Ok? && r.value.Some? ==> |r.value.value| <= 1
  {
    match doc
    case MapDoc(evs) => (
      match MapSlots(MapExtracts(evs, check))
      case Err(x) => Err(x)
      case Ok(cs) => Ok(Some(cs)))
    case CommonList(ces) =>
      if |ces| < 2 then Ok(Some([]))
      else if ces[1].Some? then (
        match CommonSlots(CommonExtracts(ces, check))
        case Err(x) => Err(x)
        case Ok(cs) => Ok(Some(cs)))
      else Ok(None)
    case ItemList(items) =>
      if |items| < 2 then Ok(Some([]))
      else if items[1].Some? then Ok(Some([Some(TranslationContainer("item", ItemData(items), []))]))
      else Ok(None)
    case OtherList(n) =>
      if n < 2 then Ok(Some([])) else Ok(None)
  }

  method PageContainerList(pages: seq<Page>, check: bool) returns (r: Result<seq<Option<TranslationContainer>>>)
    requires PagesDecompilable(pages)
    ensures r == PageSlots(PageExtracts(pages, check))
  {
    ghost var ds := PageExtracts(pages, check);
    var out: seq<Option<TranslationContainer>> := [];
    var p := 0;
    while p < |pages|
      invariant 0 <= p <= |pages|
      invariant PageSlots(ds[..p]) == Ok(out)
    {
      assert ds[..p + 1][..p] == ds[..p];
      var d := InterpEventList(pages[p].list, check);
      if d.Err? {
        PageSlotsErrPrefix(ds, p + 1);
        return Err(d.error);
      }
      if d.value != [] {
        out := out + [Some(TranslationContainer("event", d.value, []))];
      } else {
        out := out + [None];
      }
      p := p + 1;
    }
    assert ds[..p] == ds;
    r := Ok(out);
  }

  method MapContainerList(evs: seq<Option<MapEvent>>, check: bool) returns (r: Result<seq<Option<TranslationContainer>>>)
    requires EventsDecompilable(evs)
    ensures r == MapSlots(MapExtracts(evs, check))
  {
    ghost var xs := MapExtracts(evs, check);
    var out: seq<Option<TranslationContainer>> := [];
    var i := 0;
    while i < |evs|
      invariant 0 <= i <= |evs|
      invariant MapSlots(xs[..i]) == Ok(out)
    {
      assert xs[..i + 1][..i] == xs[..i];
      if evs[i].None? {
        out := out + [None];
      } else {
        var ps := PageContainerList(evs[i].value.pages, check);
        if ps.Err? {
          MapSlotsErrPrefix(xs, i + 1);
          return Err(ps.error);
        }
        out := out + ps.value + [None];
      }
      i := i + 1;
    }
    assert xs[..i] == xs;
    r := Ok(out);
  }

  method CommonContainerList(ces: seq<Option<CommonEvent>>, check: bool) returns (r: Result<seq<Option<TranslationContainer>>>)
    requires CommonsDecompilable(ces)
    ensures r == CommonSlots(CommonExtracts(ces, check))
  {
    ghost var xs := CommonExtracts(ces, check);
    var out: seq<Option<TranslationContainer>> := [];
    var i := 0;
    while i < |ces|
      invariant 0 <= i <= |ces|
      invariant CommonSlots(xs[..i]) == Ok(out)
    {
      assert xs[..i + 1][..i] == xs[..i];
      if ces[i].None? {
        out := out + [None];
      } else {
        var d := InterpEventList(ces[i].value.list, check);
        if d.Err? {
          CommonSlotsErrPrefix(xs, i + 1);
          return Err(d.error);
        }
        out := out + [EventContainer(d.value)];
      }
      i := i + 1;
    }
    assert xs[..i] == xs;
    r := Ok(out);
  }

  method ItemContainerData(items: seq<Option<Item>>) returns (d: Dict<string, Json>)
    ensures d == ItemData(items)
  {
    d := [];
    var i := 0;
    while i < |items|
      invariant 0 <= i <= |items| && d == ItemData(items[..i])
    {
      ItemDataSnoc(items, i);
      if items[i].Some? {
        var it := items[i].value;
        if Truthy(it.name) || Truthy(it.description) || Truthy(it.note) {
          d := Put(d, ItemKey(i), JList([it.name, it.description, it.note]));
        }
      }
      i := i + 1;
    }
    assert items[..i] == items;
  }

  lemma ItemDataSnoc(items: seq<Option<Item>>, i: nat)
    requires i < |items|
    ensures ItemData(items[..i + 1]) ==
              if items[i].Some? && AnyField(items[i].value)
              then Put(ItemData(items[..i]), ItemKey(i), ItemFields(items[i].value))
              else ItemData(items[..i])
  {
    assert items[..i + 1][..i] == items[..i];
  }

  /** `prepare_tl_containers`. */
  method PrepareTlContainers(doc: Document, check: bool) returns (r: Result<Option<seq<Option<TranslationContainer>>>>)
    requires DocDecompilable(doc)
    ensures r == Prepare(doc, check)
  {
    match doc {
      case MapDoc(evs) =>
        var cs := MapContainerList(evs, check);
        r := if cs.Err? then Err(cs.error) else Ok(Some(cs.value));
      case CommonList(ces) =>
        if |ces| < 2 {
          return Ok(Some([]));
        }
        if ces[1].Some? {
          var cs := CommonContainerList(ces, check);
          r := if cs.Err? then Err(cs.error) else Ok(Some(cs.value));
        } else {
          r := Ok(None);
        }
      case ItemList(items) =>
        if |items| < 2 {
          return Ok(Some([]));
        }
        if items[1].Some? {
          var d := ItemContainerData(items);
          r := Ok(Some([Some(TranslationContainer("item", d, []))]));
        } else {
          r := Ok(None);
        }
      case OtherList(n) =>
        r := if n < 2 then Ok(Some([])) else Ok(None);
    }
  }

  lemma {:induction false} PageSlotsErrPrefix(ds: seq<Extract>, n: nat)
    requires n <= |ds| && PageSlots(ds[..n]).Err?
    ensures PageSlots(ds) == PageSlots(ds[..n])
    decreases |ds| - n
  {
    if n < |ds| {
      assert ds[..n + 1][..n] == ds[..n];
      PageSlotsErrPrefix(ds, n + 1);
    } else {
      assert ds[..n] == ds;
    }
  }

  lemma {:induction false} MapSlotsErrPrefix(xs: seq<Option<seq<Extract>>>, n: nat)
    requires n <= |xs| && MapSlots(xs[..n]).Err?
    ensures MapSlots(xs) == MapSlots(xs[..n])
    decreases |xs| - n
  {
    if n < |xs| {
      assert xs[..n + 1][..n] == xs[..n];
      MapSlotsErrPrefix(xs, n + 1);
    } else {
      assert xs[..n] == xs;
    }
  }

  lemma {:induction false} CommonSlotsErrPrefix(xs: seq<Option<Extract>>, n: nat)
    requires n <= |xs| && CommonSlots(xs[..n]).Err?
    ensures CommonSlots(xs) == CommonSlots(xs[..n])
    decreases |xs| - n
  {
    if n < |xs| {
      assert xs[..n + 1][..n] == xs[..n];
      CommonSlotsErrPrefix(xs, n + 1);
    } else {
      assert xs[..n] == xs;
    }
  }

  // ---------------------------------------------------------------------
  // Properties of the containers

  /** The slots of a page list line up with the pages: it fails exactly
      when an extraction fails, and otherwise slot `p` is the container of
      page `p`. */
  lemma {:induction false} PageSlotsSpec(ds: seq<Extract>)
    ensures PageSlots(ds).Ok? <==> forall p :: 0 <= p < |ds| ==> ds[p].Ok?
    ensures PageSlots(ds).Ok? ==>
              var r := PageSlots(ds).value;
              |r| == |ds| && forall p :: 0 <= p < |ds| ==> r[p] == EventContainer(ds[p].value)
    decreases |ds|
  {
    if ds != [] {
      var n := |ds| - 1;
      PageSlotsSpec(ds[..n]);
      assert forall p :: 0 <= p < n ==> ds[..n][p] == ds[p];
    }
  }

  /** How many slots an event takes: one for a null event, one per page and
      a trailing one otherwise. */
  function BlockSize(x: Option<seq<Extract>>): nat {
    if x.None? then 1 else |x.value| + 1
  }

  function Slots(xs: seq<Option<seq<Extract>>>): nat
    decreases |xs|
  {
    if xs == [] then 0 else Slots(xs[..|xs| - 1]) + BlockSize(xs[|xs| - 1])
  }

  lemma {:induction false} MapSlotsLength(xs: seq<Option<seq<Extract>>>)
    requires MapSlots(xs).Ok?
    ensures |MapSlots(xs).value| == Slots(xs)
    decreases |xs|
  {
    if xs != [] {
      var n := |xs| - 1;
      assert MapSlots(xs) == MapStep(MapSlots(xs[..n]), xs[n]);
      MapSlotsLength(xs[..n]);
      if xs[n].Some? {
        PageSlotsSpec(xs[n].value);
      }
    }
  }

  lemma {:induction false} SlotsPrefix(xs: seq<Option<seq<Extract>>>, j: nat)
    requires j < |xs|
    ensures Slots(xs[..j]) + BlockSize(xs[j]) <= Slots(xs)
    decreases |xs|
  {
    var n := |xs| - 1;
    if j < n {
      SlotsPrefix(xs[..n], j);
      assert xs[..n][..j] == xs[..j];
    } else {
      assert xs[..n] == xs[..j];
    }
  }

  /** The block of an event starts at offset `o` of the slots `r`: a null
      event's block is one None, an event's block holds its pages'
      containers in order and ends in None. */
  predicate BlockAt(r: seq<Option<TranslationContainer>>, o: nat, x: Option<seq<Extract>>) {
    && o + BlockSize(x) <= |r|
    && r[o + BlockSize(x) - 1] == None
    && (x.Some? ==>
          forall p :: 0 <= p < |x.value| ==> x.value[p].Ok? && r[o + p] == EventContainer(x.value[p].value))
  }

  /** A block stays where it is when more slots are appended. */
  lemma BlockAtPrefix(r0: seq<Option<TranslationContainer>>, r: seq<Option<TranslationContainer>>, o: nat, x: Option<seq<Extract>>)
    requires BlockAt(r0, o, x) && |r0| <= |r| && r[..|r0|] == r0
    ensures BlockAt(r, o, x)
  {
    assert forall q :: 0 <= q < |r0| ==> r[q] == r0[q];
  }

  /** One loop pass appends to the slots and lays the event's block out at
      their former end. */
  lemma MapStepSlots(r0: seq<Option<TranslationContainer>>, x: Option<seq<Extract>>)
    requires MapStep(Ok(r0), x).Ok?
    ensures var r := MapStep(Ok(r0), x).value;
      |r0| <= |r| && r[..|r0|] == r0 && BlockAt(r, |r0|, x)
  {
    if x.Some? {
      PageSlotsSpec(x.value);
    }
  }

  /** The slots of a map: event `j` owns the block that starts after the
      blocks of the events before it. */
  lemma {:induction false} MapSlotsLayout(xs: seq<Option<seq<Extract>>>, j: nat)
    requires MapSlots(xs).Ok? && j < |xs|
    ensures |MapSlots(xs).value| == Slots(xs)
    ensures BlockAt(MapSlots(xs).value, Slots(xs[..j]), xs[j])
    decreases |xs|
  {
    var n := |xs| - 1;
    var init := xs[..n];
    assert MapSlots(xs) == MapStep(MapSlots(init), xs[n]);
    var r0 := MapSlots(init).value;
    MapSlotsLength(xs);
    MapSlotsLength(init);
    MapStepSlots(r0, xs[n]);
    if j < n {
      MapSlotsLayout(init, j);
      assert init[..j] == xs[..j];
      assert init[j] == xs[j];
      BlockAtPrefix(r0, MapSlots(xs).value, Slots(xs[..j]), xs[j]);
    } else {
      assert init == xs[..j];
    }
  }

  /** The slots of a list of common events line up with its entries: None
      for a null entry, the container of its extraction otherwise. */
  lemma {:induction false} CommonSlotsSpec(xs: seq<Option<Extract>>)
    ensures CommonSlots(xs).Ok? <==> forall i :: 0 <= i < |xs| && xs[i].Some? ==> xs[i].value.Ok?
    ensures CommonSlots(xs).Ok? ==>
              var r := CommonSlots(xs).value;
              && |r| == |xs|
              && forall i :: 0 <= i < |xs| ==>
                   r[i] == if xs[i].None? then None else EventContainer(xs[i].value.value)
    decreases |xs|
  {
    if xs != [] {
      var n := |xs| - 1;
      assert CommonSlots(xs) == CommonStep(CommonSlots(xs[..n]), xs[n]);
      CommonSlotsSpec(xs[..n]);
      assert forall i :: 0 <= i < n ==> xs[..n][i] == xs[i];
    }
  }

  /** The item keys are distinct, each an `IT_` key of an item's index. */
  lemma {:induction false} ItemDataKeys(items: seq<Option<Item>>)
    ensures NoDupKeys(ItemData(items))
    ensures forall k :: k in KeysOf(ItemData(items)) ==> exists i :: 0 <= i < |items| && k == ItemKey(i)
    decreases |items|
  {
    if items != [] {
      var n := |items| - 1;
      var d0 := ItemData(items[..n]);
      ItemDataKeys(items[..n]);
      if items[n].Some? && AnyField(items[n].value) {
        PutNoDup(d0, ItemKey(n), ItemFields(items[n].value));
      }
    }
  }

  /** Under `IT_` and its index, an item with some non-empty field has its
      `[name, description, note]`, any other item nothing. */
  lemma {:induction false} ItemDataGet(items: seq<Option<Item>>, i: nat)
    requires i < |items|
    ensures Get(ItemData(items), ItemKey(i)) ==
              if items[i].Some? && AnyField(items[i].value) then Some(ItemFields(items[i].value)) else None
    decreases |items|
  {
    var n := |items| - 1;
    if i < n {
      ItemDataGet(items[..n], i);
      ItemDataGetEarlier(items, i);
    } else {
      ItemDataGetLast(items);
    }
  }

  /** A later item does not touch an earlier item's entry. */
  lemma ItemDataGetEarlier(items: seq<Option<Item>>, i: nat)
    requires i < |items| - 1
    ensures Get(ItemData(items), ItemKey(i)) == Get(ItemData(items[..|items| - 1]), ItemKey(i))
    ensures items[..|items| - 1][i] == items[i]
  {
    var n := |items| - 1;
    ItemDataLast(items);
    ItemKeysDiffer(i, n);
    if items[n].Some? && AnyField(items[n].value) {
      PutOther(ItemData(items[..n]), ItemKey(n), ItemFields(items[n].value), ItemKey(i));
    }
  }

  lemma ItemKeysDiffer(i: nat, j: nat)
    requires i != j
    ensures ItemKey(i) != ItemKey(j)
  {
    if ItemKey(i) == ItemKey(j) {
      PrefixedIndexInjective("IT_", i, j, 4);
    }
  }

  /** The last item's entry is its own, the earlier items having no key of
      its index. */
  lemma ItemDataGetLast(items: seq<Option<Item>>)
    requires items != []
    ensures var n := |items| - 1;
      Get(ItemData(items), ItemKey(n)) ==
        if items[n].Some? && AnyField(items[n].value) then Some(ItemFields(items[n].value)) else None
  {
    var n := |items| - 1;
    var d0 := ItemData(items[..n]);
    ItemDataLast(items);
    ItemDataKeys(items[..n]);
    assert ItemKey(n) !in KeysOf(d0) by {
      if ItemKey(n) in KeysOf(d0) {
        var j :| 0 <= j < n && ItemKey(n) == ItemKey(j);
        PrefixedIndexInjective("IT_", n, j, 4);
      }
    }
  }

  /** Helper: one unfolding of `ItemData` at the last item, kept as a lemma so
      that callers with large contexts need not unfold the function. */
  lemma ItemDataLast(items: seq<Option<Item>>)
    requires items != []
    ensures var n := |items| - 1;
      ItemData(items) == if items[n].Some? && AnyField(items[n].value)
                         then Put(ItemData(items[..n]), ItemKey(n), ItemFields(items[n].value))
                         else ItemData(items[..n])
  {
  }

  // ---------------------------------------------------------------------
  // Writing translations back into event lists

  /** The text map has a translation for the event: a text block under its
      bare text or (when the name can be hashed) under its name and text, a
      choice menu under its options. */
  predicate Hits(v: SemValue, tm: Dict<Json, Json>) {
    match v
    case VText(b) =>
      JStr(b.text) in KeysOf(tm) || (Atom(b.name) && JList([b.name, JStr(b.text)]) in KeysOf(tm))
    case VChoice(r) =>
      r.parameters != [] && Iterate(r.parameters[0]).Some? && JList(Iterate(r.parameters[0]).value) in KeysOf(tm)
    case _ => false
  }

  /** Substitution changes a text block's name and text only, and a choice
      menu's first parameter only; every other event stays as it is. */
  predicate SameShape(v: SemValue, w: SemValue) {
    match v
    case VText(b) => w.VText? && w.block == b.(name := w.block.name, text := w.block.text)
    case VChoice(r) =>
      && w.VChoice? && w.choice.code == r.code && w.choice.indent == r.indent
      && |w.choice.parameters| == |r.parameters|
      && (r.parameters != [] ==> w.choice.parameters[1..] == r.parameters[1..])
    case _ => w == v
  }

  /** One pass of the apply loop over a semantic event: the event after the
      substitution and whether it was translated. A bare text is looked up
      first, then the name/text pair, then a menu's options. A key Python
      cannot hash raises TypeError; a translation that is not a string where
      a text is expected is reported as AttributeError, which is how
      `textwrap.fill` fails on it when the list is recompiled. */
  function SubstOne(v: SemValue, tm: Dict<Json, Json>): (r: Result<(SemValue, bool)>)
    ensures r.Ok? ==> (r.value.1 <==> Hits(v, tm))
    ensures r.Ok? && !r.value.1 ==> r.value.0 == v
    ensures r.Ok? ==> SameShape(v, r.value.0)
  {
    match v
    case VText(b) => (
      match Get(tm, JStr(b.text))
      case Some(t) => if t.JStr? then Ok((VText(b.(text := t.s)), true)) else Err(AttributeError)
      case None =>
        if !Atom(b.name) then Err(TypeError)
        else (
          match Get(tm, JList([b.name, JStr(b.text)]))
          case None => Ok((v, false))
          case Some(x) => (
            match ElemAt(x, 0)
            case Err(e) => Err(e)
            case Ok(n) => (
              match ElemAt(x, 1)
              case Err(e) => Err(e)
              case Ok(t) => if t.JStr? then Ok((VText(b.(name := n, text := t.s)), true)) else Err(AttributeError)))))
    case VChoice(r) =>
      if r.parameters == [] then Err(IndexError)
      else (
        match Iterate(r.parameters[0])
        case None => Err(TypeError)
        case Some(cs) =>
          if !HashableKey(JList(cs)) then Err(TypeError)
          else (
            match Get(tm, JList(cs))
            case None => Ok((v, false))
            case Some(x) => (
              match Iterate(x)
              case None => Err(TypeError)
              case Some(items) => Ok((VChoice(r.(parameters := r.parameters[0 := JList(items)])), true)))))
    case VActive(_) => Ok((v, false))
    case VRecord(_) => Ok((v, false))
  }

  /** The substitution of each event. */
  function Substs(vs: seq<SemValue>, tm: Dict<Json, Json>): (r: seq<Result<(SemValue, bool)>>)
    ensures |r| == |vs|
    ensures forall i :: 0 <= i < |vs| ==> r[i] == SubstOne(vs[i], tm)
  {
    seq(|vs|, i requires 0 <= i < |vs| => SubstOne(vs[i], tm))
  }

  function CollectStep(m: Result<(seq<SemValue>, bool)>, o: Result<(SemValue, bool)>): Result<(seq<SemValue>, bool)> {
    match m
    case Err(e) => Err(e)
    case Ok(acc) =>
      match o
      case Err(e) => Err(e)
      case Ok(wb) => Ok((acc.0 + [wb.0], acc.1 || wb.1))
  }

  /** The apply loop over the substitutions of a decompiled list: the events
      after substitution and whether any was translated (`do_repack`), or
      the first failure. */
  function Collect(os: seq<Result<(SemValue, bool)>>): Result<(seq<SemValue>, bool)>
    decreases |os|
  {
    if os == [] then Ok(([], false)) else CollectStep(Collect(os[..|os| - 1]), os[|os| - 1])
  }

  /** An event list with the translations written back: recompiled when some
      event was translated, unchanged otherwise. */
  function ApplyEvents(list: seq<Record>, tm: Dict<Json, Json>, check: bool, fill: string -> string): (r: Result<seq<Record>>)
    requires Decompilable(list)
    ensures r.Ok? && r.value != list ==>
              exists i :: 0 <= i < |Decompiled(list, check)| && Hits(Decompiled(list, check)[i], tm)
  {
    SubstAllSpec(Decompiled(list, check), tm);
    match Collect(Substs(Decompiled(list, check), tm))
    case Err(e) => Err(e)
    case Ok(wh) => if wh.1 then Compiled(wh.0, fill) else Ok(list)
  }

  lemma CollectSnoc(os: seq<Result<(SemValue, bool)>>, i: nat)
    requires i < |os|
    ensures Collect(os[..i + 1]) == CollectStep(Collect(os[..i]), os[i])
  {
    assert os[..i + 1][..i] == os[..i];
  }

  lemma {:induction false} CollectErrPrefix(os: seq<Result<(SemValue, bool)>>, n: nat)
    requires n <= |os| && Collect(os[..n]).Err?
    ensures Collect(os) == Collect(os[..n])
    decreases |os| - n
  {
    if n < |os| {
      CollectSnoc(os, n);
      CollectErrPrefix(os, n + 1);
    } else {
      assert os[..n] == os;
    }
  }

  /** The apply loop fails exactly when some substitution fails; otherwise it
      keeps every substituted event in place and reports a translation
      exactly when some substitution made one. */
  lemma {:induction false} CollectSpec(os: seq<Result<(SemValue, bool)>>)
    ensures Collect(os).Ok? <==> forall i :: 0 <= i < |os| ==> os[i].Ok?
    ensures Collect(os).Ok? ==>
              var ws := Collect(os).value.0;
              && |ws| == |os|
              && (forall i :: 0 <= i < |os| ==> ws[i] == os[i].value.0)
              && (Collect(os).value.1 <==> exists i :: 0 <= i < |os| && os[i].value.1)
    decreases |os|
  {
    if os != [] {
      var n := |os| - 1;
      var init := os[..n];
      assert Collect(os) == CollectStep(Collect(init), os[n]);
      CollectSpec(init);
      assert forall i :: 0 <= i < n ==> init[i] == os[i];
      if Collect(os).Ok? {
        if Collect(init).value.1 {
          var i :| 0 <= i < n && init[i].value.1;
          assert os[i].value.1;
        }
      }
    }
  }

  /** Over a decompiled list: the loop fails exactly when some event's
      substitution fails, and otherwise reports a translation exactly when
      some event has one in the map. */
  lemma SubstAllSpec(vs: seq<SemValue>, tm: Dict<Json, Json>)
    ensures Collect(Substs(vs, tm)).Ok? <==> forall i :: 0 <= i < |vs| ==> SubstOne(vs[i], tm).Ok?
    ensures Collect(Substs(vs, tm)).Ok? ==>
              var ws := Collect(Substs(vs, tm)).value.0;
              && |ws| == |vs|
              && (forall i :: 0 <= i < |vs| ==> SameShape(vs[i], ws[i]) && (!Hits(vs[i], tm) ==> ws[i] == vs[i]))
              && (Collect(Substs(vs, tm)).value.1 <==> exists i :: 0 <= i < |vs| && Hits(vs[i], tm))
  {
    var os := Substs(vs, tm);
    CollectSpec(os);
    if Collect(os).Ok? {
      if Collect(os).value.1 {
        var i :| 0 <= i < |os| && os[i].value.1;
        assert Hits(vs[i], tm);
      }
      if exists i :: 0 <= i < |vs| && Hits(vs[i], tm) {
        var i :| 0 <= i < |vs| && Hits(vs[i], tm);
        assert os[i].value.1;
      }
    }
  }

  /** A list none of whose events has a translation in the map comes back
      as it was: it is not recompiled. */
  lemma ApplyEventsUntouched(list: seq<Record>, tm: Dict<Json, Json>, check: bool, fill: string -> string)
    requires Decompilable(list)
    requires forall i :: 0 <= i < |Decompiled(list, check)| ==> !Hits(Decompiled(list, check)[i], tm)
    ensures ApplyEvents(list, tm, check, fill).Ok? ==> ApplyEvents(list, tm, check, fill) == Ok(list)
  {
    var vs := Decompiled(list, check);
    SubstAllSpec(vs, tm);
  }

  /** What is extracted is what is looked up: when the map has a translation
      under the entry extracted from an event, applying the map to that event
      translates it (a speaker name that reaches the entry cannot be a list
      or a dict, because the pair is hashed). */
  lemma EntryHits(v: SemValue, tm: Dict<Json, Json>)
    requires EntryValue(v).Ok? && EntryValue(v).value.Some? && EntryValue(v).value.value in KeysOf(tm)
    requires v.VText? ==> Atom(v.block.name)
    ensures Hits(v, tm)
  {
  }

  /** A translation under the bare text wins over one under the name/text
      pair, and leaves the name alone. */
  lemma SubstTextPrecedence(b: TextBlock, tm: Dict<Json, Json>, t: string)
    requires Get(tm, JStr(b.text)) == Some(JStr(t))
    ensures SubstOne(VText(b), tm) == Ok((VText(b.(text := t)), true))
  {
  }

  /** The substitution the apply loop makes in a semantic event object.
      `r` is whether the event was translated. */
  method Substitute(s: Sem, tm: Dict<Json, Json>) returns (r: Result<bool>)
    modifies ObjOf(s)
    ensures r.Err? ==> SubstOne(old(ModelOf(s)), tm) == Err(r.error)
    ensures r.Ok? ==> SubstOne(old(ModelOf(s)), tm) == Ok((ModelOf(s), r.value))
  {
    match s {
      case SText(t) =>
        var bare := Get(tm, JStr(t.text));
        if bare.Some? {
          if !bare.value.JStr? {
            return Err(AttributeError);
          }
          t.text := bare.value.s;
          return Ok(true);
        }
        if !Atom(t.name) {
          return Err(TypeError);
        }
        var pair := Get(tm, JList([t.name, JStr(t.text)]));
        if pair.None? {
          return Ok(false);
        }
        var n := ElemAt(pair.value, 0);
        if n.Err? {
          return Err(n.error);
        }
        var x := ElemAt(pair.value, 1);
        if x.Err? {
          return Err(x.error);
        }
        if !x.value.JStr? {
          return Err(AttributeError);
        }
        t.name := n.value;
        t.text := x.value.s;
        r := Ok(true);
      case SChoice(c) =>
        if c.parameters == [] {
          return Err(IndexError);
        }
        var cs := c.Choices();
        if cs.None? {
          return Err(TypeError);
        }
        if !HashableKey(JList(cs.value)) {
          return Err(TypeError);
        }
        var hit := Get(tm, JList(cs.value));
        if hit.None? {
          return Ok(false);
        }
        var items := Iterate(hit.value);
        if items.None? {
          return Err(TypeError);
        }
        c.SetChoices(items.value);
        r := Ok(true);
      case SActive(_) =>
        r := Ok(false);
      case SRecord(_) =>
        r := Ok(false);
    }
  }

  /** `Substitute` on the `i`-th event of a list: only that event's value
      changes, since no object is shared between events. */
  method SubstituteAt(ss: seq<Sem>, i: nat, tm: Dict<Json, Json>) returns (r: Result<bool>)
    requires Distinct(ss) && i < |ss|
    modifies ObjOf(ss[i])
    ensures r.Err? ==> SubstOne(old(Models(ss))[i], tm) == Err(r.error)
    ensures r.Ok? ==> SubstOne(old(Models(ss))[i], tm) == Ok((Models(ss)[i], r.value))
    ensures forall k :: 0 <= k < |ss| && k != i ==> Models(ss)[k] == old(Models(ss))[k]
  {
    ghost var m := Models(ss);
    r := Substitute(ss[i], tm);
    forall k | 0 <= k < |ss| && k != i ensures ModelOf(ss[k]) == m[k] {
      assert ObjOf(ss[k]) !! ObjOf(ss[i]);
    }
  }

  /** The apply loop over decompiled events: each substituted in place, in
      order, until one fails. `r` is whether some event was translated. */
  method SubstituteAll(ss: seq<Sem>, tm: Dict<Json, Json>) returns (r: Result<bool>)
    requires Distinct(ss)
    modifies Footprint(ss)
    ensures r.Err? ==> Collect(Substs(old(Models(ss)), tm)) == Err(r.error)
    ensures r.Ok? ==> Collect(Substs(old(Models(ss)), tm)) == Ok((Models(ss), r.value))
  {
    ghost var vs := Models(ss);
    ghost var os := Substs(vs, tm);
    ghost var ws: seq<SemValue> := [];
    var repack := false;
    var i := 0;
    while i < |ss|
      invariant 0 <= i <= |ss| == |vs| && |ws| == i
      invariant forall k :: 0 <= k < |ss| ==> Models(ss)[k] == if k < i then ws[k] else vs[k]
      invariant Collect(os[..i]) == Ok((ws, repack))
    {
      CollectSnoc(os, i);
      var e := SubstituteAt(ss, i, tm);
      if e.Err? {
        CollectErrPrefix(os, i + 1);
        return Err(e.error);
      }
      ws := ws + [Models(ss)[i]];
      repack := repack || e.value;
      i := i + 1;
    }
    assert os[..i] == os;
    assert Models(ss) == ws;
    r := Ok(repack);
  }

  /** One event list of the apply loop: decompiled, each event substituted
      in place, and recompiled when something was translated. */
  method ApplyEventList(list: seq<Record>, tm: Dict<Json, Json>, check: bool, fill: string -> string) returns (r: Result<seq<Record>>)
    requires Decompilable(list)
    ensures r == ApplyEvents(list, tm, check, fill)
  {
    var ss := Interpreter.Decompile(list, check);
    var e := SubstituteAll(ss, tm);
    if e.Err? {
      return Err(e.error);
    }
    if e.value {
      r := Interpreter.Compile(ss, fill);
    } else {
      r := Ok(list);
    }
  }

  // ---------------------------------------------------------------------
  // The full text map

  /** The text map of each container slot; None for an empty slot. */
  function TextMaps(ts: seq<Option<TranslationContainer>>): (r: seq<Option<Result<Dict<Json, Json>>>>)
    ensures |r| == |ts|
    ensures forall i :: 0 <= i < |ts| ==> r[i] == if ts[i].None? then None else Some(TextMap(ts[i].value))
  {
    seq(|ts|, i requires 0 <= i < |ts| => if ts[i].None? then None else Some(TextMap(ts[i].value)))
  }

  /** One pass of `get_full_mapping`'s loop: a text map merged in, the first
      failing one failing the whole. */
  function MergeStep(m: Result<Dict<Json, Json>>, x: Option<Result<Dict<Json, Json>>>): Result<Dict<Json, Json>> {
    match m
    case Err(e) => Err(e)
    case Ok(full) =>
      match x
      case None => Ok(full)
      case Some(t) => (
        match t
        case Err(e) => Err(e)
        case Ok(tm) => Ok(Update(full, tm)))
  }

  function Merge(ms: seq<Option<Result<Dict<Json, Json>>>>): Result<Dict<Json, Json>>
    decreases |ms|
  {
    if ms == [] then Ok([]) else MergeStep(Merge(ms[..|ms| - 1]), ms[|ms| - 1])
  }

  /** The text maps of all containers merged in order. */
  function FullMap(ts: seq<Option<TranslationContainer>>): Result<Dict<Json, Json>> {
    Merge(TextMaps(ts))
  }

  /** `get_full_mapping`: with `json`, every key is replaced by its string
      form `show(k)` (`str(k)`), assigned in order. */
  function FullMapping(ts: seq<Option<TranslationContainer>>, json: bool, show: Json -> string): (r: Result<Dict<Json, Json>>)
    ensures r.Ok? <==> FullMap(ts).Ok?
    ensures r.Ok? && json ==> forall x :: x in KeysOf(r.value) ==> x.JStr?
    ensures r.Ok? && !json ==> r.value == FullMap(ts).value
  {
    match FullMap(ts)
    case Err(e) => Err(e)
    case Ok(full) => StringKeysAreStrings(full, show); if json then Ok(MapKeys(full, k => JStr(show(k)))) else Ok(full)
  }

  lemma MergeSnoc(ms: seq<Option<Result<Dict<Json, Json>>>>, i: nat)
    requires i < |ms|
    ensures Merge(ms[..i + 1]) == MergeStep(Merge(ms[..i]), ms[i])
  {
    assert ms[..i + 1][..i] == ms[..i];
  }

  lemma {:induction false} MergeErrPrefix(ms: seq<Option<Result<Dict<Json, Json>>>>, n: nat)
    requires n <= |ms| && Merge(ms[..n]).Err?
    ensures Merge(ms) == Merge(ms[..n])
    decreases |ms| - n
  {
    if n < |ms| {
      MergeSnoc(ms, n);
      MergeErrPrefix(ms, n + 1);
    } else {
      assert ms[..n] == ms;
    }
  }

  /** The merge fails exactly when some text map failed. */
  lemma {:induction false} MergeOk(ms: seq<Option<Result<Dict<Json, Json>>>>)
    ensures Merge(ms).Ok? <==> forall i :: 0 <= i < |ms| && ms[i].Some? ==> ms[i].value.Ok?
    decreases |ms|
  {
    if ms != [] {
      var n := |ms| - 1;
      assert Merge(ms) == MergeStep(Merge(ms[..n]), ms[n]);
      assert forall i :: 0 <= i < n ==> ms[..n][i] == ms[i];
      MergeOk(ms[..n]);
    }
  }

  /** Text maps without repeated keys merge into a map without repeated
      keys. */
  lemma {:induction false} MergeNoDup(ms: seq<Option<Result<Dict<Json, Json>>>>)
    requires Merge(ms).Ok?
    requires forall i :: 0 <= i < |ms| && ms[i].Some? && ms[i].value.Ok? ==> NoDupKeys(ms[i].value.value)
    ensures NoDupKeys(Merge(ms).value)
    decreases |ms|
  {
    if ms != [] {
      var n := |ms| - 1;
      assert Merge(ms) == MergeStep(Merge(ms[..n]), ms[n]);
      assert forall i :: 0 <= i < n ==> ms[..n][i] == ms[i];
      MergeNoDup(ms[..n]);
      if ms[n].Some? {
        UpdateNoDup(Merge(ms[..n]).value, ms[n].value.value);
      }
    }
  }

  /** A key no text map has is absent from the merge. */
  lemma {:induction false} MergeAbsent(ms: seq<Option<Result<Dict<Json, Json>>>>, k: Json)
    requires Merge(ms).Ok?
    requires forall i :: 0 <= i < |ms| && ms[i].Some? && ms[i].value.Ok? ==> k !in KeysOf(ms[i].value.value)
    ensures Get(Merge(ms).value, k).None?
    decreases |ms|
  {
    if ms != [] {
      var n := |ms| - 1;
      assert Merge(ms) == MergeStep(Merge(ms[..n]), ms[n]);
      assert forall i :: 0 <= i < n ==> ms[..n][i] == ms[i];
      MergeAbsent(ms[..n], k);
      if ms[n].Some? {
        var tm := ms[n].value.value;
        assert forall i :: 0 <= i < |tm| ==> tm[i].0 != k;
        UpdateAbsent(Merge(ms[..n]).value, tm, k);
      }
    }
  }

  /** In the merge, a key takes the value of the last text map that has it. */
  lemma {:induction false} MergeLast(ms: seq<Option<Result<Dict<Json, Json>>>>, k: Json, j: nat)
    requires Merge(ms).Ok?
    requires forall i :: 0 <= i < |ms| && ms[i].Some? && ms[i].value.Ok? ==> NoDupKeys(ms[i].value.value)
    requires j < |ms| && ms[j].Some? && ms[j].value.Ok? && k in KeysOf(ms[j].value.value)
    requires forall i :: j < i < |ms| && ms[i].Some? && ms[i].value.Ok? ==> k !in KeysOf(ms[i].value.value)
    ensures Get(Merge(ms).value, k) == Get(ms[j].value.value, k)
    decreases |ms|
  {
    var n := |ms| - 1;
    var init := ms[..n];
    assert Merge(ms) == MergeStep(Merge(init), ms[n]);
    if j < n {
      assert forall i :: 0 <= i < n ==> init[i] == ms[i];
      MergeLast(init, k, j);
      if ms[n].Some? {
        UpdateGet(Merge(init).value, ms[n].value.value, k);
      }
    } else {
      UpdateGet(Merge(init).value, ms[n].value.value, k);
    }
  }

  /** A container's text map, when it has one, has no repeated key. */
  lemma TextMapNoDup(c: TranslationContainer)
    requires TextMap(c).Ok?
    ensures NoDupKeys(TextMap(c).value)
  {
    TextMapSpec(c);
  }

  /** The full map fails exactly when some container's text map fails, and
      has no repeated key. */
  lemma FullMapOk(ts: seq<Option<TranslationContainer>>)
    ensures FullMap(ts).Ok? <==> forall i :: 0 <= i < |ts| && ts[i].Some? ==> TextMap(ts[i].value).Ok?
    ensures FullMap(ts).Ok? ==> NoDupKeys(FullMap(ts).value)
  {
    var ms := TextMaps(ts);
    MergeOk(ms);
    if Merge(ms).Ok? {
      forall i | 0 <= i < |ms| && ms[i].Some? && ms[i].value.Ok? ensures NoDupKeys(ms[i].value.value) {
        TextMapNoDup(ts[i].value);
      }
      MergeNoDup(ms);
    }
  }

  /** A key of the full map takes the value of the last container whose text
      map has it. */
  lemma FullMapLast(ts: seq<Option<TranslationContainer>>, k: Json, j: nat)
    requires FullMap(ts).Ok?
    requires j < |ts| && ts[j].Some? && TextMap(ts[j].value).Ok? && k in KeysOf(TextMap(ts[j].value).value)
    requires forall i :: j < i < |ts| && ts[i].Some? && TextMap(ts[i].value).Ok? ==> k !in KeysOf(TextMap(ts[i].value).value)
    ensures Get(FullMap(ts).value, k) == Get(TextMap(ts[j].value).value, k)
  {
    var ms := TextMaps(ts);
    MergeOk(ms);
    forall i | 0 <= i < |ms| && ms[i].Some? && ms[i].value.Ok? ensures NoDupKeys(ms[i].value.value) {
      TextMapNoDup(ts[i].value);
    }
    MergeLast(ms, k, j);
  }

  /** A key no container's text map has is absent from the full map. */
  lemma FullMapAbsent(ts: seq<Option<TranslationContainer>>, k: Json)
    requires FullMap(ts).Ok?
    requires forall i :: 0 <= i < |ts| && ts[i].Some? && TextMap(ts[i].value).Ok? ==> k !in KeysOf(TextMap(ts[i].value).value)
    ensures Get(FullMap(ts).value, k).None?
  {
    var ms := TextMaps(ts);
    MergeOk(ms);
    MergeAbsent(ms, k);
  }

  /** With `json` and a `show` that tells keys apart, the string form of a
      key holds what the key held, and no other string is a key. */
  lemma FullMappingJson(ts: seq<Option<TranslationContainer>>, show: Json -> string, k: Json)
    requires FullMap(ts).Ok?
    requires forall a: Json, b: Json :: show(a) == show(b) ==> a == b
    ensures FullMapping(ts, true, show).Ok?
    ensures Get(FullMapping(ts, true, show).value, JStr(show(k))) == Get(FullMap(ts).value, k)
    ensures forall x :: x in KeysOf(FullMapping(ts, true, show).value) ==> x.JStr?
  {
    var full := FullMap(ts).value;
    FullMapOk(ts);
    MapKeysInjective(full, j => JStr(show(j)), k);
    StringKeysAreStrings(full, show);
  }

  /** Every key under string keys is a string. */
  lemma StringKeysAreStrings(full: Dict<Json, Json>, show: Json -> string)
    ensures forall x :: x in KeysOf(MapKeys(full, j => JStr(show(j)))) ==> x.JStr?
  {
    var f := (j: Json) => JStr(show(j));
    forall x | x in KeysOf(MapKeys(full, f)) ensures x.JStr? {
      MapKeysGet(full, f, x);
    }
  }

  /** `get_full_mapping`. */
  method GetFullMapping(ts: seq<Option<TranslationContainer>>, json: bool, show: Json -> string) returns (r: Result<Dict<Json, Json>>)
    ensures r == FullMapping(ts, json, show)
  {
    r := MergeTextMaps(ts);
    if r.Ok? && json {
      var remapped := MapKeysInOrder(r.value, k => JStr(show(k)));
      r := Ok(remapped);
    }
  }

  /** The first loop of `get_full_mapping`: each container's text map, in
      order, merged into one dictionary. */
  method MergeTextMaps(ts: seq<Option<TranslationContainer>>) returns (r: Result<Dict<Json, Json>>)
    ensures r == FullMap(ts)
  {
    ghost var ms := TextMaps(ts);
    var full: Dict<Json, Json> := [];
    var i := 0;
    while i < |ts|
      invariant 0 <= i <= |ts|
      invariant Merge(ms[..i]) == Ok(full)
    {
      MergeSnoc(ms, i);
      if ts[i].Some? {
        var tm := GetTextMap(ts[i].value);
        if tm.Err? {
          MergeErrPrefix(ms, i + 1);
          return Err(tm.error);
        }
        full := Update(full, tm.value);
      }
      i := i + 1;
    }
    assert ms[..i] == ms;
    r := Ok(full);
  }

  // ---------------------------------------------------------------------
  // Writing translations back into maps and common events
  //
  // Each event list is rewritten on its own (`ApplyEvents`); how the
  // document is rebuilt depends only on those results.

  /** What applying the map to one event list gives. */
  type Applied = Result<seq<Record>>

  /** The result for each page. */
  function PageApplies(pages: seq<Page>, tm: Dict<Json, Json>, check: bool, fill: string -> string): (r: seq<Applied>)
    requires PagesDecompilable(pages)
    ensures |r| == |pages|
    ensures forall p :: 0 <= p < |pages| ==> r[p] == ApplyEvents(pages[p].list, tm, check, fill)
  {
    seq(|pages|, p requires 0 <= p < |pages| => ApplyEvents(pages[p].list, tm, check, fill))
  }

  /** The results for a map: None for a null event. */
  function MapApplies(evs: seq<Option<MapEvent>>, tm: Dict<Json, Json>, check: bool, fill: string -> string): (r: seq<Option<seq<Applied>>>)
    requires EventsDecompilable(evs)
    ensures |r| == |evs|
    ensures forall i :: 0 <= i < |evs| ==>
              r[i] == if evs[i].None? then None else Some(PageApplies(evs[i].value.pages, tm, check, fill))
  {
    seq(|evs|, i requires 0 <= i < |evs| =>
      if evs[i].None? then None else Some(PageApplies(evs[i].value.pages, tm, check, fill)))
  }

  /** The results for a list of common events: None for a null entry. */
  function CommonApplies(ces: seq<Option<CommonEvent>>, tm: Dict<Json, Json>, check: bool, fill: string -> string): (r: seq<Option<Applied>>)
    requires CommonsDecompilable(ces)
    ensures |r| == |ces|
    ensures forall i :: 0 <= i < |ces| ==>
              r[i] == if ces[i].None? then None else Some(ApplyEvents(ces[i].value.list, tm, check, fill))
  {
    seq(|ces|, i requires 0 <= i < |ces| =>
      if ces[i].None? then None else Some(ApplyEvents(ces[i].value.list, tm, check, fill)))
  }

  function PageStep(m: Result<seq<Page>>, a: Applied): Result<seq<Page>> {
    match m
    case Err(e) => Err(e)
    case Ok(ps) =>
      match a
      case Err(e) => Err(e)
      case Ok(list) => Ok(ps + [Page(list)])
  }

  /** The pages rebuilt from their results, the first failure failing the
      whole. */
  function PagesFrom(rs: seq<Applied>): Result<seq<Page>>
    decreases |rs|
  {
    if rs == [] then Ok([]) else PageStep(PagesFrom(rs[..|rs| - 1]), rs[|rs| - 1])
  }

  function MapEventStep(m: Result<seq<Option<MapEvent>>>, x: Option<seq<Applied>>): Result<seq<Option<MapEvent>>> {
    match m
    case Err(e) => Err(e)
    case Ok(es) =>
      match x
      case None => Ok(es + [None])
      case Some(rs) =>
        match PagesFrom(rs)
        case Err(e) => Err(e)
        case Ok(ps) => Ok(es + [Some(MapEvent(ps))])
  }

  /** The event slots of a map rebuilt from their results. */
  function MapEventsFrom(xs: seq<Option<seq<Applied>>>): Result<seq<Option<MapEvent>>>
    decreases |xs|
  {
    if xs == [] then Ok([]) else MapEventStep(MapEventsFrom(xs[..|xs| - 1]), xs[|xs| - 1])
  }

  function CommonEventStep(m: Result<seq<Option<CommonEvent>>>, x: Option<Applied>): Result<seq<Option<CommonEvent>>> {
    match m
    case Err(e) => Err(e)
    case Ok(cs) =>
      match x
      case None => Ok(cs + [None])
      case Some(a) => (
        match a
        case Err(e) => Err(e)
        case Ok(list) => Ok(cs + [Some(CommonEvent(list))]))
  }

  /** A list of common events rebuilt from their results. */
  function CommonEventsFrom(xs: seq<Option<Applied>>): Result<seq<Option<CommonEvent>>>
    decreases |xs|
  {
    if xs == [] then Ok([]) else CommonEventStep(CommonEventsFrom(xs[..|xs| - 1]), xs[|xs| - 1])
  }

  lemma {:induction false} PagesFromErrPrefix(rs: seq<Applied>, n: nat)
    requires n <= |rs| && PagesFrom(rs[..n]).Err?
    ensures PagesFrom(rs) == PagesFrom(rs[..n])
    decreases |rs| - n
  {
    if n < |rs| {
      assert rs[..n + 1][..n] == rs[..n];
      PagesFromErrPrefix(rs, n + 1);
    } else {
      assert rs[..n] == rs;
    }
  }

  lemma {:induction false} MapEventsFromErrPrefix(xs: seq<Option<seq<Applied>>>, n: nat)
    requires n <= |xs| && MapEventsFrom(xs[..n]).Err?
    ensures MapEventsFrom(xs) == MapEventsFrom(xs[..n])
    decreases |xs| - n
  {
    if n < |xs| {
      assert xs[..n + 1][..n] == xs[..n];
      MapEventsFromErrPrefix(xs, n + 1);
    } else {
      assert xs[..n] == xs;
    }
  }

  lemma {:induction false} CommonEventsFromErrPrefix(xs: seq<Option<Applied>>, n: nat)
    requires n <= |xs| && CommonEventsFrom(xs[..n]).Err?
    ensures CommonEventsFrom(xs) == CommonEventsFrom(xs[..n])
    decreases |xs| - n
  {
    if n < |xs| {
      assert xs[..n + 1][..n] == xs[..n];
      CommonEventsFromErrPrefix(xs, n + 1);
    } else {
      assert xs[..n] == xs;
    }
  }

  /** The pages come back one for one, each holding its list's result, and
      the rebuild fails exactly when some list's result is a failure. */
  lemma {:induction false} PagesFromSpec(rs: seq<Applied>)
    ensures PagesFrom(rs).Ok? <==> forall p :: 0 <= p < |rs| ==> rs[p].Ok?
    ensures PagesFrom(rs).Ok? ==>
              var ps := PagesFrom(rs).value;
              |ps| == |rs| && forall p :: 0 <= p < |rs| ==> ps[p] == Page(rs[p].value)
    decreases |rs|
  {
    if rs != [] {
      var n := |rs| - 1;
      assert PagesFrom(rs) == PageStep(PagesFrom(rs[..n]), rs[n]);
      PagesFromSpec(rs[..n]);
      assert forall p :: 0 <= p < n ==> rs[..n][p] == rs[p];
    }
  }

  /** A map keeps its event slots: a null event stays null, an event keeps
      its number of pages and each page holds its list's result. */
  lemma {:induction false} MapEventsFromSpec(xs: seq<Option<seq<Applied>>>)
    ensures MapEventsFrom(xs).Ok? <==>
              forall i, p :: 0 <= i < |xs| && xs[i].Some? && 0 <= p < |xs[i].value| ==> xs[i].value[p].Ok?
    ensures MapEventsFrom(xs).Ok? ==>
              var es := MapEventsFrom(xs).value;
              && |es| == |xs|
              && forall i :: 0 <= i < |xs| ==>
                   && (es[i].None? <==> xs[i].None?)
                   && (xs[i].Some? ==>
                         |es[i].value.pages| == |xs[i].value| &&
                         forall p :: 0 <= p < |xs[i].value| ==> es[i].value.pages[p] == Page(xs[i].value[p].value))
    decreases |xs|
  {
    if xs != [] {
      var n := |xs| - 1;
      var init := xs[..n];
      assert MapEventsFrom(xs) == MapEventStep(MapEventsFrom(init), xs[n]);
      MapEventsFromSpec(init);
      assert forall i :: 0 <= i < n ==> init[i] == xs[i];
      if xs[n].Some? {
        PagesFromSpec(xs[n].value);
      }
    }
  }

  /** A list of common events keeps its entries: a null entry stays null and
      an event holds its list's result. */
  lemma {:induction false} CommonEventsFromSpec(xs: seq<Option<Applied>>)
    ensures CommonEventsFrom(xs).Ok? <==> forall i :: 0 <= i < |xs| && xs[i].Some? ==> xs[i].value.Ok?
    ensures CommonEventsFrom(xs).Ok? ==>
              var cs := CommonEventsFrom(xs).value;
              && |cs| == |xs|
              && forall i :: 0 <= i < |xs| ==>
                   cs[i] == if xs[i].None? then None else Some(CommonEvent(xs[i].value.value))
    decreases |xs|
  {
    if xs != [] {
      var n := |xs| - 1;
      assert CommonEventsFrom(xs) == CommonEventStep(CommonEventsFrom(xs[..n]), xs[n]);
      CommonEventsFromSpec(xs[..n]);
      assert forall i :: 0 <= i < n ==> xs[..n][i] == xs[i];
    }
  }

  method ApplyPages(pages: seq<Page>, tm: Dict<Json, Json>, check: bool, fill: string -> string) returns (r: Result<seq<Page>>)
    requires PagesDecompilable(pages)
    ensures r == PagesFrom(PageApplies(pages, tm, check, fill))
  {
    ghost var rs := PageApplies(pages, tm, check, fill);
    var out: seq<Page> := [];
    var p := 0;
    while p < |pages|
      invariant 0 <= p <= |pages|
      invariant PagesFrom(rs[..p]) == Ok(out)
    {
      assert rs[..p + 1][..p] == rs[..p];
      var list := ApplyEventList(pages[p].list, tm, check, fill);
      if list.Err? {
        PagesFromErrPrefix(rs, p + 1);
        return Err(list.error);
      }
      out := out + [Page(list.value)];
      p := p + 1;
    }
    assert rs[..p] == rs;
    r := Ok(out);
  }

  method ApplyMapEvents(evs: seq<Option<MapEvent>>, tm: Dict<Json, Json>, check: bool, fill: string -> string) returns (r: Result<seq<Option<MapEvent>>>)
    requires EventsDecompilable(evs)
    ensures r == MapEventsFrom(MapApplies(evs, tm, check, fill))
  {
    ghost var xs := MapApplies(evs, tm, check, fill);
    var out: seq<Option<MapEvent>> := [];
    var i := 0;
    while i < |evs|
      invariant 0 <= i <= |evs|
      invariant MapEventsFrom(xs[..i]) == Ok(out)
    {
      assert xs[..i + 1][..i] == xs[..i];
      if evs[i].None? {
        out := out + [None];
      } else {
        var ps := ApplyPages(evs[i].value.pages, tm, check, fill);
        if ps.Err? {
          MapEventsFromErrPrefix(xs, i + 1);
          return Err(ps.error);
        }
        out := out + [Some(MapEvent(ps.value))];
      }
      i := i + 1;
    }
    assert xs[..i] == xs;
    r := Ok(out);
  }

  method ApplyCommonEvents(ces: seq<Option<CommonEvent>>, tm: Dict<Json, Json>, check: bool, fill: string -> string) returns (r: Result<seq<Option<CommonEvent>>>)
    requires CommonsDecompilable(ces)
    ensures r == CommonEventsFrom(CommonApplies(ces, tm, check, fill))
  {
    ghost var xs := CommonApplies(ces, tm, check, fill);
    var out: seq<Option<CommonEvent>> := [];
    var i := 0;
    while i < |ces|
      invariant 0 <= i <= |ces|
      invariant CommonEventsFrom(xs[..i]) == Ok(out)
    {
      assert xs[..i + 1][..i] == xs[..i];
      if ces[i].None? {
        out := out + [None];
      } else {
        var list := ApplyEventList(ces[i].value.list, tm, check, fill);
        if list.Err? {
          CommonEventsFromErrPrefix(xs, i + 1);
          return Err(list.error);
        }
        out := out + [Some(CommonEvent(list.value))];
      }
      i := i + 1;
    }
    assert xs[..i] == xs;
    r := Ok(out);
  }

  // ---------------------------------------------------------------------
  // Writing translations back into items

  /** One item with its translation `tl` written back. A pair translates the
      name (when it had one) and the description (when it had one); the
      second element also lands in the note unless both the note and the new
      description are non-empty. A triple replaces all three fields. Any
      other length leaves the item alone; a value without a length raises
      TypeError. */
  function ApplyItem(it: Item, tl: Json): (r: Result<Item>)
    ensures Len(tl).None? ==> r == Err(TypeError)
    ensures Len(tl).Some? && Len(tl).value != 2 && Len(tl).value != 3 ==> r == Ok(it)
    ensures Len(tl) == Some(3) ==> r == Ok(Item(Iterate(tl).value[0], Iterate(tl).value[1], Iterate(tl).value[2]))
    ensures tl.JList? && |tl.items| == 2 ==>
              && r.Ok?
              && r.value.name == (if Truthy(it.name) then tl.items[0] else it.name)
              && r.value.description == (if Truthy(it.description) then tl.items[1] else it.description)
              && r.value.note == (if Truthy(it.note) && Truthy(r.value.description) then it.note else tl.items[1])
  {
    match Len(tl)
    case None => Err(TypeError)
    case Some(n) =>
      if n == 2 then
        match (if Truthy(it.name) then ElemAt(tl, 0) else Ok(it.name))
        case Err(e) => Err(e)
        case Ok(name) =>
          match (if Truthy(it.description) then ElemAt(tl, 1) else Ok(it.description))
          case Err(e) => Err(e)
          case Ok(desc) =>
            if Truthy(it.note) && Truthy(desc) then Ok(Item(name, desc, it.note))
            else (
              match ElemAt(tl, 1)
              case Err(e) => Err(e)
              case Ok(note) => Ok(Item(name, desc, note)))
      else if n == 3 then
        var xs := Iterate(tl).value;
        Ok(Item(xs[0], xs[1], xs[2]))
      else Ok(it)
  }

  /** One pass of the item loop over the item or null entry `x`, `t` being
      the translation under its key. `skipUntranslated` chooses what an item
      with some field but no translation does: with it, the item is kept;
      without it, the lookup raises KeyError, as the loop is written. */
  function ItemUpdate(x: Option<Item>, t: Option<Json>, skipUntranslated: bool): Result<Option<Item>> {
    match x
    case None => Ok(None)
    case Some(it) =>
      if !AnyField(it) then Ok(x)
      else (
        match t
        case None => if skipUntranslated then Ok(x) else Err(KeyError)
        case Some(tl) => (
          match ApplyItem(it, tl)
          case Err(e) => Err(e)
          case Ok(it2) => Ok(Some(it2))))
  }

  /** The pass of the item loop for each slot, `tl` being the item
      container's translations. */
  function ItemUpdates(items: seq<Option<Item>>, tl: Dict<string, Json>, skipUntranslated: bool): (r: seq<Result<Option<Item>>>)
    ensures |r| == |items|
    ensures forall i :: 0 <= i < |items| ==> r[i] == ItemUpdate(items[i], Get(tl, ItemKey(i)), skipUntranslated)
  {
    seq(|items|, i requires 0 <= i < |items| => ItemUpdate(items[i], Get(tl, ItemKey(i)), skipUntranslated))
  }

  function GatherStep(m: Result<seq<Option<Item>>>, u: Result<Option<Item>>): Result<seq<Option<Item>>> {
    match m
    case Err(e) => Err(e)
    case Ok(out) =>
      match u
      case Err(e) => Err(e)
      case Ok(y) => Ok(out + [y])
  }

  /** The slots after the loop, the first failing pass failing the whole. */
  function Gather(us: seq<Result<Option<Item>>>): Result<seq<Option<Item>>>
    decreases |us|
  {
    if us == [] then Ok([]) else GatherStep(Gather(us[..|us| - 1]), us[|us| - 1])
  }

  /** The item loop over the whole list. */
  function ItemsFrom(items: seq<Option<Item>>, tl: Dict<string, Json>, skipUntranslated: bool): (r: Result<seq<Option<Item>>>)
    ensures r.Ok? ==> |r.value| == |items| && forall i :: 0 <= i < |items| ==> (r.value[i].None? <==> items[i].None?)
  {
    GatherSpec(ItemUpdates(items, tl, skipUntranslated));
    Gather(ItemUpdates(items, tl, skipUntranslated))
  }

  lemma GatherSnoc(us: seq<Result<Option<Item>>>, i: nat)
    requires i < |us|
    ensures Gather(us[..i + 1]) == GatherStep(Gather(us[..i]), us[i])
  {
    assert us[..i + 1][..i] == us[..i];
  }

  lemma {:induction false} GatherErrPrefix(us: seq<Result<Option<Item>>>, n: nat)
    requires n <= |us| && Gather(us[..n]).Err?
    ensures Gather(us) == Gather(us[..n])
    decreases |us| - n
  {
    if n < |us| {
      GatherSnoc(us, n);
      GatherErrPrefix(us, n + 1);
    } else {
      assert us[..n] == us;
    }
  }

  /** The loop fails exactly when some pass fails, and otherwise keeps every
      slot's result in its place. */
  lemma {:induction false} GatherSpec(us: seq<Result<Option<Item>>>)
    ensures Gather(us).Ok? <==> forall i :: 0 <= i < |us| ==> us[i].Ok?
    ensures Gather(us).Ok? ==> |Gather(us).value| == |us| && forall i :: 0 <= i < |us| ==> Gather(us).value[i] == us[i].value
    decreases |us|
  {
    if us != [] {
      var n := |us| - 1;
      assert Gather(us) == GatherStep(Gather(us[..n]), us[n]);
      GatherSpec(us[..n]);
      assert forall i :: 0 <= i < n ==> us[..n][i] == us[i];
    }
  }

  /** The item loop fails exactly when an item with some field has a
      translation it cannot take, or (as written) has none; otherwise every
      slot holds its own item: null entries, items without any field and
      (when skipping) items without a translation unchanged, the others with
      their translation applied. */
  lemma ItemsFromSpec(items: seq<Option<Item>>, tl: Dict<string, Json>, skip: bool)
    ensures ItemsFrom(items, tl, skip).Ok? <==>
              forall i :: 0 <= i < |items| && items[i].Some? && AnyField(items[i].value) ==>
                if Get(tl, ItemKey(i)).None? then skip else ApplyItem(items[i].value, Get(tl, ItemKey(i)).value).Ok?
    ensures ItemsFrom(items, tl, skip).Ok? ==>
              var r := ItemsFrom(items, tl, skip).value;
              && |r| == |items|
              && forall i :: 0 <= i < |items| ==>
                   if items[i].None? || !AnyField(items[i].value) || Get(tl, ItemKey(i)).None? then r[i] == items[i]
                   else r[i] == Some(ApplyItem(items[i].value, Get(tl, ItemKey(i)).value).value)
  {
    GatherSpec(ItemUpdates(items, tl, skip));
  }

  /** An item given back its own `[name, description, note]` is unchanged. */
  lemma ApplyItemOwnFields(it: Item)
    ensures ApplyItem(it, ItemFields(it)) == Ok(it)
  {
  }

  /** Applying to a list of items the translations that are its own
      extracted data gives the list back unchanged. */
  lemma ItemsFromOwnData(items: seq<Option<Item>>, skip: bool)
    ensures ItemsFrom(items, ItemData(items), skip) == Ok(items)
  {
    var tl := ItemData(items);
    var us := ItemUpdates(items, tl, skip);
    forall i | 0 <= i < |items| ensures us[i] == Ok(items[i]) {
      ItemDataGet(items, i);
      if items[i].Some? && AnyField(items[i].value) {
        ApplyItemOwnFields(items[i].value);
      }
    }
    GatherSpec(us);
    assert Gather(us).value == items;
  }

  /** The translations of the item container, written back. */
  method ApplyItems(items: seq<Option<Item>>, tl: Dict<string, Json>) returns (r: Result<seq<Option<Item>>>)
    ensures r == ItemsFrom(items, tl, true)
  {
    ghost var us := ItemUpdates(items, tl, true);
    var out: seq<Option<Item>> := [];
    var i := 0;
    while i < |items|
      invariant 0 <= i <= |items|
      invariant Gather(us[..i]) == Ok(out)
    {
      GatherSnoc(us, i);
      if items[i].None? || !AnyField(items[i].value) {
        out := out + [items[i]];
      } else {
        var t := Get(tl, ItemKey(i));
        if t.None? {
          out := out + [items[i]];
        } else {
          var it := ApplyItem(items[i].value, t.value);
          if it.Err? {
            GatherErrPrefix(us, i + 1);
            return Err(it.error);
          }
          out := out + [Some(it.value)];
        }
      }
      i := i + 1;
    }
    assert us[..i] == us;
    r := Ok(out);
  }

  // ---------------------------------------------------------------------
  // apply_tl_containers

  /** `apply_tl_containers`: a map and a list of common events get the full
      text map of the containers written into every event list; a list of
      items gets the first container's translations, field by field; any
      other document, or a list whose second entry is not of the kind, comes
      back as it was. */
  function Apply(doc: Document, ts: seq<Option<TranslationContainer>>, check: bool, fill: string -> string): (r: Result<Document>)
    requires DocDecompilable(doc)
    ensures r.Ok? ==> (r.value.MapDoc? <==> doc.MapDoc?) && (r.value.CommonList? <==> doc.CommonList?)
    ensures r.Ok? && doc.ItemList? ==> r.value.ItemList? && |r.value.items| == |doc.items|
    ensures doc.OtherList? ==> r == Ok(doc)
  {
    match doc
    case MapDoc(evs) => (
      match FullMap(ts)
      case Err(e) => Err(e)
      case Ok(tm) => (
        match MapEventsFrom(MapApplies(evs, tm, check, fill))
        case Err(e) => Err(e)
        case Ok(evs2) => Ok(MapDoc(evs2))))
    case CommonList(ces) =>
      if |ces| < 2 || ces[1].None? then Ok(doc)
      else (
        match FullMap(ts)
        case Err(e) => Err(e)
        case Ok(tm) => (
          match CommonEventsFrom(CommonApplies(ces, tm, check, fill))
          case Err(e) => Err(e)
          case Ok(ces2) => Ok(CommonList(ces2))))
    case ItemList(items) =>
      if |items| < 2 || items[1].None? then Ok(doc)
      else if ts == [] then Err(IndexError)
      else if ts[0].None? then Ok(doc)
      else (
        match ItemsFrom(items, ts[0].value.translated, true)
        case Err(e) => Err(e)
        case Ok(items2) => Ok(ItemList(items2)))
    case OtherList(_) => Ok(doc)
  }

  /** `apply_tl_containers`. */
  method ApplyTlContainers(doc: Document, ts: seq<Option<TranslationContainer>>, check: bool, fill: string -> string) returns (r: Result<Document>)
    requires DocDecompilable(doc)
    ensures r == Apply(doc, ts, check, fill)
  {
    match doc {
      case MapDoc(evs) =>
        var tm := GetFullMapping(ts, false, _ => "");
        if tm.Err? {
          return Err(tm.error);
        }
        var evs2 := ApplyMapEvents(evs, tm.value, check, fill);
        r := if evs2.Err? then Err(evs2.error) else Ok(MapDoc(evs2.value));
      case CommonList(ces) =>
        if |ces| < 2 || ces[1].None? {
          return Ok(doc);
        }
        var tm := GetFullMapping(ts, false, _ => "");
        if tm.Err? {
          return Err(tm.error);
        }
        var ces2 := ApplyCommonEvents(ces, tm.value, check, fill);
        r := if ces2.Err? then Err(ces2.error) else Ok(CommonList(ces2.value));
      case ItemList(items) =>
        if |items| < 2 || items[1].None? {
          return Ok(doc);
        }
        if ts == [] {
          return Err(IndexError);
        }
        if ts[0].None? {
          return Ok(doc);
        }
        var items2 := ApplyItems(items, ts[0].value.translated);
        r := if items2.Err? then Err(items2.error) else Ok(ItemList(items2.value));
      case OtherList(_) =>
        r := Ok(doc);
    }
  }

  /** A map keeps its event slots through apply: null events stay null, every
      event keeps its number of pages, and each page holds its list with the
      full text map written back. */
  lemma ApplyMapShape(evs: seq<Option<MapEvent>>, ts: seq<Option<TranslationContainer>>, check: bool, fill: string -> string)
    requires EventsDecompilable(evs)
    requires Apply(MapDoc(evs), ts, check, fill).Ok?
    ensures var d := Apply(MapDoc(evs), ts, check, fill).value;
      && d.MapDoc?
      && |d.events| == |evs|
      && forall i :: 0 <= i < |evs| ==>
           && (d.events[i].None? <==> evs[i].None?)
           && (evs[i].Some? ==>
                 && |d.events[i].value.pages| == |evs[i].value.pages|
                 && forall p :: 0 <= p < |evs[i].value.pages| ==>
                      Ok(d.events[i].value.pages[p].list) == ApplyEvents(evs[i].value.pages[p].list, FullMap(ts).value, check, fill))
  {
    var tm := FullMap(ts).value;
    var xs := MapApplies(evs, tm, check, fill);
    MapEventsFromSpec(xs);
  }

  /** The item container prepared from a list of items, translated to its
      own data, gives the list back when applied. */
  lemma ItemsRoundTrip(items: seq<Option<Item>>, check: bool, fill: string -> string)
    requires |items| >= 2 && items[1].Some?
    ensures Prepare(ItemList(items), check) == Ok(Some([Some(TranslationContainer("item", ItemData(items), []))]))
    ensures Apply(ItemList(items), [Some(TranslationContainer("item", ItemData(items), ItemData(items)))], check, fill) == Ok(ItemList(items))
  {
    ItemsFromOwnData(items, true);
  }

  /** As the item loop is written, its skip test (`not itemidx not in
      tldata`) compares an integer with string keys and never skips, so one
      item with some field but no translation makes the whole apply fail;
      skipping it instead keeps that item as it was. */
  lemma UntranslatedItemAsWritten(items: seq<Option<Item>>, tl: Dict<string, Json>, i: nat)
    requires i < |items| && items[i].Some? && AnyField(items[i].value) && ItemKey(i) !in KeysOf(tl)
    ensures ItemsFrom(items, tl, false).Err?
  {
    var us := ItemUpdates(items, tl, false);
    assert us[i] == Err(KeyError);
    GatherSpec(us);
  }

  lemma UntranslatedItemSkipped(items: seq<Option<Item>>, tl: Dict<string, Json>, i: nat)
    requires i < |items| && items[i].Some? && ItemKey(i) !in KeysOf(tl)
    requires ItemsFrom(items, tl, true).Ok?
    ensures var r := ItemsFrom(items, tl, true).value; |r| == |items| && r[i] == items[i]
  {
    var us := ItemUpdates(items, tl, true);
    assert us[i] == Ok(items[i]);
    GatherSpec(us);
  }
}
