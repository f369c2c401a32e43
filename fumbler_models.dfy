/** The translation container and the prompt configuration. */
module FumblerModels {
  import opened Common
  import opened Dict

  /** A unit of translation work: positional keys (`L_xx`, `IT_xxxx`) to the
      source values, and the translated values by key once the service has
      answered. */
  datatype TranslationContainer = TranslationContainer(
    tlType: string,
    data: Dict<string, Json>,
    translated: Dict<string, Json>)

  // ---------------------------------------------------------------------
  // get_text_map

  /** The source-to-translation map built from the first data pairs, `tk`
      being the translated values under upper-cased keys: each source value
      (a list as its tuple) maps to the translation of its key. A data key
      without a translation raises KeyError; a value Python cannot hash,
      TypeError. */
  function TextMapFrom(data: Dict<string, Json>, tk: Dict<string, Json>): (r: Result<Dict<Json, Json>>)
    ensures r.Ok? ==> |r.value| <= |data|
    decreases |data|
  {
    if data == [] then Ok([])
    else TextMapStep(TextMapFrom(data[..|data| - 1], tk), data[|data| - 1], tk)
  }

  /** One pass of the loop: `mappings[v] = tk[k]`. */
  function TextMapStep(m: Result<Dict<Json, Json>>, kv: (string, Json), tk: Dict<string, Json>): Result<Dict<Json, Json>> {
    match m
    case Err(x) => Err(x)
    case Ok(m) =>
      match Get(tk, kv.0)
      case None => Err(KeyError)
      case Some(t) => if HashableKey(kv.1) then Ok(Put(m, kv.1, t)) else Err(TypeError)
  }

  /** `get_text_map`. */
  function TextMap(c: TranslationContainer): Result<Dict<Json, Json>> {
    if c.translated == [] then Ok([]) else TextMapFrom(c.data, MapKeys(c.translated, Upper))
  }

  lemma TextMapFromSnoc(data: Dict<string, Json>, tk: Dict<string, Json>, i: nat)
    requires i < |data|
    ensures TextMapFrom(data[..i + 1], tk) == TextMapStep(TextMapFrom(data[..i], tk), data[i], tk)
  {
    assert data[..i + 1][..i] == data[..i];
  }

  /** Once a prefix fails, the whole fails the same way. */
  lemma {:induction false} TextMapErrPrefix(data: Dict<string, Json>, tk: Dict<string, Json>, n: nat)
    requires n <= |data| && TextMapFrom(data[..n], tk).Err?
    ensures TextMapFrom(data, tk) == TextMapFrom(data[..n], tk)
    decreases |data| - n
  {
    if n < |data| {
      assert data[..n + 1][..n] == data[..n];
      TextMapErrPrefix(data, tk, n + 1);
    } else {
      assert data[..n] == data;
    }
  }

  /** A data pair the loop can map: its key has a translation under `tk`
      and its value can be hashed. */
  predicate Translatable(kv: (string, Json), tk: Dict<string, Json>) {
    kv.0 in KeysOf(tk) && HashableKey(kv.1)
  }

  /** The source values of the data pairs, in order. */
  function SourceValues(data: Dict<string, Json>): (r: seq<Json>)
    ensures |r| == |data| && forall i :: 0 <= i < |data| ==> r[i] == data[i].1
  {
    seq(|data|, i requires 0 <= i < |data| => data[i].1)
  }

  lemma SourceValuesSnoc(data: Dict<string, Json>)
    requires data != []
    ensures SourceValues(data) == SourceValues(data[..|data| - 1]) + [data[|data| - 1].1]
  {
  }

  lemma TextMapStepIsOk(m: Result<Dict<Json, Json>>, kv: (string, Json), tk: Dict<string, Json>)
    ensures TextMapStep(m, kv, tk).Ok? <==> m.Ok? && Translatable(kv, tk)
  {
  }

  lemma AllTranslatableSnoc(data: Dict<string, Json>, init: Dict<string, Json>, tk: Dict<string, Json>)
    requires data != [] && init == data[..|data| - 1]
    ensures (forall i :: 0 <= i < |data| ==> Translatable(data[i], tk)) <==>
              (forall i :: 0 <= i < |init| ==> Translatable(init[i], tk)) && Translatable(data[|data| - 1], tk)
  {
    assert forall i :: 0 <= i < |init| ==> init[i] == data[i];
  }

  /** The map exists exactly when every data key has a translation under
      its upper-cased form and every value can be hashed. */
  lemma {:induction false} TextMapFromOk(data: Dict<string, Json>, tk: Dict<string, Json>)
    ensures TextMapFrom(data, tk).Ok? <==> forall i :: 0 <= i < |data| ==> Translatable(data[i], tk)
    decreases |data|
  {
    if data != [] {
      var init := data[..|data| - 1];
      var kv := data[|data| - 1];
      TextMapFromOk(init, tk);
      assert TextMapFrom(data, tk) == TextMapStep(TextMapFrom(init, tk), kv, tk);
      TextMapStepIsOk(TextMapFrom(init, tk), kv, tk);
      AllTranslatableSnoc(data, init, tk);
    }
  }

  /** A successful step assigns the value's translation into the map. */
  lemma TextMapStepOk(m: Dict<Json, Json>, kv: (string, Json), tk: Dict<string, Json>)
    requires TextMapStep(Ok(m), kv, tk).Ok?
    ensures Get(tk, kv.0).Some?
    ensures TextMapStep(Ok(m), kv, tk) == Ok(Put(m, kv.1, Get(tk, kv.0).value))
  {
  }

  /** The keys of the map are the source values, each once. */
  lemma {:induction false} TextMapFromKeys(data: Dict<string, Json>, tk: Dict<string, Json>)
    requires TextMapFrom(data, tk).Ok?
    ensures var m := TextMapFrom(data, tk).value;
      NoDupKeys(m) && forall v :: v in KeysOf(m) <==> v in SourceValues(data)
    decreases |data|
  {
    if data != [] {
      var n := |data|;
      var init := data[..n - 1];
      var kv := data[n - 1];
      var r := TextMapFrom(init, tk);
      assert TextMapFrom(data, tk) == TextMapStep(r, kv, tk);
      assert r.Ok?;
      TextMapStepOk(r.value, kv, tk);
      TextMapFromKeys(init, tk);
      PutNoDup(r.value, kv.1, Get(tk, kv.0).value);
      SourceValuesSnoc(data);
    }
  }

  /** A value that several data keys share takes the translation of the last
      of them. */
  lemma {:induction false} TextMapFromLastWins(data: Dict<string, Json>, tk: Dict<string, Json>, j: nat)
    requires TextMapFrom(data, tk).Ok?
    requires j < |data| && forall i :: j < i < |data| ==> data[i].1 != data[j].1
    ensures Get(TextMapFrom(data, tk).value, data[j].1) == Get(tk, data[j].0)
    decreases |data|
  {
    var n := |data|;
    var init := data[..n - 1];
    var kv := data[n - 1];
    var r := TextMapFrom(init, tk);
    assert TextMapFrom(data, tk) == TextMapStep(r, kv, tk);
    assert r.Ok?;
    TextMapStepOk(r.value, kv, tk);
    if j < n - 1 {
      assert init[j] == data[j];
      assert forall i :: j < i < n - 1 ==> init[i] == data[i];
      TextMapFromLastWins(init, tk, j);
      assert kv.1 != data[j].1;
    }
  }

  /** `get_text_map` as written: the loop over the data pairs. */
  method GetTextMap(c: TranslationContainer) returns (r: Result<Dict<Json, Json>>)
    ensures r == TextMap(c)
  {
    if c.translated == [] {
      return Ok([]);
    }
    var transformed := MapKeys(c.translated, Upper);
    var mappings: Dict<Json, Json> := [];
    var i := 0;
    while i < |c.data|
      invariant 0 <= i <= |c.data|
      invariant TextMapFrom(c.data[..i], transformed) == Ok(mappings)
    {
      TextMapFromSnoc(c.data, transformed, i);
      var k := c.data[i].0;
      var v := c.data[i].1;
      var t := Get(transformed, k);
      if t.None? {
        assert TextMapFrom(c.data[..i + 1], transformed) == Err(KeyError);
        TextMapErrPrefix(c.data, transformed, i + 1);
        return Err(KeyError);
      }
      if !HashableKey(v) {
        assert TextMapFrom(c.data[..i + 1], transformed) == Err(TypeError);
        TextMapErrPrefix(c.data, transformed, i + 1);
        return Err(TypeError);
      }
      mappings := Put(mappings, v, t.value);
      i := i + 1;
    }
    assert c.data[..i] == c.data;
    r := Ok(mappings);
  }

  /** An untranslated container maps nothing; a translated one maps every
      source value, each once, to the translation of the last data key
      holding it, and fails when a data key has no translation or a value
      cannot be hashed. */
  lemma TextMapSpec(c: TranslationContainer)
    ensures c.translated == [] ==> TextMap(c) == Ok([])
    ensures c.translated != [] ==>
              (TextMap(c).Ok? <==>
                 forall i :: 0 <= i < |c.data| ==> Translatable(c.data[i], MapKeys(c.translated, Upper)))
    ensures c.translated != [] && TextMap(c).Ok? ==>
              NoDupKeys(TextMap(c).value) &&
              forall v :: v in KeysOf(TextMap(c).value) <==> v in SourceValues(c.data)
    ensures c.translated != [] && TextMap(c).Ok? ==>
              forall j :: 0 <= j < |c.data| && (forall i :: j < i < |c.data| ==> c.data[i].1 != c.data[j].1) ==>
                Get(TextMap(c).value, c.data[j].1) == Get(MapKeys(c.translated, Upper), c.data[j].0)
  {
    if c.translated != [] {
      TextMapFromOk(c.data, MapKeys(c.translated, Upper));
      if TextMap(c).Ok? {
        TextMapFromKeys(c.data, MapKeys(c.translated, Upper));
        forall j | 0 <= j < |c.data| && (forall i :: j < i < |c.data| ==> c.data[i].1 != c.data[j].1)
          ensures Get(TextMap(c).value, c.data[j].1) == Get(MapKeys(c.translated, Upper), c.data[j].0)
        {
          TextMapFromLastWins(c.data, MapKeys(c.translated, Upper), j);
        }
      }
    }
  }

  // ---------------------------------------------------------------------
  // The prompt configuration

  /** One `"k": "v"` entry of the knowledge base text. */
  function DbEntry(k: string, v: string): string {
    "\"" + k + "\": \"" + v + "\""
  }

  function DbEntries(db: Dict<string, string>): (r: seq<string>)
    ensures |r| == |db| && forall i :: 0 <= i < |db| ==> r[i] == DbEntry(db[i].0, db[i].1)
  {
    if db == [] then [] else [DbEntry(db[0].0, db[0].1)] + DbEntries(db[1..])
  }

  /** `get_text_db`: the entries joined by "; " inside brackets. */
  function TextDb(db: Dict<string, string>): (r: string)
    ensures |r| >= 2 && r[0] == '[' && r[|r| - 1] == ']'
    ensures r == "[]" <==> db == []
  {
    "[" + Join(DbEntries(db), "; ") + "]"
  }

  /** The knowledge base text is "[]" for an empty base, and one more entry
      adds "; " and the entry before the closing bracket. */
  lemma TextDbSpec(db: Dict<string, string>, k: string, v: string)
    ensures TextDb([]) == "[]"
    ensures TextDb([(k, v)]) == "[" + DbEntry(k, v) + "]"
    ensures db != [] ==> TextDb(db + [(k, v)]) == TextDb(db)[..|TextDb(db)| - 1] + "; " + DbEntry(k, v) + "]"
  {
    assert DbEntries([(k, v)]) == [DbEntry(k, v)];
    if db != [] {
      var es := DbEntries(db);
      assert DbEntries(db + [(k, v)]) == es + [DbEntry(k, v)];
      JoinSnoc(es, DbEntry(k, v), "; ");
      var t := TextDb(db);
      assert t[..|t| - 1] == "[" + Join(es, "; ");
    }
  }

  /** What `get_system_prompt` passes to the prompt's format string. */
  datatype PromptFields = PromptFields(
    dbData: string,
    sourceLang: string,
    destLang: string,
    mode: string,
    sampleIn: Dict<string, string>,
    sampleOut: Dict<string, string>)

  /** The `prompts` section, with the knowledge base and the samples set. */
  class PromptConfig {
    var system: string
    var template: Option<string>
    var batch: int
    var history: int
    var sourceLang: string
    var destLang: string
    var modes: Dict<string, string>
    var db: Dict<string, string>
    var sampleIn: Dict<string, string>
    var sampleOut: Dict<string, string>

    constructor (system: string, template: Option<string>, batch: int, history: int,
                 sourceLang: string, destLang: string, modes: Dict<string, string>,
                 db: Dict<string, string>, samples: (Dict<string, string>, Dict<string, string>))
      ensures this.system == system && this.template == template && this.batch == batch
      ensures this.history == history && this.sourceLang == sourceLang && this.destLang == destLang
      ensures this.modes == modes && this.db == db && (sampleIn, sampleOut) == samples
    {
      this.system, this.template, this.batch, this.history := system, template, batch, history;
      this.sourceLang, this.destLang, this.modes := sourceLang, destLang, modes;
      this.db := db;
      this.sampleIn, this.sampleOut := samples.0, samples.1;
    }

    /** The `db` setter: nothing but the knowledge base changes, and the
        getter returns exactly what was set. */
    method SetDb(value: Dict<string, string>)
      modifies this
      ensures db == value
      ensures TextDbText() == TextDb(value)
      ensures system == old(system) && template == old(template) && batch == old(batch)
      ensures history == old(history) && sourceLang == old(sourceLang) && destLang == old(destLang)
      ensures modes == old(modes) && Samples() == old(Samples())
    {
      db := value;
    }

    /** The `samples` getter. */
    function Samples(): (Dict<string, string>, Dict<string, string>)
      reads this
    {
      (sampleIn, sampleOut)
    }

    /** The `samples` setter: nothing but the samples change, and the getter
        returns exactly what was set. */
    method SetSamples(value: (Dict<string, string>, Dict<string, string>))
      modifies this
      ensures Samples() == value
      ensures system == old(system) && template == old(template) && batch == old(batch)
      ensures history == old(history) && sourceLang == old(sourceLang) && destLang == old(destLang)
      ensures modes == old(modes) && db == old(db)
    {
      sampleIn, sampleOut := value.0, value.1;
    }

    /** `get_text_db` on this configuration. */
    function TextDbText(): string
      reads this
    {
      TextDb(db)
    }

    /** `get_system_prompt`: the system format string filled in, `format`
        standing for `str.format` and the JSON dumps of the samples; a mode
        the configuration does not define raises KeyError. */
    function SystemPrompt(mode: string, format: (string, PromptFields) -> string): (r: Result<string>)
      reads this
      ensures r.Ok? <==> mode in KeysOf(modes)
      ensures r.Ok? ==>
                r.value == format(system, PromptFields(TextDb(db), sourceLang, destLang, Get(modes, mode).value, sampleIn, sampleOut))
    {
      match Get(modes, mode)
      case None => Err(KeyError)
      case Some(m) => Ok(format(system, PromptFields(TextDb(db), sourceLang, destLang, m, sampleIn, sampleOut)))
    }
  }
}
