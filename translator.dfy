/** The OpenAI-compatible translator: a container's data is cut into
    chunks, each chunk is sent to the completion service inside a bounded
    conversation, and a completion is accepted only once its fenced JSON
    passes every check, with a fixed budget of counted failures. The
    service is a finite list of completions; JSON encoding and decoding
    are parameters. */
module Translator {
  import opened Common
  import opened Dict
  import opened FumblerModels

  // ------------------------------------------------------------ chunking

  /** The chunks `dict_chunk` yields for a positive size: consecutive runs
      of `size` pairs, the last one possibly shorter. */
  function ChunksOf<T>(d: seq<T>, size: nat): (r: seq<seq<T>>)
    requires size > 0
    ensures d == [] <==> r == []
    ensures forall k :: 0 <= k < |r| ==> 0 < |r[k]| <= size
    decreases |d|
  {
    if d == [] then []
    else if |d| <= size then [d]
    else [d[..size]] + ChunksOf(d[size..], size)
  }

  /** The chunks put back together in order. */
  function Flatten<T>(cs: seq<seq<T>>): seq<T> {
    if cs == [] then [] else cs[0] + Flatten(cs[1..])
  }

  /** Concatenating the chunks in order gives the input in insertion order. */
  lemma {:induction false} ChunksConcat<T>(d: seq<T>, size: nat)
    requires size > 0
    ensures Flatten(ChunksOf(d, size)) == d
    decreases |d|
  {
    if d != [] && |d| > size {
      ChunksConcat(d[size..], size);
      assert ChunksOf(d, size)[1..] == ChunksOf(d[size..], size);
      assert d[..size] + d[size..] == d;
    }
  }

  /** There are ceil(n / size) chunks. */
  lemma {:induction false} ChunksCount<T>(d: seq<T>, size: nat)
    requires size > 0
    ensures |ChunksOf(d, size)| * size >= |d|
    ensures |ChunksOf(d, size)| == 0 || (|ChunksOf(d, size)| - 1) * size < |d|
    decreases |d|
  {
    if d != [] && |d| > size {
      ChunksCount(d[size..], size);
      var k := |ChunksOf(d[size..], size)|;
      assert |ChunksOf(d, size)| == k + 1;
      assert (k + 1) * size == k * size + size;
    }
  }

  /** Every chunk holds `size` pairs except possibly the last, which is not
      empty. */
  lemma {:induction false} ChunkSizes<T>(d: seq<T>, size: nat)
    requires size > 0
    ensures var cs := ChunksOf(d, size);
      && (forall k :: 0 <= k < |cs| - 1 ==> |cs[k]| == size)
      && (cs != [] ==> 0 < |cs[|cs| - 1]| <= size)
    decreases |d|
  {
    if d != [] && |d| > size {
      ChunkSizes(d[size..], size);
      var cs := ChunksOf(d, size);
      assert cs[1..] == ChunksOf(d[size..], size);
      forall k | 0 <= k < |cs| - 1 ensures |cs[k]| == size {
        if k > 0 {
          assert cs[k] == cs[1..][k - 1];
        }
      }
    }
  }

  /** `dict_chunk(data, chunk)`: a range over the length with step `chunk`,
      each step taking the next `chunk` keys from one shared iterator. A
      zero step makes `range` raise ValueError; a negative step makes the
      range empty. */
  method DictChunk(data: Dict<string, Json>, chunk: int) returns (r: Result<seq<Dict<string, Json>>>)
    ensures chunk == 0 ==> r == Err(ValueError)
    ensures chunk < 0 ==> r == Ok([])
    ensures chunk > 0 ==> r == Ok(ChunksOf(data, chunk))
  {
    if chunk == 0 {
      return Err(ValueError);
    }
    if chunk < 0 {
      return Ok([]);
    }
    var out: seq<Dict<string, Json>> := [];
    var pos := 0;
    var i := 0;
    while i < |data|
      invariant pos == (if i < |data| then i else |data|)
      invariant out + ChunksOf(data[pos..], chunk) == ChunksOf(data, chunk)
      decreases |data| - i
    {
      var rest := data[pos..];
      var take := if |rest| <= chunk then rest else rest[..chunk];
      if |rest| > chunk {
        assert rest[chunk..] == data[pos + chunk..];
      }
      out := out + [take];
      pos := pos + |take|;
      i := i + chunk;
    }
    assert data[pos..] == [];
    assert ChunksOf(data[pos..], chunk) == [];
    assert out + [] == out;
    return Ok(out);
  }

  /** A chat message with its role. */
  datatype Message = Message(role: string, content: string)

  /** `wrap_json`: the data's indented dump inside a json code fence;
      `dumps` stands for `orjson.dumps`. */
  function WrapJson(d: Dict<string, Json>, dumps: Dict<string, Json> -> string): (r: string)
    ensures |r| == |dumps(d)| + 12
    ensures OccursAt(r, OpenFence, 0) && OccursAt(r, CloseFence, |r| - 3)
  {
    var r := "```json\n" + dumps(d) + "\n```";
    assert r[0..7] == OpenFence && r[|r| - 3..|r|] == CloseFence;
    r
  }

  /** One turn `format_messages` yields: the system prompt, the raw chunk
      and the user message built from it. */
  datatype Turn = Turn(system: string, chunk: Dict<string, Json>, user: Message)

  function UserTurns(system: string, cs: seq<Dict<string, Json>>, dumps: Dict<string, Json> -> string): (r: seq<Turn>)
    ensures |r| == |cs|
    ensures forall k :: 0 <= k < |cs| ==> r[k] == Turn(system, cs[k], Message("user", WrapJson(cs[k], dumps)))
  {
    seq(|cs|, k requires 0 <= k < |cs| => Turn(system, cs[k], Message("user", WrapJson(cs[k], dumps))))
  }

  /** The chunks of a list of turns. */
  function ChunksOfTurns(ts: seq<Turn>): (r: seq<Dict<string, Json>>)
    ensures |r| == |ts| && forall k :: 0 <= k < |ts| ==> r[k] == ts[k].chunk
  {
    seq(|ts|, k requires 0 <= k < |ts| => ts[k].chunk)
  }

  /** `format_messages`: the system prompt is looked up once, before the
      chunking runs, so its failure comes first; then the chunking's. */
  function FormatMessages(system: Result<string>, data: Dict<string, Json>, batch: int,
                          dumps: Dict<string, Json> -> string): (r: Result<seq<Turn>>)
    ensures system.Err? ==> r == Err(system.error)
    ensures system.Ok? && batch == 0 ==> r == Err(ValueError)
    ensures system.Ok? && batch < 0 ==> r == Ok([])
    ensures system.Ok? && batch > 0 ==> r.Ok?
  {
    if system.Err? then Err(system.error)
    else if batch == 0 then Err(ValueError)
    else if batch < 0 then Ok([])
    else Ok(UserTurns(system.value, ChunksOf(data, batch), dumps))
  }

  /** Every turn carries the system prompt and a user message wrapping its
      own chunk of at most `batch` pairs, and the turns' chunks, in order,
      are the section's data. */
  lemma FormatMessagesTurns(system: string, data: Dict<string, Json>, batch: int,
                            dumps: Dict<string, Json> -> string)
    requires batch > 0
    ensures var ts := FormatMessages(Ok(system), data, batch, dumps).value;
      && (forall k :: 0 <= k < |ts| ==>
            ts[k].system == system
            && ts[k].user == Message("user", WrapJson(ts[k].chunk, dumps))
            && 0 < |ts[k].chunk| <= batch)
      && Flatten(ChunksOfTurns(ts)) == data
  {
    var cs := ChunksOf(data, batch);
    var ts := UserTurns(system, cs, dumps);
    ChunksConcat(data, batch);
    ChunkBounds(data, batch);
    assert ChunksOfTurns(ts) == cs;
  }

  /** No chunk is empty or larger than `size`. */
  lemma ChunkBounds(d: Dict<string, Json>, size: nat)
    requires size > 0
    ensures forall k :: 0 <= k < |ChunksOf(d, size)| ==> 0 < |ChunksOf(d, size)[k]| <= size
  {
    var cs := ChunksOf(d, size);
    ChunkSizes(d, size);
    forall k | 0 <= k < |cs| ensures 0 < |cs[k]| <= size {
      if k < |cs| - 1 {
        assert |cs[k]| == size;
      }
    }
  }

  // ------------------------------------------------------- fenced output

  /** The first index at or after `from` where `pat` occurs. */
  function FindFrom(s: string, pat: string, from: nat): (r: Option<nat>)
    ensures r.Some? ==> from <= r.value && OccursAt(s, pat, r.value)
    ensures r.Some? ==> forall i :: from <= i < r.value ==> !OccursAt(s, pat, i)
    ensures r.None? ==> forall i :: from <= i ==> !OccursAt(s, pat, i)
    decreases |s| - from
  {
    if from + |pat| > |s| then None
    else if OccursAt(s, pat, from) then Some(from)
    else FindFrom(s, pat, from + 1)
  }

  /** The last index in `lo..hi` where `pat` occurs. */
  function FindLast(s: string, pat: string, lo: nat, hi: int): (r: Option<nat>)
    ensures r.Some? ==> lo <= r.value <= hi && OccursAt(s, pat, r.value)
    ensures r.Some? ==> forall i :: r.value < i <= hi ==> !OccursAt(s, pat, i)
    ensures r.None? ==> forall i :: lo <= i <= hi ==> !OccursAt(s, pat, i)
    decreases hi - lo
  {
    if hi < lo then None
    else if OccursAt(s, pat, hi) then Some(hi)
    else FindLast(s, pat, lo, hi - 1)
  }

  const OpenFence: string := "```json"
  const CloseFence: string := "```"

  /** `json_data_extractor.search(...).group(2)`: the pattern
      fence-"json"-anything-fence with a greedy, newline-crossing middle.
      The leftmost match starts at the first opening fence, and the middle
      runs up to the last fence after it. A match exists exactly when some
      opening fence has a later fence. */
  function ExtractFence(s: string): (r: Option<string>)
    ensures r.Some? ==> |r.value| + 10 <= |s|
    ensures (forall i :: 0 <= i ==> !OccursAt(s, OpenFence, i)) ==> r.None?
  {
    match FindFrom(s, OpenFence, 0)
    case None => None
    case Some(i) =>
      match FindLast(s, CloseFence, i + 7, |s| - 3)
      case None => None
      case Some(j) => Some(s[i + 7..j])
  }

  /** What the extraction means: a match exists exactly when some opening
      fence has a later fence, and it is the text between the first opening
      fence and the last fence. */
  lemma ExtractFenceSpec(s: string)
    ensures ExtractFence(s).Some? <==>
              exists i: nat, j: nat :: i + 7 <= j && OccursAt(s, OpenFence, i) && OccursAt(s, CloseFence, j)
    ensures ExtractFence(s).Some? ==> exists i: nat, j: nat ::
              && OccursAt(s, OpenFence, i) && (forall i' :: 0 <= i' < i ==> !OccursAt(s, OpenFence, i'))
              && i + 7 <= j && OccursAt(s, CloseFence, j) && (forall j' :: j < j' ==> !OccursAt(s, CloseFence, j'))
              && ExtractFence(s).value == s[i + 7..j]
  {
    match FindFrom(s, OpenFence, 0)
    case None =>
    case Some(i) =>
      match FindLast(s, CloseFence, i + 7, |s| - 3)
      case None =>
        assert forall i': nat, j: nat :: i' + 7 <= j && OccursAt(s, OpenFence, i') ==> !OccursAt(s, CloseFence, j);
      case Some(j) =>
  }

  /** What `wrap_json` produces is found again: the fence's body is the
      dump between the two newlines. */
  lemma FenceOfWrapped(d: Dict<string, Json>, dumps: Dict<string, Json> -> string)
    ensures ExtractFence(WrapJson(d, dumps)) == Some("\n" + dumps(d) + "\n")
  {
    var s := WrapJson(d, dumps);
    assert s[0..7] == OpenFence;
    assert FindFrom(s, OpenFence, 0) == Some(0);
    assert s[|s| - 3..|s|] == CloseFence;
    assert FindLast(s, CloseFence, 7, |s| - 3) == Some(|s| - 3);
    assert s[7..|s| - 3] == "\n" + dumps(d) + "\n";
  }

  // ------------------------------------------------------ text checks

  /** A character `jp_regex` matches: a kanji in 一-龠, a hiragana in ぁ-ゔ,
      a katakana in ァ-ヴ, or the long-vowel mark ー. */
  predicate IsJapanese(c: char) {
    || ('\U{4E00}' <= c <= '\U{9FA0}')
    || ('\U{3041}' <= c <= '\U{3094}')
    || ('\U{30A1}' <= c <= '\U{30F4}')
    || c == '\U{30FC}'
  }

  /** `jp_regex.search(s)` succeeds. */
  predicate HasJapanese(s: string) {
    exists i :: 0 <= i < |s| && IsJapanese(s[i])
  }

  /** `JP_Braces.search(s)` succeeds: a 「 or a 」 occurs. */
  predicate HasBraces(s: string) {
    '\U{300C}' in s || '\U{300D}' in s
  }

  /** The five characters the post-fix table replaces. */
  predicate FullWidth(c: char) {
    c == '\U{FF1F}' || c == '\U{FF01}' || c == '\U{3002}' || c == '\U{2026}' || c == '\U{3000}'
  }

  /** One entry of `post_fix`: ？ ！ 。 … and the ideographic space become
      ? ! . ... and a space; every other character is kept. */
  function PostFixChar(c: char): (r: string)
    ensures !FullWidth(c) ==> r == [c]
    ensures forall k :: 0 <= k < |r| ==> !FullWidth(r[k])
  {
    if c == '\U{FF1F}' then "?"
    else if c == '\U{FF01}' then "!"
    else if c == '\U{3002}' then "."
    else if c == '\U{2026}' then "..."
    else if c == '\U{3000}' then " "
    else [c]
  }

  /** `s.translate(post_fix)`. */
  function PostFix(s: string): (r: string)
    ensures |r| >= |s|
  {
    if s == [] then [] else PostFixChar(s[0]) + PostFix(s[1..])
  }

  lemma {:induction false} PostFixAppend(a: string, b: string)
    ensures PostFix(a + b) == PostFix(a) + PostFix(b)
    decreases |a|
  {
    if a == [] {
      assert a + b == b;
    } else {
      assert (a + b)[0] == a[0];
      assert (a + b)[1..] == a[1..] + b;
      PostFixAppend(a[1..], b);
    }
  }

  /** After the post-fix no replaced character is left. */
  lemma {:induction false} PostFixClean(s: string)
    ensures forall k :: 0 <= k < |PostFix(s)| ==> !FullWidth(PostFix(s)[k])
    decreases |s|
  {
    if s != [] {
      PostFixClean(s[1..]);
      var h := PostFixChar(s[0]);
      forall k | 0 <= k < |PostFix(s)| ensures !FullWidth(PostFix(s)[k]) {
        if k >= |h| {
          assert PostFix(s)[k] == PostFix(s[1..])[k - |h|];
        }
      }
    }
  }

  /** A text without the replaced characters is left as it is. */
  lemma {:induction false} PostFixPlain(s: string)
    requires forall k :: 0 <= k < |s| ==> !FullWidth(s[k])
    ensures PostFix(s) == s
    decreases |s|
  {
    if s != [] {
      PostFixPlain(s[1..]);
      assert s == [s[0]] + s[1..];
    }
  }

  /** Post-fixing twice is post-fixing once. */
  lemma PostFixIdempotent(s: string)
    ensures PostFix(PostFix(s)) == PostFix(s)
  {
    PostFixClean(s);
    PostFixPlain(PostFix(s));
  }

  // --------------------------------------------------- one completion

  /** `isinstance(t, type(v))`. A bool is an instance of int, since
      Python's bool subclasses int. */
  predicate IsInstance(t: Json, v: Json) {
    match v
    case JNull => t.JNull?
    case JBool(_) => t.JBool?
    case JInt(_) => t.JInt? || t.JBool?
    case JStr(_) => t.JStr?
    case JList(_) => t.JList?
    case JObj(_) => t.JObj?
  }

  /** `key_ignore.get(k, 0)`. */
  function IgnoreCount(ignore: Dict<string, int>, k: string): int {
    match Get(ignore, k)
    case None => 0
    case Some(n) => n
  }

  /** How one key of the raw chunk fares against the upper-cased response,
      in the order the checks run. */
  datatype KeyCheck = Pass | Missing | WrongType | WrongLength | BraceMismatch

  /** What the key loop demands of one key: present under its upper-cased
      name, of the original's type, of the original's length for a list, and
      with brackets 「」 in the translation exactly when the original has
      them, unless the key has been rejected for brackets three times. */
  predicate KeyOk(k: string, v: Json, resp: Dict<string, Json>, ignore: Dict<string, int>) {
    && Get(resp, Upper(k)).Some?
    && IsInstance(Get(resp, Upper(k)).value, v)
    && (v.JList? ==> |Get(resp, Upper(k)).value.items| == |v.items|)
    && ((v.JStr? && HasBraces(v.s)) == (v.JStr? && HasBraces(Get(resp, Upper(k)).value.s))
        || IgnoreCount(ignore, Upper(k)) > 2)
  }

  /** The checks of one key: present, of the original's type, of the
      original's length for a list, and with brackets 「」 in the
      translation exactly when the original has them, a bracket mismatch
      being tolerated once the key has been rejected for it three times. */
  function CheckKey(k: string, v: Json, resp: Dict<string, Json>, ignore: Dict<string, int>): (r: KeyCheck)
    ensures r == Pass <==> KeyOk(k, v, resp, ignore)
    ensures r == BraceMismatch ==> IgnoreCount(ignore, Upper(k)) <= 2 && v.JStr?
  {
    var key := Upper(k);
    match Get(resp, key)
    case None => Missing
    case Some(t) =>
      if !IsInstance(t, v) then WrongType
      else if v.JList? && t.JList? && |t.items| != |v.items| then WrongLength
      else
        var inOrig := v.JStr? && HasBraces(v.s);
        var inTl := v.JStr? && t.JStr? && HasBraces(t.s);
        if inOrig != inTl && IgnoreCount(ignore, key) <= 2 then BraceMismatch else Pass
  }

  /** The first key, from `from` on, whose check fails: where the key loop
      breaks. */
  function FirstFailure(raw: Dict<string, Json>, resp: Dict<string, Json>, ignore: Dict<string, int>, from: nat): (r: Option<nat>)
    ensures r.Some? ==> from <= r.value < |raw| && CheckKey(raw[r.value].0, raw[r.value].1, resp, ignore) != Pass
    ensures forall i :: from <= i < (if r.Some? then r.value else |raw|) ==>
              CheckKey(raw[i].0, raw[i].1, resp, ignore) == Pass
  {
    FirstNonPass(Checks(raw, resp, ignore), from)
  }

  /** The outcome of each key's checks, in the order of the raw chunk. */
  function Checks(raw: Dict<string, Json>, resp: Dict<string, Json>, ignore: Dict<string, int>): (r: seq<KeyCheck>)
    ensures |r| == |raw| && forall i :: 0 <= i < |raw| ==> r[i] == CheckKey(raw[i].0, raw[i].1, resp, ignore)
  {
    seq(|raw|, i requires 0 <= i < |raw| => CheckKey(raw[i].0, raw[i].1, resp, ignore))
  }

  /** The first outcome, from `from` on, that is not a pass. */
  function FirstNonPass(cs: seq<KeyCheck>, from: nat): (r: Option<nat>)
    ensures r.Some? ==> from <= r.value < |cs| && cs[r.value] != Pass
    ensures forall i :: from <= i < (if r.Some? then r.value else |cs|) ==> cs[i] == Pass
    decreases |cs| - from
  {
    if from >= |cs| then None
    else if cs[from] != Pass then Some(from)
    else FirstNonPass(cs, from + 1)
  }

  /** `key_ignore[k] = key_ignore.setdefault(k, 0) + 1`. */
  function Bump(ignore: Dict<string, int>, k: string): (r: Dict<string, int>)
    ensures IgnoreCount(r, k) == IgnoreCount(ignore, k) + 1
    ensures forall k' :: k' != k ==> IgnoreCount(r, k') == IgnoreCount(ignore, k')
  {
    Put(ignore, k, IgnoreCount(ignore, k) + 1)
  }

  /** `v.translate(post_fix)` on the strings of the response. */
  function PostFixValue(j: Json): Json {
    if j.JStr? then JStr(PostFix(j.s)) else j
  }

  /** The post-fix loop assigns every key its post-fixed value in place. */
  function PostFixValues(d: Dict<string, Json>): (r: Dict<string, Json>)
    ensures |r| == |d| && forall i :: 0 <= i < |d| ==> r[i] == (d[i].0, PostFixValue(d[i].1))
  {
    seq(|d|, i requires 0 <= i < |d| => (d[i].0, PostFixValue(d[i].1)))
  }

  lemma {:induction false} PostFixValuesGet(d: Dict<string, Json>, k: string)
    ensures Get(PostFixValues(d), k) == if Get(d, k).Some? then Some(PostFixValue(Get(d, k).value)) else None
    decreases |d|
  {
    if d != [] {
      assert PostFixValues(d)[1..] == PostFixValues(d[1..]);
      PostFixValuesGet(d[1..], k);
    }
  }

  /** What a completion amounts to before the key checks. */
  datatype Screened =
    | Dropped        // the stream broke off
    | NoFence        // no fenced json found
    | Undecodable    // the fence's body is not JSON
    | NotObject      // the body decodes to something without `keys`
    | KeyCount       // not as many keys as the raw chunk
    | Japanese       // Japanese text left in the body
    | Parsed(resp: Dict<string, Json>)  // the object, keys upper-cased

  /** The checks of `do_retryable_completion_text` up to the key loop;
      `decode` stands for `orjson.loads`. */
  function Screen(raw: Dict<string, Json>, inject: string, response: Option<string>,
                  decode: string -> Option<Json>): (r: Screened)
    ensures r.Dropped? <==> response.None?
    ensures r.Parsed? ==> response.Some? && ExtractFence(inject + response.value).Some?
                          && !HasJapanese(ExtractFence(inject + response.value).value)
  {
    match response
    case None => Dropped
    case Some(text) =>
      match ExtractFence(inject + text)
      case None => NoFence
      case Some(body) =>
        match decode(body)
        case None => Undecodable
        case Some(j) =>
          if !j.JObj? then NotObject
          else if |j.entries| != |raw| then KeyCount
          else if HasJapanese(body) then Japanese
          else Parsed(MapKeys(j.entries, Upper))
  }

  /** The failures that spend one of the tries. */
  predicate Counted(raw: Dict<string, Json>, inject: string, response: Option<string>,
                    decode: string -> Option<Json>)
  {
    var s := Screen(raw, inject, response, decode);
    s.NoFence? || s.Undecodable? || s.KeyCount?
  }

  /** What the loop does with one completion: try again (spending a try or
      not, with the bracket counters as they now stand), raise, or return. */
  datatype Verdict =
    | Again(ignore: Dict<string, int>, counted: bool)
    | Raise(error: Error)
    | Accept(result: Dict<string, Json>)

  /** The object accepted for a raw chunk: every raw key, upper-cased, is
      present with a value of the original's type and, for a list, of its
      length; no string in it keeps a replaced character. */
  predicate Acceptable(raw: Dict<string, Json>, m: Dict<string, Json>) {
    && (forall i :: 0 <= i < |raw| ==>
          && Get(m, Upper(raw[i].0)).Some?
          && IsInstance(Get(m, Upper(raw[i].0)).value, raw[i].1)
          && (raw[i].1.JList? ==> |Get(m, Upper(raw[i].0)).value.items| == |raw[i].1.items|))
    && (forall i, c :: 0 <= i < |m| && m[i].1.JStr? && 0 <= c < |m[i].1.s| ==> !FullWidth(m[i].1.s[c]))
  }

  function Judge(raw: Dict<string, Json>, inject: string, response: Option<string>,
                 decode: string -> Option<Json>, ignore: Dict<string, int>): (r: Verdict)
    ensures r.Accept? ==> Acceptable(raw, r.result)
    ensures response.None? ==> r == Again(ignore, false)
  {
    var sc := Screen(raw, inject, response, decode);
    DecideParsed(sc, raw, ignore);
    if sc.Parsed? && KeyVerdict(raw, sc.resp, ignore).Accept? then
      KeyVerdictAccepted(raw, sc.resp, ignore);
      Decide(sc, raw, ignore)
    else Decide(sc, raw, ignore)
  }

  /** The verdict once the checks before the key loop have run. */
  function Decide(sc: Screened, raw: Dict<string, Json>, ignore: Dict<string, int>): Verdict {
    match sc
    case Dropped => Again(ignore, false)
    case NoFence => Again(ignore, true)
    case Undecodable => Again(ignore, true)
    case NotObject => Raise(AttributeError)
    case KeyCount => Again(ignore, true)
    case Japanese => Again(ignore, false)
    case Parsed(resp) => KeyVerdict(raw, resp, ignore)
  }

  /** The key loop's verdict on a parsed response: another try after the
      first failing key, a bracket mismatch bumping that key's counter, or
      the post-fixed response once every key passes. */
  function KeyVerdict(raw: Dict<string, Json>, resp: Dict<string, Json>, ignore: Dict<string, int>): Verdict {
    match FirstFailure(raw, resp, ignore, 0)
    case Some(f) =>
      Again(if CheckKey(raw[f].0, raw[f].1, resp, ignore) == BraceMismatch then Bump(ignore, Upper(raw[f].0)) else ignore, false)
    case None => Accept(PostFixValues(resp))
  }

  /** A key check failure spends no try and bumps at most the counter of
      the failing key, from at most two. */
  lemma KeyVerdictIgnore(raw: Dict<string, Json>, resp: Dict<string, Json>, ignore: Dict<string, int>)
    requires KeyVerdict(raw, resp, ignore).Again?
    ensures var v := KeyVerdict(raw, resp, ignore);
      && !v.counted
      && (|| v.ignore == ignore
          || exists i :: 0 <= i < |raw| && IgnoreCount(ignore, Upper(raw[i].0)) <= 2 && v.ignore == Bump(ignore, Upper(raw[i].0)))
  {
    var f := FirstFailure(raw, resp, ignore, 0).value;
    if CheckKey(raw[f].0, raw[f].1, resp, ignore) == BraceMismatch {
      assert IgnoreCount(ignore, Upper(raw[f].0)) <= 2;
    }
  }

  /** Only a missing fence, an undecodable body or a wrong key count spend
      a try; the body's `keys` missing raises AttributeError. */
  lemma JudgeCounted(raw: Dict<string, Json>, inject: string, response: Option<string>,
                     decode: string -> Option<Json>, ignore: Dict<string, int>)
    ensures var r := Judge(raw, inject, response, decode, ignore);
      && (r.Again? && r.counted <==> Counted(raw, inject, response, decode))
      && (r.Raise? <==> Screen(raw, inject, response, decode).NotObject?)
      && (r.Raise? ==> r.error == AttributeError)
  {
  }

  /** A response whose every key passes gives, once post-fixed, an
      acceptable object. */
  lemma PassedAcceptable(raw: Dict<string, Json>, resp: Dict<string, Json>, ignore: Dict<string, int>)
    requires FirstFailure(raw, resp, ignore, 0).None?
    ensures Acceptable(raw, PostFixValues(resp))
  {
    var m := PostFixValues(resp);
    forall i | 0 <= i < |raw|
      ensures Get(m, Upper(raw[i].0)).Some?
      ensures IsInstance(Get(m, Upper(raw[i].0)).value, raw[i].1)
      ensures raw[i].1.JList? ==> |Get(m, Upper(raw[i].0)).value.items| == |raw[i].1.items|
    {
      assert CheckKey(raw[i].0, raw[i].1, resp, ignore) == Pass;
      PostFixValuesGet(resp, Upper(raw[i].0));
    }
    forall i, c | 0 <= i < |m| && m[i].1.JStr? && 0 <= c < |m[i].1.s|
      ensures !FullWidth(m[i].1.s[c])
    {
      PostFixClean(resp[i].1.s);
    }
  }

  /** Only a parsed response reaches the key loop; every other rejection
      leaves the bracket counters alone. */
  lemma DecideParsed(sc: Screened, raw: Dict<string, Json>, ignore: Dict<string, int>)
    ensures Decide(sc, raw, ignore).Accept? ==> sc.Parsed?
    ensures sc.Parsed? ==> Decide(sc, raw, ignore) == KeyVerdict(raw, sc.resp, ignore)
    ensures !sc.Parsed? && Decide(sc, raw, ignore).Again? ==> Decide(sc, raw, ignore).ignore == ignore
  {
  }

  lemma KeyVerdictAccepted(raw: Dict<string, Json>, resp: Dict<string, Json>, ignore: Dict<string, int>)
    requires KeyVerdict(raw, resp, ignore).Accept?
    ensures Acceptable(raw, KeyVerdict(raw, resp, ignore).result)
  {
    PassedAcceptable(raw, resp, ignore);
  }

  /** An accepted completion passed every check. */
  lemma JudgeAccepted(raw: Dict<string, Json>, inject: string, response: Option<string>,
                      decode: string -> Option<Json>, ignore: Dict<string, int>)
    requires Judge(raw, inject, response, decode, ignore).Accept?
    ensures Acceptable(raw, Judge(raw, inject, response, decode, ignore).result)
  {
    var sc := Screen(raw, inject, response, decode);
    DecideParsed(sc, raw, ignore);
    KeyVerdictAccepted(raw, sc.resp, ignore);
  }

  /** A rejection changes the bracket counters at most by one for the key
      it was rejected for, and only from at most two; so no counter passes
      three. */
  lemma JudgeIgnore(raw: Dict<string, Json>, inject: string, response: Option<string>,
                    decode: string -> Option<Json>, ignore: Dict<string, int>)
    requires Judge(raw, inject, response, decode, ignore).Again?
    ensures var ig := Judge(raw, inject, response, decode, ignore).ignore;
      || ig == ignore
      || exists i :: 0 <= i < |raw| && IgnoreCount(ignore, Upper(raw[i].0)) <= 2 && ig == Bump(ignore, Upper(raw[i].0))
    ensures (forall k :: IgnoreCount(ignore, k) <= 3) ==>
              forall k :: IgnoreCount(Judge(raw, inject, response, decode, ignore).ignore, k) <= 3
  {
    var sc := Screen(raw, inject, response, decode);
    DecideParsed(sc, raw, ignore);
    if sc.Parsed? {
      KeyVerdictIgnore(raw, sc.resp, ignore);
    }
  }

  /** The key loop of `do_retryable_completion_text`: whether some key
      failed, and the bracket counters after it. */
  method CheckKeys(raw: Dict<string, Json>, resp: Dict<string, Json>, ignore: Dict<string, int>)
    returns (failed: bool, ig: Dict<string, int>)
    ensures var f := FirstFailure(raw, resp, ignore, 0);
      && (failed <==> f.Some?)
      && ig == (if f.Some? && CheckKey(raw[f.value].0, raw[f.value].1, resp, ignore) == BraceMismatch
                then Bump(ignore, Upper(raw[f.value].0)) else ignore)
  {
    ghost var cs := Checks(raw, resp, ignore);
    var i := 0;
    while i < |raw|
      invariant 0 <= i <= |raw|
      invariant FirstNonPass(cs, 0) == FirstNonPass(cs, i)
    {
      var c := CheckOne(raw[i].0, raw[i].1, resp, ignore);
      assert c == cs[i];
      if c != Pass {
        assert FirstFailure(raw, resp, ignore, 0) == Some(i);
        if c == BraceMismatch {
          return true, Bump(ignore, Upper(raw[i].0));
        }
        return true, ignore;
      }
      i := i + 1;
    }
    assert FirstFailure(raw, resp, ignore, 0) == None;
    return false, ignore;
  }

  /** The checks of one key, in the order the key loop runs them. */
  method CheckOne(k: string, v: Json, resp: Dict<string, Json>, ignore: Dict<string, int>) returns (c: KeyCheck)
    ensures c == CheckKey(k, v, resp, ignore)
  {
    var key := Upper(k);
    var inOrig := v.JStr? && HasBraces(v.s);
    if key !in KeysOf(resp) {
      return Missing;
    }
    var t := Get(resp, key).value;
    if !IsInstance(t, v) {
      return WrongType;
    } else if v.JList? && t.JList? && |t.items| != |v.items| {
      return WrongLength;
    }
    var inTl := v.JStr? && t.JStr? && HasBraces(t.s);
    if inOrig != inTl && IgnoreCount(ignore, key) <= 2 {
      return BraceMismatch;
    }
    return Pass;
  }

  /** The post-fix loop: each string value replaced in place. */
  method PostFixAll(resp: Dict<string, Json>) returns (r: Dict<string, Json>)
    ensures r == PostFixValues(resp)
  {
    r := resp;
    var i := 0;
    while i < |r|
      invariant 0 <= i <= |r| && |r| == |resp|
      invariant forall j :: 0 <= j < i ==> r[j] == (resp[j].0, PostFixValue(resp[j].1))
      invariant forall j :: i <= j < |r| ==> r[j] == resp[j]
    {
      var (k, v) := r[i];
      if v.JStr? {
        r := r[i := (k, JStr(PostFix(v.s)))];
      }
      i := i + 1;
    }
  }

  /** The checks before the key loop, in the order they run. */
  method ScreenOf(raw: Dict<string, Json>, inject: string, response: Option<string>,
                  decode: string -> Option<Json>) returns (s: Screened)
    ensures s == Screen(raw, inject, response, decode)
  {
    if response.None? {
      return Dropped;
    }
    var full := inject + response.value;
    var extracted := ExtractFence(full);
    if extracted.None? {
      return NoFence;
    }
    var body := extracted.value;
    var decoded := decode(body);
    if decoded.None? {
      return Undecodable;
    }
    var j := decoded.value;
    if !j.JObj? {
      return NotObject;
    }
    if |j.entries| != |raw| {
      return KeyCount;
    }
    if HasJapanese(body) {
      return Japanese;
    }
    return Parsed(MapKeys(j.entries, Upper));
  }

  /** One pass of the retry loop's body on one completion. */
  method Attempt(raw: Dict<string, Json>, inject: string, response: Option<string>,
                 decode: string -> Option<Json>, ignore: Dict<string, int>) returns (v: Verdict)
    ensures v == Judge(raw, inject, response, decode, ignore)
  {
    var s := ScreenOf(raw, inject, response, decode);
    match s
    case Dropped => return Again(ignore, false);
    case NoFence => return Again(ignore, true);
    case Undecodable => return Again(ignore, true);
    case NotObject => return Raise(AttributeError);
    case KeyCount => return Again(ignore, true);
    case Japanese => return Again(ignore, false);
    case Parsed(resp) =>
      var failed, ig := CheckKeys(raw, resp, ignore);
      if failed {
        return Again(ig, false);
      }
      var fixed := PostFixAll(resp);
      return Accept(fixed);
  }

  // --------------------------------------------------------- retry loop

  /** `do_retryable_completion_text` from the completion at `at` on, with
      `tries` left and the bracket counters `ignore`: the accepted object,
      None once the tries are spent, or what was raised; and the index of
      the next unused completion. */
  function Retry(raw: Dict<string, Json>, inject: string, rs: seq<Option<string>>,
                 decode: string -> Option<Json>, at: nat, tries: nat, ignore: Dict<string, int>)
    : (r: (Result<Option<Dict<string, Json>>>, nat))
    ensures at <= r.1 && (r.1 > at ==> r.1 <= |rs|)
    ensures r.0 == Err(NoResponse) ==> r.1 >= |rs|
    ensures r.0.Ok? && r.0.value.Some? ==> at < r.1
    decreases |rs| - at
  {
    if tries == 0 then (Ok(None), at)
    else if at >= |rs| then (Err(NoResponse), at)
    else match Judge(raw, inject, rs[at], decode, ignore)
      case Raise(e) => (Err(e), at + 1)
      case Accept(m) => (Ok(Some(m)), at + 1)
      case Again(ig, counted) => Retry(raw, inject, rs, decode, at + 1, if counted then tries - 1 else tries, ig)
  }

  /** How many of the completions spend a try. */
  function NumCounted(raw: Dict<string, Json>, inject: string, xs: seq<Option<string>>,
                      decode: string -> Option<Json>): nat
  {
    if xs == [] then 0
    else (if Counted(raw, inject, xs[0], decode) then 1 else 0) + NumCounted(raw, inject, xs[1..], decode)
  }

  /** The budget facts about the loop run from `at`, as `RetryBudget` states them. */
  predicate BudgetKept(raw: Dict<string, Json>, inject: string, rs: seq<Option<string>>,
                       decode: string -> Option<Json>, at: nat, tries: nat, ignore: Dict<string, int>)
    requires at <= |rs|
  {
    var (r, n) := Retry(raw, inject, rs, decode, at, tries, ignore);
    && at <= n <= |rs|
    && NumCounted(raw, inject, rs[at..n], decode) <= tries
    && (r == Ok(None) <==> NumCounted(raw, inject, rs[at..n], decode) == tries)
    && (r == Ok(None) && tries > 0 ==> at < n && Counted(raw, inject, rs[n - 1], decode))
    && (r == Err(NoResponse) ==> n == |rs|)
  }

  /** A completion that raises or is accepted ends the loop having spent nothing. */
  lemma BudgetStop(raw: Dict<string, Json>, inject: string, rs: seq<Option<string>>,
                   decode: string -> Option<Json>, at: nat, tries: nat, ignore: Dict<string, int>)
    requires at < |rs| && tries > 0
    requires !Judge(raw, inject, rs[at], decode, ignore).Again?
    ensures BudgetKept(raw, inject, rs, decode, at, tries, ignore)
  {
    JudgeCounted(raw, inject, rs[at], decode, ignore);
    assert rs[at..at + 1] == [rs[at]];
    assert NumCounted(raw, inject, [rs[at]][1..], decode) == 0;
  }

  /** A completion that sends the loop round again spends a try exactly when
      it is counted. */
  lemma BudgetAgain(raw: Dict<string, Json>, inject: string, rs: seq<Option<string>>,
                    decode: string -> Option<Json>, at: nat, tries: nat, ignore: Dict<string, int>,
                    ig: Dict<string, int>, counted: bool)
    requires at < |rs| && tries > 0
    requires Judge(raw, inject, rs[at], decode, ignore) == Again(ig, counted)
    requires BudgetKept(raw, inject, rs, decode, at + 1, if counted then tries - 1 else tries, ig)
    ensures BudgetKept(raw, inject, rs, decode, at, tries, ignore)
  {
    JudgeCounted(raw, inject, rs[at], decode, ignore);
    var (r, n) := Retry(raw, inject, rs, decode, at + 1, if counted then tries - 1 else tries, ig);
    assert Retry(raw, inject, rs, decode, at, tries, ignore) == (r, n);
    assert rs[at..n][1..] == rs[at + 1..n];
  }

  /** The retry budget: the loop gives up exactly when the completions it
      consumed hold `tries` counted failures, the last one counted; on any
      other outcome fewer were spent. Dropped streams, Japanese text and
      failed key checks never spend a try. */
  lemma {:induction false} RetryBudget(raw: Dict<string, Json>, inject: string, rs: seq<Option<string>>,
                                       decode: string -> Option<Json>, at: nat, tries: nat, ignore: Dict<string, int>)
    requires at <= |rs|
    ensures BudgetKept(raw, inject, rs, decode, at, tries, ignore)
    decreases |rs| - at
  {
    if tries > 0 && at < |rs| {
      var v := Judge(raw, inject, rs[at], decode, ignore);
      if v.Again? {
        RetryBudget(raw, inject, rs, decode, at + 1, if v.counted then tries - 1 else tries, v.ignore);
        BudgetAgain(raw, inject, rs, decode, at, tries, ignore, v.ignore, v.counted);
      } else {
        BudgetStop(raw, inject, rs, decode, at, tries, ignore);
      }
    } else {
      assert rs[at..at] == [];
    }
  }

  /** Whatever the loop returns passed every check against the raw chunk. */
  lemma {:induction false} RetryAccepted(raw: Dict<string, Json>, inject: string, rs: seq<Option<string>>,
                                         decode: string -> Option<Json>, at: nat, tries: nat, ignore: Dict<string, int>)
    ensures var r := Retry(raw, inject, rs, decode, at, tries, ignore).0;
      r.Ok? && r.value.Some? ==> Acceptable(raw, r.value.value)
    decreases |rs| - at
  {
    if tries > 0 && at < |rs| {
      match Judge(raw, inject, rs[at], decode, ignore)
      case Raise(e) =>
      case Accept(m) =>
        JudgeAccepted(raw, inject, rs[at], decode, ignore);
      case Again(ig, counted) =>
        RetryAccepted(raw, inject, rs, decode, at + 1, if counted then tries - 1 else tries, ig);
    }
  }

  /** `do_retryable_completion_text`: ten tries and fresh bracket counters
      per call; completion `i` of the service is `rs[i]`, starting at
      `start`, with None for a stream that broke off. */
  method RetryableCompletion(raw: Dict<string, Json>, inject: string, rs: seq<Option<string>>,
                             decode: string -> Option<Json>, start: nat)
    returns (r: Result<Option<Dict<string, Json>>>, next: nat)
    ensures (r, next) == Retry(raw, inject, rs, decode, start, 10, [])
  {
    var tries: nat := 10;
    var ignore: Dict<string, int> := [];
    var at := start;
    while tries > 0
      invariant start <= at
      invariant Retry(raw, inject, rs, decode, start, 10, []) == Retry(raw, inject, rs, decode, at, tries, ignore)
      decreases |rs| - at
    {
      if at >= |rs| {
        return Err(NoResponse), at;
      }
      var v := Attempt(raw, inject, rs[at], decode, ignore);
      at := at + 1;
      match v
      case Raise(e) =>
        return Err(e), at;
      case Accept(m) =>
        return Ok(Some(m)), at;
      case Again(ig, counted) =>
        ignore := ig;
        if counted {
          tries := tries - 1;
        }
    }
    return Ok(None), at;
  }

  // ------------------------------------------------------- one container

  /** The configuration the translator reads: batch size, history length,
      target language, whether a prompt template is configured, and
      `get_system_prompt` by section type. */
  datatype Settings = Settings(
    batch: int,
    history: int,
    destLang: string,
    hasTemplate: bool,
    system: string -> Result<string>)

  /** The completion service, `rs[i]` being the i-th completion it streams
      (None where the stream broke off), with `orjson.loads` and
      `orjson.dumps`. */
  datatype Service = Service(
    rs: seq<Option<string>>,
    decode: string -> Option<Json>,
    dumps: Dict<string, Json> -> string)

  /** `collections.deque(maxlen=n)` holding `s` appended in order: the last
      `n` entries. */
  function Window(s: seq<Message>, n: nat): (r: seq<Message>)
    ensures |r| == if |s| <= n then |s| else n
    ensures r == s[|s| - |r|..]
  {
    if |s| <= n then s else s[|s| - n..]
  }

  /** The state of `do_container` between chunks: the translations so far,
      the conversation window, the message lists sent for each chunk, the
      objects accepted chunk by chunk, and the next unused completion. */
  datatype Conv = Conv(
    translated: Dict<string, Json>,
    queue: seq<Message>,
    sent: seq<seq<Message>>,
    accepted: seq<Dict<string, Json>>,
    next: nat)

  /** What `do_container` appends after the target language. */
  function Inject(destLang: string): string {
    "Translated " + destLang + ":\n```json"
  }

  /** The messages of one turn: the system prompt, then the window. */
  function Prompt(t: Turn, q: seq<Message>): seq<Message> {
    [Message("system", t.system)] + q
  }

  /** The assistant's answer `do_container` keeps in the window. */
  function Answer(m: Dict<string, Json>, dumps: Dict<string, Json> -> string): Message {
    Message("assistant", WrapJson(m, dumps))
  }

  /** The state after turn `t` was sent with window `q`, completions were
      used up to `n` and `m` was accepted: a non-empty object is merged into
      the translations and enters the window as the assistant's answer. */
  function AcceptStep(st: Conv, t: Turn, q: seq<Message>, m: Dict<string, Json>, n: nat,
                      dumps: Dict<string, Json> -> string, maxlen: nat): Conv
  {
    Conv(if m != [] then Update(st.translated, m) else st.translated,
         if m != [] then Window(q + [Answer(m, dumps)], maxlen) else q,
         st.sent + [Prompt(t, q)],
         st.accepted + [m],
         n)
  }

  /** The chunk loop of `do_container` from turn `j` on. The user message
      enters the window before the completion. When the tries run out, the
      code as written raises NameError (`asWritten`), where the give-up
      branch evidently means to stop and keep what was translated. */
  function ChunkLoop(ts: seq<Turn>, j: nat, st: Conv, cfg: Settings, svc: Service, maxlen: nat, asWritten: bool): (r: Result<Conv>)
    ensures r.Ok? ==> st.accepted <= r.value.accepted && st.sent <= r.value.sent && st.next <= r.value.next
    ensures r.Ok? && asWritten && j <= |ts| ==> |r.value.accepted| == |st.accepted| + |ts| - j
    decreases |ts| - j
  {
    if j >= |ts| then Ok(st)
    else if !cfg.hasTemplate then Err(NotImplemented)
    else
      var q := Window(st.queue + [ts[j].user], maxlen);
      var (r, n) := Retry(ts[j].chunk, Inject(cfg.destLang), svc.rs, svc.decode, st.next, 10, []);
      match r
      case Err(e) => Err(e)
      case Ok(None) =>
        if asWritten then Err(NameError) else Ok(st.(queue := q, sent := st.sent + [Prompt(ts[j], q)], next := n))
      case Ok(Some(m)) => ChunkLoop(ts, j + 1, AcceptStep(st, ts[j], q, m, n, svc.dumps, maxlen), cfg, svc, maxlen, asWritten)
  }

  /** `do_container` on a container, the service's completions used from
      `start` on: the container with its translations merged, and the final
      loop state. A negative history makes the deque raise ValueError before
      anything else. */
  function RunContainer(c: TranslationContainer, cfg: Settings, svc: Service, start: nat, asWritten: bool)
    : (r: Result<(TranslationContainer, Conv)>)
    ensures cfg.history < 0 ==> r == Err(ValueError)
    ensures r.Ok? ==> r.value.0.tlType == c.tlType && r.value.0.data == c.data && start <= r.value.1.next
  {
    if cfg.history * 2 < 0 then Err(ValueError)
    else
      match FormatMessages(cfg.system(c.tlType), c.data, cfg.batch, svc.dumps)
      case Err(e) => Err(e)
      case Ok(ts) =>
        match ChunkLoop(ts, 0, Conv(c.translated, [], [], [], start), cfg, svc, cfg.history * 2, asWritten)
        case Err(e) => Err(e)
        case Ok(st) => Ok((c.(translated := st.translated), st))
  }

  /** The translations after a run: the old ones updated by each accepted
      object in turn. */
  function Merged(d: Dict<string, Json>, ms: seq<Dict<string, Json>>): Dict<string, Json>
    decreases |ms|
  {
    if ms == [] then d else Update(Merged(d, ms[..|ms| - 1]), ms[|ms| - 1])
  }

  /** The messages sent for turn `k`: the system prompt, then at most
      `maxlen` entries of the window, of which the last is turn `k`'s user
      message (unless the window holds nothing). */
  predicate Prompted(ts: seq<Turn>, k: nat, msgs: seq<Message>, maxlen: nat)
    requires k < |ts|
  {
    && msgs != [] && msgs[0] == Message("system", ts[k].system)
    && |msgs| <= 1 + maxlen
    && (maxlen > 0 ==> |msgs| >= 2 && msgs[|msgs| - 1] == ts[k].user)
  }

  /** The previous chunk's answer, when there was one, comes just before
      the user message (given room for both in the window). */
  predicate Remembered(accepted: seq<Dict<string, Json>>, sent: seq<seq<Message>>, k: nat,
                       dumps: Dict<string, Json> -> string, maxlen: nat)
    requires 0 < k < |sent| && k - 1 < |accepted|
  {
    maxlen >= 2 && accepted[k - 1] != [] ==>
      |sent[k]| >= 3 && sent[k][|sent[k]| - 2] == Answer(accepted[k - 1], dumps)
  }

  /** What holds of the loop state after `j` accepted turns. */
  predicate LoopInvariant(ts: seq<Turn>, j: nat, st: Conv, c: TranslationContainer,
                          dumps: Dict<string, Json> -> string, maxlen: nat)
  {
    && j <= |ts|
    && |st.sent| == j && |st.accepted| == j
    && st.translated == Merged(c.translated, st.accepted)
    && |st.queue| <= maxlen
    && (j > 0 && maxlen > 0 && st.accepted[j - 1] != [] ==> st.queue != [] && st.queue[|st.queue| - 1] == Answer(st.accepted[j - 1], dumps))
    && (forall k :: 0 <= k < j ==> Acceptable(ts[k].chunk, st.accepted[k]))
    && (forall k :: 0 <= k < j ==> Prompted(ts, k, st.sent[k], maxlen))
    && (forall k :: 0 < k < j ==> Remembered(st.accepted, st.sent, k, dumps, maxlen))
  }

  /** The window of turn `j`: bounded, ending with the user message, the
      previous answer before it. */
  lemma UserWindow(ts: seq<Turn>, j: nat, st: Conv, c: TranslationContainer,
                   dumps: Dict<string, Json> -> string, maxlen: nat)
    requires LoopInvariant(ts, j, st, c, dumps, maxlen) && j < |ts|
    ensures var q := Window(st.queue + [ts[j].user], maxlen);
      && Prompted(ts, j, Prompt(ts[j], q), maxlen)
      && (j > 0 ==> Remembered(st.accepted, st.sent + [Prompt(ts[j], q)], j, dumps, maxlen))
  {
    var s := st.queue + [ts[j].user];
    var q := Window(s, maxlen);
    var p := Prompt(ts[j], q);
    if maxlen > 0 {
      assert q[|q| - 1] == s[|s| - 1];
    }
    if j > 0 && maxlen >= 2 && st.accepted[j - 1] != [] {
      assert q[|q| - 2] == s[|s| - 2];
      assert (st.sent + [p])[j] == p;
    }
  }

  /** Accepting keeps the invariant. */
  lemma AcceptKeeps(ts: seq<Turn>, j: nat, st: Conv, c: TranslationContainer, m: Dict<string, Json>, n: nat,
                    dumps: Dict<string, Json> -> string, maxlen: nat)
    requires LoopInvariant(ts, j, st, c, dumps, maxlen) && j < |ts| && Acceptable(ts[j].chunk, m)
    ensures LoopInvariant(ts, j + 1, AcceptStep(st, ts[j], Window(st.queue + [ts[j].user], maxlen), m, n, dumps, maxlen),
                          c, dumps, maxlen)
  {
    AcceptMerges(ts, j, st, c, m, n, dumps, maxlen);
    AcceptChecks(ts, j, st, m, n, dumps, maxlen);
    AcceptPrompts(ts, j, st, c, m, n, dumps, maxlen);
    AcceptRemembers(ts, j, st, c, m, n, dumps, maxlen);
    AcceptQueue(ts, j, st, c, m, n, dumps, maxlen);
  }

  lemma AcceptMerges(ts: seq<Turn>, j: nat, st: Conv, c: TranslationContainer, m: Dict<string, Json>, n: nat,
                     dumps: Dict<string, Json> -> string, maxlen: nat)
    requires j < |ts| && |st.accepted| == j && st.translated == Merged(c.translated, st.accepted)
    ensures var st2 := AcceptStep(st, ts[j], Window(st.queue + [ts[j].user], maxlen), m, n, dumps, maxlen);
      st2.translated == Merged(c.translated, st2.accepted)
  {
    var acc := st.accepted + [m];
    assert acc[..j] == st.accepted;
  }

  lemma AcceptChecks(ts: seq<Turn>, j: nat, st: Conv, m: Dict<string, Json>, n: nat,
                     dumps: Dict<string, Json> -> string, maxlen: nat)
    requires j < |ts| && |st.accepted| == j && Acceptable(ts[j].chunk, m)
    requires forall k :: 0 <= k < j ==> Acceptable(ts[k].chunk, st.accepted[k])
    ensures var st2 := AcceptStep(st, ts[j], Window(st.queue + [ts[j].user], maxlen), m, n, dumps, maxlen);
      forall k :: 0 <= k < j + 1 ==> Acceptable(ts[k].chunk, st2.accepted[k])
  {
  }

  lemma AcceptPrompts(ts: seq<Turn>, j: nat, st: Conv, c: TranslationContainer, m: Dict<string, Json>, n: nat,
                      dumps: Dict<string, Json> -> string, maxlen: nat)
    requires LoopInvariant(ts, j, st, c, dumps, maxlen) && j < |ts|
    ensures var st2 := AcceptStep(st, ts[j], Window(st.queue + [ts[j].user], maxlen), m, n, dumps, maxlen);
      forall k :: 0 <= k < j + 1 ==> Prompted(ts, k, st2.sent[k], maxlen)
  {
    UserWindow(ts, j, st, c, dumps, maxlen);
  }

  lemma AcceptQueue(ts: seq<Turn>, j: nat, st: Conv, c: TranslationContainer, m: Dict<string, Json>, n: nat,
                    dumps: Dict<string, Json> -> string, maxlen: nat)
    requires LoopInvariant(ts, j, st, c, dumps, maxlen) && j < |ts|
    ensures var st2 := AcceptStep(st, ts[j], Window(st.queue + [ts[j].user], maxlen), m, n, dumps, maxlen);
      && |st2.queue| <= maxlen
      && (maxlen > 0 && m != [] ==> st2.queue != [] && st2.queue[|st2.queue| - 1] == Answer(m, dumps))
  {
    var q := Window(st.queue + [ts[j].user], maxlen);
    var st2 := AcceptStep(st, ts[j], q, m, n, dumps, maxlen);
    if m != [] && maxlen > 0 {
      var s := q + [Answer(m, dumps)];
      assert st2.queue[|st2.queue| - 1] == s[|s| - 1];
    }
  }

  lemma AcceptRemembers(ts: seq<Turn>, j: nat, st: Conv, c: TranslationContainer, m: Dict<string, Json>, n: nat,
                        dumps: Dict<string, Json> -> string, maxlen: nat)
    requires LoopInvariant(ts, j, st, c, dumps, maxlen) && j < |ts|
    ensures var st2 := AcceptStep(st, ts[j], Window(st.queue + [ts[j].user], maxlen), m, n, dumps, maxlen);
      forall k :: 0 < k < j + 1 ==> Remembered(st2.accepted, st2.sent, k, dumps, maxlen)
  {
    var q := Window(st.queue + [ts[j].user], maxlen);
    var st2 := AcceptStep(st, ts[j], q, m, n, dumps, maxlen);
    UserWindow(ts, j, st, c, dumps, maxlen);
    var sent := st.sent + [Prompt(ts[j], q)];
    forall k | 0 < k < j + 1 ensures Remembered(st2.accepted, st2.sent, k, dumps, maxlen) {
      if k < j {
        RememberedFrame(st.accepted, st.sent, st2.accepted, st2.sent, k, dumps, maxlen);
      } else {
        RememberedFrame(st.accepted, sent, st2.accepted, st2.sent, k, dumps, maxlen);
      }
    }
  }

  lemma RememberedFrame(acc: seq<Dict<string, Json>>, sent: seq<seq<Message>>,
                        acc2: seq<Dict<string, Json>>, sent2: seq<seq<Message>>, k: nat,
                        dumps: Dict<string, Json> -> string, maxlen: nat)
    requires 0 < k < |sent| && k - 1 < |acc| && Remembered(acc, sent, k, dumps, maxlen)
    requires k < |sent2| && k - 1 < |acc2| && sent2[k] == sent[k] && acc2[k - 1] == acc[k - 1]
    ensures Remembered(acc2, sent2, k, dumps, maxlen)
  {
  }

  /** The outcome of a run from a state that keeps the invariant. */
  predicate RunShape(ts: seq<Turn>, st: Conv, c: TranslationContainer, dumps: Dict<string, Json> -> string, maxlen: nat) {
    && |st.sent| <= |ts|
    && |st.accepted| <= |st.sent| <= |st.accepted| + 1
    && (|st.accepted| < |ts| ==> |st.sent| == |st.accepted| + 1)
    && st.translated == Merged(c.translated, st.accepted)
    && (forall k :: 0 <= k < |st.accepted| ==> Acceptable(ts[k].chunk, st.accepted[k]))
    && (forall k :: 0 <= k < |st.sent| ==> Prompted(ts, k, st.sent[k], maxlen))
    && (forall k :: 0 < k < |st.sent| ==> Remembered(st.accepted, st.sent, k, dumps, maxlen))
  }

  lemma {:induction false} ChunkLoopShape(ts: seq<Turn>, j: nat, st: Conv, c: TranslationContainer,
                                          cfg: Settings, svc: Service, maxlen: nat)
    requires LoopInvariant(ts, j, st, c, svc.dumps, maxlen)
    ensures var r := ChunkLoop(ts, j, st, cfg, svc, maxlen, false);
      r.Ok? ==> RunShape(ts, r.value, c, svc.dumps, maxlen)
    decreases |ts| - j
  {
    if j < |ts| && cfg.hasTemplate {
      var q := Window(st.queue + [ts[j].user], maxlen);
      var (r, n) := Retry(ts[j].chunk, Inject(cfg.destLang), svc.rs, svc.decode, st.next, 10, []);
      if r == Ok(None) {
        GiveUpShape(ts, j, st, c, n, svc.dumps, maxlen);
      } else if r.Ok? {
        var m := r.value.value;
        RetryAccepted(ts[j].chunk, Inject(cfg.destLang), svc.rs, svc.decode, st.next, 10, []);
        AcceptKeeps(ts, j, st, c, m, n, svc.dumps, maxlen);
        ChunkLoopShape(ts, j + 1, AcceptStep(st, ts[j], q, m, n, svc.dumps, maxlen), c, cfg, svc, maxlen);
      }
    }
  }

  /** Giving up on turn `j` ends the run in the shape promised. */
  lemma GiveUpShape(ts: seq<Turn>, j: nat, st: Conv, c: TranslationContainer, n: nat,
                    dumps: Dict<string, Json> -> string, maxlen: nat)
    requires LoopInvariant(ts, j, st, c, dumps, maxlen) && j < |ts|
    ensures var q := Window(st.queue + [ts[j].user], maxlen);
      RunShape(ts, st.(queue := q, sent := st.sent + [Prompt(ts[j], q)], next := n), c, dumps, maxlen)
  {
    var q := Window(st.queue + [ts[j].user], maxlen);
    UserWindow(ts, j, st, c, dumps, maxlen);
    GiveUpPrompts(ts, j, st.sent, Prompt(ts[j], q), maxlen);
    GiveUpRemembers(st.accepted, st.sent, Prompt(ts[j], q), dumps, maxlen);
  }

  lemma GiveUpPrompts(ts: seq<Turn>, j: nat, sent: seq<seq<Message>>, p: seq<Message>, maxlen: nat)
    requires j < |ts| && |sent| == j && Prompted(ts, j, p, maxlen)
    requires forall k :: 0 <= k < j ==> Prompted(ts, k, sent[k], maxlen)
    ensures forall k :: 0 <= k < j + 1 ==> Prompted(ts, k, (sent + [p])[k], maxlen)
  {
    forall k | 0 <= k < j + 1 ensures Prompted(ts, k, (sent + [p])[k], maxlen) {
      if k < j {
        assert (sent + [p])[k] == sent[k];
      }
    }
  }

  lemma GiveUpRemembers(acc: seq<Dict<string, Json>>, sent: seq<seq<Message>>, p: seq<Message>,
                        dumps: Dict<string, Json> -> string, maxlen: nat)
    requires |acc| == |sent|
    requires forall k :: 0 < k < |sent| ==> Remembered(acc, sent, k, dumps, maxlen)
    requires |sent| > 0 ==> Remembered(acc, sent + [p], |sent|, dumps, maxlen)
    ensures forall k :: 0 < k < |sent| + 1 ==> Remembered(acc, sent + [p], k, dumps, maxlen)
  {
    forall k | 0 < k < |sent| + 1 ensures Remembered(acc, sent + [p], k, dumps, maxlen) {
      if k < |sent| {
        RememberedFrame(acc, sent, acc, sent + [p], k, dumps, maxlen);
      }
    }
  }

  /** What `do_container` promises: the container keeps its type and data;
      its translations are the old ones updated by every accepted object in
      order, the i-th accepted object passing every check against the i-th
      chunk; the chunks are worked in order and the run stops after the
      first chunk it gives up on; and every prompt is the system prompt
      followed by at most twice `history` messages of the conversation,
      ending with the chunk's own user message, the previous answer just
      before it. */
  lemma ContainerShape(c: TranslationContainer, cfg: Settings, svc: Service, start: nat)
    ensures var r := RunContainer(c, cfg, svc, start, false);
      r.Ok? ==>
        && cfg.history >= 0
        && r.value.0 == c.(translated := Merged(c.translated, r.value.1.accepted))
        && RunShape(FormatMessages(cfg.system(c.tlType), c.data, cfg.batch, svc.dumps).value,
                    r.value.1, c, svc.dumps, cfg.history * 2)
  {
    if cfg.history * 2 >= 0 {
      var f := FormatMessages(cfg.system(c.tlType), c.data, cfg.batch, svc.dumps);
      if f.Ok? {
        var init := Conv(c.translated, [], [], [], start);
        assert LoopInvariant(f.value, 0, init, c, svc.dumps, cfg.history * 2);
        ChunkLoopShape(f.value, 0, init, c, cfg, svc, cfg.history * 2);
      }
    }
  }

  /** Giving up on a chunk: as written, the warning names `idx`, which is
      not defined in `do_container`, so the run raises NameError; the
      evident intent is to stop and return the container, here with nothing
      translated yet. */
  lemma GiveUpAsWritten(c: TranslationContainer, cfg: Settings, svc: Service, start: nat)
    requires cfg.history >= 0 && cfg.hasTemplate
    requires FormatMessages(cfg.system(c.tlType), c.data, cfg.batch, svc.dumps).Ok?
    requires var ts := FormatMessages(cfg.system(c.tlType), c.data, cfg.batch, svc.dumps).value;
      ts != [] && Retry(ts[0].chunk, Inject(cfg.destLang), svc.rs, svc.decode, start, 10, []).0 == Ok(None)
    ensures RunContainer(c, cfg, svc, start, true) == Err(NameError)
    ensures RunContainer(c, cfg, svc, start, false).Ok?
    ensures RunContainer(c, cfg, svc, start, false).value.0 == c
  {
  }

  /** `do_container`, with the give-up branch stopping as intended. */
  method DoContainer(c: TranslationContainer, cfg: Settings, svc: Service, start: nat)
    returns (r: Result<(TranslationContainer, Conv)>)
    ensures r == RunContainer(c, cfg, svc, start, false)
  {
    if cfg.history * 2 < 0 {
      return Err(ValueError);
    }
    var maxlen: nat := cfg.history * 2;
    var system := cfg.system(c.tlType);
    if system.Err? {
      return Err(system.error);
    }
    var chunks := DictChunk(c.data, cfg.batch);
    if chunks.Err? {
      return Err(chunks.error);
    }
    var ts := UserTurns(system.value, chunks.value, svc.dumps);
    assert FormatMessages(system, c.data, cfg.batch, svc.dumps) == Ok(ts);
    var st := Conv(c.translated, [], [], [], start);
    ghost var st0 := st;
    var j := 0;
    while j < |ts|
      invariant 0 <= j <= |ts|
      invariant ChunkLoop(ts, 0, st0, cfg, svc, maxlen, false) == ChunkLoop(ts, j, st, cfg, svc, maxlen, false)
    {
      if !cfg.hasTemplate {
        return Err(NotImplemented);
      }
      var res, more := ChunkTurn(ts, j, st, cfg, svc, maxlen);
      if !more {
        if res.Err? {
          return Err(res.error);
        }
        return Ok((c.(translated := res.value.translated), res.value));
      }
      st := res.value;
      j := j + 1;
    }
    return Ok((c.(translated := st.translated), st));
  }

  /** One pass of the chunk loop in `do_container`: the user message enters
      the window, the completion is retried, and an accepted object is
      merged and remembered; `more` is false once the run is over. */
  method ChunkTurn(ts: seq<Turn>, j: nat, st: Conv, cfg: Settings, svc: Service, maxlen: nat)
    returns (r: Result<Conv>, more: bool)
    requires j < |ts| && cfg.hasTemplate
    ensures more ==> r.Ok? && ChunkLoop(ts, j, st, cfg, svc, maxlen, false) == ChunkLoop(ts, j + 1, r.value, cfg, svc, maxlen, false)
    ensures !more ==> r == ChunkLoop(ts, j, st, cfg, svc, maxlen, false)
  {
    var translated, queue, sent, accepted := st.translated, st.queue, st.sent, st.accepted;
    queue := Window(queue + [ts[j].user], maxlen);
    sent := sent + [Prompt(ts[j], queue)];
    var response, next := RetryableCompletion(ts[j].chunk, Inject(cfg.destLang), svc.rs, svc.decode, st.next);
    if response.Err? {
      return Err(response.error), false;
    }
    if response.value.None? {
      return Ok(Conv(translated, queue, sent, accepted, next)), false;
    }
    var m := response.value.value;
    if m != [] {
      translated := Update(translated, m);
      queue := Window(queue + [Answer(m, svc.dumps)], maxlen);
    }
    accepted := accepted + [m];
    return Ok(Conv(translated, queue, sent, accepted, next)), true;
  }

  // ------------------------------------------------------------ batches

  /** The queue `translate_containers_batched` fills: the index and the
      container of every slot that holds one, in order. */
  function Pending(ts: seq<Option<TranslationContainer>>): (p: seq<(nat, TranslationContainer)>)
    ensures forall k :: 0 <= k < |p| ==> p[k].0 < |ts| && ts[p[k].0] == Some(p[k].1)
    ensures forall k, l :: 0 <= k < l < |p| ==> p[k].0 < p[l].0
    decreases |ts|
  {
    if ts == [] then []
    else
      var p := Pending(ts[..|ts| - 1]);
      if ts[|ts| - 1].Some? then p + [(|ts| - 1, ts[|ts| - 1].value)] else p
  }

  /** Every slot that holds a container is queued. */
  lemma {:induction false} PendingCovers(ts: seq<Option<TranslationContainer>>, i: nat)
    requires i < |ts| && ts[i].Some?
    ensures exists k :: 0 <= k < |Pending(ts)| && Pending(ts)[k].0 == i
    decreases |ts|
  {
    var p := Pending(ts[..|ts| - 1]);
    if i == |ts| - 1 {
      assert Pending(ts)[|p|].0 == i;
    } else {
      PendingCovers(ts[..|ts| - 1], i);
      var k :| 0 <= k < |p| && p[k].0 == i;
      assert Pending(ts)[k] == p[k];
    }
  }

  /** The workers, run one after the other, from queue entry `k` on: the
      `(index, container)` responses in the order they finish. */
  function Work(p: seq<(nat, TranslationContainer)>, k: nat, next: nat, done: seq<(nat, TranslationContainer)>,
                cfg: Settings, svc: Service): (r: Result<seq<(nat, TranslationContainer)>>)
    ensures r.Ok? ==> done <= r.value && |r.value| == |done| + (if k <= |p| then |p| - k else 0)
    decreases |p| - k
  {
    if k >= |p| then Ok(done)
    else
      match RunContainer(p[k].1, cfg, svc, next, false)
      case Err(e) => Err(e)
      case Ok(run) => Work(p, k + 1, run.1.next, done + [(p[k].0, run.0)], cfg, svc)
  }

  /** `to_tl_containers[idx] = container` for every response, in order. */
  function WriteBack(ts: seq<Option<TranslationContainer>>, rs: seq<(nat, TranslationContainer)>)
    : (r: seq<Option<TranslationContainer>>)
    ensures |r| == |ts|
    decreases |rs|
  {
    if rs == [] then ts
    else
      var w := WriteBack(ts, rs[..|rs| - 1]);
      var (i, c) := rs[|rs| - 1];
      if i < |w| then w[i := Some(c)] else w
  }

  /** `translate_containers_batched`, the workers sharing one service. */
  function Batched(ts: seq<Option<TranslationContainer>>, cfg: Settings, svc: Service)
    : (r: Result<seq<Option<TranslationContainer>>>)
    ensures r.Ok? ==> |r.value| == |ts|
    ensures Pending(ts) == [] ==> r == Ok(ts)
  {
    match Work(Pending(ts), 0, 0, [], cfg, svc)
    case Err(e) => Err(e)
    case Ok(rs) => Ok(WriteBack(ts, rs))
  }

  /** `c2` is what `do_container` makes of `c` for some position of the
      service. */
  ghost predicate Processed(c: TranslationContainer, cfg: Settings, svc: Service, c2: TranslationContainer) {
    exists n: nat :: RunContainer(c, cfg, svc, n, false).Ok? && RunContainer(c, cfg, svc, n, false).value.0 == c2
  }

  lemma {:induction false} WorkSpec(p: seq<(nat, TranslationContainer)>, k: nat, next: nat, done: seq<(nat, TranslationContainer)>,
                                    cfg: Settings, svc: Service)
    requires k <= |p| && |done| == k
    requires forall l :: 0 <= l < k ==> done[l].0 == p[l].0 && Processed(p[l].1, cfg, svc, done[l].1)
    ensures var r := Work(p, k, next, done, cfg, svc);
      r.Ok? ==> |r.value| == |p| && forall l :: 0 <= l < |p| ==> r.value[l].0 == p[l].0 && Processed(p[l].1, cfg, svc, r.value[l].1)
    decreases |p| - k
  {
    if k < |p| {
      var run := RunContainer(p[k].1, cfg, svc, next, false);
      if run.Ok? {
        var done' := done + [(p[k].0, run.value.0)];
        assert Processed(p[k].1, cfg, svc, run.value.0);
        assert forall l :: 0 <= l < k ==> done'[l] == done[l];
        WorkSpec(p, k + 1, run.value.1.next, done', cfg, svc);
      }
    }
  }

  lemma {:induction false} WriteBackAt(ts: seq<Option<TranslationContainer>>, rs: seq<(nat, TranslationContainer)>, k: nat)
    requires k < |rs| && rs[k].0 < |ts|
    requires forall l :: k < l < |rs| ==> rs[l].0 != rs[k].0
    ensures WriteBack(ts, rs)[rs[k].0] == Some(rs[k].1)
    decreases |rs|
  {
    if k < |rs| - 1 {
      WriteBackAt(ts, rs[..|rs| - 1], k);
    }
  }

  lemma {:induction false} WriteBackElse(ts: seq<Option<TranslationContainer>>, rs: seq<(nat, TranslationContainer)>, i: nat)
    requires i < |ts| && forall l :: 0 <= l < |rs| ==> rs[l].0 != i
    ensures WriteBack(ts, rs)[i] == ts[i]
    decreases |rs|
  {
    if rs != [] {
      WriteBackElse(ts, rs[..|rs| - 1], i);
    }
  }

  /** What `translate_containers_batched` promises: a list of the same
      length, every empty slot left empty, and every other slot holding
      what `do_container` made of that slot's container, with its type and
      data unchanged. */
  lemma BatchedShape(ts: seq<Option<TranslationContainer>>, cfg: Settings, svc: Service)
    ensures var r := Batched(ts, cfg, svc);
      r.Ok? ==>
        && |r.value| == |ts|
        && (forall i :: 0 <= i < |ts| && ts[i].None? ==> r.value[i].None?)
        && (forall i :: 0 <= i < |ts| && ts[i].Some? ==>
              && r.value[i].Some?
              && Processed(ts[i].value, cfg, svc, r.value[i].value)
              && r.value[i].value.tlType == ts[i].value.tlType
              && r.value[i].value.data == ts[i].value.data)
  {
    var p := Pending(ts);
    WorkSpec(p, 0, 0, [], cfg, svc);
    var w := Work(p, 0, 0, [], cfg, svc);
    if w.Ok? {
      var rs := w.value;
      forall i | 0 <= i < |ts| && ts[i].None? ensures WriteBack(ts, rs)[i].None? {
        WriteBackElse(ts, rs, i);
      }
      forall i | 0 <= i < |ts| && ts[i].Some?
        ensures WriteBack(ts, rs)[i].Some?
        ensures Processed(ts[i].value, cfg, svc, WriteBack(ts, rs)[i].value)
        ensures WriteBack(ts, rs)[i].value.tlType == ts[i].value.tlType
        ensures WriteBack(ts, rs)[i].value.data == ts[i].value.data
      {
        PendingCovers(ts, i);
        var k :| 0 <= k < |p| && p[k].0 == i;
        WriteBackAt(ts, rs, k);
        var n: nat :| RunContainer(p[k].1, cfg, svc, n, false).Ok? && RunContainer(p[k].1, cfg, svc, n, false).value.0 == rs[k].1;
        ContainerShape(p[k].1, cfg, svc, n);
      }
    }
  }

  /** The first loop of `translate_containers_batched`: every slot that
      holds a container is queued with its index. */
  method QueueContainers(ts: seq<Option<TranslationContainer>>) returns (queue: seq<(nat, TranslationContainer)>)
    ensures queue == Pending(ts)
  {
    queue := [];
    for idx := 0 to |ts|
      invariant queue == Pending(ts[..idx])
    {
      assert ts[..idx + 1][..idx] == ts[..idx];
      if ts[idx].Some? {
        queue := queue + [(idx, ts[idx].value)];
      }
    }
    assert ts[..|ts|] == ts;
  }

  /** `container_worker`: take the next queued container, run
      `do_container` on it and record the response with its index. The five
      workers are run here one after the other, sharing the service. */
  method ContainerWorker(queue: seq<(nat, TranslationContainer)>, cfg: Settings, svc: Service)
    returns (r: Result<seq<(nat, TranslationContainer)>>)
    ensures r == Work(queue, 0, 0, [], cfg, svc)
  {
    var responses: seq<(nat, TranslationContainer)> := [];
    var next := 0;
    var k := 0;
    while k < |queue|
      invariant k <= |queue|
      invariant Work(queue, 0, 0, [], cfg, svc) == Work(queue, k, next, responses, cfg, svc)
    {
      var run := DoContainer(queue[k].1, cfg, svc, next);
      if run.Err? {
        return Err(run.error);
      }
      responses := responses + [(queue[k].0, run.value.0)];
      next := run.value.1.next;
      k := k + 1;
    }
    return Ok(responses);
  }

  /** The last loop of `translate_containers_batched`: each response
      written to its slot. */
  method WriteResponses(ts: seq<Option<TranslationContainer>>, responses: seq<(nat, TranslationContainer)>)
    returns (out: seq<Option<TranslationContainer>>)
    requires forall l :: 0 <= l < |responses| ==> responses[l].0 < |ts|
    ensures out == WriteBack(ts, responses)
  {
    out := ts;
    for l := 0 to |responses|
      invariant out == WriteBack(ts, responses[..l])
    {
      assert responses[..l + 1][..l] == responses[..l];
      out := out[responses[l].0 := Some(responses[l].1)];
    }
    assert responses[..|responses|] == responses;
  }

  /** `translate_containers_batched`: queue, work, write back. */
  method TranslateContainersBatched(ts: seq<Option<TranslationContainer>>, cfg: Settings, svc: Service)
    returns (r: Result<seq<Option<TranslationContainer>>>)
    ensures r == Batched(ts, cfg, svc)
  {
    var queue := QueueContainers(ts);
    var responses := ContainerWorker(queue, cfg, svc);
    if responses.Err? {
      return Err(responses.error);
    }
    WorkSpec(queue, 0, 0, [], cfg, svc);
    var out := WriteResponses(ts, responses.value);
    return Ok(out);
  }
}
