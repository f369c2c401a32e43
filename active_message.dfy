/** The KMS_MapActiveMessage plugin's annotation, carried in a comment command:
    `<ActiveMessage: text>` or its Japanese alias. The regular expression
    `<(?:アクティブメッセージ|ActiveMessage)\s*[:\s]\s*([^>]+)>` is written out as
    a matcher that tries the alternatives in the order a backtracking engine
    does (greedy runs, longest first), so the group it captures is the one
    Python's `re` reports. */
module ActiveMessage {
  import opened Common
  import opened EventBase

  const TAG_JA: string := "アクティブメッセージ"
  const TAG_EN: string := "ActiveMessage"

  /** Index just past the run of whitespace that starts at `i`. */
  function SpaceEnd(s: string, i: nat): (r: nat)
    requires i <= |s|
    ensures i <= r <= |s|
    ensures forall k :: i <= k < r ==> IsSpace(s[k])
    ensures r < |s| ==> !IsSpace(s[r])
    decreases |s| - i
  {
    if i < |s| && IsSpace(s[i]) then SpaceEnd(s, i + 1) else i
  }

  /** Index of the first '>' at or after `i`, or `|s|` when there is none. */
  function CloseFrom(s: string, i: nat): (r: nat)
    requires i <= |s|
    ensures i <= r <= |s|
    ensures forall k :: i <= k < r ==> s[k] != '>'
    ensures r < |s| ==> s[r] == '>'
    decreases |s| - i
  {
    if i < |s| && s[i] != '>' then CloseFrom(s, i + 1) else i
  }

  /** A captured payload: non-empty, free of '>', sitting at `c` and followed
      by the '>' that closes the annotation. */
  ghost predicate PayloadAt(s: string, c: nat, t: string) {
    && t != []
    && (forall k :: 0 <= k < |t| ==> t[k] != '>')
    && c + |t| < |s| && s[c..c + |t|] == t && s[c + |t|] == '>'
  }

  /** `([^>]+)>` at `c`. */
  function CaptureAt(s: string, c: nat): (r: Option<string>)
    requires c <= |s|
    ensures r.Some? ==> PayloadAt(s, c, r.value)
  {
    var g := CloseFrom(s, c);
    if c < g < |s| then Some(s[c..g]) else None
  }

  /** `\s*([^>]+)>` at `m`, the run of whitespace `a` long first, then shorter. */
  function AfterSeparator(s: string, m: nat, a: nat): (r: Option<string>)
    requires m <= |s| && m + a <= SpaceEnd(s, m)
    ensures r.Some? ==> exists c :: m <= c <= m + a && PayloadAt(s, c, r.value)
    decreases a
  {
    var here := CaptureAt(s, m + a);
    if here.Some? then here
    else if a == 0 then None
    else AfterSeparator(s, m, a - 1)
  }

  /** `\s*[:\s]\s*([^>]+)>` at `p`, the first run of whitespace `a` long first. */
  function Separator(s: string, p: nat, a: nat): (r: Option<string>)
    requires p <= |s| && p + a <= SpaceEnd(s, p)
    ensures r.Some? ==> exists c :: p < c <= |s| && PayloadAt(s, c, r.value)
    decreases a
  {
    var q := p + a;
    var here :=
      if q < |s| && (s[q] == ':' || IsSpace(s[q]))
      then AfterSeparator(s, q + 1, SpaceEnd(s, q + 1) - (q + 1))
      else None;
    if here.Some? then here
    else if a == 0 then None
    else Separator(s, p, a - 1)
  }

  /** Index just past the tag of an annotation opening at `i`, if one does. */
  function TagEnd(s: string, i: nat): (r: Option<nat>)
    ensures r.Some? ==> i < r.value <= |s| && s[i] == '<'
  {
    if i < |s| && s[i] == '<' then
      if OccursAt(s, TAG_JA, i + 1) then Some(i + 1 + |TAG_JA|)
      else if OccursAt(s, TAG_EN, i + 1) then Some(i + 1 + |TAG_EN|)
      else None
    else None
  }

  /** The whole pattern anchored at `i`: the captured group, if it matches. */
  function MatchAt(s: string, i: nat): (r: Option<string>)
    ensures r.Some? ==> i < |s| && s[i] == '<'
    ensures r.Some? ==> exists c :: i < c <= |s| && PayloadAt(s, c, r.value)
  {
    match TagEnd(s, i)
    case None => None
    case Some(p) => Separator(s, p, SpaceEnd(s, p) - p)
  }

  /** `EvtActiveMessage_rgx.search(s)` succeeds. */
  predicate Found(s: string) {
    exists i: nat :: i <= |s| && MatchAt(s, i).Some?
  }

  /** What `wrap` tests before wrapping a record. */
  predicate Wraps(r: Record) {
    r.parameters != [] && r.parameters[0].JStr? && Found(r.parameters[0].s)
  }

  /** What the `text` setter writes into the first parameter. */
  function Annotation(value: string, escape: string -> string): string {
    "<ActiveMessage:" + (if '\n' in value then escape(value) else value) + ">"
  }

  lemma {:induction false} CloseFromAt(s: string, i: nat, j: nat)
    requires i <= j < |s| && s[j] == '>'
    requires forall k :: i <= k < j ==> s[k] != '>'
    ensures CloseFrom(s, i) == j
    decreases j - i
  {
    if i < j { CloseFromAt(s, i + 1, j); }
  }

  lemma SliceWithin(s: string, i: nat, a: string, j: nat, k: nat)
    requires OccursAt(s, a, i) && j <= k <= |a|
    ensures s[i + j..i + k] == a[j..k]
  {
    var t := s[i + j..i + k];
    forall x | 0 <= x < k - j ensures t[x] == a[j..k][x] {
      assert t[x] == s[i + j + x] == s[i..i + |a|][j + x];
    }
  }

  /** An English annotation opening at `i`: its tag ends at `i + 14`, where
      the ':' stands, and its value starts right after it. */
  lemma AnnotationTagAt(s: string, i: nat, value: string)
    requires value != [] && !IsSpace(value[0])
    requires OccursAt(s, "<ActiveMessage:" + value + ">", i)
    ensures i + 15 < |s|
    ensures TagEnd(s, i) == Some(i + 14)
    ensures s[i + 14] == ':' && SpaceEnd(s, i + 14) == i + 14
    ensures SpaceEnd(s, i + 15) == i + 15
  {
    var a := "<ActiveMessage:" + value + ">";
    var p := i + 1 + |TAG_EN|;
    assert s[i..i + |a|] == a;
    assert a[1..14] == "<ActiveMessage:"[1..14] == TAG_EN;
    assert s[i] == '<';
    assert !OccursAt(s, TAG_JA, i + 1) by { assert s[i + 1] == a[1] == 'A'; }
    assert OccursAt(s, TAG_EN, i + 1) by { SliceWithin(s, i, a, 1, 14); }
    assert s[p] == a[p - i] == ':';
    assert s[p + 1] == a[p + 1 - i] == value[0];
  }

  /** The value of an annotation opening at `i` is captured at `i + 15`. */
  lemma AnnotationCaptureAt(s: string, i: nat, value: string)
    requires value != []
    requires forall k :: 0 <= k < |value| ==> value[k] != '>'
    requires OccursAt(s, "<ActiveMessage:" + value + ">", i)
    ensures i + 15 <= |s| && CaptureAt(s, i + 15) == Some(value)
  {
    var a := "<ActiveMessage:" + value + ">";
    var c := i + 15;
    assert s[i..i + |a|] == a;
    forall k | c <= k < c + |value| ensures s[k] != '>' {
      assert s[k] == a[k - i] == value[k - c];
    }
    assert s[c + |value|] == a[|a| - 1] == '>';
    CloseFromAt(s, c, c + |value|);
    SliceWithin(s, i, a, 15, 15 + |value|);
    assert a[15..15 + |value|] == value;
  }

  /** An English annotation holding such a value, wherever it sits in a
      string, matches there and captures exactly the value. */
  lemma AnnotationMatchesAt(s: string, i: nat, value: string)
    requires value != [] && !IsSpace(value[0])
    requires forall k :: 0 <= k < |value| ==> value[k] != '>'
    requires OccursAt(s, "<ActiveMessage:" + value + ">", i)
    ensures MatchAt(s, i) == Some(value)
  {
    AnnotationTagAt(s, i, value);
    AnnotationCaptureAt(s, i, value);
    assert Separator(s, i + 14, 0) == AfterSeparator(s, i + 15, 0);
  }

  /** Round trip of the setter and the getter: a value that is non-empty, has
      no '>' and no newline, and does not start with whitespace is read back
      exactly. */
  lemma AnnotationRoundTrip(value: string, escape: string -> string)
    requires value != [] && !IsSpace(value[0])
    requires forall k :: 0 <= k < |value| ==> value[k] != '>' && value[k] != '\n'
    ensures MatchAt(Annotation(value, escape), 0) == Some(value)
  {
    var s := Annotation(value, escape);
    assert '\n' !in value;
    assert s == "<ActiveMessage:" + value + ">";
    AnnotationMatchesAt(s, 0, value);
  }

  /** The getter only looks at the start of the parameter: an annotation that
      appears later is found by `wrap` but yields no text. */
  lemma LaterAnnotationHasNoText(prefix: string, value: string)
    requires |prefix| > 0 && prefix[0] != '<'
    requires value != [] && !IsSpace(value[0])
    requires forall k :: 0 <= k < |value| ==> value[k] != '>'
    ensures Found(prefix + "<ActiveMessage:" + value + ">")
    ensures MatchAt(prefix + "<ActiveMessage:" + value + ">", 0) == None
  {
    var a := "<ActiveMessage:" + value + ">";
    var s := prefix + a;
    assert s == prefix + "<ActiveMessage:" + value + ">";
    assert s[|prefix|..|prefix| + |a|] == a;
    AnnotationMatchesAt(s, |prefix|, value);
  }

  /** A comment command wrapped as a KMS ActiveMessage event (the plugin's
      annotation is somewhere in its first parameter). */
  class ActiveMessage {
    const code: int
    const indent: int
    var parameters: seq<Json>

    ghost predicate Valid()
      reads this
    {
      parameters != [] && parameters[0].JStr?
    }

    function Model(): Record
      reads this
    {
      Record(code, indent, parameters)
    }

    constructor (r: Record)
      requires Wraps(r)
      ensures Model() == r && Valid()
    {
      code, indent, parameters := r.code, r.indent, r.parameters;
    }

    /** `wrap`: a wrapper carrying the record's fields unchanged exactly when
        the first parameter is a string holding an annotation; null otherwise. */
    static method Wrap(r: Record) returns (a: ActiveMessage?)
      ensures (a != null) <==> Wraps(r)
      ensures a != null ==> fresh(a) && a.Valid() && a.Model() == r
    {
      if r.parameters != [] && r.parameters[0].JStr? && Found(r.parameters[0].s) {
        a := new ActiveMessage(r);
      } else {
        a := null;
      }
    }

    /** The `text` getter: the captured group of a match anchored at the start
        of the first parameter. */
    function Text(): (t: Option<string>)
      reads this
      requires Valid()
      ensures t.Some? ==> parameters[0].s != [] && parameters[0].s[0] == '<'
      ensures t.Some? ==> exists c :: 0 < c <= |parameters[0].s| && PayloadAt(parameters[0].s, c, t.value)
    {
      MatchAt(parameters[0].s, 0)
    }

    /** The `text` setter: replaces the whole first parameter with an English-
        tagged annotation, escaping a value that holds a newline. */
    method SetText(value: string, escape: string -> string)
      requires Valid()
      modifies this
      ensures Valid()
      ensures parameters == old(parameters)[0 := JStr(Annotation(value, escape))]
      ensures '\n' !in value ==> parameters[0] == JStr("<ActiveMessage:" + value + ">")
      ensures (value != [] && !IsSpace(value[0])
               && forall k :: 0 <= k < |value| ==> value[k] != '>' && value[k] != '\n')
              ==> Text() == Some(value)
    {
      var v := value;
      if '\n' in v {
        v := escape(v);
      }
      parameters := parameters[0 := JStr("<ActiveMessage:" + v + ">")];
      if value != [] && !IsSpace(value[0]) && (forall k :: 0 <= k < |value| ==> value[k] != '>' && value[k] != '\n') {
        AnnotationRoundTrip(value, escape);
      }
    }
  }
}
