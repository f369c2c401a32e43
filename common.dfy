/** Values shared by every part of the model: the JSON-shaped data the game
    files and the completion service carry, failure-compatible wrappers, and
    the handful of Python string operations the core relies on. */
module Common {

  datatype Option<T> = None | Some(value: T)

  /** The Python exceptions the core can raise, by kind. */
  datatype Error =
    | IndexError
    | KeyError
    | TypeError
    | ValueError
    | AttributeError
    | NameError
    | NotImplemented
    | NonConformingCode(code: int)
      /** Not a Python exception: the finite stand-in for the completion
          service has no completion left to give. */
    | NoResponse

  datatype Result<T> = Ok(value: T) | Err(error: Error)

  /** A decoded JSON value. Python tuples are represented as lists: the core
      only builds tuples from lists and compares them structurally. */
  datatype Json =
    | JNull
    | JBool(b: bool)
    | JInt(i: int)
    | JStr(s: string)
    | JList(items: seq<Json>)
    | JObj(entries: seq<(string, Json)>)

  /** A value that is neither a container nor a list. */
  predicate Atom(j: Json) {
    j.JNull? || j.JBool? || j.JInt? || j.JStr?
  }

  /** A value Python can use as a dict key once a top-level list has been
      turned into a tuple: an atom, or a list of atoms (an inner list stays a
      list, and lists and dicts cannot be hashed). */
  predicate HashableKey(j: Json) {
    Atom(j) || (j.JList? && forall k :: 0 <= k < |j.items| ==> Atom(j.items[k]))
  }

  /** Python truthiness of a JSON value. */
  predicate Truthy(j: Json) {
    match j
    case JNull => false
    case JBool(b) => b
    case JInt(i) => i != 0
    case JStr(s) => s != ""
    case JList(items) => items != []
    case JObj(entries) => entries != []
  }

  /** The single-character strings of `s`, as Python iterates a string. */
  function Chars(s: string): (r: seq<Json>)
    ensures |r| == |s|
    ensures forall i :: 0 <= i < |s| ==> r[i] == JStr([s[i]])
  {
    if s == [] then [] else [JStr([s[0]])] + Chars(s[1..])
  }

  /** The keys of an object, as Python iterates a dict. */
  function KeyStrings(entries: seq<(string, Json)>): (r: seq<Json>)
    ensures |r| == |entries|
    ensures forall i :: 0 <= i < |entries| ==> r[i] == JStr(entries[i].0)
  {
    if entries == [] then [] else [JStr(entries[0].0)] + KeyStrings(entries[1..])
  }

  /** `tuple(j)` / `list(j)`: what iterating a value yields, or None where
      Python raises TypeError (numbers, booleans, None). */
  function Iterate(j: Json): (r: Option<seq<Json>>)
    ensures j.JList? ==> r == Some(j.items)
    ensures r.Some? <==> (j.JList? || j.JStr? || j.JObj?)
  {
    match j
    case JList(items) => Some(items)
    case JStr(s) => Some(Chars(s))
    case JObj(entries) => Some(KeyStrings(entries))
    case _ => None
  }

  /** `len(j)`, or None where Python raises TypeError. */
  function Len(j: Json): (r: Option<nat>)
    ensures r.Some? <==> Iterate(j).Some?
    ensures r.Some? ==> r.value == |Iterate(j).value|
  {
    match j
    case JList(items) => Some(|items|)
    case JStr(s) => Some(|s|)
    case JObj(entries) => Some(|entries|)
    case _ => None
  }

  /** `j[i]` for an integer index: lists and strings are indexed, a dict is
      looked up by the integer key (which no JSON object has), anything else
      raises. */
  function ElemAt(j: Json, i: nat): (r: Result<Json>)
    ensures r.Ok? <==> ((j.JList? && i < |j.items|) || (j.JStr? && i < |j.s|))
    ensures j.JList? && i < |j.items| ==> r == Ok(j.items[i])
  {
    match j
    case JList(items) => if i < |items| then Ok(items[i]) else Err(IndexError)
    case JStr(s) => if i < |s| then Ok(JStr([s[i]])) else Err(IndexError)
    case JObj(_) => Err(KeyError)
    case _ => Err(TypeError)
  }

  /** Python's `str.isspace()` (also the class `\s` of `re` on str patterns). */
  predicate IsSpace(c: char) {
    c == ' ' || ('\t' <= c <= '\r') || ('\U{1C}' <= c <= '\U{1F}')
    || c == '\U{85}' || c == '\U{A0}' || c == '\U{1680}'
    || ('\U{2000}' <= c <= '\U{200A}') || c == '\U{2028}' || c == '\U{2029}'
    || c == '\U{202F}' || c == '\U{205F}' || c == '\U{3000}'
  }

  /** Python's `str.lstrip()`. */
  function LStrip(s: string): (r: string)
    ensures |r| <= |s| && r == s[|s| - |r|..]
    ensures r != [] ==> !IsSpace(r[0])
    ensures forall i :: 0 <= i < |s| - |r| ==> IsSpace(s[i])
  {
    if s != [] && IsSpace(s[0]) then LStrip(s[1..]) else s
  }

  /** Python's `str.rstrip()`. */
  function RStrip(s: string): (r: string)
    ensures |r| <= |s| && r == s[..|r|]
    ensures r != [] ==> !IsSpace(r[|r| - 1])
    ensures forall i :: |r| <= i < |s| ==> IsSpace(s[i])
  {
    if s != [] && IsSpace(s[|s| - 1]) then RStrip(s[..|s| - 1]) else s
  }

  /** Python's `str.strip()`. */
  function Strip(s: string): (r: string)
    ensures |r| <= |s|
    ensures r != [] ==> !IsSpace(r[0]) && !IsSpace(r[|r| - 1])
  {
    var l := LStrip(s);
    assert RStrip(l) != [] ==> RStrip(l)[0] == l[0];
    RStrip(l)
  }

  /** The stripped text is empty exactly when every character is whitespace;
      otherwise it starts with the first character that is not. */
  lemma StripFirst(s: string)
    ensures Strip(s) == [] <==> forall i :: 0 <= i < |s| ==> IsSpace(s[i])
    ensures Strip(s) != [] ==>
              exists k :: (0 <= k < |s| && Strip(s)[0] == s[k] && !IsSpace(s[k])
                           && forall i :: 0 <= i < k ==> IsSpace(s[i]))
  {
    var l := LStrip(s);
    var k := |s| - |l|;
    if l != [] {
      assert RStrip(l) != [] && RStrip(l)[0] == l[0] == s[k];
    } else {
      assert RStrip(l) == [];
    }
  }

  /** Stripping twice changes nothing more. */
  lemma StripIdempotent(s: string)
    ensures Strip(Strip(s)) == Strip(s)
  {
    var l := LStrip(s);
    var t := RStrip(l);
    if t != [] {
      assert t[0] == l[0];
      assert LStrip(t) == t;
    }
  }

  /** `sep.join(parts)`. */
  function Join(parts: seq<string>, sep: string): (r: string)
    ensures parts != [] ==> |r| >= |parts[0]| && r[..|parts[0]|] == parts[0]
  {
    if parts == [] then ""
    else if |parts| == 1 then parts[0]
    else parts[0] + sep + Join(parts[1..], sep)
  }

  /** Joining one more part appends the separator and the part. */
  lemma {:induction false} JoinSnoc(parts: seq<string>, x: string, sep: string)
    ensures Join(parts + [x], sep) == if parts == [] then x else Join(parts, sep) + sep + x
  {
    if |parts| == 1 {
      assert parts + [x] == [parts[0], x];
    } else if |parts| > 1 {
      assert (parts + [x])[1..] == parts[1..] + [x];
      JoinSnoc(parts[1..], x, sep);
    }
  }

  /** `s.split(c)` for a one-character separator. */
  function Split(s: string, c: char): (r: seq<string>)
    ensures |r| >= 1
    ensures forall i, k :: 0 <= i < |r| && 0 <= k < |r[i]| ==> r[i][k] != c
  {
    if s == [] then [""]
    else
      var rest := Split(s[1..], c);
      if s[0] == c then [""] + rest else [[s[0]] + rest[0]] + rest[1..]
  }

  /** Joining the pieces of a split with the separator gives the text back. */
  lemma {:induction false} JoinSplit(s: string, c: char)
    ensures Join(Split(s, c), [c]) == s
  {
    if s != [] {
      var rest := Split(s[1..], c);
      JoinSplit(s[1..], c);
      if s[0] == c {
        assert Split(s, c) == [""] + rest;
        assert Join([""] + rest, [c]) == "" + [c] + Join(rest, [c]);
      } else {
        assert Split(s, c) == [[s[0]] + rest[0]] + rest[1..];
        JoinConsFirst(s[0], rest, [c]);
      }
    }
  }

  /** Putting a character in front of the first part puts it in front of
      the join. */
  lemma JoinConsFirst(x: char, rest: seq<string>, sep: string)
    requires rest != []
    ensures Join([[x] + rest[0]] + rest[1..], sep) == [x] + Join(rest, sep)
  {
    var r := [[x] + rest[0]] + rest[1..];
    if |rest| > 1 {
      assert rest == [rest[0]] + rest[1..];
      assert r[1..] == rest[1..];
    }
  }

  /** A text without the separator splits into itself alone. */
  lemma {:induction false} SplitNoSep(s: string, c: char)
    requires forall i :: 0 <= i < |s| ==> s[i] != c
    ensures Split(s, c) == [s]
  {
    if s != [] {
      SplitNoSep(s[1..], c);
      assert [s[0]] + s[1..] == s;
    }
  }

  function DigitChar(d: nat): (c: char)
    requires d < 10
    ensures '0' <= c <= '9'
  {
    ('0' as int + d) as char
  }

  /** `str(n)` for a non-negative integer: its decimal digits. */
  function NatToString(n: nat): string {
    if n < 10 then [DigitChar(n)] else NatToString(n / 10) + [DigitChar(n % 10)]
  }

  predicate AllDigits(s: string) {
    forall i :: 0 <= i < |s| ==> '0' <= s[i] <= '9'
  }

  /** The value of a string of decimal digits, leading zeros allowed. */
  function DigitsValue(s: string): nat
    requires AllDigits(s)
  {
    if s == [] then 0
    else DigitsValue(s[..|s| - 1]) * 10 + ((s[|s| - 1] as int) - ('0' as int))
  }

  /** `str(n)` is at least one digit long and reads back as `n`. */
  lemma {:induction false} NatToStringValue(n: nat)
    ensures |NatToString(n)| >= 1 && AllDigits(NatToString(n))
    ensures DigitsValue(NatToString(n)) == n
  {
    var r := NatToString(n);
    if n >= 10 {
      NatToStringValue(n / 10);
      assert r[..|r| - 1] == NatToString(n / 10);
    }
  }

  lemma {:induction false} DigitsValueLeadingZero(s: string)
    requires AllDigits(s)
    ensures AllDigits("0" + s) && DigitsValue("0" + s) == DigitsValue(s)
  {
    if s != [] {
      var t := "0" + s;
      assert t[..|t| - 1] == "0" + s[..|s| - 1];
      DigitsValueLeadingZero(s[..|s| - 1]);
    }
  }

  /** `str(n).zfill(w)`: the decimal form of `n` left-padded with '0' to
      width `w`. */
  function PaddedIndex(n: nat, w: nat): (r: string)
    ensures |r| >= w && |r| >= |NatToString(n)|
    decreases w
  {
    if w <= |NatToString(n)| then NatToString(n) else "0" + PaddedIndex(n, w - 1)
  }

  /** The padded form has at least `w` digits and reads back as `n`, so
      different numbers never share a padded form. */
  lemma {:induction false} PaddedIndexValue(n: nat, w: nat)
    ensures |PaddedIndex(n, w)| >= w && |PaddedIndex(n, w)| >= 1 && AllDigits(PaddedIndex(n, w))
    ensures DigitsValue(PaddedIndex(n, w)) == n
    decreases w
  {
    NatToStringValue(n);
    if w > |NatToString(n)| {
      PaddedIndexValue(n, w - 1);
      DigitsValueLeadingZero(PaddedIndex(n, w - 1));
    }
  }

  lemma PaddedIndexInjective(m: nat, n: nat, w: nat)
    requires PaddedIndex(m, w) == PaddedIndex(n, w)
    ensures m == n
  {
    PaddedIndexValue(m, w);
    PaddedIndexValue(n, w);
  }

  /** `prefix + str(n).zfill(w)` keys are different for different numbers. */
  lemma PrefixedIndexInjective(prefix: string, m: nat, n: nat, w: nat)
    requires prefix + PaddedIndex(m, w) == prefix + PaddedIndex(n, w)
    ensures m == n
  {
    var a, b := prefix + PaddedIndex(m, w), prefix + PaddedIndex(n, w);
    assert a[|prefix|..] == PaddedIndex(m, w);
    assert b[|prefix|..] == PaddedIndex(n, w);
    PaddedIndexInjective(m, n, w);
  }

  /** Upper-casing of one character (ASCII letters only; see README). */
  function UpperChar(c: char): char {
    if 'a' <= c <= 'z' then (c as int - 32) as char else c
  }

  /** `s.upper()` on the ASCII letters. */
  function Upper(s: string): (r: string)
    ensures |r| == |s|
    ensures forall i :: 0 <= i < |s| ==> r[i] == UpperChar(s[i])
  {
    if s == [] then [] else [UpperChar(s[0])] + Upper(s[1..])
  }

  /** Upper-casing is idempotent, so keys that are already upper-cased are
      kept; an immediate corollary of `Upper`'s contract. */
  lemma UpperIdempotent(s: string)
    ensures Upper(Upper(s)) == Upper(s)
  {
  }

  /** Does `pat` occur in `s` starting at index `i`? */
  predicate OccursAt(s: string, pat: string, i: nat) {
    i + |pat| <= |s| && s[i..i + |pat|] == pat
  }

  /** `pat in s` for strings. */
  predicate Contains(s: string, pat: string) {
    exists i: nat :: i <= |s| && OccursAt(s, pat, i)
  }
}
