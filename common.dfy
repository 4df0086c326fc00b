/** Shared vocabulary of the backend model: optional values, validation
    results, raw JSON body fields, and the handful of Python string
    built-ins the handlers rely on (`in`, `lower`, `count`, `join`,
    `split(sep)[0]`, `strip`, and `f"{n}"` for integers). */
module Common {

  datatype Option<T> = None | Some(value: T)

  /** Outcome of validating a request body: the value, or the name of the
      first field pydantic rejected. */
  datatype Result<T> = Ok(value: T) | Err(field: string) {
    predicate IsFailure() { Err? }
    function PropagateFailure<U>(): Result<U> requires Err? { Err(field) }
    function Extract(): T requires Ok? { value }
  }

  /** A field of a JSON request body as it arrives: left out, sent as
      `null`, or sent with a value. */
  datatype Field<T> = Missing | Null | Given(value: T)

  /** `given if given is not None else cached`: the merge rule used by the
      context-sync and chat handlers. */
  function Prefer<T>(given: Option<T>, cached: T): (r: T)
    ensures given.Some? ==> r == given.value
    ensures given.None? ==> r == cached
  {
    match given
    case Some(v) => v
    case None => cached
  }

  // ---------------------------------------------------------------------
  // pydantic Field(...) constraints

  /** A required `str` field with `min_length`/`max_length`. */
  function RequiredText(f: Field<string>, name: string, minLength: nat, maxLength: nat): (r: Result<string>)
    ensures r.Ok? <==> f.Given? && minLength <= |f.value| <= maxLength
    ensures r.Ok? ==> r.value == f.value
    ensures r.Err? ==> r.field == name
  {
    if f.Given? && minLength <= |f.value| <= maxLength then Ok(f.value) else Err(name)
  }

  /** A required `str` field with no length bounds. */
  function RequiredString(f: Field<string>, name: string): (r: Result<string>)
    ensures r.Ok? <==> f.Given?
    ensures r.Ok? ==> r.value == f.value
    ensures r.Err? ==> r.field == name
  {
    if f.Given? then Ok(f.value) else Err(name)
  }

  /** An `Optional[...]` field with no constraint, defaulting to `None`. */
  function OptionalValue<T>(f: Field<T>): (r: Option<T>)
    ensures r.Some? <==> f.Given?
    ensures r.Some? ==> r.value == f.value
  {
    if f.Given? then Some(f.value) else None
  }

  /** The body field that carries an optional value: `null` for `None`. */
  function FieldOf<T>(o: Option<T>): (f: Field<T>)
    ensures f.Given? <==> o.Some?
    ensures f.Given? ==> f.value == o.value
  {
    if o.Some? then Given(o.value) else Null
  }

  /** An `Optional[str]` field defaulting to `None`, with a `max_length`. */
  function OptionalText(f: Field<string>, name: string, maxLength: nat): (r: Result<Option<string>>)
    ensures r.Ok? <==> (f.Given? ==> |f.value| <= maxLength)
    ensures r.Ok? ==> r.value == OptionalValue(f)
    ensures r.Err? ==> r.field == name
  {
    if f.Given? && |f.value| > maxLength then Err(name) else Ok(OptionalValue(f))
  }

  /** A `str` field with a default value: `null` is rejected. */
  function TextWithDefault(f: Field<string>, name: string, default: string): (r: Result<string>)
    ensures r.Ok? <==> !f.Null?
    ensures r.Ok? ==> r.value == (if f.Given? then f.value else default)
    ensures r.Err? ==> r.field == name
  {
    match f
    case Missing => Ok(default)
    case Null => Err(name)
    case Given(s) => Ok(s)
  }

  /** An `int` field with a default and `ge`/`le` bounds: `null` and
      out-of-range values are rejected (the default is not re-checked). */
  function BoundedInt(f: Field<int>, name: string, default: int, lo: int, hi: int): (r: Result<int>)
    ensures r.Ok? <==> f.Missing? || (f.Given? && lo <= f.value <= hi)
    ensures r.Ok? ==> r.value == (if f.Given? then f.value else default)
    ensures r.Err? ==> r.field == name
  {
    match f
    case Missing => Ok(default)
    case Null => Err(name)
    case Given(n) => if lo <= n <= hi then Ok(n) else Err(name)
  }

  // ---------------------------------------------------------------------
  // Strings

  /** Python's `p in s` on strings. */
  predicate IsSubstring(p: string, s: string)
  {
    exists i :: 0 <= i <= |s| && OccursAt(p, s, i)
  }

  /** `p` appears in `s` starting at index `i`. */
  predicate OccursAt(p: string, s: string, i: nat)
  {
    i + |p| <= |s| && s[i..i + |p|] == p
  }

  /** An occurrence inside a part of `s` is also one inside `s`. */
  lemma {:induction false} SubstringOfPart(p: string, part: string, s: string, k: nat)
    requires IsSubstring(p, part)
    requires k + |part| <= |s| && s[k..k + |part|] == part
    ensures IsSubstring(p, s)
  {
    var i :| 0 <= i <= |part| && OccursAt(p, part, i);
    forall j | i <= j < i + |p| ensures s[k + j] == part[j] {
      assert part[j] == s[k..k + |part|][j];
    }
    assert s[k + i..k + i + |p|] == part[i..i + |p|];
    assert OccursAt(p, s, k + i);
  }

  /** An occurrence inside `s` is also one inside `a + s`. */
  lemma SubstringAfter(p: string, a: string, s: string)
    requires IsSubstring(p, s)
    ensures IsSubstring(p, a + s)
  {
    assert (a + s)[|a|..|a| + |s|] == s;
    SubstringOfPart(p, s, a + s, |a|);
  }

  /** An occurrence inside `s` is also one inside `s + b`. */
  lemma SubstringBefore(p: string, s: string, b: string)
    requires IsSubstring(p, s)
    ensures IsSubstring(p, s + b)
  {
    assert (s + b)[0..|s|] == s;
    SubstringOfPart(p, s, s + b, 0);
  }

  /** Python's `str.lower()` restricted to ASCII letters. */
  function LowerChar(c: char): (r: char)
    ensures 'A' <= c <= 'Z' ==> 'a' <= r <= 'z'
    ensures !('A' <= c <= 'Z') ==> r == c
  {
    if 'A' <= c <= 'Z' then (c as int + 32) as char else c
  }

  function Lower(s: string): (r: string)
    ensures |r| == |s|
    ensures forall i :: 0 <= i < |s| ==> r[i] == LowerChar(s[i])
  {
    if s == [] then [] else [LowerChar(s[0])] + Lower(s[1..])
  }

  /** Python's `s.count(c)` for a one-character argument: the number of
      positions of `s` holding `c`. */
  function CountChar(s: string, c: char): (n: nat)
    ensures n == multiset(s)[c]
  {
    if s == [] then 0
    else
      assert s == [s[0]] + s[1..];
      (if s[0] == c then 1 else 0) + CountChar(s[1..], c)
  }

  /** Python's `sep.join(parts)`. */
  function Join(parts: seq<string>, sep: string): (r: string)
    ensures parts == [] ==> r == ""
    ensures |parts| == 1 ==> r == parts[0]
  {
    if parts == [] then ""
    else if |parts| == 1 then parts[0]
    else parts[0] + sep + Join(parts[1..], sep)
  }

  lemma {:induction false} JoinEnds(parts: seq<string>, sep: string)
    requires |parts| >= 2
    ensures Join(parts, sep)[..|parts[0]| + |sep|] == parts[0] + sep
    ensures |Join(parts, sep)| >= |sep| + |parts[|parts| - 1]|
    ensures Join(parts, sep)[|Join(parts, sep)| - |sep| - |parts[|parts| - 1]|..]
            == sep + parts[|parts| - 1]
  {
    var r := Join(parts, sep);
    assert r == parts[0] + sep + Join(parts[1..], sep);
    var last := parts[|parts| - 1];
    if |parts| == 2 {
      assert r == parts[0] + sep + last;
      assert r[|r| - |sep| - |last|..] == sep + last;
    } else {
      JoinEnds(parts[1..], sep);
      var inner := Join(parts[1..], sep);
      assert parts[1..][|parts[1..]| - 1] == last;
      assert inner[|inner| - |sep| - |last|..] == sep + last;
      assert r[|r| - |sep| - |last|..] == inner[|inner| - |sep| - |last|..];
    }
  }

  /** Python's `s.split(sep)[0]`: everything before the first `sep`. */
  function FirstField(s: string, sep: char): (r: string)
    ensures |r| <= |s| && r == s[..|r|]
    ensures sep !in r
    ensures |r| < |s| ==> s[|r|] == sep
  {
    if s == [] || s[0] == sep then [] else [s[0]] + FirstField(s[1..], sep)
  }

  /** The characters for which Python's `str.isspace()` holds, which are
      the ones `str.strip()` removes. */
  predicate IsSpace(c: char)
  {
    || c == ' ' || '\t' <= c <= '\r' || '\U{1C}' <= c <= '\U{1F}'
    || c == '\U{85}' || c == '\U{A0}' || c == '\U{1680}'
    || '\U{2000}' <= c <= '\U{200A}' || c == '\U{2028}' || c == '\U{2029}'
    || c == '\U{202F}' || c == '\U{205F}' || c == '\U{3000}'
  }

  function TrimStart(s: string): (r: string)
    ensures |r| <= |s| && r == s[|s| - |r|..]
    ensures r != [] ==> !IsSpace(r[0])
    ensures forall i :: 0 <= i < |s| - |r| ==> IsSpace(s[i])
  {
    if s != [] && IsSpace(s[0]) then TrimStart(s[1..]) else s
  }

  function TrimEnd(s: string): (r: string)
    ensures |r| <= |s| && r == s[..|r|]
    ensures r != [] ==> !IsSpace(r[|r| - 1])
    ensures forall i :: |r| <= i < |s| ==> IsSpace(s[i])
  {
    if s != [] && IsSpace(s[|s| - 1]) then TrimEnd(s[..|s| - 1]) else s
  }

  /** Python's `s.strip()`: the slice of `s` left once the whitespace on
      both ends is removed. */
  function Strip(s: string): (r: string)
    ensures |r| <= |s|
    ensures r != [] ==> !IsSpace(r[0]) && !IsSpace(r[|r| - 1])
    ensures exists a, b ::
      && 0 <= a <= b <= |s| && r == s[a..b]
      && (forall c :: c in s[..a] ==> IsSpace(c))
      && (forall c :: c in s[b..] ==> IsSpace(c))
    ensures forall k :: 0 <= k < |r| ==> r[k] in s
  {
    var t := TrimStart(s);
    var r := TrimEnd(t);
    TrimsLeaveSlice(s, t, r);
    r
  }

  /** Trimming the end of the trimmed start leaves the slice of `s` that
      starts after the leading whitespace and is followed only by
      whitespace. */
  lemma TrimsLeaveSlice(s: string, t: string, r: string)
    requires |t| <= |s| && t == s[|s| - |t|..]
    requires forall i :: 0 <= i < |s| - |t| ==> IsSpace(s[i])
    requires |r| <= |t| && r == t[..|r|]
    requires forall i :: |r| <= i < |t| ==> IsSpace(t[i])
    ensures exists a, b ::
      && 0 <= a <= b <= |s| && r == s[a..b]
      && (forall c :: c in s[..a] ==> IsSpace(c))
      && (forall c :: c in s[b..] ==> IsSpace(c))
    ensures forall k :: 0 <= k < |r| ==> r[k] in s
  {
    var a := |s| - |t|;
    var b := a + |r|;
    forall c | c in s[..a] ensures IsSpace(c) {
      var i :| 0 <= i < a && s[..a][i] == c;
      assert s[i] == c;
    }
    forall c | c in s[b..] ensures IsSpace(c) {
      var i :| 0 <= i < |s| - b && s[b..][i] == c;
      assert s[b + i] == t[b + i - a] == c;
    }
    forall k | 0 <= k < |r| ensures r[k] in s {
      assert r[k] == s[a + k];
    }
    assert r == s[a..b];
  }

  /** Stripping adds no character: one absent from the input is absent from the result. */
  lemma StripKeepsOut(s: string, c: char)
    requires c !in s
    ensures c !in Strip(s)
  {
    var r := Strip(s);
    if c in r {
      var k :| 0 <= k < |r| && r[k] == c;
      assert r[k] in s;
    }
  }

  lemma StripIdempotent(s: string)
    ensures Strip(Strip(s)) == Strip(s)
  {
    var r := Strip(s);
    assert TrimStart(r) == r;
  }

  // ---------------------------------------------------------------------
  // Decimal rendering, as `f"{n}"` does for an int

  function DigitChar(d: int): (c: char)
    requires 0 <= d < 10
    ensures '0' <= c <= '9'
  {
    "0123456789"[d]
  }

  function DigitValue(c: char): int
  {
    c as int - '0' as int
  }

  function NatToString(n: nat): (r: string)
    ensures r != []
    ensures forall i :: 0 <= i < |r| ==> '0' <= r[i] <= '9'
    decreases n
  {
    if n < 10 then [DigitChar(n)] else NatToString(n / 10) + [DigitChar(n % 10)]
  }

  function IntToString(n: int): (r: string)
  {
    if n < 0 then "-" + NatToString(-n) else NatToString(n)
  }

  /** The number a string of decimal digits denotes. */
  function DecimalValue(s: string): int
  {
    if s == [] then 0 else 10 * DecimalValue(s[..|s| - 1]) + DigitValue(s[|s| - 1])
  }

  /** Reading back what `NatToString` wrote gives the number again. */
  lemma {:induction false} NatToStringRoundTrip(n: nat)
    ensures DecimalValue(NatToString(n)) == n
  {
    var r := NatToString(n);
    if n < 10 {
      assert r[..0] == [];
    } else {
      NatToStringRoundTrip(n / 10);
      assert r[..|r| - 1] == NatToString(n / 10);
    }
  }
}
