/** The pieces of Python's own behaviour that the protocol library leans on:
    JSON values as json.loads returns them, truthiness and `or`, dict.get,
    the `in` operator, str.strip, int(), str() of an integer, str.zfill and
    str.format. An operation that raises in Python returns Err here. */
module Py {

  datatype Result<+T> = Ok(value: T) | Err {
    predicate IsFailure() { Err? }
    function PropagateFailure<U>(): Result<U> {
      Err
    }
    function Extract(): T
      requires Ok?
    {
      value
    }
  }

  datatype Option<+T> = None | Some(value: T)

  /** A JSON value as json.loads returns it (numbers are integers only). */
  datatype Json =
    | JNull
    | JBool(b: bool)
    | JNum(n: int)
    | JStr(s: string)
    | JArr(items: seq<Json>)
    | JObj(fields: map<string, Json>)

  /** Python's truth value of a decoded JSON value. */
  predicate Truthy(v: Json) {
    match v
    case JNull => false
    case JBool(b) => b
    case JNum(n) => n != 0
    case JStr(s) => s != ""
    case JArr(items) => items != []
    case JObj(fields) => fields != map[]
  }

  /** Python's `a or b`. */
  function Or(a: Json, b: Json): Json {
    if Truthy(a) then a else b
  }

  /** `d.get(key)` where d is known to be a dict; None when the key is absent.
      Used in specifications to name a field of the input. */
  function At(d: Json, key: string): Json {
    if d.JObj? && key in d.fields then d.fields[key] else JNull
  }

  /** `data.get(key)`: raises AttributeError unless data is a dict. */
  function DictGet(data: Json, key: string): (r: Result<Json>)
    ensures r.Ok? <==> data.JObj?
    ensures data.JObj? && key !in data.fields ==> r == Ok(JNull)
    ensures data.JObj? && key in data.fields ==> r == Ok(data.fields[key])
  {
    if data.JObj? then Ok(At(data, key)) else Err
  }

  /** `needle` occurs somewhere inside `hay` as a contiguous run. */
  predicate Occurs(needle: string, hay: string) {
    exists i :: 0 <= i <= |hay| - |needle| && OccursAt(needle, hay, i)
  }

  predicate OccursAt(needle: string, hay: string, i: int)
    requires 0 <= i <= |hay| - |needle|
  {
    hay[i..i + |needle|] == needle
  }

  /** `key in container`: key lookup in a dict, substring test in a str,
      element test in a list; a TypeError for null, booleans and numbers. */
  function In(key: string, container: Json): (r: Result<bool>)
    ensures r.Err? <==> container.JNull? || container.JBool? || container.JNum?
    ensures container.JObj? ==> r == Ok(key in container.fields)
  {
    match container
    case JObj(fields) => Ok(key in fields)
    case JStr(s) => Ok(Occurs(key, s))
    case JArr(items) => Ok(JStr(key) in items)
    case _ => Err
  }

  // ---------------------------------------------------------------- str.strip

  /** The characters for which str.isspace() holds. */
  predicate IsSpace(c: char) {
    ('\t' <= c <= '\r') || ('\U{1C}' <= c <= ' ') || c == '\U{85}' || c == '\U{A0}'
    || c == '\U{1680}' || ('\U{2000}' <= c <= '\U{200A}') || c == '\U{2028}' || c == '\U{2029}'
    || c == '\U{202F}' || c == '\U{205F}' || c == '\U{3000}'
  }

  predicate AllSpace(s: string) {
    forall i :: 0 <= i < |s| ==> IsSpace(s[i])
  }

  /** The first index at or after i that does not hold whitespace. */
  function SkipSpace(s: string, i: nat): (k: nat)
    requires i <= |s|
    ensures i <= k <= |s|
    ensures AllSpace(s[i..k])
    ensures k < |s| ==> !IsSpace(s[k])
    decreases |s| - i
  {
    if i < |s| && IsSpace(s[i]) then SkipSpace(s, i + 1) else i
  }

  /** The smallest index k, not below lo, such that s[k..j] is all whitespace. */
  function SkipSpaceBack(s: string, lo: nat, j: nat): (k: nat)
    requires lo <= j <= |s|
    ensures lo <= k <= j
    ensures AllSpace(s[k..j])
    ensures k > lo ==> !IsSpace(s[k - 1])
    decreases j
  {
    if j > lo && IsSpace(s[j - 1]) then
      var k := SkipSpaceBack(s, lo, j - 1);
      assert s[k..j] == s[k..j - 1] + [s[j - 1]];
      k
    else j
  }

  /** str.strip(): the text with leading and trailing whitespace removed. */
  function Strip(s: string): string {
    var i := SkipSpace(s, 0);
    s[i..SkipSpaceBack(s, i, |s|)]
  }

  /** Where strip() cuts: everything before i and after i + |Strip(s)| is
      whitespace. */
  lemma StripOffset(s: string) returns (i: nat)
    ensures i + |Strip(s)| <= |s| && s[i..i + |Strip(s)|] == Strip(s)
    ensures AllSpace(s[..i]) && AllSpace(s[i + |Strip(s)|..])
  {
    i := SkipSpace(s, 0);
    var j := SkipSpaceBack(s, i, |s|);
    assert Strip(s) == s[i..j] && i + |Strip(s)| == j;
    assert s[..i] == s[0..i] && s[j..] == s[j..|s|];
  }

  /** What strip() leaves neither starts nor ends with whitespace. */
  lemma StripTrimmed(s: string)
    ensures var r := Strip(s); r != [] ==> !IsSpace(r[0]) && !IsSpace(r[|r| - 1])
  {
    var i := SkipSpace(s, 0);
    var j := SkipSpaceBack(s, i, |s|);
    if i < j {
      assert Strip(s)[0] == s[i] && Strip(s)[j - i - 1] == s[j - 1];
    }
  }

  /** What strip() leaves is a slice of the text with only whitespace cut
      away on either side, and it neither starts nor ends with whitespace. */
  lemma StripSlice(s: string)
    ensures var r := Strip(s);
      exists i :: 0 <= i <= |s| - |r| && s[i..i + |r|] == r && AllSpace(s[..i]) && AllSpace(s[i + |r|..])
    ensures var r := Strip(s); r != [] ==> !IsSpace(r[0]) && !IsSpace(r[|r| - 1])
  {
    var i := StripOffset(s);
    StripTrimmed(s);
  }

  lemma StripUntouched(s: string)
    requires s != [] ==> !IsSpace(s[0]) && !IsSpace(s[|s| - 1])
    ensures Strip(s) == s
  {
    var i := SkipSpace(s, 0);
    if s != [] {
      assert i == 0;
      var j := SkipSpaceBack(s, i, |s|);
      assert j == |s|;
    }
  }

  lemma StripIdempotent(s: string)
    ensures Strip(Strip(s)) == Strip(s)
  {
    StripSlice(s);
    StripUntouched(Strip(s));
  }

  // ---------------------------------------------------------------- digits, str() and int()

  predicate IsDigit(c: char) { '0' <= c <= '9' }

  /** A non-empty run of ASCII decimal digits. */
  predicate IsNumeral(s: string) {
    |s| > 0 && forall i :: 0 <= i < |s| ==> IsDigit(s[i])
  }

  /** The value of a run of decimal digits, leading zeros allowed. */
  function Value(s: string): nat
    requires forall i :: 0 <= i < |s| ==> IsDigit(s[i])
  {
    if s == [] then 0 else Value(s[..|s| - 1]) * 10 + DigitValue(s[|s| - 1])
  }

  function DigitValue(c: char): nat
    requires IsDigit(c)
  {
    c as int - '0' as int
  }

  function DigitChar(d: nat): (c: char)
    requires d < 10
    ensures IsDigit(c) && DigitValue(c) == d
  {
    '0' + d as char
  }

  /** The shortest decimal numeral of n. */
  function Dec(n: nat): (r: string)
    ensures IsNumeral(r)
    ensures r[0] != '0' || n == 0
  {
    if n < 10 then [DigitChar(n)] else Dec(n / 10) + [DigitChar(n % 10)]
  }

  lemma {:induction false} ValueOfDec(n: nat)
    ensures Value(Dec(n)) == n
  {
    if n >= 10 {
      var d := Dec(n);
      assert d[..|d| - 1] == Dec(n / 10);
      ValueOfDec(n / 10);
    }
  }

  lemma {:induction false} DecLength(n: nat, k: nat)
    requires n < Pow10(k)
    ensures |Dec(n)| <= if k == 0 then 1 else k
  {
    if n >= 10 {
      DecLength(n / 10, k - 1);
    }
  }

  function Pow10(k: nat): (p: nat)
    ensures p >= 1
  {
    if k == 0 then 1 else 10 * Pow10(k - 1)
  }

  /** str(n) for an integer n. */
  function Str(n: int): string {
    if n < 0 then "-" + Dec(-n) else Dec(n)
  }

  function Zeros(k: nat): (r: string)
    ensures |r| == k && forall i :: 0 <= i < k ==> r[i] == '0'
  {
    if k == 0 then "" else "0" + Zeros(k - 1)
  }

  /** str.zfill(width): pad with zeros on the left, after a leading sign. */
  function ZFill(s: string, width: nat): (r: string)
    ensures |r| == if |s| >= width then |s| else width
  {
    if |s| >= width then s
    else if |s| > 0 && (s[0] == '-' || s[0] == '+') then [s[0]] + Zeros(width - |s|) + s[1..]
    else Zeros(width - |s|) + s
  }

  lemma {:induction false} ValueLeadingZeros(k: nat, s: string)
    requires forall i :: 0 <= i < |s| ==> IsDigit(s[i])
    ensures Value(Zeros(k) + s) == Value(s)
    decreases |s|
  {
    if s == [] {
      assert Zeros(k) + s == Zeros(k);
      ValueOfZeros(k);
    } else {
      var t := Zeros(k) + s;
      assert t[..|t| - 1] == Zeros(k) + s[..|s| - 1];
      ValueLeadingZeros(k, s[..|s| - 1]);
    }
  }

  lemma {:induction false} ValueOfZeros(k: nat)
    ensures Value(Zeros(k)) == 0
  {
    if k > 0 {
      var z := Zeros(k);
      assert z[..k - 1] == Zeros(k - 1);
      ValueOfZeros(k - 1);
    }
  }

  /** Python's int() of a string: surrounding whitespace, an optional sign,
      then decimal digits; anything else raises ValueError. */
  function ParseInt(s: string): Result<int> {
    var t := Strip(s);
    if |t| > 0 && (t[0] == '-' || t[0] == '+') then
      var v: int := if IsNumeral(t[1..]) then Value(t[1..]) else 0;
      if IsNumeral(t[1..]) then Ok(if t[0] == '-' then -v else v) else Err
    else if IsNumeral(t) then Ok(Value(t))
    else Err
  }

  /** int(v) for a decoded JSON value: None, lists and dicts raise TypeError. */
  function PyInt(v: Json): (r: Result<int>)
    ensures v.JNull? || v.JArr? || v.JObj? ==> r.Err?
    ensures v.JNum? ==> r == Ok(v.n)
  {
    match v
    case JNum(n) => Ok(n)
    case JBool(b) => Ok(if b then 1 else 0)
    case JStr(s) => ParseInt(s)
    case _ => Err
  }

  /** int() reads back what str() writes. */
  lemma ParseStr(n: int)
    ensures ParseInt(Str(n)) == Ok(n)
  {
    if n < 0 {
      ValueOfDec(-n);
      assert Str(n)[1..] == Dec(-n);
      ParseNegativeNumeral(Str(n));
    } else {
      ValueOfDec(n);
      ParseNumeral(Dec(n));
    }
  }

  lemma ParseNumeral(s: string)
    requires IsNumeral(s)
    ensures ParseInt(s) == Ok(Value(s))
  {
    assert !IsSpace(s[0]) && !IsSpace(s[|s| - 1]);
    StripUntouched(s);
  }

  lemma ParseNegativeNumeral(t: string)
    requires |t| > 1 && t[0] == '-' && IsNumeral(t[1..])
    ensures ParseInt(t) == Ok(-(Value(t[1..]) as int))
  {
    assert t[|t| - 1] == t[1..][|t| - 2] && IsDigit(t[|t| - 1]);
    StripUntouched(t);
  }

  lemma ZerosNumeral(k: nat, d: string)
    requires IsNumeral(d)
    ensures IsNumeral(Zeros(k) + d) && Value(Zeros(k) + d) == Value(d)
  {
    var z := Zeros(k) + d;
    forall i | 0 <= i < |z| ensures IsDigit(z[i]) {
      if i >= k { assert z[i] == d[i - k]; }
    }
    ValueLeadingZeros(k, d);
  }

  /** A negative number zero-filled keeps its sign in front of the zeros. */
  lemma ZFillNegative(n: int, width: nat)
    requires n < 0 && |Str(n)| < width
    ensures ParseInt(ZFill(Str(n), width)) == Ok(n)
  {
    ZFillNegativeText(n, width);
    ParseSignedZeros(ZFill(Str(n), width), width - |Str(n)|, -n);
  }

  /** A minus sign, then zeros, then the digits of m: int() ignores the zeros. */
  lemma ParseSignedZeros(t: string, k: nat, m: nat)
    requires t == "-" + (Zeros(k) + Dec(m))
    ensures ParseInt(t) == Ok(-(m as int))
  {
    ValueOfDec(m);
    ZerosNumeral(k, Dec(m));
    assert t[1..] == Zeros(k) + Dec(m);
    ParseNegativeNumeral(t);
  }

  /** Padding a negative numeral puts the zeros between the sign and the digits. */
  lemma ZFillNegativeText(n: int, width: nat)
    requires n < 0 && |Str(n)| < width
    ensures ZFill(Str(n), width) == "-" + (Zeros(width - |Str(n)|) + Dec(-n))
  {
    var d := Dec(-n);
    var s := "-" + d;
    assert Str(n) == s;
    var k := width - |s|;
    assert [s[0]] == "-" && s[1..] == d;
    AppendAssociates("-", Zeros(k), d);
  }

  lemma AppendAssociates(a: string, b: string, c: string)
    ensures a + b + c == a + (b + c)
  {
  }

  lemma ZFillNonNegative(n: int, width: nat)
    requires n >= 0 && |Str(n)| < width
    ensures ParseInt(ZFill(Str(n), width)) == Ok(n)
  {
    var d := Dec(n);
    var k := width - |d|;
    ValueOfDec(n);
    assert ZFill(d, width) == Zeros(k) + d;
    ZerosNumeral(k, d);
    ParseNumeral(Zeros(k) + d);
  }

  /** int() reads back str(n).zfill(width), whatever the width. */
  lemma ZFillRoundTrip(n: int, width: nat)
    ensures ParseInt(ZFill(Str(n), width)) == Ok(n)
  {
    if |Str(n)| >= width {
      ParseStr(n);
    } else if n < 0 {
      ZFillNegative(n, width);
    } else {
      ZFillNonNegative(n, width);
    }
  }

  // ---------------------------------------------------------------- str.format

  function Prepend(p: string, r: Result<string>): Result<string> {
    match r
    case Ok(s) => Ok(p + s)
    case Err => Err
  }

  /** The index of the first '}' at or after i, or |t| when there is none. */
  function FieldEnd(t: string, i: nat): (k: nat)
    requires i <= |t|
    ensures i <= k <= |t|
    ensures k < |t| ==> t[k] == '}'
    ensures forall m :: i <= m < k ==> t[m] != '}'
    decreases |t| - i
  {
    if i == |t| || t[i] == '}' then i else FieldEnd(t, i + 1)
  }

  /** str.format(**args) with keyword arguments only: "{{" and "}}" stand for
      single braces, "{name}" is replaced by args[name]. A missing name raises
      KeyError, an unmatched brace raises ValueError. */
  function Format(t: string, args: map<string, string>): Result<string>
    decreases |t|
  {
    if t == [] then Ok("")
    else if t[0] == '{' then
      if |t| >= 2 && t[1] == '{' then Prepend("{", Format(t[2..], args))
      else
        var k := FieldEnd(t, 1);
        if k == |t| then Err
        else if t[1..k] in args then Prepend(args[t[1..k]], Format(t[k + 1..], args))
        else Err
    else if t[0] == '}' then
      if |t| >= 2 && t[1] == '}' then Prepend("}", Format(t[2..], args))
      else Err
    else Prepend([t[0]], Format(t[1..], args))
  }

  predicate NoBraces(s: string) {
    '{' !in s && '}' !in s
  }

  lemma {:induction false} FormatPlain(p: string, rest: string, args: map<string, string>)
    requires NoBraces(p)
    ensures Format(p + rest, args) == Prepend(p, Format(rest, args))
    decreases |p|
  {
    if p == [] {
      assert p + rest == rest;
      match Format(rest, args) {
        case Ok(s) => assert p + s == s;
        case Err =>
      }
    } else {
      var t := p + rest;
      assert t[0] == p[0];
      assert t[1..] == p[1..] + rest;
      FormatPlain(p[1..], rest, args);
      match Format(rest, args) {
        case Ok(s) => assert [p[0]] + (p[1..] + s) == p + s;
        case Err =>
      }
    }
  }

  lemma FormatOpen(rest: string, args: map<string, string>)
    ensures Format("{{" + rest, args) == Prepend("{", Format(rest, args))
  {
    assert ("{{" + rest)[2..] == rest;
  }

  lemma FormatClose(rest: string, args: map<string, string>)
    ensures Format("}}" + rest, args) == Prepend("}", Format(rest, args))
  {
    assert ("}}" + rest)[2..] == rest;
  }

  lemma FormatField(name: string, rest: string, args: map<string, string>)
    requires NoBraces(name)
    ensures Format("{" + name + "}" + rest, args)
         == if name in args then Prepend(args[name], Format(rest, args)) else Err
  {
    var t := "{" + name + "}" + rest;
    var n := |name|;
    assert t[0] == '{';
    assert t[1] != '{' by { if n > 0 { assert t[1] == name[0]; } else { assert t[1] == '}'; } }
    assert t[n + 1] == '}';
    assert forall m :: 1 <= m < n + 1 ==> t[m] == name[m - 1];
    var k := FieldEnd(t, 1);
    assert k == n + 1;
    assert t[1..k] == name;
    assert t[k + 1..] == rest;
  }

  // ---------------------------------------------------------------- templates as tokens

  /** A str.format template read as tokens: literal text, an escaped brace,
      or a replacement field. */
  datatype Token = Chars(s: string) | OpenBrace | CloseBrace | Field(name: string)

  predicate WellFormedTokens(ts: seq<Token>) {
    forall i :: 0 <= i < |ts| ==>
      match ts[i]
      case Chars(s) => NoBraces(s)
      case Field(name) => NoBraces(name)
      case _ => true
  }

  /** The template text: braces doubled, fields written "{name}". */
  function Spell(ts: seq<Token>): string {
    if ts == [] then ""
    else
      var head := match ts[0]
        case Chars(s) => s
        case OpenBrace => "{{"
        case CloseBrace => "}}"
        case Field(name) => "{" + name + "}";
      head + Spell(ts[1..])
  }

  /** What the template means: braces single, fields replaced by their values;
      Err when a field has no value. */
  function Expand(ts: seq<Token>, args: map<string, string>): Result<string> {
    if ts == [] then Ok("")
    else
      match ts[0]
      case Chars(s) => Prepend(s, Expand(ts[1..], args))
      case OpenBrace => Prepend("{", Expand(ts[1..], args))
      case CloseBrace => Prepend("}", Expand(ts[1..], args))
      case Field(name) => if name in args then Prepend(args[name], Expand(ts[1..], args)) else Err
  }

  /** str.format applied to the spelling of a template gives its meaning. */
  lemma {:induction false} FormatSpell(ts: seq<Token>, args: map<string, string>)
    requires WellFormedTokens(ts)
    ensures Format(Spell(ts), args) == Expand(ts, args)
  {
    if ts != [] {
      assert WellFormedTokens(ts[1..]) by {
        forall i | 0 <= i < |ts| - 1 ensures ts[1..][i] == ts[i + 1] { }
      }
      FormatSpell(ts[1..], args);
      var rest := Spell(ts[1..]);
      match ts[0] {
        case Chars(s) =>
          assert NoBraces(s) by { assert ts[0] == Chars(s); }
          FormatPlain(s, rest, args);
        case OpenBrace => FormatOpen(rest, args);
        case CloseBrace => FormatClose(rest, args);
        case Field(name) =>
          assert NoBraces(name) by { assert ts[0] == Field(name); }
          assert "{" + name + "}" + rest == Spell(ts);
          FormatField(name, rest, args);
      }
    }
  }

  function Concat(a: Result<string>, b: Result<string>): Result<string> {
    if a.Ok? && b.Ok? then Ok(a.value + b.value) else Err
  }

  /** Expanding a template piece by piece gives the expansion of the whole. */
  lemma {:induction false} ExpandAppend(xs: seq<Token>, ys: seq<Token>, args: map<string, string>)
    ensures Expand(xs + ys, args) == Concat(Expand(xs, args), Expand(ys, args))
  {
    if xs == [] {
      assert xs + ys == ys;
      if Expand(ys, args).Ok? {
        assert "" + Expand(ys, args).value == Expand(ys, args).value;
      }
    } else {
      assert (xs + ys)[0] == xs[0];
      assert (xs + ys)[1..] == xs[1..] + ys;
      ExpandAppend(xs[1..], ys, args);
      var a := Expand(xs[1..], args);
      var b := Expand(ys, args);
      if a.Ok? && b.Ok? {
        forall h: string ensures h + (a.value + b.value) == (h + a.value) + b.value { }
      }
    }
  }
}
