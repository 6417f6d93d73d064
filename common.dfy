/** Shared vocabulary of the model: optional values, results, and the handful
    of string operations (join, substring test, trim, case mapping, decimal
    rendering) that the Python and JavaScript code calls on its strings. */
module Common {

  datatype Option<T> = None | Some(value: T)

  datatype Result<T, E> = Ok(value: T) | Err(error: E)

  /** Sum of a sequence of integers, left to right (a `reduce` from 0). */
  function Sum(xs: seq<int>): int
  {
    if xs == [] then 0 else Sum(xs[..|xs| - 1]) + xs[|xs| - 1]
  }

  lemma {:induction false} SumAppend(xs: seq<int>, ys: seq<int>)
    ensures Sum(xs + ys) == Sum(xs) + Sum(ys)
    decreases |ys|
  {
    if ys == [] {
      assert xs + ys == xs;
    } else {
      var last := ys[|ys| - 1];
      assert (xs + ys)[..|xs + ys| - 1] == xs + ys[..|ys| - 1];
      SumAppend(xs, ys[..|ys| - 1]);
    }
  }

  lemma SumCons(x: int, xs: seq<int>)
    ensures Sum([x] + xs) == x + Sum(xs)
  {
    SumAppend([x], xs);
    assert [x][..0] == [];
  }

  // ---------------------------------------------------------------------
  // Joining strings with a separator ("sep".join(parts) in Python,
  // parts.join(sep) in JavaScript: no separator before the first part and
  // none after the last).

  function Join(sep: string, parts: seq<string>): string
  {
    if |parts| == 0 then ""
    else if |parts| == 1 then parts[0]
    else Join(sep, parts[..|parts| - 1]) + sep + parts[|parts| - 1]
  }

  lemma JoinSnoc(sep: string, parts: seq<string>, p: string)
    requires parts != []
    ensures Join(sep, parts + [p]) == Join(sep, parts) + sep + p
  {
    assert (parts + [p])[..|parts + [p]| - 1] == parts;
  }

  /** Python's str.split(sep) with a one-character separator: the pieces
      between separators, always at least one. */
  function Split(s: string, sep: char): (r: seq<string>)
    ensures |r| >= 1
  {
    if s == [] then [""]
    else if s[0] == sep then [""] + Split(s[1..], sep)
    else
      var rest := Split(s[1..], sep);
      [[s[0]] + rest[0]] + rest[1..]
  }

  lemma {:induction false} SplitNoSep(p: string, sep: char)
    requires sep !in p
    ensures Split(p, sep) == [p]
  {
    if p != [] {
      SplitNoSep(p[1..], sep);
      assert [p[0]] + p[1..] == p;
    }
  }

  lemma {:induction false} SplitAround(a: string, b: string, sep: char)
    ensures Split(a + [sep] + b, sep) == Split(a, sep) + Split(b, sep)
  {
    if a == [] {
      assert a + [sep] + b == [sep] + b;
      assert ([sep] + b)[1..] == b;
    } else {
      assert (a + [sep] + b)[1..] == a[1..] + [sep] + b;
      SplitAround(a[1..], b, sep);
    }
  }

  /** Joining with a one-character separator and splitting on it again gives
      back the parts, provided no part contains the separator. */
  lemma {:induction false} SplitJoin(parts: seq<string>, sep: char)
    requires parts != []
    requires forall i :: 0 <= i < |parts| ==> sep !in parts[i]
    ensures Split(Join([sep], parts), sep) == parts
  {
    if |parts| == 1 {
      SplitNoSep(parts[0], sep);
    } else {
      var init, last := parts[..|parts| - 1], parts[|parts| - 1];
      SplitJoin(init, sep);
      SplitNoSep(last, sep);
      SplitAround(Join([sep], init), last, sep);
    }
  }

  // ---------------------------------------------------------------------
  // f-strings and template literals: constant text with fields between.

  /** Text made of labels with a field between each two: labels[0],
      fields[0], labels[1], ..., fields[n-1], labels[n]. */
  function Interleave(labels: seq<string>, fields: seq<string>): string
    requires |labels| == |fields| + 1
    decreases |fields|
  {
    if fields == [] then labels[0]
    else labels[0] + (fields[0] + Interleave(labels[1..], fields[1..]))
  }

  /** Where fields[i] starts in Interleave(labels, fields). */
  function FieldOffset(labels: seq<string>, fields: seq<string>, i: nat): nat
    requires |labels| == |fields| + 1 && i < |fields|
    decreases i
  {
    if i == 0 then |labels[0]| else |labels[0]| + |fields[0]| + FieldOffset(labels[1..], fields[1..], i - 1)
  }

  /** Each field stands, verbatim, right after its label. */
  lemma {:induction false} FieldAfterLabel(labels: seq<string>, fields: seq<string>, i: nat)
    requires |labels| == |fields| + 1 && i < |fields|
    ensures var p, k := Interleave(labels, fields), FieldOffset(labels, fields, i);
      |labels[i]| <= k && k + |fields[i]| <= |p|
      && p[k - |labels[i]|..k] == labels[i] && p[k..k + |fields[i]|] == fields[i]
    decreases i
  {
    var rest := Interleave(labels[1..], fields[1..]);
    var p := labels[0] + (fields[0] + rest);
    assert p == Interleave(labels, fields);
    if i == 0 {
      assert p[..|labels[0]|] == labels[0];
      assert p[|labels[0]|..] == fields[0] + rest;
    } else {
      FieldAfterLabel(labels[1..], fields[1..], i - 1);
      var m := |labels[0]| + |fields[0]|;
      assert p == (labels[0] + fields[0]) + rest;
      assert p[m..] == rest;
    }
  }

  /** The text always ends with the last label. */
  lemma {:induction false} EndsWithLastLabel(labels: seq<string>, fields: seq<string>)
    requires |labels| == |fields| + 1
    ensures var p := Interleave(labels, fields);
      |labels[|fields|]| <= |p| && p[|p| - |labels[|fields|]|..] == labels[|fields|]
    decreases |fields|
  {
    if fields != [] {
      EndsWithLastLabel(labels[1..], fields[1..]);
      var rest := Interleave(labels[1..], fields[1..]);
      assert Interleave(labels, fields) == (labels[0] + fields[0]) + rest;
    }
  }

  // ---------------------------------------------------------------------
  // Characters and case mapping. JavaScript's toLowerCase/toUpperCase and
  // Python's str() are Unicode-aware; the model maps the ASCII letters only.

  function LowerChar(c: char): char
  {
    if 'A' <= c <= 'Z' then (c as int + 32) as char else c
  }

  function UpperChar(c: char): char
  {
    if 'a' <= c <= 'z' then (c as int - 32) as char else c
  }

  function ToLower(s: string): (r: string)
    ensures |r| == |s|
    ensures forall i :: 0 <= i < |s| ==> r[i] == LowerChar(s[i])
  {
    if s == [] then [] else [LowerChar(s[0])] + ToLower(s[1..])
  }

  function ToUpper(s: string): (r: string)
    ensures |r| == |s|
    ensures forall i :: 0 <= i < |s| ==> r[i] == UpperChar(s[i])
  {
    if s == [] then [] else [UpperChar(s[0])] + ToUpper(s[1..])
  }

  /** The characters JavaScript's `\s` and String.prototype.trim treat as
      white space (WhiteSpace and LineTerminator of ECMA-262). */
  predicate IsSpace(c: char)
  {
    c == '\t' || c == '\n' || c == '\U{B}' || c == '\U{C}' || c == '\r' || c == ' '
    || c == '\U{A0}' || c == '\U{1680}' || ('\U{2000}' <= c <= '\U{200A}')
    || c == '\U{2028}' || c == '\U{2029}' || c == '\U{202F}' || c == '\U{205F}'
    || c == '\U{3000}' || c == '\U{FEFF}'
  }

  predicate AllSpace(s: string)
  {
    forall i :: 0 <= i < |s| ==> IsSpace(s[i])
  }

  function TrimStart(s: string): (r: string)
    ensures |r| <= |s| && r == s[|s| - |r|..]
    ensures r == [] || !IsSpace(r[0])
    ensures AllSpace(s[..|s| - |r|])
  {
    if s != [] && IsSpace(s[0]) then TrimStart(s[1..]) else s
  }

  function TrimEnd(s: string): (r: string)
    ensures |r| <= |s| && r == s[..|r|]
    ensures r == [] || !IsSpace(r[|r| - 1])
    ensures AllSpace(s[|r|..])
  {
    if s != [] && IsSpace(s[|s| - 1]) then TrimEnd(s[..|s| - 1]) else s
  }

  /** String.prototype.trim (and, for the characters it meets here, Python's
      str.strip). */
  function Trim(s: string): string
  {
    TrimEnd(TrimStart(s))
  }

  /** The trimmed text is empty exactly when every character is white space. */
  lemma TrimEmptyIff(s: string)
    ensures Trim(s) == [] <==> AllSpace(s)
  {
    var t := TrimStart(s);
    assert s == s[..|s| - |t|] + t;
    if Trim(s) == [] {
      assert t == [];
      assert s == s[..|s| - |t|];
    }
  }

  // ---------------------------------------------------------------------
  // Substring test: JavaScript's String.prototype.includes, Python's `in`.

  predicate OccursAt(s: string, sub: string, i: int)
  {
    0 <= i <= |s| - |sub| && s[i..i + |sub|] == sub
  }

  predicate Contains(s: string, sub: string)
  {
    exists i | 0 <= i <= |s| - |sub| :: OccursAt(s, sub, i)
  }

  lemma ContainsEmpty(s: string)
    ensures Contains(s, "")
  {
    assert OccursAt(s, "", 0);
  }

  // ---------------------------------------------------------------------
  // Decimal rendering of integers (JavaScript's String(n) and Python's
  // str(n) agree on integers).

  function DigitChar(d: nat): char
    requires d < 10
  {
    "0123456789"[d]
  }

  function NatToString(n: nat): (r: string)
    ensures |r| >= 1
    decreases n
  {
    if n < 10 then [DigitChar(n)] else NatToString(n / 10) + [DigitChar(n % 10)]
  }

  function IntToString(n: int): (r: string)
    ensures |r| >= 1
  {
    if n < 0 then "-" + NatToString(-n) else NatToString(n)
  }

  // ---------------------------------------------------------------------
  // Integer arithmetic of dates held as milliseconds.

  const MillisPerDay: int := 1000 * 60 * 60 * 24

  /** Math.ceil(a / b) for a positive divisor. Dafny's `/` on int rounds
      toward negative infinity when the divisor is positive. */
  function CeilDiv(a: int, b: int): (r: int)
    requires b > 0
    ensures (r - 1) * b < a <= r * b
  {
    -((-a) / b)
  }

  /** Math.floor(a / b) for a positive divisor. */
  function FloorDiv(a: int, b: int): (r: int)
    requires b > 0
    ensures r * b <= a < (r + 1) * b
  {
    a / b
  }
}
