/** Values shared by the client and the server models: optional values and
    results, the handful of JavaScript and Python value rules the dashboard
    relies on, and the string operations its searches and parsers use. */
module Common {

  datatype Option<+T> = None | Some(value: T)

  /** A server-side outcome: a value, or the exception or HTTP error raised instead. */
  datatype Result<+T> = Ok(value: T) | Err(error: string)

  /** A JavaScript number field that may be absent (undefined). */
  type JsNumber = Option<real>

  /** `x || 0` on a number field: an absent field (and 0 itself) reads as 0. */
  function OrZero(x: JsNumber): (r: real)
    ensures x.Some? ==> r == x.value
    ensures x.None? ==> r == 0.0
  {
    if x.Some? then x.value else 0.0
  }

  /** `x || 0` on an integer field such as a population. */
  function OrZeroInt(x: Option<int>): (r: int)
    ensures x.Some? ==> r == x.value
    ensures x.None? ==> r == 0
  {
    if x.Some? then x.value else 0
  }

  /** JavaScript truthiness of a number: present and not zero. */
  predicate NumTruthy(x: JsNumber) {
    x.Some? && x.value != 0.0
  }

  /** `a || b` on numbers: the left operand when it is truthy, else the right one. */
  function OrNum(a: JsNumber, b: JsNumber): (r: JsNumber)
    ensures NumTruthy(a) ==> r == a
    ensures !NumTruthy(a) ==> r == b
  {
    if NumTruthy(a) then a else b
  }

  /** `x > c` in JavaScript: false when x is undefined. */
  predicate Gt(x: JsNumber, c: real) {
    x.Some? && x.value > c
  }

  /** `x <= c` in JavaScript: also false when x is undefined. */
  predicate Le(x: JsNumber, c: real) {
    x.Some? && x.value <= c
  }

  /** JavaScript truthiness of an optional string: present and not empty. */
  predicate Truthy(s: Option<string>) {
    s.Some? && s.value != ""
  }

  /** `s || ''` on a string field. */
  function OrEmpty(s: Option<string>): (r: string)
    ensures s.Some? ==> r == s.value
    ensures s.None? ==> r == ""
  {
    if s.Some? then s.value else ""
  }

  /** `a || b || fallback` on optional strings: the first truthy one. */
  function FirstTruthy(a: Option<string>, b: Option<string>, fallback: string): (r: string)
    ensures Truthy(a) ==> r == a.value
    ensures !Truthy(a) && Truthy(b) ==> r == b.value
    ensures !Truthy(a) && !Truthy(b) ==> r == fallback
  {
    if Truthy(a) then a.value else if Truthy(b) then b.value else fallback
  }

  /** `list || []` on a list that may be absent. */
  function OrNil<T>(s: Option<seq<T>>): (r: seq<T>)
    ensures s.Some? ==> r == s.value
    ensures s.None? ==> r == []
  {
    if s.Some? then s.value else []
  }

  /** How a template literal renders an optional string (`${v.id}`). */
  function Render(s: Option<string>): string {
    if s.Some? then s.value else "undefined"
  }

  function Max(a: real, b: real): real { if a >= b then a else b }
  function Min(a: real, b: real): real { if a <= b then a else b }
  function MaxInt(a: int, b: int): int { if a >= b then a else b }
  function MinInt(a: int, b: int): int { if a <= b then a else b }

  // ---- Strings ----------------------------------------------------------

  /** Lower-casing of one character (ASCII letters). */
  function LowerChar(c: char): char {
    if 'A' <= c <= 'Z' then (c as int + 32) as char else c
  }

  /** `toLowerCase()`, character by character. */
  function Lower(s: string): (r: string)
    ensures |r| == |s|
    ensures forall i :: 0 <= i < |s| ==> r[i] == LowerChar(s[i])
  {
    if s == [] then [] else [LowerChar(s[0])] + Lower(s[1..])
  }

  /** `s.includes(q)`: q occurs in s at some position. */
  predicate Contains(s: string, q: string)
    decreases |s|
  {
    q <= s || (|s| > 0 && Contains(s[1..], q))
  }

  /** The empty string occurs in every string, so an empty search keeps every present field. */
  lemma ContainsEmpty(s: string)
    ensures Contains(s, "")
  {
  }

  /** q occurs in s starting at index i. */
  predicate OccursAt(s: string, q: string, i: int) {
    0 <= i && i + |q| <= |s| && s[i..i + |q|] == q
  }

  /** `Contains` agrees with "q occurs at some index". */
  lemma {:induction false} ContainsAt(s: string, q: string)
    ensures Contains(s, q) <==> exists i :: OccursAt(s, q, i)
    decreases |s|
  {
    if q <= s {
      assert s[0..|q|] == q;
      assert OccursAt(s, q, 0);
    } else if |s| > 0 {
      ContainsAt(s[1..], q);
      if Contains(s[1..], q) {
        var i :| OccursAt(s[1..], q, i);
        assert s[i + 1..i + 1 + |q|] == s[1..][i..i + |q|];
        assert OccursAt(s, q, i + 1);
      }
      if exists i :: OccursAt(s, q, i) {
        var i :| OccursAt(s, q, i);
        assert i != 0;
        assert s[1..][i - 1..i - 1 + |q|] == s[i..i + |q|];
        assert OccursAt(s[1..], q, i - 1);
      }
    }
  }

  /** `s.find(q)` / `s.indexOf(q)`: the first index where q occurs in s, if any
      (FindFirst states that it is the first). */
  function Find(s: string, q: string): (r: Option<nat>)
    ensures r.Some? ==> r.value + |q| <= |s|
    decreases |s|
  {
    if q <= s then Some(0)
    else if s == [] then None
    else
      match Find(s[1..], q)
      case Some(i) => Some(i + 1)
      case None => None
  }

  /** Find returns the first index where q occurs, and none iff q occurs nowhere. */
  lemma {:induction false} FindFirst(s: string, q: string)
    ensures Find(s, q).Some? ==> OccursAt(s, q, Find(s, q).value)
    ensures Find(s, q).Some? ==> forall j :: 0 <= j < Find(s, q).value ==> !OccursAt(s, q, j)
    ensures Find(s, q).None? ==> forall j :: !OccursAt(s, q, j)
    decreases |s|
  {
    if q <= s {
      assert s[0..|q|] == q;
    } else if s != [] {
      FindFirst(s[1..], q);
      forall j | 1 <= j && OccursAt(s, q, j)
        ensures OccursAt(s[1..], q, j - 1)
      {
        assert s[1..][j - 1..j - 1 + |q|] == s[j..j + |q|];
      }
      var rest := Find(s[1..], q);
      if rest.Some? {
        assert s[rest.value + 1..rest.value + 1 + |q|] == s[1..][rest.value..rest.value + |q|];
      }
    }
  }

  // ---- Whitespace and trimming -------------------------------------------

  /** Characters JavaScript's `trim()` removes (WhiteSpace and LineTerminator). */
  predicate JsSpace(c: char) {
    c == ' ' || c == '\t' || c == '\n' || c == '\r' || c == '\U{000B}' || c == '\U{000C}'
    || c == '\U{00A0}' || c == '\U{FEFF}' || c == '\U{1680}' || ('\U{2000}' <= c <= '\U{200A}')
    || c == '\U{2028}' || c == '\U{2029}' || c == '\U{202F}' || c == '\U{205F}' || c == '\U{3000}'
  }

  /** Characters Python's `str.strip()` removes (those for which `isspace()` holds). */
  predicate PySpace(c: char) {
    c == ' ' || c == '\t' || c == '\n' || c == '\r' || c == '\U{000B}' || c == '\U{000C}'
    || ('\U{001C}' <= c <= '\U{001F}') || c == '\U{0085}' || c == '\U{00A0}' || c == '\U{1680}'
    || ('\U{2000}' <= c <= '\U{200A}') || c == '\U{2028}' || c == '\U{2029}' || c == '\U{202F}'
    || c == '\U{205F}' || c == '\U{3000}'
  }

  /** A space of the given language: JavaScript (js) or Python (!js). */
  predicate Space(c: char, js: bool) {
    if js then JsSpace(c) else PySpace(c)
  }

  /** The space test of a language, as a value the trimming helpers take. */
  function SpaceTest(js: bool): char -> bool {
    c => Space(c, js)
  }

  /** Cuts the characters passing sp from the front (TrimLeftCuts says what is cut). */
  function TrimLeft(s: string, sp: char -> bool): (r: string)
    ensures |r| <= |s|
  {
    if s == [] then s
    else if sp(s[0]) then TrimLeft(s[1..], sp)
    else s
  }

  /** The front cut leaves a suffix that does not start with a character passing
      sp, and everything cut passes sp. */
  lemma {:induction false} TrimLeftCuts(s: string, sp: char -> bool)
    ensures var r := TrimLeft(s, sp);
      r == s[|s| - |r|..] && (r != [] ==> !sp(r[0]))
      && forall i :: 0 <= i < |s| - |r| ==> sp(s[i])
    decreases |s|
  {
    if s != [] && sp(s[0]) {
      TrimLeftCuts(s[1..], sp);
    }
  }

  /** Cuts the characters passing sp from the back (TrimRightCuts says what is cut). */
  function TrimRight(s: string, sp: char -> bool): (r: string)
    ensures |r| <= |s|
  {
    if s == [] then s
    else if sp(s[|s| - 1]) then TrimRight(s[..|s| - 1], sp)
    else s
  }

  /** The back cut leaves a prefix that does not end with a character passing
      sp, and everything cut passes sp. */
  lemma {:induction false} TrimRightCuts(s: string, sp: char -> bool)
    ensures var r := TrimRight(s, sp);
      r <= s && (r != [] ==> !sp(r[|r| - 1]))
      && forall i :: |r| <= i < |s| ==> sp(s[i])
    decreases |s|
  {
    if s != [] && sp(s[|s| - 1]) {
      TrimRightCuts(s[..|s| - 1], sp);
    }
  }

  /** r sits in s at index k, neither starts nor ends with a character passing
      sp, and everything of s around it passes sp. */
  predicate PaddedAt(s: string, r: string, k: int, sp: char -> bool) {
    0 <= k && k + |r| <= |s| && r == s[k..k + |r|]
    && (r != [] ==> !sp(r[0]) && !sp(r[|r| - 1]))
    && (forall i :: 0 <= i < k ==> sp(s[i]))
    && (forall i :: k + |r| <= i < |s| ==> sp(s[i]))
  }

  /** Both cuts together leave an infix of s padded by sp: l is what the front
      cut leaves of s, and r what the back cut leaves of l. */
  lemma TrimPadded(s: string, l: string, r: string, sp: char -> bool)
    requires |l| <= |s| && l == s[|s| - |l|..]
    requires l != [] ==> !sp(l[0])
    requires forall i :: 0 <= i < |s| - |l| ==> sp(s[i])
    requires r <= l
    requires r != [] ==> !sp(r[|r| - 1])
    requires forall i :: |r| <= i < |l| ==> sp(l[i])
    ensures PaddedAt(s, r, |s| - |l|, sp)
  {
    var k := |s| - |l|;
    assert r == l[..|r|];
    assert r == s[k..k + |r|];
    forall i | k + |r| <= i < |s|
      ensures sp(s[i])
    {
      assert s[i] == l[i - k];
    }
  }

  /** `s.trim()` in JavaScript (js) or `s.strip()` in Python (!js): what is left
      of s once the spaces of that language are cut from both ends
      (TrimCutsSpaces states what that leaves). */
  function Trim(s: string, js: bool): (r: string)
    ensures |r| <= |s|
  {
    TrimRight(TrimLeft(s, SpaceTest(js)), SpaceTest(js))
  }

  /** The trimmed string is an infix of s that neither starts nor ends with a
      space of the language, with only such spaces on either side. */
  lemma TrimCutsSpaces(s: string, js: bool)
    ensures exists k :: PaddedAt(s, Trim(s, js), k, SpaceTest(js))
  {
    var sp := SpaceTest(js);
    var l := TrimLeft(s, sp);
    TrimLeftCuts(s, sp);
    TrimRightCuts(l, sp);
    TrimPadded(s, l, TrimRight(l, sp), sp);
    assert PaddedAt(s, Trim(s, js), |s| - |l|, sp);
  }
}
