/** Small value types and string routines shared by the models: an Option
    type, whitespace trimming, splitting on a separator character, substring
    search and first-index lookup, stated the way JavaScript and Python
    define them. */
module Common {

  datatype Option<+T> = None | Some(value: T)

  /** JavaScript truthiness of a string that may be absent (`undefined` or
      `null`): the empty string is falsy too. */
  predicate Truthy(o: Option<string>)
  {
    o.Some? && o.value != ""
  }

  // ---------------------------------------------------------------------
  // Whitespace and trimming
  // ---------------------------------------------------------------------

  /** Characters removed by JavaScript's `String.prototype.trim`
      (WhiteSpace and LineTerminator of ECMAScript). */
  const JsWhitespace: set<char> :=
    {'\t', '\n', '\U{0B}', '\U{0C}', '\r', ' ', '\U{A0}', '\U{1680}',
     '\U{2000}', '\U{2001}', '\U{2002}', '\U{2003}', '\U{2004}', '\U{2005}',
     '\U{2006}', '\U{2007}', '\U{2008}', '\U{2009}', '\U{200A}',
     '\U{2028}', '\U{2029}', '\U{202F}', '\U{205F}', '\U{3000}', '\U{FEFF}'}

  /** Characters removed by Python's `str.strip()` (those for which
      `str.isspace()` holds). */
  const PyWhitespace: set<char> :=
    {'\t', '\n', '\U{0B}', '\U{0C}', '\r', '\U{1C}', '\U{1D}', '\U{1E}',
     '\U{1F}', ' ', '\U{85}', '\U{A0}', '\U{1680}',
     '\U{2000}', '\U{2001}', '\U{2002}', '\U{2003}', '\U{2004}', '\U{2005}',
     '\U{2006}', '\U{2007}', '\U{2008}', '\U{2009}', '\U{200A}',
     '\U{2028}', '\U{2029}', '\U{202F}', '\U{205F}', '\U{3000}'}

  /** Every character of `s` is in `ws`. */
  predicate AllIn(s: string, ws: set<char>)
  {
    forall k :: 0 <= k < |s| ==> s[k] in ws
  }

  /** `s` without its leading characters from `ws`. */
  function TrimStart(s: string, ws: set<char>): (r: string)
    ensures |r| <= |s| && r == s[|s| - |r|..]
    ensures AllIn(s[..|s| - |r|], ws)
    ensures r == [] || r[0] !in ws
    decreases |s|
  {
    if |s| > 0 && s[0] in ws then TrimStart(s[1..], ws) else s
  }

  /** `s` without its trailing characters from `ws`. */
  function TrimEnd(s: string, ws: set<char>): (r: string)
    ensures |r| <= |s| && r == s[..|r|]
    ensures AllIn(s[|r|..], ws)
    ensures r == [] || r[|r| - 1] !in ws
    decreases |s|
  {
    if |s| > 0 && s[|s| - 1] in ws then TrimEnd(s[..|s| - 1], ws) else s
  }

  /** `s` without leading and trailing characters from `ws`: JavaScript's
      `trim()` with `JsWhitespace`, Python's `strip()` with `PyWhitespace`. */
  function Trim(s: string, ws: set<char>): (r: string)
  {
    TrimEnd(TrimStart(s, ws), ws)
  }

  /** A string trims to nothing exactly when it is made only of whitespace. */
  lemma TrimEmptyIff(s: string, ws: set<char>)
    ensures Trim(s, ws) == [] <==> AllIn(s, ws)
  {
    var t := TrimStart(s, ws);
    var r := TrimEnd(t, ws);
    if r == [] {
      assert t == t[|r|..];
      assert s == s[..|s| - |t|] + t;
    } else {
      assert r[0] == s[|s| - |t|];
    }
  }

  /** A string that neither starts nor ends with whitespace trims to itself. */
  lemma TrimUnchanged(s: string, ws: set<char>)
    requires s != [] && s[0] !in ws && s[|s| - 1] !in ws
    ensures Trim(s, ws) == s
  {
    assert TrimStart(s, ws) == s;
  }

  // ---------------------------------------------------------------------
  // Substring search
  // ---------------------------------------------------------------------

  /** `sub` occurs in `s` starting at index `i`. */
  predicate OccursAt(s: string, sub: string, i: nat)
  {
    i + |sub| <= |s| && s[i..i + |sub|] == sub
  }

  /** JavaScript's `s.includes(sub)` and Python's `sub in s`. */
  function Contains(s: string, sub: string): (r: bool)
    ensures r <==> exists i: nat :: OccursAt(s, sub, i)
    decreases |s|
  {
    if |sub| > |s| then
      assert forall i: nat :: !OccursAt(s, sub, i);
      false
    else if s[..|sub|] == sub then
      assert OccursAt(s, sub, 0);
      true
    else
      var r := Contains(s[1..], sub);
      ShiftOccurrence(s, sub);
      r
  }

  /** An occurrence in `s` past the first position is an occurrence in
      `s[1..]` one position earlier. */
  lemma ShiftOccurrence(s: string, sub: string)
    requires |s| > 0
    requires !OccursAt(s, sub, 0)
    ensures (exists i: nat :: OccursAt(s, sub, i)) <==> (exists i: nat :: OccursAt(s[1..], sub, i))
  {
    forall i: nat | OccursAt(s, sub, i)
      ensures OccursAt(s[1..], sub, i - 1)
    {
      assert i > 0;
      assert s[1..][i - 1..i - 1 + |sub|] == s[i..i + |sub|];
    }
    forall i: nat | OccursAt(s[1..], sub, i)
      ensures OccursAt(s, sub, i + 1)
    {
      assert s[1..][i..i + |sub|] == s[i + 1..i + 1 + |sub|];
    }
  }

  // ---------------------------------------------------------------------
  // First index of an element
  // ---------------------------------------------------------------------

  /** JavaScript's `Array.prototype.indexOf`: the first index holding `x`,
      or -1 when there is none. */
  function IndexOf<T(==)>(s: seq<T>, x: T): (i: int)
    ensures -1 <= i < |s|
    ensures i == -1 <==> x !in s
    ensures 0 <= i ==> s[i] == x && x !in s[..i]
  {
    if |s| == 0 then -1
    else if s[0] == x then 0
    else
      var j := IndexOf(s[1..], x);
      assert s == [s[0]] + s[1..];
      if j == -1 then -1
      else
        assert s[..j + 1] == [s[0]] + s[1..][..j];
        j + 1
  }

  // ---------------------------------------------------------------------
  // Splitting on a separator character
  // ---------------------------------------------------------------------

  /** Concatenation of `parts` with `sep` between neighbours: JavaScript's
      `parts.join(sep)`. */
  function Join(parts: seq<string>, sep: char): string
    requires |parts| >= 1
  {
    if |parts| == 1 then parts[0] else parts[0] + [sep] + Join(parts[1..], sep)
  }

  /** JavaScript's `s.split(sep)` for a one-character separator: the maximal
      pieces between separators, including empty ones at either end. */
  function Split(s: string, sep: char): (parts: seq<string>)
    ensures |parts| >= 1
    ensures forall k :: 0 <= k < |parts| ==> sep !in parts[k]
    ensures Join(parts, sep) == s
    decreases |s|
  {
    if |s| == 0 then [""]
    else
      var rest := Split(s[1..], sep);
      if s[0] == sep then
        assert Join([""] + rest, sep) == [sep] + Join(rest, sep);
        [""] + rest
      else
        var parts := [[s[0]] + rest[0]] + rest[1..];
        assert parts[1..] == rest[1..];
        assert Join(parts, sep) == [s[0]] + Join(rest, sep) by {
          if |rest| > 1 {
            assert Join(rest, sep) == rest[0] + [sep] + Join(rest[1..], sep);
          }
        }
        assert s == [s[0]] + s[1..];
        parts
  }

  /** Splitting undoes joining whenever no piece contains the separator, so
      `Split` and `Join` are inverse bijections on such piece lists. */
  lemma {:induction false} SplitJoin(parts: seq<string>, sep: char)
    requires |parts| >= 1
    requires forall k :: 0 <= k < |parts| ==> sep !in parts[k]
    ensures Split(Join(parts, sep), sep) == parts
    decreases |Join(parts, sep)|
  {
    if |parts| == 1 {
      SplitNoSeparator(parts[0], sep);
    } else if |parts[0]| == 0 {
      var s := Join(parts, sep);
      assert s == [sep] + Join(parts[1..], sep);
      SplitJoin(parts[1..], sep);
      SplitStep(s, sep);
      assert s[1..] == Join(parts[1..], sep);
      assert parts == [""] + parts[1..];
    } else {
      var c := parts[0][0];
      var tail := [parts[0][1..]] + parts[1..];
      assert tail[1..] == parts[1..];
      var s := Join(parts, sep);
      assert Join(tail, sep) == parts[0][1..] + [sep] + Join(parts[1..], sep);
      assert s == [c] + Join(tail, sep);
      SplitJoin(tail, sep);
      SplitStep(s, sep);
      assert s[1..] == Join(tail, sep);
      assert [c] + parts[0][1..] == parts[0];
    }
  }

  /** One unfolding of `Split` on a non-empty string. */
  lemma SplitStep(s: string, sep: char)
    requires |s| > 0
    ensures var rest := Split(s[1..], sep);
      Split(s, sep) == if s[0] == sep then [""] + rest else [[s[0]] + rest[0]] + rest[1..]
  {
  }

  /** A string without the separator splits into itself alone. */
  lemma {:induction false} SplitNoSeparator(s: string, sep: char)
    requires sep !in s
    ensures Split(s, sep) == [s]
    decreases |s|
  {
    if |s| > 0 {
      SplitNoSeparator(s[1..], sep);
      assert [s[0]] + s[1..] == s;
    }
  }
}
