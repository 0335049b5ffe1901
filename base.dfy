/**
 * Values and helpers shared by every module: optional values, thrown JavaScript
 * values, JavaScript truthiness of optional strings, and the string and sequence
 * operations the application uses (trim, split, join, includes, replace, filter).
 */
module Base {

  /** An optional value: `undefined` (or `null`) is None. */
  datatype Option<+T> = None | Some(value: T)

  /** The outcome of an operation that may throw: a value, or the error it fails with. */
  datatype Result<+T, +E> = Ok(value: T) | Err(error: E)

  /** A value thrown by JavaScript code: an Error with its message, or any other value. */
  datatype Thrown = ErrorValue(message: string) | NonError

  /** `error instanceof Error ? error.message : fallback` */
  function MessageOr(t: Thrown, fallback: string): (r: string)
    ensures t.ErrorValue? ==> r == t.message
    ensures t.NonError? ==> r == fallback
  {
    match t
    case ErrorValue(m) => m
    case NonError => fallback
  }

  /** An optional string is truthy when it is present and not empty. */
  predicate Present(o: Option<string>)
  {
    o.Some? && o.value != ""
  }

  /** `o || d` for an optional string `o`. */
  function OrElse(o: Option<string>, d: string): (r: string)
    ensures Present(o) ==> r == o.value
    ensures !Present(o) ==> r == d
  {
    if Present(o) then o.value else d
  }

  /** An optional string field, normalised the way `x || undefined` does. */
  function NonEmpty(s: string): (r: Option<string>)
    ensures Present(r) <==> s != ""
    ensures r.Some? ==> r.value == s
  {
    if s == "" then None else Some(s)
  }

  // ----- whitespace and trimming -----

  /** The characters ECMAScript's String.prototype.trim removes (WhiteSpace and LineTerminator). */
  predicate IsSpace(c: char)
  {
    c == ' ' || c == '\t' || c == '\n' || c == '\r' || c == '\U{000B}' || c == '\U{000C}'
    || c == '\U{00A0}' || c == '\U{FEFF}' || c == '\U{1680}' || ('\U{2000}' <= c <= '\U{200A}')
    || c == '\U{2028}' || c == '\U{2029}' || c == '\U{202F}' || c == '\U{205F}' || c == '\U{3000}'
  }

  function TrimStart(s: string): (r: string)
    ensures |r| <= |s| && r == s[|s| - |r|..]
    ensures r == [] || !IsSpace(r[0])
    ensures forall i :: 0 <= i < |s| - |r| ==> IsSpace(s[i])
  {
    if s != [] && IsSpace(s[0]) then
      var r := TrimStart(s[1..]);
      assert s[1..][|s| - 1 - |r|..] == s[|s| - |r|..];
      assert forall i :: 1 <= i < |s| - |r| ==> s[i] == s[1..][i - 1];
      r
    else s
  }

  function TrimEnd(s: string): (r: string)
    ensures |r| <= |s| && r == s[..|r|]
    ensures r == [] || !IsSpace(r[|r| - 1])
    ensures forall i :: |r| <= i < |s| ==> IsSpace(s[i])
  {
    if s != [] && IsSpace(s[|s| - 1]) then TrimEnd(s[..|s| - 1]) else s
  }

  /** `s.trim()`: the infix left after dropping leading and trailing white space. */
  function Trim(s: string): (r: string)
    ensures |r| <= |s|
    ensures r == [] || (!IsSpace(r[0]) && !IsSpace(r[|r| - 1]))
    ensures MatchesAt(s, r, |s| - |TrimStart(s)|)
  {
    var t := TrimStart(s);
    var r := TrimEnd(t);
    TrimEndOfSuffix(s, t, r);
    r
  }

  /** The trailing trim of a suffix keeps a non-space first character and sits inside `s`. */
  lemma TrimEndOfSuffix(s: string, t: string, r: string)
    requires |t| <= |s| && t == s[|s| - |t|..] && (t == [] || !IsSpace(t[0]))
    requires |r| <= |t| && r == t[..|r|]
    ensures r == [] || !IsSpace(r[0])
    ensures MatchesAt(s, r, |s| - |t|)
  {
    SliceOfSuffix(s, |s| - |t|, |r|);
    if r != [] {
      assert r[0] == t[0];
    }
  }

  /**
   * Trimming is dropping the leading white space, then the trailing white space: with the
   * contracts of `TrimStart` and `TrimEnd`, everything around the result is white space.
   */
  lemma TrimIsBoth(s: string)
    ensures Trim(s) == TrimEnd(TrimStart(s))
    ensures forall i :: 0 <= i < |s| - |TrimStart(s)| ==> IsSpace(s[i])
    ensures forall i :: |s| - |TrimStart(s)| + |Trim(s)| <= i < |s| ==> IsSpace(s[i])
  {
    var t := TrimStart(s);
    assert forall i :: |s| - |t| + |Trim(s)| <= i < |s| ==> s[i] == t[i - (|s| - |t|)];
  }

  lemma SliceOfSuffix(s: string, k: nat, m: nat)
    requires k + m <= |s|
    ensures s[k..][..m] == s[k..k + m]
  {
  }

  /** A string whose first and last characters are not white space is its own trim. */
  lemma TrimIdentity(s: string)
    requires s == [] || (!IsSpace(s[0]) && !IsSpace(s[|s| - 1]))
    ensures Trim(s) == s
  {
  }

  /** A trimmed string is empty exactly when the original is empty or all white space. */
  lemma {:induction false} TrimEmpty(s: string)
    ensures Trim(s) == [] <==> forall i :: 0 <= i < |s| ==> IsSpace(s[i])
  {
    var t := TrimStart(s);
    if t != [] {
      assert !IsSpace(t[0]);
      assert s[|s| - |t|] == t[0];
      assert TrimEnd(t) != [];
    }
  }

  // ----- case folding -----

  /** Lower-casing of one character; only the ASCII letters are folded. */
  function LowerChar(c: char): (r: char)
  {
    if 'A' <= c <= 'Z' then (c as int + 32) as char else c
  }

  /** `s.toLowerCase()` for ASCII letters. */
  function ToLower(s: string): (r: string)
    ensures |r| == |s|
    ensures forall i :: 0 <= i < |s| ==> r[i] == LowerChar(s[i])
  {
    seq(|s|, i requires 0 <= i < |s| => LowerChar(s[i]))
  }

  /** Lower-casing a lower-cased string changes nothing. */
  lemma ToLowerIdempotent(s: string)
    ensures ToLower(ToLower(s)) == ToLower(s)
  {
  }

  // ----- searching -----

  /** `pat` occurs in `s` starting at index `j`. */
  predicate MatchesAt(s: string, pat: string, j: int)
  {
    0 <= j && j + |pat| <= |s| && s[j..j + |pat|] == pat
  }

  /** `s.indexOf(pat, from)`: the first index at or after `from` where `pat` occurs. */
  function IndexFrom(s: string, pat: string, from: nat): (r: Option<nat>)
    requires from <= |s|
    ensures r.Some? ==> from <= r.value && MatchesAt(s, pat, r.value)
    ensures r.Some? ==> forall j :: from <= j < r.value ==> !MatchesAt(s, pat, j)
    ensures r.None? ==> forall j :: from <= j ==> !MatchesAt(s, pat, j)
    decreases |s| - from
  {
    if MatchesAt(s, pat, from) then Some(from)
    else if from == |s| then None
    else IndexFrom(s, pat, from + 1)
  }

  function IndexOf(s: string, pat: string): (r: Option<nat>)
    ensures r.Some? ==> MatchesAt(s, pat, r.value) && forall j :: 0 <= j < r.value ==> !MatchesAt(s, pat, j)
    ensures r.None? ==> forall j :: !MatchesAt(s, pat, j)
  {
    IndexFrom(s, pat, 0)
  }

  /** `s.includes(pat)` */
  predicate Includes(s: string, pat: string)
  {
    IndexOf(s, pat).Some?
  }

  lemma IncludesAt(s: string, pat: string, j: int)
    requires MatchesAt(s, pat, j)
    ensures Includes(s, pat)
  {
  }

  // ----- keyed lookup -----

  /** `xs.findIndex(x => key(x) === id)`: the first position holding the id, `None` for -1. */
  function FindIndex<T>(xs: seq<T>, key: T -> string, id: string): (r: Option<nat>)
    ensures r.Some? ==> r.value < |xs| && key(xs[r.value]) == id
    ensures r.Some? ==> forall j :: 0 <= j < r.value ==> key(xs[j]) != id
    ensures r.None? <==> forall j :: 0 <= j < |xs| ==> key(xs[j]) != id
  {
    if xs == [] then None
    else if key(xs[0]) == id then Some(0)
    else match FindIndex(xs[1..], key, id)
      case None => None
      case Some(i) => Some(i + 1)
  }

  /** `xs.find(x => key(x) === id)`: the first element holding the id, or undefined. */
  function Find<T>(xs: seq<T>, key: T -> string, id: string): (r: Option<T>)
    ensures r.Some? <==> exists j :: 0 <= j < |xs| && key(xs[j]) == id
    ensures r.Some? ==> r.value == xs[FindIndex(xs, key, id).value]
  {
    match FindIndex(xs, key, id)
    case None => None
    case Some(i) => Some(xs[i])
  }

  /** Appending an element with the id keeps an earlier first match and otherwise finds it at the old length. */
  lemma {:induction false} FindIndexAppend<T>(xs: seq<T>, key: T -> string, id: string, x: T)
    requires key(x) == id
    ensures FindIndex(xs + [x], key, id) == (if FindIndex(xs, key, id).Some? then FindIndex(xs, key, id) else Some(|xs|))
  {
    if xs != [] {
      assert (xs + [x])[1..] == xs[1..] + [x];
      FindIndexAppend(xs[1..], key, id, x);
    }
  }

  function EntryKey(e: (string, string)): string { e.0 }

  /**
   * `TABLE[key]` on a constant string table: the first entry with the key, `undefined`
   * (`None`) for a key the table does not hold.
   */
  function TableLookup(table: seq<(string, string)>, key: string): (r: Option<string>)
    ensures r.Some? <==> exists i :: 0 <= i < |table| && table[i].0 == key
    ensures r.Some? ==> (key, r.value) in table
  {
    match Find(table, EntryKey, key)
    case None => None
    case Some(e) => Some(e.1)
  }

  // ----- String.prototype.replace with a string pattern -----

  /**
   * The replacement text after expanding the `$` patterns ECMAScript recognises when the
   * pattern is a plain string: `$$`, `$&` (the match), "$`" (the text before it) and
   * `$'` (the text after it). Any other `$` stands for itself.
   */
  function Expand(rep: string, matched: string, before: string, after: string): (r: string)
    decreases |rep|
  {
    if |rep| >= 2 && rep[0] == '$' && rep[1] == '$' then "$" + Expand(rep[2..], matched, before, after)
    else if |rep| >= 2 && rep[0] == '$' && rep[1] == '&' then matched + Expand(rep[2..], matched, before, after)
    else if |rep| >= 2 && rep[0] == '$' && rep[1] == '`' then before + Expand(rep[2..], matched, before, after)
    else if |rep| >= 2 && rep[0] == '$' && rep[1] == '\'' then after + Expand(rep[2..], matched, before, after)
    else if rep == [] then []
    else [rep[0]] + Expand(rep[1..], matched, before, after)
  }

  /** A replacement without `$` is inserted literally. */
  lemma {:induction false} ExpandLiteral(rep: string, matched: string, before: string, after: string)
    requires '$' !in rep
    ensures Expand(rep, matched, before, after) == rep
  {
    if rep != [] {
      ExpandLiteral(rep[1..], matched, before, after);
    }
  }

  /** `s.replace(pat, rep)` with a string `pat`: only the first occurrence is replaced. */
  function ReplaceFirst(s: string, pat: string, rep: string): (r: string)
    ensures (forall j :: !MatchesAt(s, pat, j)) ==> r == s
  {
    match IndexOf(s, pat)
    case None => s
    case Some(i) => s[..i] + Expand(rep, pat, s[..i], s[i + |pat|..]) + s[i + |pat|..]
  }

  /**
   * Where `pat` first occurs after the prefix `a`, `s.replace(pat, rep)` puts the expanded
   * replacement there and keeps everything after it verbatim, including later occurrences.
   */
  lemma ReplaceFirstAt(a: string, pat: string, b: string, rep: string)
    requires forall j :: 0 <= j < |a| ==> !MatchesAt(a + pat + b, pat, j)
    ensures ReplaceFirst(a + pat + b, pat, rep) == a + Expand(rep, pat, a, b) + b
  {
    var s := a + pat + b;
    assert MatchesAt(s, pat, |a|);
    var i := IndexOf(s, pat).value;
    assert i == |a|;
    assert s[..i] == a;
    assert s[i + |pat|..] == b;
  }

  // ----- sequences -----

  /** `xs.filter(p)` */
  function Filter<T>(xs: seq<T>, p: T -> bool): (r: seq<T>)
    ensures |r| <= |xs|
    ensures forall i :: 0 <= i < |r| ==> r[i] in xs && p(r[i])
    ensures forall i :: 0 <= i < |xs| && p(xs[i]) ==> xs[i] in r
  {
    if xs == [] then [] else (if p(xs[0]) then [xs[0]] else []) + Filter(xs[1..], p)
  }

  /** Filtering distributes over concatenation: the kept elements keep their relative order. */
  lemma {:induction false} FilterAppend<T>(xs: seq<T>, ys: seq<T>, p: T -> bool)
    ensures Filter(xs + ys, p) == Filter(xs, p) + Filter(ys, p)
  {
    if xs != [] {
      assert (xs + ys)[0] == xs[0];
      assert (xs + ys)[1..] == xs[1..] + ys;
      FilterAppend(xs[1..], ys, p);
    } else {
      assert xs + ys == ys;
    }
  }

  /** A filter that keeps every element returns the sequence itself. */
  lemma {:induction false} FilterAll<T>(xs: seq<T>, p: T -> bool)
    requires forall i :: 0 <= i < |xs| ==> p(xs[i])
    ensures Filter(xs, p) == xs
  {
    if xs != [] {
      FilterAll(xs[1..], p);
    }
  }

  /** `xs.join(sep)` */
  function Join(xs: seq<string>, sep: string): (r: string)
    ensures xs == [] ==> r == ""
    ensures |xs| == 1 ==> r == xs[0]
  {
    if xs == [] then "" else if |xs| == 1 then xs[0] else xs[0] + sep + Join(xs[1..], sep)
  }

  /** The three parts of `a + b + c` can be read back by position. */
  lemma Parts<T>(a: seq<T>, b: seq<T>, c: seq<T>)
    ensures |a + b + c| == |a| + |b| + |c|
    ensures (a + b + c)[..|a|] == a && (a + b + c)[|a|..|a| + |b|] == b && (a + b + c)[|a| + |b|..] == c
  {
  }

  /** Indexing `a + b + c` reads the part the position falls in. */
  lemma PartsIndex<T>(a: seq<T>, b: seq<T>, c: seq<T>, i: int)
    requires 0 <= i < |a| + |b| + |c|
    ensures (a + b + c)[i] == if i < |a| then a[i] else if i < |a| + |b| then b[i - |a|] else c[i - |a| - |b|]
  {
  }

  /** Appending leaves every slice of the front part as it was. */
  lemma SliceOfFront<T>(x: seq<T>, y: seq<T>, i: int, j: int)
    requires 0 <= i <= j <= |x|
    ensures (x + y)[i..j] == x[i..j]
  {
  }

  /** `xs.map(x => x.trim())` */
  function TrimAll(xs: seq<string>): (r: seq<string>)
    ensures |r| == |xs| && forall i :: 0 <= i < |xs| ==> r[i] == Trim(xs[i])
  {
    seq(|xs|, i requires 0 <= i < |xs| => Trim(xs[i]))
  }

  /**
   * `s.split(sep).map(x => x.trim()).filter(x => x.length > 0)`: the pieces between
   * separators, trimmed, with the blank ones dropped.
   */
  function SplitTrimmed(s: string, sep: char): (r: seq<string>)
    ensures forall i :: 0 <= i < |r| ==> r[i] != "" && sep !in r[i] && !IsSpace(r[i][0]) && !IsSpace(r[i][|r[i]| - 1])
  {
    var trimmed := TrimAll(Split(s, sep));
    TrimmedPieces(Split(s, sep), sep, trimmed);
    Filter(trimmed, t => t != "")
  }

  /** Trimmed pieces of a split hold no separator and, when not empty, start and end with a non-space. */
  lemma TrimmedPieces(pieces: seq<string>, sep: char, trimmed: seq<string>)
    requires forall i :: 0 <= i < |pieces| ==> sep !in pieces[i]
    requires |trimmed| == |pieces| && forall i :: 0 <= i < |pieces| ==> trimmed[i] == Trim(pieces[i])
    ensures forall t :: t in trimmed && t != "" ==> sep !in t && !IsSpace(t[0]) && !IsSpace(t[|t| - 1])
  {
    forall t | t in trimmed && t != "" ensures sep !in t && !IsSpace(t[0]) && !IsSpace(t[|t| - 1]) {
      var i :| 0 <= i < |trimmed| && trimmed[i] == t;
      TrimInfix(pieces[i], sep);
    }
  }

  /** Trimming takes an infix: it cannot add a character. */
  lemma TrimInfix(s: string, c: char)
    requires c !in s
    ensures c !in Trim(s)
  {
    var k := |s| - |TrimStart(s)|;
    assert Trim(s) == s[k..k + |Trim(s)|];
  }

  /** A separator cuts the text in two: the pieces of each side, in order. */
  lemma {:induction false} SplitAppend(a: string, sep: char, b: string)
    ensures Split(a + [sep] + b, sep) == Split(a, sep) + Split(b, sep)
    decreases |a|
  {
    if a == [] {
      assert a + [sep] + b == [sep] + b;
      assert ([sep] + b)[1..] == b;
    } else {
      var s := a + [sep] + b;
      assert s[0] == a[0] && s[1..] == a[1..] + [sep] + b;
      SplitAppend(a[1..], sep, b);
    }
  }

  /** Text joined at a separator yields the trimmed pieces of the first part, then those of the second. */
  lemma SplitTrimmedAppend(a: string, sep: char, b: string)
    ensures SplitTrimmed(a + [sep] + b, sep) == SplitTrimmed(a, sep) + SplitTrimmed(b, sep)
  {
    SplitAppend(a, sep, b);
    var xs, ys := Split(a, sep), Split(b, sep);
    TrimAllAppend(xs, ys);
    FilterAppend(TrimAll(xs), TrimAll(ys), t => t != "");
  }

  lemma TrimAllAppend(xs: seq<string>, ys: seq<string>)
    ensures TrimAll(xs + ys) == TrimAll(xs) + TrimAll(ys)
  {
    PointwiseAppend(TrimAll(xs + ys), TrimAll(xs), TrimAll(ys), xs, ys, Trim);
  }

  /** A sequence that applies `f` pointwise to `xs + ys` is the pointwise images of both, joined. */
  lemma PointwiseAppend<A, B>(l: seq<B>, a: seq<B>, b: seq<B>, xs: seq<A>, ys: seq<A>, f: A -> B)
    requires |l| == |xs| + |ys| && |a| == |xs| && |b| == |ys|
    requires forall i :: 0 <= i < |l| ==> l[i] == f((xs + ys)[i])
    requires forall i :: 0 <= i < |a| ==> a[i] == f(xs[i])
    requires forall i :: 0 <= i < |b| ==> b[i] == f(ys[i])
    ensures l == a + b
  {
    forall i | 0 <= i < |l| ensures l[i] == (a + b)[i] {
      if i < |xs| { assert (xs + ys)[i] == xs[i]; } else { assert (xs + ys)[i] == ys[i - |xs|]; }
    }
  }

  /** Pieces that are already trimmed, non-blank and free of the separator come back from their join. */
  lemma {:induction false} SplitTrimmedJoin(xs: seq<string>, sep: char)
    requires forall i :: 0 <= i < |xs| ==> xs[i] != "" && sep !in xs[i] && !IsSpace(xs[i][0]) && !IsSpace(xs[i][|xs[i]| - 1])
    ensures SplitTrimmed(Join(xs, [sep]), sep) == xs
  {
    if xs == [] {
      assert Split("", sep) == [""];
      assert TrimAll([""]) == [""];
    } else {
      SplitJoin(xs, sep);
      TrimAllIdentity(xs);
      FilterAll(xs, (t: string) => t != "");
    }
  }

  /** Pieces that already start and end with a non-space are their own trims. */
  lemma TrimAllIdentity(xs: seq<string>)
    requires forall i :: 0 <= i < |xs| ==> xs[i] == [] || (!IsSpace(xs[i][0]) && !IsSpace(xs[i][|xs[i]| - 1]))
    ensures TrimAll(xs) == xs
  {
    var r := TrimAll(xs);
    forall i | 0 <= i < |xs| ensures r[i] == xs[i] {
      TrimIdentity(xs[i]);
    }
  }

  /** Parsing is idempotent: the join of the pieces parses to the same pieces. */
  lemma SplitTrimmedIdempotent(s: string, sep: char)
    ensures SplitTrimmed(Join(SplitTrimmed(s, sep), [sep]), sep) == SplitTrimmed(s, sep)
  {
    SplitTrimmedJoin(SplitTrimmed(s, sep), sep);
  }

  /** The concatenation of a sequence of strings, `xs.join('')`. */
  function Concat(xs: seq<string>): (r: string)
  {
    if xs == [] then "" else Concat(xs[..|xs| - 1]) + xs[|xs| - 1]
  }

  lemma {:induction false} ConcatAppend(xs: seq<string>, ys: seq<string>)
    ensures Concat(xs + ys) == Concat(xs) + Concat(ys)
    decreases |ys|
  {
    if ys != [] {
      assert (xs + ys)[..|xs + ys| - 1] == xs + ys[..|ys| - 1];
      assert (xs + ys)[|xs + ys| - 1] == ys[|ys| - 1];
      ConcatAppend(xs, ys[..|ys| - 1]);
    } else {
      assert xs + ys == xs;
    }
  }

  /** `s.split(sep)` for a one-character separator; like JavaScript, "" splits to [""]. */
  function Split(s: string, sep: char): (r: seq<string>)
    ensures |r| >= 1
    ensures forall i :: 0 <= i < |r| ==> sep !in r[i]
    decreases |s|
  {
    if s == [] then [""]
    else if s[0] == sep then [""] + Split(s[1..], sep)
    else
      var t := Split(s[1..], sep);
      [[s[0]] + t[0]] + t[1..]
  }

  /** Joining the pieces of a split with the separator gives the string back. */
  lemma {:induction false} JoinSplit(s: string, sep: char)
    ensures Join(Split(s, sep), [sep]) == s
    decreases |s|
  {
    if s != [] {
      JoinSplit(s[1..], sep);
      var t := Split(s[1..], sep);
      if s[0] != sep {
        var r := Split(s, sep);
        assert r[1..] == t[1..];
        if |t| > 1 {
          assert Join(t, [sep]) == t[0] + [sep] + Join(t[1..], [sep]);
        }
      }
    }
  }

  /** Splitting a join whose pieces avoid the separator gives the pieces back. */
  lemma {:induction false} SplitJoin(xs: seq<string>, sep: char)
    requires |xs| >= 1
    requires forall i :: 0 <= i < |xs| ==> sep !in xs[i]
    ensures Split(Join(xs, [sep]), sep) == xs
    decreases |xs|, |xs[0]|
  {
    if |xs| == 1 {
      SplitNoSep(xs[0], sep);
    } else if xs[0] == [] {
      var rest := Join(xs[1..], [sep]);
      assert Join(xs, [sep]) == [sep] + rest;
      SplitJoin(xs[1..], sep);
      assert Split([sep] + rest, sep) == [""] + Split(rest, sep);
    } else {
      var c := xs[0][0];
      assert c in xs[0];
      var ys := [xs[0][1..]] + xs[1..];
      assert ys[1..] == xs[1..];
      assert sep !in ys[0];
      assert xs[0] == [c] + ys[0];
      assert Join(xs, [sep]) == [c] + Join(ys, [sep]);
      SplitJoin(ys, sep);
      var j := [c] + Join(ys, [sep]);
      assert j[0] == c && j[1..] == Join(ys, [sep]);
      assert Split(j, sep) == [[c] + ys[0]] + ys[1..];
    }
  }

  lemma {:induction false} SplitNoSep(s: string, sep: char)
    requires sep !in s
    ensures Split(s, sep) == [s]
    decreases |s|
  {
    if s != [] {
      assert s[0] in s;
      assert sep !in s[1..];
      SplitNoSep(s[1..], sep);
      assert [s[0]] + s[1..] == s;
    }
  }

  // ----- numbers -----

  /** The character of a decimal digit. */
  function DigitChar(d: nat): (c: char)
    requires d < 10
    ensures '0' <= c <= '9' && c as int - '0' as int == d
  {
    ('0' as int + d) as char
  }

  /** The value a string of decimal digits spells, most significant digit first. */
  function DigitsValue(s: string): nat
  {
    if s == [] then 0
    else DigitsValue(s[..|s| - 1]) * 10 + (if '0' <= s[|s| - 1] <= '9' then s[|s| - 1] as int - '0' as int else 0)
  }

  /** The decimal text of a natural number: digits only. */
  function NatToString(n: nat): (r: string)
    ensures |r| >= 1
    ensures forall i :: 0 <= i < |r| ==> '0' <= r[i] <= '9'
  {
    if n < 10 then [DigitChar(n)] else NatToString(n / 10) + [DigitChar(n % 10)]
  }

  /** The digits spell `n`, with no leading zero unless `n` is 0. */
  lemma {:induction false} NatToStringValue(n: nat)
    ensures DigitsValue(NatToString(n)) == n
    ensures NatToString(n)[0] != '0' || NatToString(n) == "0"
  {
    var r := NatToString(n);
    assert DigitsValue("0") == 0 by {
      assert "0"[..0] == [];
    }
    if n < 10 {
      assert r[..0] == [];
    } else {
      NatToStringValue(n / 10);
      var prefix := NatToString(n / 10);
      assert r[..|r| - 1] == prefix;
    }
  }

  /** The decimal text JavaScript produces for an integer, as in a template literal. */
  function IntToString(n: int): (r: string)
    ensures |r| >= 1
  {
    if n < 0 then "-" + NatToString(-n) else NatToString(n)
  }

  /** A non-negative integer is its digits; a negative one is '-' followed by the digits of its magnitude. */
  lemma {:induction false} IntToStringValue(n: int)
    ensures n >= 0 ==> DigitsValue(IntToString(n)) == n && IntToString(n)[0] != '-'
    ensures n < 0 ==> IntToString(n)[0] == '-' && DigitsValue(IntToString(n)[1..]) == -n
    ensures n >= 0 ==> forall i :: 0 <= i < |IntToString(n)| ==> '0' <= IntToString(n)[i] <= '9'
    ensures n < 0 ==> forall i :: 1 <= i < |IntToString(n)| ==> '0' <= IntToString(n)[i] <= '9'
  {
    if n < 0 {
      NegativeDigits(n);
    } else {
      NatToStringValue(n);
    }
  }

  lemma NegativeDigits(n: int)
    requires n < 0
    ensures IntToString(n)[0] == '-' && DigitsValue(IntToString(n)[1..]) == -n
    ensures forall i :: 1 <= i < |IntToString(n)| ==> '0' <= IntToString(n)[i] <= '9'
  {
    var m: nat := -n;
    var digits := NatToString(m);
    NatToStringValue(m);
    Signed(IntToString(n), digits);
  }

  lemma Signed(r: string, digits: string)
    requires r == "-" + digits
    ensures r[0] == '-' && r[1..] == digits && forall i :: 1 <= i < |r| ==> r[i] == digits[i - 1]
  {
  }
}
