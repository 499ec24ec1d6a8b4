/** The JavaScript string operations the solver relies on, over strings of
    Unicode scalar values, one `char` per scalar value. JavaScript strings
    are UTF-16 code units: positions count code units there, and a lone
    surrogate has no `char` here. */
module JsString {

  /** A value that may be `undefined`. */
  datatype Option<+T> = None | Some(value: T)

  /** Array element access `xs[k]`, which gives `undefined` past the end. */
  function At<T>(xs: seq<T>, k: nat): (r: Option<T>)
    ensures r.Some? <==> k < |xs|
    ensures r.Some? ==> r.value == xs[k]
  {
    if k < |xs| then Some(xs[k]) else None
  }

  /** `sub` occurs in `s` starting at position `i`. */
  predicate OccursAt(s: string, sub: string, i: int)
  {
    0 <= i && i + |sub| <= |s| && s[i..i + |sub|] == sub
  }

  lemma OccursDrop(s: string, sub: string, d: nat, k: int)
    requires d <= |s| && k >= 0
    ensures OccursAt(s[d..], sub, k) <==> OccursAt(s, sub, k + d)
  {
    if k + |sub| <= |s| - d {
      assert s[d..][k..k + |sub|] == s[k + d..k + d + |sub|];
    }
  }

  /** `s.indexOf(sub, from)`: the position of the first occurrence of `sub`
      in `s` at or after `from`; `None` stands for JavaScript's -1. */
  function IndexFrom(s: string, sub: string, from: nat): (r: Option<nat>)
    ensures r.Some? ==> from <= r.value && r.value + |sub| <= |s|
    decreases |s| - from
  {
    if from + |sub| > |s| then None
    else if s[from..from + |sub|] == sub then Some(from)
    else IndexFrom(s, sub, from + 1)
  }

  /** `IndexFrom` finds an occurrence, and none lies between `from` and it;
      it finds none exactly when `sub` does not occur from `from` on. */
  lemma {:induction false} IndexFromSpec(s: string, sub: string, from: nat)
    ensures IndexFrom(s, sub, from).Some? ==> OccursAt(s, sub, IndexFrom(s, sub, from).value)
    ensures IndexFrom(s, sub, from).Some? ==>
      forall j :: from <= j < IndexFrom(s, sub, from).value ==> !OccursAt(s, sub, j)
    ensures IndexFrom(s, sub, from).None? ==> forall j :: from <= j ==> !OccursAt(s, sub, j)
    decreases |s| - from
  {
    if from + |sub| > |s| {
    } else if s[from..from + |sub|] == sub {
    } else {
      IndexFromSpec(s, sub, from + 1);
    }
  }

  /** `s.indexOf(sub)`. */
  function IndexOf(s: string, sub: string): (r: Option<nat>)
    ensures r.Some? ==> r.value + |sub| <= |s|
  {
    IndexFrom(s, sub, 0)
  }

  /** `IndexOf` finds the first occurrence, or none when `sub` does not
      occur at all. */
  lemma IndexOfSpec(s: string, sub: string)
    ensures IndexOf(s, sub).Some? ==> OccursAt(s, sub, IndexOf(s, sub).value)
    ensures IndexOf(s, sub).Some? ==> forall j :: 0 <= j < IndexOf(s, sub).value ==> !OccursAt(s, sub, j)
    ensures IndexOf(s, sub).None? ==> forall j :: !OccursAt(s, sub, j)
  {
    IndexFromSpec(s, sub, 0);
  }

  /** `s.includes(sub)`. */
  function Includes(s: string, sub: string): (r: bool)
    ensures r <==> exists j :: OccursAt(s, sub, j)
  {
    IndexOfSpec(s, sub);
    IndexOf(s, sub).Some?
  }

  /** `s.split(sep)` for a string separator: the pieces between successive
      non-overlapping occurrences of `sep`, scanning from the left; an empty
      separator splits into single characters. */
  function Split(s: string, sep: string): (parts: seq<string>)
    ensures |sep| == 0 ==> |parts| == |s| && forall k :: 0 <= k < |s| ==> parts[k] == [s[k]]
    ensures |sep| > 0 ==> |parts| >= 1
    ensures |sep| > 0 && !Includes(s, sep) ==> parts == [s]
  {
    if |sep| == 0 then Units(s) else SplitFrom(s, sep, 0)
  }

  /** The pieces of `s[from..]` split at a non-empty `sep`. */
  function SplitFrom(s: string, sep: string, from: nat): (parts: seq<string>)
    requires |sep| > 0 && from <= |s|
    ensures |parts| >= 1
    decreases |s| - from
  {
    match IndexFrom(s, sep, from)
    case None => [s[from..]]
    case Some(i) => [s[from..i]] + SplitFrom(s, sep, i + |sep|)
  }

  /** The single characters of `s`, each as a string: what an empty
      separator splits into. */
  function Units(s: string): (parts: seq<string>)
    ensures |parts| == |s| && forall k :: 0 <= k < |s| ==> parts[k] == [s[k]]
    decreases |s|
  {
    if s == [] then [] else [[s[0]]] + Units(s[1..])
  }

  /** `parts.join(sep)`. */
  function Join(parts: seq<string>, sep: string): string
  {
    if |parts| == 0 then []
    else if |parts| == 1 then parts[0]
    else parts[0] + sep + Join(parts[1..], sep)
  }

  /** Joining the pieces of a split with the same separator gives back the
      original string: `s.split(sep).join(sep) === s`. */
  lemma JoinSplit(s: string, sep: string)
    ensures Join(Split(s, sep), sep) == s
  {
    if |sep| == 0 {
      JoinSplitUnits(s);
    } else {
      JoinSplitFrom(s, sep, 0);
    }
  }

  lemma {:induction false} JoinSplitFrom(s: string, sep: string, from: nat)
    requires |sep| > 0 && from <= |s|
    ensures Join(SplitFrom(s, sep, from), sep) == s[from..]
    decreases |s| - from
  {
    match IndexFrom(s, sep, from)
    case None =>
    case Some(i) =>
      var next := i + |sep|;
      JoinSplitFrom(s, sep, next);
      IndexFromSpec(s, sep, from);
      Pieces(s, sep, from, i);
      JoinPieces(s[from..i], SplitFrom(s, sep, next), sep, s[next..], s[from..]);
  }

  /** A string cut around an occurrence of `sep` at `i`. */
  lemma Pieces(s: string, sep: string, from: nat, i: nat)
    requires from <= i && OccursAt(s, sep, i)
    ensures s[from..] == s[from..i] + sep + s[i + |sep|..]
  {
    assert s[from..] == s[from..i] + s[i..i + |sep|] + s[i + |sep|..];
  }

  lemma JoinPieces(x: string, tail: seq<string>, sep: string, rest: string, whole: string)
    requires |tail| >= 1 && Join(tail, sep) == rest && whole == x + sep + rest
    ensures Join([x] + tail, sep) == whole
  {
    JoinCons(x, tail, sep);
  }

  lemma JoinCons(x: string, tail: seq<string>, sep: string)
    requires |tail| >= 1
    ensures Join([x] + tail, sep) == x + sep + Join(tail, sep)
  {
    assert ([x] + tail)[1..] == tail;
  }

  lemma {:induction false} JoinSplitUnits(s: string)
    ensures Join(Units(s), []) == s
    decreases |s|
  {
    if |s| > 0 {
      assert Units(s) == [[s[0]]] + Units(s[1..]);
      JoinSplitUnits(s[1..]);
      if |s| > 1 {
        JoinCons([s[0]], Units(s[1..]), []);
      }
      assert s == [s[0]] + s[1..];
    }
  }

  /** `s[from..]` up to the first occurrence of `sep` at or after `from`
      (all of it when there is none). */
  function Segment(s: string, sep: string, from: nat): (r: string)
    requires from <= |s|
    ensures from + |r| <= |s| && r == s[from..from + |r|]
  {
    match IndexFrom(s, sep, from)
    case None => s[from..]
    case Some(j) => s[from..j]
  }

  /** `s.split(sep)[1]`: the segment after the first occurrence of `sep`,
      up to any second occurrence; `undefined` when `sep` does not occur. */
  lemma SplitSecond(s: string, sep: string)
    requires |sep| > 0
    ensures IndexOf(s, sep).None? ==> At(Split(s, sep), 1).None?
    ensures IndexOf(s, sep).Some? ==>
      var i := IndexOf(s, sep).value;
      At(Split(s, sep), 1) == Some(Segment(s, sep, i + |sep|))
  {
    var parts := SplitFrom(s, sep, 0);
    assert Split(s, sep) == parts;
    match IndexFrom(s, sep, 0)
    case None =>
      assert parts == [s[0..]];
    case Some(i) =>
      var rest := SplitFrom(s, sep, i + |sep|);
      assert parts == [s[0..i]] + rest;
      assert rest[0] == Segment(s, sep, i + |sep|);
  }

  predicate IsUpper(c: char)
  {
    'A' <= c <= 'Z'
  }

  /** The lower-case letter of an upper-case ASCII letter; other characters
      are their own lower case. */
  function ToLowerChar(c: char): char
  {
    if IsUpper(c) then (c as int + 32) as char else c
  }

  /** `s.toLowerCase()`, for the ASCII letters. */
  function ToLowerCase(s: string): (r: string)
    ensures |r| == |s|
  {
    seq(|s|, i requires 0 <= i < |s| => ToLowerChar(s[i]))
  }

  /** No upper-case ASCII letter occurs in `s`. */
  predicate IsLowerCase(s: string)
  {
    forall i :: 0 <= i < |s| ==> !IsUpper(s[i])
  }

  /** `a` and `b` differ at most in the case of ASCII letters. */
  predicate SameIgnoringCase(a: string, b: string)
  {
    |a| == |b| &&
    forall i :: 0 <= i < |a| ==>
      a[i] == b[i] ||
      (IsUpper(a[i]) && b[i] as int == a[i] as int + 32) ||
      (IsUpper(b[i]) && a[i] as int == b[i] as int + 32)
  }

  /** The lower-cased string has no upper-case letter and differs from its
      input only in letter case; it is the only string with both properties. */
  lemma ToLowerCaseSpec(s: string, other: string)
    ensures IsLowerCase(ToLowerCase(s))
    ensures SameIgnoringCase(ToLowerCase(s), s)
    ensures IsLowerCase(other) && SameIgnoringCase(other, s) ==> other == ToLowerCase(s)
  {
    var r := ToLowerCase(s);
    if IsLowerCase(other) && SameIgnoringCase(other, s) {
      forall i | 0 <= i < |s| ensures other[i] == r[i] {
        assert r[i] == ToLowerChar(s[i]);
      }
    }
  }

  /** Lower-casing twice is lower-casing once. */
  lemma ToLowerCaseIdempotent(s: string)
    ensures ToLowerCase(ToLowerCase(s)) == ToLowerCase(s)
  {
    var r := ToLowerCase(s);
    forall i | 0 <= i < |s| ensures ToLowerCase(r)[i] == r[i] {
      assert r[i] == ToLowerChar(s[i]);
    }
  }
}
