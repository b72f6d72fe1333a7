/** Values shared by the training scripts and the CNN wrapper: the JSON
    diagnostic-case records they all load, an optional value for the
    "cases file missing" outcome, and sequence helpers. */
module Common {

  datatype Option<+T> = None | Some(value: T)

  /** One field of a JSON case object as `dict.get` sees it: the key is
      missing, it is JSON `null`, or it holds a string. */
  datatype Field = Absent | Null | Text(value: string)

  /** A diagnostic case from `dermatology_cases.json`; only the two keys the
      scripts read are kept. */
  datatype Case = Case(image: Field, diagnosis: Field)

  /** Python truthiness of a field read with `case.get(key)`: only a
      non-empty string is true. */
  predicate Truthy(f: Field)
  {
    f.Text? && f.value != ""
  }

  function Min(a: int, b: int): int { if a <= b then a else b }

  function Max(a: int, b: int): int { if a >= b then a else b }

  /** Concatenation of a sequence of sequences, in order. */
  function Flatten<T>(parts: seq<seq<T>>): (r: seq<T>)
  {
    if parts == [] then [] else parts[0] + Flatten(parts[1..])
  }

  /** A sequence has no more distinct elements than positions. */
  lemma {:induction false} ElementsBound<T>(s: seq<T>)
    ensures |set x | x in s| <= |s|
  {
    if s != [] {
      ElementsBound(s[1..]);
      assert (set x | x in s) == (set x | x in s[1..]) + {s[0]};
    }
  }

  /** A subset is no larger than its superset. */
  lemma {:induction false} SubsetBound<T>(a: set<T>, b: set<T>)
    requires a <= b
    ensures |a| <= |b|
  {
    if a != {} {
      var x :| x in a;
      SubsetBound(a - {x}, b - {x});
    }
  }

  /** Appending one more part to the list appends its elements. */
  lemma {:induction false} FlattenAppend<T>(parts: seq<seq<T>>, last: seq<T>)
    ensures Flatten(parts + [last]) == Flatten(parts) + last
  {
    if parts == [] {
      assert parts + [last] == [last];
    } else {
      assert (parts + [last])[1..] == parts[1..] + [last];
      FlattenAppend(parts[1..], last);
    }
  }
}

/** ASCII text helpers standing in for Python's `str.lower`, `in` on strings
    and `str.endswith`. */
module Text {

  function LowerChar(c: char): (r: char)
    ensures 'A' <= c <= 'Z' ==> r as int == c as int + 32
    ensures !('A' <= c <= 'Z') ==> r == c
  {
    if 'A' <= c <= 'Z' then (c as int + 32) as char else c
  }

  /** `s.lower()`, restricted to ASCII letters: each character on its own. */
  function Lower(s: string): string
  {
    seq(|s|, i requires 0 <= i < |s| => LowerChar(s[i]))
  }

  /** Lowering keeps the length, lowers every letter, and lowering twice is
      lowering once. */
  lemma LowerIdempotent(s: string)
    ensures |Lower(s)| == |s|
    ensures forall i :: 0 <= i < |s| ==> !('A' <= Lower(s)[i] <= 'Z')
    ensures Lower(Lower(s)) == Lower(s)
  {
  }

  /** Two strings that differ only in the case of ASCII letters. */
  predicate SameIgnoringCase(a: string, b: string)
  {
    Lower(a) == Lower(b)
  }

  /** `k` occurs in `s` starting at index `p`. */
  predicate OccursAt(s: string, k: string, p: nat)
  {
    p + |k| <= |s| && s[p..p + |k|] == k
  }

  /** Python's `k in s` for strings. */
  predicate Contains(s: string, k: string)
  {
    exists p: nat | p <= |s| :: OccursAt(s, k, p)
  }

  /** A key of two or more characters whose first two characters occur
      nowhere next to each other in `s` is not in `s`. */
  lemma FirstTwoAbsent(s: string, k: string)
    requires |k| >= 2
    requires forall p :: 0 <= p < |s| - 1 ==> s[p] != k[0] || s[p + 1] != k[1]
    ensures !Contains(s, k)
  {
    forall p: nat | p <= |s| ensures !OccursAt(s, k, p) {
      if p + |k| <= |s| {
        assert s[p..p + |k|][0] == s[p] && s[p..p + |k|][1] == s[p + 1];
      }
    }
  }

  /** `s.endswith(suffix)`. */
  predicate EndsWith(s: string, suffix: string)
  {
    |suffix| <= |s| && s[|s| - |suffix|..] == suffix
  }
}
