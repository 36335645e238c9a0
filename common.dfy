/** Small shared vocabulary: optional values, string prefixes and order-preserving filtering. */
module Common {

  /** Python's `Optional[T]`: `None` or a present value. */
  datatype Option<+T> = None | Some(value: T)

  /** Python's `s.startswith(prefix)`. */
  predicate StartsWith(s: string, prefix: string) {
    |prefix| <= |s| && s[..|prefix|] == prefix
  }

  /** Python's `s.endswith(suffix)`. */
  predicate EndsWith(s: string, suffix: string) {
    |suffix| <= |s| && s[|s| - |suffix|..] == suffix
  }

  /** The elements of `s` satisfying `p`, in their original order (a list comprehension with a condition). */
  function Filter<T(==)>(p: T -> bool, s: seq<T>): (r: seq<T>)
    ensures |r| <= |s|
    ensures forall x :: x in r ==> x in s && p(x)
  {
    if s == [] then [] else (if p(s[0]) then [s[0]] else []) + Filter(p, s[1..])
  }

  /** `r` is obtained from `s` by deleting some elements, keeping the rest in order. */
  predicate IsSubsequence<T(==)>(r: seq<T>, s: seq<T>)
    decreases |s|
  {
    if r == [] then true
    else if s == [] then false
    else (r[0] == s[0] && IsSubsequence(r[1..], s[1..])) || IsSubsequence(r, s[1..])
  }

  /** Nothing that satisfies `p` is lost by filtering. */
  lemma {:induction false} FilterComplete<T>(p: T -> bool, s: seq<T>, x: T)
    requires x in s && p(x)
    ensures x in Filter(p, s)
  {
    if s[0] != x {
      FilterComplete(p, s[1..], x);
    }
  }

  /** Filtering distributes over concatenation. */
  lemma {:induction false} FilterAppend<T>(p: T -> bool, a: seq<T>, b: seq<T>)
    ensures Filter(p, a + b) == Filter(p, a) + Filter(p, b)
  {
    if a == [] {
      assert a + b == b;
    } else {
      assert (a + b)[1..] == a[1..] + b;
      FilterAppend(p, a[1..], b);
    }
  }

  /** Filtering a list extended by one element. */
  lemma FilterSnoc<T>(p: T -> bool, s: seq<T>, x: T)
    ensures Filter(p, s + [x]) == Filter(p, s) + (if p(x) then [x] else [])
  {
    FilterAppend(p, s, [x]);
  }

  /** Filtering around an element the filter rejects. */
  lemma FilterSkipsRejected<T>(p: T -> bool, before: seq<T>, x: T, after: seq<T>)
    requires !p(x)
    ensures Filter(p, before + [x] + after) == Filter(p, before) + Filter(p, after)
  {
    FilterAppend(p, before + [x], after);
    FilterSnoc(p, before, x);
  }

  /** Filtering around an element the filter accepts. */
  lemma FilterPassesAccepted<T>(p: T -> bool, before: seq<T>, x: T, after: seq<T>)
    requires p(x)
    ensures Filter(p, before + [x] + after) == Filter(p, before) + [x] + Filter(p, after)
  {
    FilterAppend(p, before + [x], after);
    FilterSnoc(p, before, x);
  }

  /** Filtering keeps the relative order of what it keeps. */
  lemma {:induction false} FilterIsSubsequence<T>(p: T -> bool, s: seq<T>)
    ensures IsSubsequence(Filter(p, s), s)
  {
    if s != [] {
      FilterIsSubsequence(p, s[1..]);
      if p(s[0]) {
        var r := Filter(p, s);
        assert r[0] == s[0] && r[1..] == Filter(p, s[1..]);
      } else {
        assert Filter(p, s) == Filter(p, s[1..]);
      }
    }
  }

  /**
   * One step of an in-place filtering loop that keeps the element at `index`:
   * `current[..index]` is the filtered part of `original[..visited]` and
   * `current[index..]` the part of `original` not yet visited.
   */
  lemma FilterLoopKeep<T>(p: T -> bool, original: seq<T>, visited: nat, current: seq<T>, index: nat)
    requires visited <= |original| && index < |current|
    requires current[..index] == Filter(p, original[..visited])
    requires current[index..] == original[visited..]
    requires p(current[index])
    ensures visited + 1 <= |original|
    ensures current[..index + 1] == Filter(p, original[..visited + 1])
    ensures current[index + 1..] == original[visited + 1..]
  {
    var x := current[index];
    assert x == original[visited];
    assert original[..visited + 1] == original[..visited] + [x];
    FilterSnoc(p, original[..visited], x);
    assert current[..index + 1] == current[..index] + [x];
    assert current[index + 1..] == current[index..][1..];
  }

  /** One step of an in-place filtering loop that deletes the element at `index`. */
  lemma FilterLoopDrop<T>(p: T -> bool, original: seq<T>, visited: nat, current: seq<T>, index: nat)
    requires visited <= |original| && index < |current|
    requires current[..index] == Filter(p, original[..visited])
    requires current[index..] == original[visited..]
    requires !p(current[index])
    ensures visited + 1 <= |original|
    ensures var next := current[..index] + current[index + 1..];
      next[..index] == Filter(p, original[..visited + 1]) && next[index..] == original[visited + 1..]
  {
    var x := current[index];
    assert x == original[visited];
    assert original[..visited + 1] == original[..visited] + [x];
    FilterSnoc(p, original[..visited], x);
    var next := current[..index] + current[index + 1..];
    assert next[..index] == current[..index];
    assert next[index..] == current[index + 1..];
  }

  /** When an in-place filtering loop has visited everything, the list is the filtered original. */
  lemma FilterLoopDone<T>(p: T -> bool, original: seq<T>, visited: nat, current: seq<T>, index: nat)
    requires visited <= |original| && index == |current|
    requires current[..index] == Filter(p, original[..visited])
    requires current[index..] == original[visited..]
    ensures current == Filter(p, original)
  {
    assert original[..visited] == original;
    assert current[..index] == current;
  }
}
