/** String helpers shared by the page and the code viewer: the JavaScript
    `endsWith`, `includes`, `split` on a one-character separator and `join`,
    over strings as `seq<char>`. */
module Text {

  datatype Option<+T> = None | Some(value: T)

  function Min(a: int, b: int): int { if a <= b then a else b }

  /** `s.endsWith(suffix)` */
  predicate EndsWith(s: string, suffix: string) {
    |suffix| <= |s| && s[|s| - |suffix|..] == suffix
  }

  /** `s.includes(sub)`: `sub` occurs in `s` as a contiguous piece. */
  ghost predicate Contains(s: string, sub: string) {
    exists k :: OccursAt(s, sub, k)
  }

  /** `sub` occurs in `s` starting at position `k`. */
  predicate OccursAt(s: string, sub: string, k: int) {
    0 <= k && k + |sub| <= |s| && s[k..k + |sub|] == sub
  }

  /** A string contains any of its suffixes. */
  lemma ContainsEnd(a: string, x: string)
    ensures Contains(a + x, x)
  {
    assert (a + x)[|a|..|a| + |x|] == x;
    assert OccursAt(a + x, x, |a|);
  }

  /** What a piece contains, the pieces joined contain. */
  lemma ContainsExtend(u: string, v: string, x: string)
    requires Contains(u, x) || Contains(v, x)
    ensures Contains(u + v, x)
  {
    if Contains(u, x) {
      var k :| OccursAt(u, x, k);
      assert (u + v)[k..k + |x|] == u[k..k + |x|];
      assert OccursAt(u + v, x, k);
    } else {
      var k :| OccursAt(v, x, k);
      assert (u + v)[|u| + k..|u| + k + |x|] == v[k..k + |x|];
      assert OccursAt(u + v, x, |u| + k);
    }
  }

  /** Number of occurrences of `c` in `s`. */
  function Count(s: string, c: char): nat {
    multiset(s)[c]
  }

  /** Position of the first `c` in `s`, or `|s|` when there is none. */
  function IndexOf(s: string, c: char): (i: nat)
    ensures i <= |s|
    ensures i < |s| ==> s[i] == c
    ensures forall j :: 0 <= j < i ==> s[j] != c
  {
    if |s| == 0 then 0
    else if s[0] == c then 0
    else 1 + IndexOf(s[1..], c)
  }

  /** `s.split(sep)`: the pieces of `s` between occurrences of `sep`, in order.
      As in JavaScript, the empty string splits into one empty piece. */
  function Split(s: string, sep: char): (parts: seq<string>)
    ensures |parts| == Count(s, sep) + 1
    ensures forall i :: 0 <= i < |parts| ==> sep !in parts[i]
    decreases |s|
  {
    var i := IndexOf(s, sep);
    if i == |s| then
      assert sep !in multiset(s);
      [s]
    else
      assert s == s[..i] + [s[i]] + s[i + 1..];
      assert sep !in multiset(s[..i]);
      [s[..i]] + Split(s[i + 1..], sep)
  }

  /** `parts.join(sep)`; the empty list joins to the empty string. The join
      starts with the first piece. */
  function Join(parts: seq<string>, sep: char): (r: string)
    ensures |parts| >= 1 ==> parts[0] <= r
  {
    if |parts| == 0 then ""
    else if |parts| == 1 then parts[0]
    else parts[0] + [sep] + Join(parts[1..], sep)
  }

  /** Count is additive over concatenation and so monotone over prefixes. */
  lemma CountPrefix(a: string, b: string, c: char)
    requires a <= b
    ensures Count(a, c) <= Count(b, c)
    ensures Count(b, c) == Count(a, c) + Count(b[|a|..], c)
  {
    assert b == a + b[|a|..];
  }

  /** Joining a first piece in front of a non-empty list of pieces. */
  lemma JoinCons(a: string, rest: seq<string>, sep: char)
    requires |rest| >= 1
    ensures Join([a] + rest, sep) == a + [sep] + Join(rest, sep)
  {
    assert ([a] + rest)[1..] == rest;
  }

  /** Joining the pieces of a split gives back the original string. */
  lemma {:induction false} JoinSplit(s: string, sep: char)
    ensures Join(Split(s, sep), sep) == s
    decreases |s|
  {
    var i := IndexOf(s, sep);
    if i == |s| {
      assert Split(s, sep) == [s];
    } else {
      var head, rest := s[..i], s[i + 1..];
      var parts := Split(rest, sep);
      assert Split(s, sep) == [head] + parts;
      JoinSplit(rest, sep);
      JoinCons(head, parts, sep);
      assert s == head + [sep] + rest;
    }
  }

  /** The first piece of `a + [sep] + b` is `a` when `a` holds no separator. */
  lemma IndexOfAfterPiece(a: string, sep: char, b: string)
    requires sep !in a
    ensures IndexOf(a + [sep] + b, sep) == |a|
  {
    var s := a + [sep] + b;
    assert s[|a|] == sep;
    assert forall j :: 0 <= j < |a| ==> s[j] == a[j];
  }

  /** One step of a split: the piece before the first separator, then the
      split of the rest. */
  lemma SplitStep(s: string, sep: char, i: nat)
    requires i < |s| && IndexOf(s, sep) == i
    ensures Split(s, sep) == [s[..i]] + Split(s[i + 1..], sep)
  {
  }

  /** A string without the separator splits into itself alone. */
  lemma SplitWhole(s: string, sep: char)
    requires sep !in s
    ensures Split(s, sep) == [s]
  {
    assert IndexOf(s, sep) == |s|;
  }

  /** Splitting a separator-free piece, a separator and a rest. */
  lemma SplitCons(head: string, sep: char, rest: string)
    requires sep !in head
    ensures Split(head + [sep] + rest, sep) == [head] + Split(rest, sep)
  {
    var s := head + [sep] + rest;
    IndexOfAfterPiece(head, sep, rest);
    assert s[..|head|] == head;
    assert s[|head| + 1..] == rest;
    SplitStep(s, sep, |head|);
  }

  /** Splitting a join of separator-free pieces gives back the pieces. */
  lemma {:induction false} SplitJoin(parts: seq<string>, sep: char)
    requires |parts| >= 1
    requires forall i :: 0 <= i < |parts| ==> sep !in parts[i]
    ensures Split(Join(parts, sep), sep) == parts
  {
    if |parts| == 1 {
      SplitWhole(parts[0], sep);
    } else {
      var head, tail := parts[0], parts[1..];
      assert Join(parts, sep) == head + [sep] + Join(tail, sep);
      SplitCons(head, sep, Join(tail, sep));
      SplitJoin(tail, sep);
      assert parts == [head] + tail;
    }
  }

  /** A join of two or more pieces splits at the separator placed after piece `k - 1`. */
  lemma {:induction false} JoinAt(parts: seq<string>, k: nat, sep: char)
    requires 1 <= k < |parts|
    ensures Join(parts, sep) == Join(parts[..k], sep) + [sep] + Join(parts[k..], sep)
  {
    if k > 1 {
      JoinAt(parts[1..], k - 1, sep);
      assert parts[1..][..k - 1] == parts[1..k];
      assert parts[1..][k - 1..] == parts[k..];
      assert parts[..k][1..] == parts[1..k];
    }
  }

  /** The join of the first `n` pieces is a prefix of the join of all of them. */
  lemma JoinPrefix(parts: seq<string>, n: nat, sep: char)
    requires 1 <= n <= |parts|
    ensures Join(parts[..n], sep) <= Join(parts, sep)
  {
    if n < |parts| {
      JoinAt(parts, n, sep);
    } else {
      assert parts[..n] == parts;
    }
  }

  /** Separator-free pieces joined with the separator hold one separator per gap. */
  lemma {:induction false} CountJoin(parts: seq<string>, sep: char)
    requires |parts| >= 1
    requires forall i :: 0 <= i < |parts| ==> sep !in parts[i]
    ensures Count(Join(parts, sep), sep) == |parts| - 1
  {
    assert sep !in multiset(parts[0]);
    if |parts| > 1 {
      CountJoin(parts[1..], sep);
    }
  }
}
