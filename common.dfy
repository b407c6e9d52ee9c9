/** Values and list operations shared by the backend and the client model:
    an Option type, identifiers, HTTP responses, and the JavaScript array and
    string methods the source relies on (find, findIndex, filter, includes,
    toLowerCase, trim, and a stable sort). */
module Common {

  datatype Option<T> = None | Some(value: T)

  /** Document and record identifiers (ObjectId strings on the wire). */
  type Id = string

  /** A string that is present and non-empty (JavaScript truthiness). */
  predicate Truthy(s: Option<string>) {
    s.Some? && s.value != ""
  }

  /** `o ?? d`: the value when present, else the fallback. */
  function OrElse<T>(o: Option<T>, d: T): (r: T)
    ensures o.Some? ==> r == o.value
    ensures o.None? ==> r == d
  {
    if o.Some? then o.value else d
  }

  /** A present optional value overrides another one. */
  function Overriding<T>(o: Option<T>, d: Option<T>): (r: Option<T>)
    ensures o.Some? ==> r == o
    ensures o.None? ==> r == d
  {
    if o.Some? then o else d
  }

  /** A JSON response: the HTTP status code and its `message` text. */
  datatype Response = Response(code: nat, message: string)

  // ---------------------------------------------------------------------------
  // Array.prototype.findIndex / find

  /** The index of the first element satisfying `p`, or None (findIndex == -1). */
  function FirstIndex<T>(s: seq<T>, p: T -> bool): (r: Option<nat>)
    ensures r.Some? ==> r.value < |s| && p(s[r.value])
    ensures r.Some? ==> forall j :: 0 <= j < r.value ==> !p(s[j])
    ensures r.None? <==> forall j :: 0 <= j < |s| ==> !p(s[j])
  {
    if |s| == 0 then None
    else if p(s[0]) then Some(0)
    else
      match FirstIndex(s[1..], p)
      case None => None
      case Some(k) => Some(k + 1)
  }

  /** Apply `f` to the first element satisfying `p` (the find-then-mutate
      pattern of the reducers); the sequence is unchanged when nothing matches. */
  function UpdateFirst<T>(s: seq<T>, p: T -> bool, f: T -> T): (r: seq<T>)
    ensures |r| == |s|
    ensures FirstIndex(s, p).None? ==> r == s
    ensures FirstIndex(s, p).Some? ==>
      r[FirstIndex(s, p).value] == f(s[FirstIndex(s, p).value]) &&
      forall j :: 0 <= j < |s| && j != FirstIndex(s, p).value ==> r[j] == s[j]
  {
    match FirstIndex(s, p)
    case None => s
    case Some(i) => s[i := f(s[i])]
  }

  /** When `f` keeps a match matching, the first match stays where it was. */
  lemma UpdateFirstKeepsMatch<T(!new)>(s: seq<T>, p: T -> bool, f: T -> T)
    requires forall x :: p(x) ==> p(f(x))
    ensures FirstIndex(UpdateFirst(s, p, f), p) == FirstIndex(s, p)
  {
    var t := UpdateFirst(s, p, f);
    if FirstIndex(s, p).Some? {
      var i := FirstIndex(s, p).value;
      assert p(t[i]);
      assert forall j :: 0 <= j < i ==> t[j] == s[j];
    }
  }

  /** Updating the first match twice is updating it once, when `f` keeps a
      match matching and is idempotent on it. */
  lemma UpdateFirstTwice<T(!new)>(s: seq<T>, p: T -> bool, f: T -> T)
    requires forall x :: p(x) ==> p(f(x)) && f(f(x)) == f(x)
    ensures UpdateFirst(UpdateFirst(s, p, f), p, f) == UpdateFirst(s, p, f)
  {
    UpdateFirstKeepsMatch(s, p, f);
  }

  // ---------------------------------------------------------------------------
  // Array.prototype.filter

  /** `r` keeps some elements of `s` in their original relative order. */
  ghost predicate SubseqOf<T>(r: seq<T>, s: seq<T>)
    decreases |s|
  {
    |r| == 0 ||
    (|s| > 0 && ((r[0] == s[0] && SubseqOf(r[1..], s[1..])) || SubseqOf(r, s[1..])))
  }

  /** The bare recursion of `filter`: each element is kept iff it passes. */
  function Sift<T>(s: seq<T>, p: T -> bool): seq<T> {
    if |s| == 0 then []
    else if p(s[0]) then [s[0]] + Sift(s[1..], p)
    else Sift(s[1..], p)
  }

  /** What `Sift` keeps: only passing elements, every occurrence of each, in
      their original order. */
  lemma {:induction false} SiftSpec<T(!new)>(s: seq<T>, p: T -> bool)
    ensures |Sift(s, p)| <= |s|
    ensures forall i :: 0 <= i < |Sift(s, p)| ==> p(Sift(s, p)[i])
    ensures forall x :: x in Sift(s, p) <==> x in s && p(x)
    ensures forall x :: multiset(Sift(s, p))[x] == if p(x) then multiset(s)[x] else 0
    ensures SubseqOf(Sift(s, p), s)
  {
    if |s| > 0 {
      SiftSpec(s[1..], p);
      assert s == [s[0]] + s[1..];
    }
  }

  /** Sifting a concatenation sifts each part. */
  lemma {:induction false} SiftAppend<T>(a: seq<T>, b: seq<T>, p: T -> bool)
    ensures Sift(a + b, p) == Sift(a, p) + Sift(b, p)
  {
    if |a| == 0 {
      assert a + b == b;
    } else {
      assert (a + b)[0] == a[0] && (a + b)[1..] == a[1..] + b;
      SiftAppend(a[1..], b, p);
    }
  }

  /** The elements of `s` satisfying `p`, in order. Every occurrence of an
      element that fails `p` is dropped and every occurrence of one that passes
      is kept. */
  function Filter<T(!new)>(s: seq<T>, p: T -> bool): (r: seq<T>)
    ensures |r| <= |s|
    ensures forall i :: 0 <= i < |r| ==> p(r[i])
    ensures forall x :: x in r <==> x in s && p(x)
    ensures forall x :: multiset(r)[x] == if p(x) then multiset(s)[x] else 0
    ensures SubseqOf(r, s)
  {
    SiftSpec(s, p);
    Sift(s, p)
  }

  /** A filter keeps everything when every element passes. */
  lemma {:induction false} FilterKeepsAll<T(!new)>(s: seq<T>, p: T -> bool)
    requires forall i :: 0 <= i < |s| ==> p(s[i])
    ensures Filter(s, p) == s
  {
    if |s| > 0 {
      FilterKeepsAll(s[1..], p);
    }
  }

  /** Filtering a concatenation filters each part. */
  lemma FilterAppend<T(!new)>(a: seq<T>, b: seq<T>, p: T -> bool)
    ensures Filter(a + b, p) == Filter(a, p) + Filter(b, p)
  {
    SiftAppend(a, b, p);
  }

  /** Two tests that agree everywhere filter alike. */
  lemma {:induction false} FilterSameTest<T(!new)>(s: seq<T>, p: T -> bool, q: T -> bool)
    requires forall x :: p(x) == q(x)
    ensures Filter(s, p) == Filter(s, q)
  {
    if |s| > 0 {
      FilterSameTest(s[1..], p, q);
    }
  }

  /** The elements passing `p` and those failing it add up to the whole. */
  lemma {:induction false} FilterSplitsLength<T(!new)>(s: seq<T>, p: T -> bool, q: T -> bool)
    requires forall x :: q(x) == !p(x)
    ensures |Filter(s, p)| + |Filter(s, q)| == |s|
  {
    if |s| > 0 {
      FilterSplitsLength(s[1..], p, q);
    }
  }

  /** Filtering a duplicate-free list leaves it duplicate-free. */
  lemma {:induction false} FilterKeepsNoDuplicates<T(!new)>(s: seq<T>, p: T -> bool)
    requires NoDuplicates(s)
    ensures NoDuplicates(Filter(s, p))
  {
    if |s| > 0 {
      FilterKeepsNoDuplicates(s[1..], p);
      assert s[0] !in s[1..];
    }
  }

  /** No value occurs twice. */
  predicate NoDuplicates<T(==)>(s: seq<T>) {
    forall i, j :: 0 <= i < j < |s| ==> s[i] != s[j]
  }

  /** Splicing one element out keeps a duplicate-free sequence so. */
  lemma RemoveAtKeepsNoDuplicates<T>(s: seq<T>, i: nat)
    requires i < |s| && NoDuplicates(s)
    ensures NoDuplicates(s[..i] + s[i + 1..])
  {
    var r := s[..i] + s[i + 1..];
    assert forall a :: 0 <= a < |r| ==> r[a] == s[if a < i then a else a + 1];
  }

  /** Splicing out the element at `i` of a duplicate-free sequence removes
      exactly that value. */
  lemma RemoveAtMembers<T>(s: seq<T>, i: nat)
    requires i < |s| && NoDuplicates(s)
    ensures forall y :: y in s[..i] + s[i + 1..] <==> y in s && y != s[i]
  {
    var r := s[..i] + s[i + 1..];
    assert forall a :: 0 <= a < |r| ==> r[a] == s[if a < i then a else a + 1];
    forall y | y in s && y != s[i]
      ensures y in r
    {
      var j :| 0 <= j < |s| && s[j] == y;
      assert r[if j < i then j else j - 1] == y;
    }
  }

  // ---------------------------------------------------------------------------
  // String.prototype.includes, toLowerCase, trim

  predicate StartsWith(s: string, prefix: string) {
    |prefix| <= |s| && s[..|prefix|] == prefix
  }

  /** `needle` occurs in `hay` starting at position `i`. */
  predicate OccursAt(hay: string, needle: string, i: nat) {
    i + |needle| <= |hay| && hay[i..i + |needle|] == needle
  }

  /** `needle` occurs in `hay` as a contiguous substring. */
  function Includes(hay: string, needle: string): (r: bool)
    ensures r <==> exists i: nat :: OccursAt(hay, needle, i)
    decreases |hay|
  {
    if StartsWith(hay, needle) then
      assert OccursAt(hay, needle, 0);
      true
    else if |hay| <= |needle| then
      assert forall i: nat :: !OccursAt(hay, needle, i);
      false
    else
      var r := Includes(hay[1..], needle);
      assert r ==> exists i: nat :: OccursAt(hay, needle, i) by {
        if r {
          var j: nat :| OccursAt(hay[1..], needle, j);
          assert hay[1..][j..j + |needle|] == hay[j + 1..j + 1 + |needle|];
          assert OccursAt(hay, needle, j + 1);
        }
      }
      assert (exists i: nat :: OccursAt(hay, needle, i)) ==> r by {
        if exists i: nat :: OccursAt(hay, needle, i) {
          var i: nat :| OccursAt(hay, needle, i);
          assert hay[0..|needle|] == hay[..|needle|];
          assert i != 0;
          assert hay[1..][i - 1..i - 1 + |needle|] == hay[i..i + |needle|];
          assert OccursAt(hay[1..], needle, i - 1);
        }
      }
      r
  }

  /** Every string includes the empty string, so an empty search matches all. */
  lemma IncludesEmpty(hay: string)
    ensures Includes(hay, "")
  {
    assert OccursAt(hay, "", 0);
  }

  /** toLowerCase on the ASCII letters. */
  function LowerChar(c: char): char {
    if 'A' <= c <= 'Z' then (c as int + 32) as char else c
  }

  function Lower(s: string): (r: string)
    ensures |r| == |s|
    ensures forall i :: 0 <= i < |s| ==> r[i] == LowerChar(s[i])
  {
    seq(|s|, i requires 0 <= i < |s| => LowerChar(s[i]))
  }

  /** The characters String.prototype.trim removes (the ASCII ones). */
  predicate IsSpace(c: char) {
    c == ' ' || c == '\t' || c == '\n' || c == '\r' || c == 11 as char || c == 12 as char
  }

  function TrimStart(s: string): (r: string)
    ensures |r| <= |s| && r == s[|s| - |r|..]
    ensures r == [] || !IsSpace(r[0])
    ensures forall i :: 0 <= i < |s| - |r| ==> IsSpace(s[i])
  {
    if |s| > 0 && IsSpace(s[0]) then TrimStart(s[1..]) else s
  }

  function TrimEnd(s: string): (r: string)
    ensures |r| <= |s| && r == s[..|r|]
    ensures r == [] || !IsSpace(r[|r| - 1])
    ensures forall i :: |r| <= i < |s| ==> IsSpace(s[i])
  {
    if |s| > 0 && IsSpace(s[|s| - 1]) then TrimEnd(s[..|s| - 1]) else s
  }

  /** `s` without leading and trailing white space: a contiguous slice of `s`
      that neither starts nor ends with a space. */
  function Trim(s: string): (r: string)
    ensures exists a, b :: 0 <= a <= b <= |s| && r == s[a..b] && Blank(s[..a]) && Blank(s[b..])
    ensures r == [] || (!IsSpace(r[0]) && !IsSpace(r[|r| - 1]))
  {
    var t := TrimStart(s);
    var r := TrimEnd(t);
    var a := |s| - |t|;
    SliceOfSuffix(s, a, |r|);
    assert Blank(s[..a]);
    assert s[a + |r|..] == t[|r|..];
    r
  }

  /** Every character of `s` is white space. */
  predicate Blank(s: string) {
    forall i :: 0 <= i < |s| ==> IsSpace(s[i])
  }

  /** A prefix of a suffix is a slice. */
  lemma SliceOfSuffix<T>(s: seq<T>, k: nat, m: nat)
    requires k + m <= |s|
    ensures s[k..][..m] == s[k..k + m]
  {
  }

  /** A string trims to "" exactly when it is all white space. */
  lemma TrimBlank(s: string)
    ensures Trim(s) == "" <==> forall i :: 0 <= i < |s| ==> IsSpace(s[i])
  {
    var t := TrimStart(s);
    var k := |s| - |t|;
    assert t != [] ==> t[0] == s[k];
    if Trim(s) == "" {
      assert t == [];
    }
    if forall i :: 0 <= i < |s| ==> IsSpace(s[i]) {
      assert t == [];
    }
  }

  // ---------------------------------------------------------------------------
  // Array.prototype.sort with a comparator (stable insertion sort)

  /** `le` can compare any two values one way or the other. */
  ghost predicate Total<T(!new)>(le: (T, T) -> bool) {
    forall a, b :: le(a, b) || le(b, a)
  }

  /** Neighbours are in `le` order. */
  predicate SortedBy<T>(s: seq<T>, le: (T, T) -> bool) {
    forall i :: 0 <= i < |s| - 1 ==> le(s[i], s[i + 1])
  }

  /** Put `x` before the first element it may precede. */
  function Insert<T(!new)>(x: T, s: seq<T>, le: (T, T) -> bool): (r: seq<T>)
    requires Total(le) && SortedBy(s, le)
    ensures SortedBy(r, le)
    ensures multiset(r) == multiset(s) + multiset{x}
    ensures |r| == |s| + 1 && (r[0] == x || (|s| > 0 && r[0] == s[0]))
  {
    if |s| == 0 then [x]
    else if le(x, s[0]) then [x] + s
    else
      assert le(s[0], x);
      assert s == [s[0]] + s[1..];
      assert SortedBy(s[1..], le) by {
        forall i | 0 <= i < |s[1..]| - 1
          ensures le(s[1..][i], s[1..][i + 1])
        {
          assert s[1..][i] == s[i + 1] && s[1..][i + 1] == s[i + 2];
        }
      }
      var t := Insert(x, s[1..], le);
      assert le(s[0], t[0]);
      [s[0]] + t
  }

  /** A permutation of `s` whose neighbours are in `le` order. An element is
      inserted ahead of the later elements it ties with, so ties keep their
      original order, as in the ECMAScript stable sort. */
  function SortBy<T(!new)>(s: seq<T>, le: (T, T) -> bool): (r: seq<T>)
    requires Total(le)
    ensures SortedBy(r, le)
    ensures multiset(r) == multiset(s)
    ensures |r| == |s|
  {
    if |s| == 0 then []
    else
      assert s == [s[0]] + s[1..];
      Insert(s[0], SortBy(s[1..], le), le)
  }

  /** The first `n` elements, or all of them (Query.limit). */
  function Take<T>(s: seq<T>, n: nat): (r: seq<T>)
    ensures |r| == if |s| <= n then |s| else n
    ensures r == s[..|r|]
  {
    if |s| <= n then s else s[..n]
  }
}
