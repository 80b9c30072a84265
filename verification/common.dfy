/**
 * Shared vocabulary of the store backend model: optional values, the
 * string form of MongoDB ObjectIds, and the two array operations the route
 * handlers lean on (`findIndex` and `filter`).
 */
module Common {

  datatype Option<T> = None | Some(value: T)

  datatype Result<T, E> = Success(value: T) | Failure(error: E)

  /**
   * A request string that JavaScript treats as true: present and not empty.
   * A required string path of a schema rejects exactly the values that are
   * not.
   */
  predicate Truthy(s: Option<string>) {
    s.Some? && s.value != ""
  }

  /** A document id as the routes see it: the string a client sends. */
  type Id = string

  predicate IsHexDigit(c: char) {
    '0' <= c <= '9' || 'a' <= c <= 'f' || 'A' <= c <= 'F'
  }

  predicate IsUpperHexLetter(c: char) {
    'A' <= c <= 'F'
  }

  /**
   * `mongoose.Types.ObjectId.isValid` on a string: exactly 24 hexadecimal
   * digits, in either case. A route that skips this check and calls
   * `findById` with such a string gets a CastError instead.
   */
  predicate IsObjectId(s: string) {
    |s| == 24 && forall i :: 0 <= i < |s| ==> IsHexDigit(s[i])
  }

  /** The ids the database hands out: `ObjectId#toString` is lower-case hex. */
  predicate IsCanonicalId(s: string) {
    IsObjectId(s) && forall i :: 0 <= i < |s| ==> !IsUpperHexLetter(s[i])
  }

  function LowerHex(c: char): (d: char)
    ensures IsHexDigit(c) ==> IsHexDigit(d) && !IsUpperHexLetter(d)
    ensures !IsUpperHexLetter(c) ==> d == c
  {
    if IsUpperHexLetter(c) then (c as int + 32) as char else c
  }

  /**
   * The string an id reads back as once it has been cast to an ObjectId and
   * stored: the same hex digits, lower-cased.
   */
  function Canonical(s: string): (r: string)
    ensures |r| == |s|
    ensures forall i :: 0 <= i < |s| ==> r[i] == LowerHex(s[i])
    ensures forall i :: 0 <= i < |s| ==> !IsUpperHexLetter(r[i])
    ensures (forall i :: 0 <= i < |s| ==> !IsUpperHexLetter(s[i])) ==> r == s
    ensures (exists i :: 0 <= i < |s| && IsUpperHexLetter(s[i])) ==> r != s
  {
    if s == [] then []
    else [LowerHex(s[0])] + Canonical(s[1..])
  }

  lemma CanonicalOfObjectId(s: string)
    requires IsObjectId(s)
    ensures IsCanonicalId(Canonical(s))
  {
  }

  /** Casting is idempotent: a stored id reads back as itself. */
  lemma CanonicalIdFixed(s: string)
    requires IsCanonicalId(s)
    ensures Canonical(s) == s
  {
  }

  /** Casts every element of an id array, as mongoose does on save. */
  function CanonicalAll(ids: seq<Id>): (r: seq<Id>)
    ensures |r| == |ids|
    ensures forall i :: 0 <= i < |ids| ==> r[i] == Canonical(ids[i])
  {
    if ids == [] then []
    else [Canonical(ids[0])] + CanonicalAll(ids[1..])
  }

  predicate AllObjectIds(ids: seq<Id>) {
    forall i :: 0 <= i < |ids| ==> IsObjectId(ids[i])
  }

  /**
   * JavaScript's `Array.prototype.findIndex`: the first position whose
   * element satisfies `p`, or -1 when there is none.
   */
  function FindFirst<T>(s: seq<T>, p: T -> bool): (i: int)
    ensures -1 <= i < |s|
    ensures 0 <= i ==> p(s[i]) && forall j :: 0 <= j < i ==> !p(s[j])
    ensures i == -1 ==> forall j :: 0 <= j < |s| ==> !p(s[j])
  {
    if s == [] then -1
    else if p(s[0]) then 0
    else
      var k := FindFirst(s[1..], p);
      if k == -1 then -1 else k + 1
  }

  /**
   * JavaScript's `Array.prototype.filter`: the elements that satisfy `p`,
   * in their original order.
   */
  function Filter<T(!new)>(s: seq<T>, p: T -> bool): (r: seq<T>)
    ensures |r| <= |s|
    ensures forall i :: 0 <= i < |r| ==> p(r[i])
    ensures forall i :: 0 <= i < |s| && p(s[i]) ==> s[i] in r
    ensures forall x :: x in r ==> x in s
  {
    if s == [] then []
    else (if p(s[0]) then [s[0]] else []) + Filter(s[1..], p)
  }

  /**
   * Filtering keeps every satisfying element exactly as often as it occurs
   * and drops every other one: no element is repeated or lost.
   */
  lemma {:induction false} FilterCount<T(!new)>(s: seq<T>, p: T -> bool)
    ensures forall x :: multiset(Filter(s, p))[x] == if p(x) then multiset(s)[x] else 0
  {
    if s != [] {
      FilterCount(s[1..], p);
      var head := if p(s[0]) then [s[0]] else [];
      assert s == [s[0]] + s[1..];
      assert multiset(s) == multiset{s[0]} + multiset(s[1..]);
      assert multiset(Filter(s, p)) == multiset(head) + multiset(Filter(s[1..], p));
    }
  }

  /** `deleteOne` on the document at position `i` of a collection. */
  function RemoveAt<T>(s: seq<T>, i: nat): (r: seq<T>)
    requires i < |s|
    ensures |r| == |s| - 1
    ensures forall j :: 0 <= j < i ==> r[j] == s[j]
    ensures forall j :: i <= j < |r| ==> r[j] == s[j + 1]
    ensures forall x :: x in r ==> x in s
  {
    s[..i] + s[i + 1..]
  }

  lemma {:induction false} FilterAppend<T(!new)>(a: seq<T>, b: seq<T>, p: T -> bool)
    ensures Filter(a + b, p) == Filter(a, p) + Filter(b, p)
  {
    if a == [] {
      assert a + b == b;
    } else {
      assert (a + b)[1..] == a[1..] + b;
      FilterAppend(a[1..], b, p);
    }
  }

  /** Filtering with a predicate every element satisfies changes nothing. */
  lemma {:induction false} FilterKeepsAll<T(!new)>(s: seq<T>, p: T -> bool)
    requires forall i :: 0 <= i < |s| ==> p(s[i])
    ensures Filter(s, p) == s
  {
    if s != [] {
      FilterKeepsAll(s[1..], p);
    }
  }
}
