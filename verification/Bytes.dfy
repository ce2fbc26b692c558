/** Byte strings and the substring search the serial parser is built on. */
module Bytes {
  import opened Wrappers

  type Byte = x: int | 0 <= x < 256

  predicate At(data: seq<Byte>, sub: seq<Byte>, i: int) {
    0 <= i && i + |sub| <= |data| && data[i..i + |sub|] == sub
  }

  /** `i` is the first occurrence at or after `pos`. */
  predicate FirstAt(data: seq<Byte>, sub: seq<Byte>, pos: nat, i: int) {
    pos <= i <= |data| && At(data, sub, i) && forall j | pos <= j < i :: !At(data, sub, j)
  }

  lemma {:induction false} FirstExists(data: seq<Byte>, sub: seq<Byte>, pos: nat, i: int)
    requires pos <= i <= |data| && At(data, sub, i)
    ensures exists k :: FirstAt(data, sub, pos, k)
    decreases i
  {
    if j :| pos <= j < i && At(data, sub, j) {
      FirstExists(data, sub, pos, j);
    } else {
      assert FirstAt(data, sub, pos, i);
    }
  }

  /** Python's `data.find(sub, pos)`: the first occurrence at or after `pos`. */
  function Find(data: seq<Byte>, sub: seq<Byte>, pos: nat): (r: Option<nat>)
    ensures r.Some? ==> pos <= r.value && At(data, sub, r.value) && forall j | pos <= j < r.value :: !At(data, sub, j)
    ensures r.None? ==> forall j | pos <= j :: !At(data, sub, j)
  {
    if i :| pos <= i <= |data| && At(data, sub, i) then
      FirstExists(data, sub, pos, i);
      var k :| FirstAt(data, sub, pos, k);
      Some(k)
    else None
  }

  /** The first occurrence is unique. */
  lemma FindIs(data: seq<Byte>, sub: seq<Byte>, pos: nat, i: nat)
    requires pos <= i && At(data, sub, i) && forall j | pos <= j < i :: !At(data, sub, j)
    ensures Find(data, sub, pos) == Some(i)
  {
  }

  /** `a` and `b` agree on their first `end` bytes. */
  predicate SharePrefix(a: seq<Byte>, b: seq<Byte>, end: nat) {
    end <= |a| && end <= |b| && forall i | 0 <= i < end :: a[i] == b[i]
  }

  lemma AtStable(a: seq<Byte>, b: seq<Byte>, sub: seq<Byte>, j: nat, end: nat)
    requires SharePrefix(a, b, end) && j + |sub| <= end
    ensures At(a, sub, j) <==> At(b, sub, j)
  {
    assert a[j..j + |sub|] == b[j..j + |sub|];
  }

  /** A hit depends only on the bytes up to its end. */
  lemma FindStable(a: seq<Byte>, b: seq<Byte>, sub: seq<Byte>, pos: nat)
    requires Find(a, sub, pos).Some? && SharePrefix(a, b, Find(a, sub, pos).value + |sub|)
    ensures Find(b, sub, pos) == Find(a, sub, pos)
  {
    var i := Find(a, sub, pos).value;
    forall j | pos <= j <= i ensures At(a, sub, j) <==> At(b, sub, j) {
      AtStable(a, b, sub, j, i + |sub|);
    }
    FindIs(b, sub, pos, i);
  }

  /** Python slicing: an inverted range is empty. */
  function Slice(s: seq<Byte>, lo: nat, hi: nat): seq<Byte>
    requires hi <= |s|
  {
    if lo <= hi then s[lo..hi] else []
  }
}
