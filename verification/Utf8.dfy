/** UTF-8 as section 3 of RFC 3629 defines it, on bytes. */
module Utf8 {
  import opened Domain

  predicate Continuation(b: byte) { 0x80 <= b <= 0xBF }

  /** `utf8.RuneStart` */
  predicate RuneStart(b: byte) { !Continuation(b) }

  /** Length of the character at the front, zero when it is malformed. */
  function First(s: seq<byte>): (n: nat)
    ensures n <= 4 && n <= |s|
    ensures n > 0 ==> RuneStart(s[0]) && forall i :: 0 < i < n ==> Continuation(s[i])
  {
    if s == [] then 0
    else if s[0] < 0x80 then 1
    else if |s| < 2 then 0
    else if 0xC2 <= s[0] <= 0xDF then (if Continuation(s[1]) then 2 else 0)
    else if |s| < 3 then 0
    else if 0xE0 <= s[0] <= 0xEF then
      var low := if s[0] == 0xE0 then 0xA0 else 0x80;
      var high := if s[0] == 0xED then 0x9F else 0xBF;
      if low <= s[1] <= high && Continuation(s[2]) then 3 else 0
    else if |s| < 4 then 0
    else if 0xF0 <= s[0] <= 0xF4 then
      var low := if s[0] == 0xF0 then 0x90 else 0x80;
      var high := if s[0] == 0xF4 then 0x8F else 0xBF;
      if low <= s[1] <= high && Continuation(s[2]) && Continuation(s[3]) then 4 else 0
    else 0
  }

  predicate Valid(s: seq<byte>)
    decreases |s|
  {
    s == [] || (First(s) > 0 && Valid(s[First(s)..]))
  }

  /** Position `k` lies between two characters. */
  predicate Boundary(s: seq<byte>, k: nat)
    decreases |s|
  {
    k == 0 || (0 < First(s) <= k && Boundary(s[First(s)..], k - First(s)))
  }

  /** The first character does not depend on what follows it. */
  lemma FirstExtends(s: seq<byte>, t: seq<byte>)
    requires First(s) > 0
    ensures First(s + t) == First(s)
  {}

  lemma {:induction false} ValidConcat(s: seq<byte>, t: seq<byte>)
    requires Valid(s) && Valid(t)
    ensures Valid(s + t) && Boundary(s + t, |s|)
    decreases |s|
  {
    if s == [] {
      assert s + t == t;
    } else {
      var n := First(s);
      hide First;
      FirstExtends(s, t);
      assert (s + t)[n..] == s[n..] + t;
      ValidConcat(s[n..], t);
    }
  }

  lemma {:induction false} BoundaryBound(s: seq<byte>, k: nat)
    requires Boundary(s, k)
    ensures k <= |s|
    decreases |s|
  {
    if k > 0 {
      BoundaryBound(s[First(s)..], k - First(s));
    }
  }

  /** Cutting at a boundary leaves two well-formed halves. */
  lemma {:induction false} ValidSplit(s: seq<byte>, k: nat)
    requires Valid(s) && Boundary(s, k)
    ensures k <= |s| && Valid(s[..k]) && Valid(s[k..])
    decreases |s|
  {
    hide First;
    BoundaryBound(s, k);
    if k == 0 {
      assert s[0..] == s;
    } else {
      var n := First(s);
      ValidSplit(s[n..], k - n);
      assert s[..k][n..] == s[n..][..k - n] && s[k..] == s[n..][k - n..];
      FirstPrefix(s, k);
    }
  }

  lemma FirstPrefix(s: seq<byte>, k: nat)
    requires 0 < First(s) <= k <= |s|
    ensures First(s[..k]) == First(s)
  {}

  /** `RuneStart` recognises exactly the boundaries of well-formed text. */
  lemma {:induction false} BoundaryIff(s: seq<byte>, k: nat)
    requires Valid(s) && k < |s|
    ensures Boundary(s, k) <==> RuneStart(s[k])
    decreases |s|
  {
    var n := First(s);
    hide First;
    if k >= n {
      if k < |s| {
        BoundaryIff(s[n..], k - n);
      }
    }
  }

  lemma {:induction false} EndIsBoundary(s: seq<byte>)
    requires Valid(s)
    ensures Boundary(s, |s|)
    decreases |s|
  {
    if s != [] {
      EndIsBoundary(s[First(s)..]);
    }
  }

  /** Boundaries of `s` beyond `j` are `j` plus boundaries of the rest. */
  lemma {:induction false} BoundarySplit(s: seq<byte>, j: nat, k: nat)
    requires Valid(s) && Boundary(s, j) && j <= k
    ensures j <= |s| && (Boundary(s, k) <==> Boundary(s[j..], k - j))
    decreases |s|
  {
    hide First;
    BoundaryBound(s, j);
    if j == 0 {
      assert s[0..] == s;
    } else {
      var n := First(s);
      BoundarySplit(s[n..], j - n, k - n);
      assert s[n..][j - n..] == s[j..];
    }
  }
}
