/** Small vocabulary shared by the models: optional values, Go's notion of white
    space, and concatenation of string pieces. */
module Text {

  datatype Option<+T> = None | Some(value: T)

  /** White space as Go's `unicode.IsSpace` defines it. */
  predicate IsSpace(c: char) {
    c in ['\t', '\n', '\U{0B}', '\U{0C}', '\r', ' ', '\U{85}', '\U{A0}', '\U{1680}',
          '\U{2000}', '\U{2001}', '\U{2002}', '\U{2003}', '\U{2004}', '\U{2005}', '\U{2006}',
          '\U{2007}', '\U{2008}', '\U{2009}', '\U{200A}', '\U{2028}', '\U{2029}', '\U{202F}',
          '\U{205F}', '\U{3000}']
  }

  function TrimLeft(s: string): string {
    if s != [] && IsSpace(s[0]) then TrimLeft(s[1..]) else s
  }

  function TrimRight(s: string): string {
    if s != [] && IsSpace(s[|s| - 1]) then TrimRight(s[..|s| - 1]) else s
  }

  function TrimSpace(s: string): string {
    TrimRight(TrimLeft(s))
  }

  /** The strings that `strings.TrimSpace` reduces to nothing. */
  predicate IsBlank(s: string) {
    TrimSpace(s) == ""
  }

  function Lookup<K, V>(m: map<K, V>, k: K, absent: V): V {
    if k in m then m[k] else absent
  }

  lemma AnyMember<T>(s: set<T>) returns (x: T)
    requires s != {}
    ensures x in s
  {
    x :| x in s;
  }

  /** A concatenation, taken apart at its last element. */
  lemma SplitLast<T>(a: seq<T>, b: seq<T>)
    requires b != []
    ensures var n := |b| - 1; b == b[..n] + [b[n]] && a + b == (a + b[..n]) + [b[n]]
  {
  }

  lemma Associate<T>(a: seq<T>, b: seq<T>, c: seq<T>)
    ensures a + b + c == a + (b + c)
  {
  }

  predicate NoRepeats(ids: seq<int>) {
    forall i, j :: 0 <= i < j < |ids| ==> ids[i] != ids[j]
  }

  /** Taking one member out of a list without repeats. */
  lemma Without(b: seq<int>, x: int) returns (rest: seq<int>)
    requires NoRepeats(b) && x in b
    ensures NoRepeats(rest) && |rest| == |b| - 1 && forall y :: y in rest <==> y in b && y != x
  {
    var k :| 0 <= k < |b| && b[k] == x;
    rest := b[..k] + b[k + 1..];
    assert forall i :: 0 <= i < |rest| ==> rest[i] == if i < k then b[i] else b[i + 1];
    forall y ensures y in rest <==> y in b && y != x {
      if y in rest {
        var i :| 0 <= i < |rest| && rest[i] == y;
      }
      if y in b && y != x {
        var i :| 0 <= i < |b| && b[i] == y;
        assert y == rest[if i < k then i else i - 1];
      }
    }
  }

  /** A list without repeats inside another is as long only if it holds all of it. */
  lemma {:induction false} SameLength(a: seq<int>, b: seq<int>)
    requires NoRepeats(a) && NoRepeats(b) && forall x :: x in a ==> x in b
    ensures |a| <= |b|
    ensures |a| == |b| <==> forall x :: x in b ==> x in a
  {
    if a == [] {
      if b != [] {
        var y := b[0];
        assert y in b && y !in a;
      }
    } else {
      var n, x := |a| - 1, a[|a| - 1];
      assert a == a[..n] + [x];
      assert x in a;
      var rest := Without(b, x);
      assert x !in a[..n];
      forall y ensures y in a <==> y in a[..n] || y == x { }
      hide NoRepeats;
      assert NoRepeats(a[..n]) by { FewerRepeats(a, n); }
      SameLength(a[..n], rest);
    }
  }

  lemma FewerRepeats(a: seq<int>, n: nat)
    requires n <= |a| && NoRepeats(a)
    ensures NoRepeats(a[..n])
  {
  }
}
