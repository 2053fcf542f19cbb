/** Byte strings as the C++ and Rust sources compare and fold them. */
module StringOrder {

  /** The lexicographic order of std::string's operator<. */
  predicate Less(a: string, b: string) {
    if b == [] then false
    else if a == [] then true
    else a[0] < b[0] || (a[0] == b[0] && Less(a[1..], b[1..]))
  }

  /** At the first difference the smaller character comes first, and a beginning before the whole. */
  ghost predicate ComesFirst(a: string, b: string, n: nat) {
    && n <= |a| && n < |b| && a[..n] == b[..n]
    && (n < |a| ==> a[n] < b[n])
  }

  lemma {:induction false} LessIsLexicographic(a: string, b: string)
    ensures Less(a, b) <==> exists n: nat :: ComesFirst(a, b, n)
  {
    if b != [] && a == [] {
      assert ComesFirst(a, b, 0);
    } else if b != [] && a[0] != b[0] {
      if a[0] < b[0] { assert ComesFirst(a, b, 0); }
      forall n: nat
        ensures ComesFirst(a, b, n) ==> n == 0
      {
        FirstIsEqual(a, b, n);
      }
    } else if b != [] {
      LessIsLexicographic(a[1..], b[1..]);
      hide Less;
      forall n: nat
        ensures ComesFirst(a[1..], b[1..], n) <==> ComesFirst(a, b, n + 1)
      {
        FirstShifts(a, b, n);
      }
      if n: nat :| ComesFirst(a, b, n) {
        assert n > 0;
        assert ComesFirst(a[1..], b[1..], n - 1);
      }
    }
  }

  lemma FirstIsEqual(a: string, b: string, n: nat)
    ensures ComesFirst(a, b, n) && n > 0 ==> a[0] == b[0]
  {
    if 0 < n <= |a| && n <= |b| {
      assert a[0] == a[..n][0] && b[0] == b[..n][0];
    }
  }

  lemma FirstShifts(a: string, b: string, n: nat)
    requires a != [] && b != [] && a[0] == b[0]
    ensures ComesFirst(a[1..], b[1..], n) <==> ComesFirst(a, b, n + 1)
  {
    if n + 1 <= |a| && n + 1 < |b| {
      assert a[..n + 1] == [a[0]] + a[1..][..n] && b[..n + 1] == [b[0]] + b[1..][..n];
      assert a[..n + 1][1..] == a[1..][..n] && b[..n + 1][1..] == b[1..][..n];
    }
  }

  lemma {:induction false} LessIrreflexive(a: string)
    ensures !Less(a, a)
  {
    if a != [] {
      LessIrreflexive(a[1..]);
    }
  }

  lemma {:induction false} LessTransitive(a: string, b: string, c: string)
    requires Less(a, b) && Less(b, c)
    ensures Less(a, c)
  {
    if a != [] && a[0] == b[0] && b[0] == c[0] {
      LessTransitive(a[1..], b[1..], c[1..]);
    }
  }

  lemma {:induction false} LessTotal(a: string, b: string)
    requires a != b
    ensures Less(a, b) != Less(b, a)
  {
    if a != [] && b != [] && a[0] == b[0] {
      assert a == [a[0]] + a[1..] && b == [b[0]] + b[1..];
      LessTotal(a[1..], b[1..]);
    }
  }

  ghost predicate IsLeast(k: string, s: set<string>) {
    k in s && forall x :: x in s && x != k ==> Less(k, x)
  }

  lemma {:induction false} LeastExists(s: set<string>)
    requires s != {}
    ensures exists k :: IsLeast(k, s)
    decreases s
  {
    var x :| x in s;
    if s == {x} {
      assert IsLeast(x, s);
    } else {
      assert s - {x} != {};
      LeastExists(s - {x});
      var k :| IsLeast(k, s - {x});
      LessTotal(x, k);
      if Less(x, k) {
        forall y | y in s && y != x
          ensures Less(x, y)
        {
          if y != k { LessTransitive(x, k, y); }
        }
        assert IsLeast(x, s);
      } else {
        assert IsLeast(k, s);
      }
    }
  }

  /** The keys of a std::map in the order in which it is iterated. */
  ghost function SortedKeys(s: set<string>): (r: seq<string>)
    ensures forall k :: k in r <==> k in s
  {
    if s == {} then [] else
      LeastExists(s);
      var k :| IsLeast(k, s);
      [k] + SortedKeys(s - {k})
  }

  /** std::tolower of the "C" locale. */
  function LowerChar(c: char): char {
    if 'A' <= c <= 'Z' then (c as int + 32) as char else c
  }

  function Lower(s: string): (r: string)
    ensures |r| == |s|
    ensures forall i :: 0 <= i < |s| ==> r[i] == LowerChar(s[i])
  {
    if s == [] then [] else [LowerChar(s[0])] + Lower(s[1..])
  }
}
