/** Small things the modules share. */
module Wrappers {
  datatype Option<+T> = None | Some(value: T)
}

/** Text compared without regard to ASCII case, as `_wcsicmp` does in the C locale. */
module Text {
  function FoldChar(c: char): char {
    if 'A' <= c <= 'Z' then c - 'A' + 'a' else c
  }

  function Fold(s: string): (r: string)
    ensures |r| == |s| && forall i :: 0 <= i < |s| ==> r[i] == FoldChar(s[i])
  {
    seq(|s|, i requires 0 <= i < |s| => FoldChar(s[i]))
  }

  predicate SameFold(a: string, b: string) {
    Fold(a) == Fold(b)
  }

  /** A capital letter and the small one 32 places on. */
  predicate CapitalOf(c: char, d: char) {
    'A' <= c <= 'Z' && d as int == c as int + 32
  }

  /** Texts are the same but for case exactly when they differ at most between a letter's two
      forms, place by place. */
  lemma SameFoldExactly(a: string, b: string)
    ensures SameFold(a, b) <==>
            && |a| == |b|
            && forall i | 0 <= i < |a| :: a[i] == b[i] || CapitalOf(a[i], b[i]) || CapitalOf(b[i], a[i])
  {
    if SameFold(a, b) {
      forall i | 0 <= i < |a| ensures a[i] == b[i] || CapitalOf(a[i], b[i]) || CapitalOf(b[i], a[i]) {
        assert Fold(a)[i] == Fold(b)[i];
      }
    }
  }

  /** The folded text is in small letters and the same but for case. */
  lemma FoldExactly(s: string, t: string)
    ensures t == Fold(s) <==> SameFold(s, t) && forall i | 0 <= i < |t| :: !('A' <= t[i] <= 'Z')
  {
    SameFoldExactly(s, t);
    SameFoldExactly(s, Fold(s));
  }
}

/** Sequences without repetitions. */
module Strips {
  predicate NoDup<T(==)>(s: seq<T>) {
    forall i, j :: 0 <= i < j < |s| ==> s[i] != s[j]
  }

  /** `s` without the first `x`. */
  function Remove<T(==)>(s: seq<T>, x: T): (r: seq<T>)
    ensures x !in s ==> r == s
    ensures x in s ==> |r| == |s| - 1
  {
    if s == [] then [] else if s[0] == x then s[1..] else [s[0]] + Remove(s[1..], x)
  }

  function Insert<T>(s: seq<T>, i: nat, x: T): seq<T>
    requires i <= |s|
  {
    s[..i] + [x] + s[i..]
  }

  lemma {:induction false} RemoveFirst<T>(s: seq<T>, x: T, i: nat)
    requires i <= |s| && x !in s[..i] && (i < |s| ==> s[i] == x)
    ensures Remove(s, x) == if i < |s| then s[..i] + s[i + 1..] else s
  {
    if s != [] && i > 0 {
      var t := s[1..];
      assert s[0] in s[..i];
      assert s[..i] == [s[0]] + t[..i - 1];
      RemoveFirst(t, x, i - 1);
      if i < |s| {
        assert t[i..] == s[i + 1..];
        assert [s[0]] + (t[..i - 1] + t[i..]) == s[..i] + s[i + 1..];
      } else {
        assert [s[0]] + t == s;
      }
    }
  }

  lemma {:induction false} RemoveKeepsOthers<T>(s: seq<T>, x: T)
    requires NoDup(s)
    ensures NoDup(Remove(s, x))
    ensures forall y :: y in Remove(s, x) <==> y in s && y != x
  {
    if s == [] {
    } else if s[0] == x {
      assert forall k :: 1 <= k < |s| ==> s[k] != s[0];
    } else {
      RemoveKeepsOthers(s[1..], x);
      assert s == [s[0]] + s[1..];
      assert s[0] !in s[1..];
      assert forall y :: y in Remove(s, x) <==> y == s[0] || y in Remove(s[1..], x);
    }
  }

  lemma InsertMembers<T>(s: seq<T>, i: nat, x: T)
    requires i <= |s| && NoDup(s) && x !in s
    ensures NoDup(Insert(s, i, x))
    ensures forall y :: y in Insert(s, i, x) <==> y in s || y == x
  {
    var r := Insert(s, i, x);
    assert s == s[..i] + s[i..];
    forall y ensures y in r <==> y in s || y == x {}
    forall a, b | 0 <= a < b < |r| ensures r[a] != r[b] {
      var a' := if a < i then a else a - 1;
      var b' := if b < i then b else b - 1;
      assert a != i ==> r[a] == s[a'];
      assert b != i ==> r[b] == s[b'];
    }
  }
}
