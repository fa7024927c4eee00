/** Sizes of finite sets and maps, and counting positions of a list. */
module Collections {

  lemma {:induction false} SubsetSize<T>(a: set<T>, b: set<T>)
    requires a <= b
    ensures |a| <= |b|
  {
    if a != {} {
      var x :| x in a;
      SubsetSize(a - {x}, b - {x});
    }
  }

  lemma SubmapSize<K, V>(a: map<K, V>, b: map<K, V>)
    requires a.Keys <= b.Keys
    ensures |a| <= |b|
  {
    SubsetSize(a.Keys, b.Keys);
  }

  /** The positions whose element satisfies p. */
  ghost function Where<T>(xs: seq<T>, p: T -> bool): set<nat> {
    set k: nat | k < |xs| && p(xs[k])
  }

  ghost function First(n: nat): (s: set<nat>)
    ensures forall k: nat :: k in s <==> k < n
    ensures |s| == n
  {
    if n == 0 then {} else First(n - 1) + {n - 1}
  }

  ghost function Up(ks: set<nat>): set<nat> {
    set k | k in ks :: k + 1
  }

  lemma UpMore(ks: set<nat>, k: nat)
    requires k !in ks
    ensures Up(ks + {k}) == Up(ks) + {k + 1} && k + 1 !in Up(ks)
  {
    forall j | j in Up(ks + {k})
      ensures j in Up(ks) + {k + 1}
    {
      var i :| i in ks + {k} && i + 1 == j;
      assert i == k || i in ks;
    }
    forall j | j in Up(ks) + {k + 1}
      ensures j in Up(ks + {k})
    {
      if j != k + 1 {
        var i :| i in ks && i + 1 == j;
        assert i in ks + {k};
      } else {
        assert k in ks + {k};
      }
    }
  }

  lemma {:induction false} UpSize(ks: set<nat>)
    ensures |Up(ks)| == |ks|
  {
    if ks != {} {
      var k :| k in ks;
      var rest := ks - {k};
      assert ks == rest + {k};
      UpSize(rest);
      UpMore(rest, k);
      hide Up;
    }
  }

  lemma WhereUp<T>(xs: seq<T>, p: T -> bool)
    requires xs != []
    ensures Where(xs, p) == Up(Where(xs[1..], p)) + if p(xs[0]) then {0} else {}
  {
    forall k | k in Where(xs, p)
      ensures k == 0 || k - 1 in Where(xs[1..], p)
    {
      assert k > 0 ==> xs[1..][k - 1] == xs[k];
    }
  }

  /** Counting from the front. */
  lemma WhereTail<T>(xs: seq<T>, p: T -> bool)
    requires xs != []
    ensures |Where(xs, p)| == (if p(xs[0]) then 1 else 0) + |Where(xs[1..], p)|
  {
    WhereUp(xs, p);
    UpSize(Where(xs[1..], p));
    assert 0 !in Up(Where(xs[1..], p));
    hide Where, Up;
  }

  /** Counting from the back. */
  lemma WhereMore<T>(xs: seq<T>, x: T, p: T -> bool)
    ensures Where(xs + [x], p) == Where(xs, p) + if p(x) then {|xs|} else {}
    ensures |Where(xs + [x], p)| == |Where(xs, p)| + if p(x) then 1 else 0
  {
    var all := xs + [x];
    assert forall k: nat :: k < |xs| ==> all[k] == xs[k];
    assert Where(all, p) == Where(xs, p) + if p(x) then {|xs|} else {};
    assert |xs| !in Where(xs, p);
  }
}
