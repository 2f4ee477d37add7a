// Datatypes and small facts about finite sets shared by the other modules.
module Common {
  datatype Option<+T> = None | Some(value: T)

  function One(b: bool): nat {
    if b then 1 else 0
  }

  lemma {:induction false} IntervalSize(s: set<nat>, lo: nat, hi: nat)
    requires lo <= hi
    requires forall i: nat :: i in s <==> lo <= i < hi
    ensures |s| == hi - lo
    decreases hi - lo
  {
    if lo == hi {
      assert s == {};
    } else {
      IntervalSize(s - {hi - 1}, lo, hi - 1);
    }
  }

  lemma {:induction false} SubsetSize<T>(a: set<T>, b: set<T>)
    requires a <= b
    ensures |a| <= |b|
  {
    if a != {} {
      var x :| x in a;
      SubsetSize(a - {x}, b - {x});
    }
  }

  lemma {:induction false} BoundedSize(s: set<nat>, n: nat)
    requires forall i | i in s :: i < n
    ensures |s| <= n
  {
    if n == 0 {
      assert s == {};
    } else {
      BoundedSize(s - {n - 1}, n - 1);
    }
  }

  // A map that never uses a value twice has at most as many keys as there are values to use.
  lemma {:induction false} PigeonHole<K, V>(m: map<K, V>, values: set<V>)
    requires forall k | k in m :: m[k] in values
    requires forall k, l | k in m && l in m && k != l :: m[k] != m[l]
    ensures |m| <= |values|
    decreases |m|
  {
    if m != map[] {
      var k :| k in m;
      var rest := m - {k};
      assert m.Keys == rest.Keys + {k};
      assert |m| == |m.Keys| && |rest| == |rest.Keys|;
      PigeonHole(rest, values - {m[k]});
    }
  }

  // Sets that agree except perhaps on one element.
  lemma OneToggled(before: set<nat>, after: set<nat>, w: nat)
    requires before - {w} == after - {w}
    ensures |after| == |before| - One(w in before) + One(w in after)
  {
    var rest := before - {w};
    assert before == if w in before then rest + {w} else rest;
    assert after == if w in after then rest + {w} else rest;
  }

  lemma AtMostOne<T>(s: set<T>, x: T, y: T)
    requires |s| <= 1 && x in s && y in s
    ensures x == y
  {
    SubsetSize({x, y}, s);
  }
}
