/** Minimum, maximum and the sizes of finite sets. */
module Collections {
  function Min(a: nat, b: nat): nat {
    if a < b then a else b
  }

  function Max(a: nat, b: nat): nat {
    if a < b then b else a
  }

  lemma {:induction false} SubsetOfSize<T>(s: set<T>, n: nat)
    requires n <= |s|
    ensures exists sub :: sub <= s && |sub| == n
  {
    if n == |s| {
      assert s <= s;
    } else {
      var x :| x in s;
      SubsetOfSize(s - {x}, n);
      var sub :| sub <= s - {x} && |sub| == n;
      assert sub <= s;
    }
  }

  lemma {:induction false} SubsetSize<T>(x: set<T>, y: set<T>)
    requires x <= y
    ensures |x| <= |y| && (|x| == |y| ==> x == y)
    decreases x
  {
    if x != {} {
      var t :| t in x;
      SubsetSize(x - {t}, y - {t});
    }
  }

  lemma AtMostOneElement<T>(s: set<T>)
    requires forall t, u :: t in s && u in s ==> t == u
    ensures |s| <= 1
  {
    if s != {} {
      var t :| t in s;
      assert s == {t};
    }
  }
}
