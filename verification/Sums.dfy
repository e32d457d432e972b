/** Finite sums of watts over sets of identifiers. A set has no order, so
    whatever is proved about these sums holds for every iteration order of the
    hash maps they stand for. */
module Sums {
  import opened Prelude

  ghost function Sum(s: set<Id>, f: map<Id, real>): real
    requires s <= f.Keys
  {
    if s == {} then 0.0 else var x :| x in s; f[x] + Sum(s - {x}, f)
  }

  /** The element peeled off first does not matter. */
  lemma {:induction false} SumPick(s: set<Id>, f: map<Id, real>, x: Id)
    requires s <= f.Keys && x in s
    ensures Sum(s, f) == f[x] + Sum(s - {x}, f)
    decreases s
  {
    var y :| y in s && Sum(s, f) == f[y] + Sum(s - {y}, f);
    if y != x {
      SumPick(s - {y}, f, x);
      SumPick(s - {x}, f, y);
      assert s - {y} - {x} == s - {x} - {y};
    }
  }

  lemma {:induction false} SumSplit(s: set<Id>, a: set<Id>, f: map<Id, real>)
    requires s <= f.Keys && a <= s
    ensures Sum(s, f) == Sum(a, f) + Sum(s - a, f)
    decreases a
  {
    if a == {} {
      assert s - a == s;
    } else {
      var x :| x in a;
      SumPick(a, f, x);
      SumPick(s, f, x);
      SumSplit(s - {x}, a - {x}, f);
      assert s - {x} - (a - {x}) == s - a;
    }
  }

  /** Pointwise `h == f + g` adds up. */
  lemma {:induction false} SumAdd(s: set<Id>, f: map<Id, real>, g: map<Id, real>, h: map<Id, real>)
    requires s <= f.Keys && s <= g.Keys && s <= h.Keys
    requires forall x :: x in s ==> h[x] == f[x] + g[x]
    ensures Sum(s, h) == Sum(s, f) + Sum(s, g)
    decreases s
  {
    if s != {} {
      var x :| x in s;
      SumPick(s, f, x);
      SumPick(s, g, x);
      SumPick(s, h, x);
      SumAdd(s - {x}, f, g, h);
    }
  }

  lemma {:induction false} SumScaled(s: set<Id>, f: map<Id, real>, k: real, h: map<Id, real>)
    requires s <= f.Keys && s <= h.Keys
    requires forall x :: x in s ==> h[x] == Mul(k, f[x])
    ensures Sum(s, h) == Mul(k, Sum(s, f))
    decreases s
  {
    hide Mul;
    if s == {} {
      MulAdd(k, 0.0, 0.0);
    } else {
      var x :| x in s;
      SumPick(s, f, x);
      SumPick(s, h, x);
      SumScaled(s - {x}, f, k, h);
      MulAdd(k, f[x], Sum(s - {x}, f));
    }
  }

  /** Pointwise `h == f + k * g` adds up. */
  lemma SumLinear(s: set<Id>, f: map<Id, real>, g: map<Id, real>, k: real, h: map<Id, real>)
    requires s <= f.Keys && s <= g.Keys && s <= h.Keys
    requires forall x :: x in s ==> h[x] == f[x] + Mul(k, g[x])
    ensures Sum(s, h) == Sum(s, f) + Mul(k, Sum(s, g))
  {
    hide Mul;
    var scaled := map x | x in s :: Mul(k, g[x]);
    SumScaled(s, g, k, scaled);
    SumAdd(s, f, scaled, h);
  }

  lemma {:induction false} SumEqual(s: set<Id>, f: map<Id, real>, g: map<Id, real>)
    requires s <= f.Keys && s <= g.Keys
    requires forall x :: x in s ==> f[x] == g[x]
    ensures Sum(s, f) == Sum(s, g)
    decreases s
  {
    if s != {} {
      var x :| x in s;
      SumPick(s, f, x);
      SumPick(s, g, x);
      SumEqual(s - {x}, f, g);
    }
  }

  /** Monotone, and strict as soon as one term is. */
  lemma {:induction false} SumLe(s: set<Id>, f: map<Id, real>, g: map<Id, real>)
    requires s <= f.Keys && s <= g.Keys
    requires forall x :: x in s ==> f[x] <= g[x]
    ensures Sum(s, f) <= Sum(s, g)
    ensures Sum(s, f) == Sum(s, g) ==> forall x :: x in s ==> f[x] == g[x]
    decreases s
  {
    if s != {} {
      var x :| x in s;
      SumPick(s, f, x);
      SumPick(s, g, x);
      SumLe(s - {x}, f, g);
    }
  }

  /** `eps` added up n times. */
  function Times(n: nat, eps: real): real {
    if n == 0 then 0.0 else eps + Times(n - 1, eps)
  }

  lemma {:induction false} TimesIsProduct(n: nat, eps: real)
    ensures Times(n, eps) == n as real * eps
  {
    if n == 0 {
    } else {
      TimesIsProduct(n - 1, eps);
      var m := (n - 1) as real;
      assert n as real == m + 1.0;
      assert (m + 1.0) * eps == m * eps + eps;
    }
  }

  /** A per-term error bound adds up to |s| times that bound. */
  lemma {:induction false} SumClose(s: set<Id>, f: map<Id, real>, g: map<Id, real>, eps: real)
    requires s <= f.Keys && s <= g.Keys
    requires forall x :: x in s ==> Abs(f[x] - g[x]) <= eps
    ensures Abs(Sum(s, f) - Sum(s, g)) <= Times(|s|, eps)
    decreases s
  {
    if s != {} {
      var x :| x in s;
      SumPick(s, f, x);
      SumPick(s, g, x);
      SumClose(s - {x}, f, g, eps);
      assert |s| == |s - {x}| + 1;
    }
  }

  lemma {:induction false} SumZero(s: set<Id>, f: map<Id, real>)
    requires s <= f.Keys
    requires forall x :: x in s ==> f[x] == 0.0
    ensures Sum(s, f) == 0.0
    decreases s
  {
    if s != {} {
      var x :| x in s;
      SumPick(s, f, x);
      SumZero(s - {x}, f);
    }
  }

  /** `iter().sum()` over some hash-map order. */
  method Total(s: set<Id>, f: map<Id, real>) returns (total: real)
    requires s <= f.Keys
    ensures total == Sum(s, f)
  {
    total := 0.0;
    var todo := s;
    while todo != {}
      invariant todo <= s
      invariant total + Sum(todo, f) == Sum(s, f)
      decreases todo
    {
      var x :| x in todo;
      SumPick(todo, f, x);
      total := total + f[x];
      todo := todo - {x};
    }
  }
}
