/** Totals over a sequence: the multiset, or the number, that its elements contribute together.
    The invariants use them to say where every builder and every continuation currently is. */
module Bags {

  ghost function Bag<A, B>(s: seq<A>, f: A -> multiset<B>): multiset<B> {
    if s == [] then multiset{} else Bag(s[..|s| - 1], f) + f(s[|s| - 1])
  }

  ghost function Sum<A>(s: seq<A>, f: A -> nat): nat {
    if s == [] then 0 else Sum(s[..|s| - 1], f) + f(s[|s| - 1])
  }

  function RemoveAt<A>(s: seq<A>, i: nat): seq<A>
    requires i < |s|
  {
    s[..i] + s[i + 1..]
  }

  function Repeat<A>(x: A, n: nat): (s: seq<A>)
    ensures |s| == n
    ensures forall i :: 0 <= i < n ==> s[i] == x
  {
    if n == 0 then [] else Repeat(x, n - 1) + [x]
  }

  /** Every element occurs at most once. */
  ghost predicate NoDup<B(!new)>(m: multiset<B>) {
    forall x :: m[x] <= 1
  }

  lemma {:induction false} BagConcat<A, B>(s: seq<A>, t: seq<A>, f: A -> multiset<B>)
    ensures Bag(s + t, f) == Bag(s, f) + Bag(t, f)
  {
    if t == [] {
      assert s + t == s;
    } else {
      BagConcat(s, t[..|t| - 1], f);
      assert (s + t)[..|s + t| - 1] == s + t[..|t| - 1];
    }
  }

  lemma {:induction false} SumConcat<A>(s: seq<A>, t: seq<A>, f: A -> nat)
    ensures Sum(s + t, f) == Sum(s, f) + Sum(t, f)
  {
    if t == [] {
      assert s + t == s;
    } else {
      SumConcat(s, t[..|t| - 1], f);
      assert (s + t)[..|s + t| - 1] == s + t[..|t| - 1];
    }
  }

  /** Appending x to s. */
  lemma BagAdd<A, B>(s: seq<A>, x: A, f: A -> multiset<B>)
    ensures Bag(s + [x], f) == Bag(s, f) + f(x)
    ensures f(x) == multiset{} ==> Bag(s + [x], f) == Bag(s, f)
  {
  }

  lemma SumAdd<A>(s: seq<A>, x: A, f: A -> nat)
    ensures Sum(s + [x], f) == Sum(s, f) + f(x)
  {
  }

  lemma BagOne<A, B>(x: A, f: A -> multiset<B>)
    ensures Bag([x], f) == f(x)
  {
  }

  lemma SumOne<A>(x: A, f: A -> nat)
    ensures Sum([x], f) == f(x)
  {
  }

  /** us has traded `out` for `got` against ts; the three special cases are spelled out. */
  ghost predicate Traded<B(!new)>(us: multiset<B>, ts: multiset<B>, out: multiset<B>, got: multiset<B>) {
    && us + out == ts + got
    && (forall x :: us[x] + out[x] == ts[x] + got[x])
    && (out == got ==> us == ts)
    && (got == multiset{} ==> us + out == ts)
    && (out == multiset{} ==> us == ts + got)
  }

  lemma TradedFrom<B(!new)>(us: multiset<B>, ts: multiset<B>, out: multiset<B>, got: multiset<B>)
    requires us + out == ts + got
    ensures Traded(us, ts, out, got)
  {
    forall x
      ensures us[x] + out[x] == ts[x] + got[x]
    {
      assert (us + out)[x] == (ts + got)[x];
    }
  }

  /** A trade seen beside something that does not change. */
  lemma TradedBeside<B(!new)>(base: multiset<B>, us: multiset<B>, ts: multiset<B>, out: multiset<B>, got: multiset<B>)
    requires Traded(us, ts, out, got)
    ensures Traded(us + base, ts + base, out, got)
    ensures Traded(base + us, base + ts, out, got)
  {
  }

  /** Taking element i out of s and appending t: what each of the three contributes. */
  lemma BagSwap<A, B(!new)>(s: seq<A>, i: nat, t: seq<A>, f: A -> multiset<B>)
    requires i < |s|
    ensures Traded(Bag(RemoveAt(s, i) + t, f), Bag(s, f), f(s[i]), Bag(t, f))
  {
    assert s == s[..i] + [s[i]] + s[i + 1..];
    BagConcat(s[..i] + [s[i]], s[i + 1..], f);
    BagConcat(s[..i], [s[i]], f);
    BagConcat(s[..i], s[i + 1..], f);
    BagConcat(RemoveAt(s, i), t, f);
    BagOne(s[i], f);
    TradedFrom(Bag(RemoveAt(s, i) + t, f), Bag(s, f), f(s[i]), Bag(t, f));
  }

  lemma SumSwap<A>(s: seq<A>, i: nat, t: seq<A>, f: A -> nat)
    requires i < |s|
    ensures Sum(RemoveAt(s, i) + t, f) + f(s[i]) == Sum(s, f) + Sum(t, f)
  {
    assert s == s[..i] + [s[i]] + s[i + 1..];
    SumConcat(s[..i] + [s[i]], s[i + 1..], f);
    SumConcat(s[..i], [s[i]], f);
    SumConcat(s[..i], s[i + 1..], f);
    SumConcat(RemoveAt(s, i), t, f);
    SumOne(s[i], f);
  }

  /** Replacing element i of s. */
  lemma BagUpdate<A, B(!new)>(s: seq<A>, i: nat, x: A, f: A -> multiset<B>)
    requires i < |s|
    ensures Traded(Bag(s[i := x], f), Bag(s, f), f(s[i]), f(x))
  {
    assert s == s[..i] + [s[i]] + s[i + 1..];
    assert s[i := x] == s[..i] + [x] + s[i + 1..];
    BagConcat(s[..i] + [s[i]], s[i + 1..], f);
    BagConcat(s[..i] + [x], s[i + 1..], f);
    BagConcat(s[..i], [s[i]], f);
    BagConcat(s[..i], [x], f);
    BagOne(s[i], f);
    BagOne(x, f);
    TradedFrom(Bag(s[i := x], f), Bag(s, f), f(s[i]), f(x));
  }

  lemma OneMore<A>(s: seq<A>, x: A, n: nat)
    ensures s + Repeat(x, n + 1) == s + Repeat(x, n) + [x]
  {
  }

  /** Appending n copies of an element that contributes nothing. */
  lemma {:induction false} BagAddMany<A, B>(s: seq<A>, x: A, n: nat, f: A -> multiset<B>)
    requires f(x) == multiset{}
    ensures Bag(s + Repeat(x, n), f) == Bag(s, f)
  {
    if n == 0 {
      assert s + Repeat(x, n) == s;
    } else {
      BagAddMany(s, x, n - 1, f);
      BagAdd(s + Repeat(x, n - 1), x, f);
      OneMore(s, x, n - 1);
    }
  }

  lemma {:induction false} SumAddMany<A>(s: seq<A>, x: A, n: nat, f: A -> nat)
    requires f(x) <= 1
    ensures Sum(s + Repeat(x, n), f) == Sum(s, f) + if f(x) == 1 then n else 0
  {
    if n == 0 {
      assert s + Repeat(x, n) == s;
    } else {
      SumAddMany(s, x, n - 1, f);
      SumAdd(s + Repeat(x, n - 1), x, f);
      OneMore(s, x, n - 1);
    }
  }

  /** What one element contributes is part of the whole. */
  lemma BagHas<A, B(!new)>(s: seq<A>, i: nat, f: A -> multiset<B>)
    requires i < |s|
    ensures f(s[i]) <= Bag(s, f)
  {
  }

  /** Whatever is in the bag was contributed by some element. */
  lemma {:induction false} BagFind<A, B>(s: seq<A>, x: B, f: A -> multiset<B>) returns (i: nat)
    requires x in Bag(s, f)
    ensures i < |s| && x in f(s[i])
  {
    if x in f(s[|s| - 1]) {
      i := |s| - 1;
    } else {
      i := BagFind(s[..|s| - 1], x, f);
    }
  }

  lemma {:induction false} BagNothing<A, B>(s: seq<A>, f: A -> multiset<B>)
    requires forall i :: 0 <= i < |s| ==> f(s[i]) == multiset{}
    ensures Bag(s, f) == multiset{}
  {
    if s != [] {
      BagNothing(s[..|s| - 1], f);
    }
  }

  /** A contribution that is pointwise smaller adds up to something smaller. */
  lemma {:induction false} BagBelow<A(!new), B>(s: seq<A>, f: A -> multiset<B>, g: A -> multiset<B>)
    requires forall a :: f(a) <= g(a)
    ensures Bag(s, f) <= Bag(s, g)
  {
    if s != [] {
      BagBelow(s[..|s| - 1], f, g);
    }
  }
}
