/** Shift registers over any words with an exclusive or: what follows from
    linearity alone, whatever the word. */
module Registers {

  function Iter<T>(f: T -> T, v: T, n: nat): T
    decreases n
  {
    if n == 0 then v else Iter(f, f(v), n - 1)
  }

  function Feed<T>(feed: (T, bool) -> T, reg: T, bits: seq<bool>): T
    decreases |bits|
  {
    if bits == [] then reg else Feed(feed, feed(reg, bits[0]), bits[1..])
  }

  /** The first `n` bits of a word, read off one end while it is halved. */
  function BitsFrom<T>(odd: T -> bool, half: T -> T, c: T, n: nat): (bits: seq<bool>)
    ensures |bits| == n
    decreases n
  {
    if n == 0 then [] else [odd(c)] + BitsFrom(odd, half, half(c), n - 1)
  }

  ghost predicate Linear<T(!new)>(f: T -> T, xor: (T, T) -> T)
  {
    forall a, b {:trigger f(xor(a, b))} :: f(xor(a, b)) == xor(f(a), f(b))
  }

  lemma {:induction false} IterLinear<T(!new)>(f: T -> T, xor: (T, T) -> T, x: T, y: T, n: nat)
    requires Linear(f, xor)
    ensures Iter(f, xor(x, y), n) == xor(Iter(f, x, n), Iter(f, y, n))
    decreases n
  {
    if n > 0 {
      assert f(xor(x, y)) == xor(f(x), f(y));
      IterLinear(f, xor, f(x), f(y), n - 1);
    }
  }

  lemma {:induction false} IterInjective<T(!new)>(f: T -> T, g: T -> T, x: T, y: T, n: nat)
    requires forall v {:trigger f(v)} :: g(f(v)) == v
    requires Iter(f, x, n) == Iter(f, y, n)
    ensures x == y
    decreases n
  {
    if n > 0 {
      IterInjective(f, g, f(x), f(y), n - 1);
      assert g(f(x)) == x && g(f(y)) == y;
    }
  }

  lemma {:induction false} FeedAppend<T>(feed: (T, bool) -> T, reg: T, a: seq<bool>, b: seq<bool>)
    ensures Feed(feed, reg, a + b) == Feed(feed, Feed(feed, reg, a), b)
    decreases |a|
  {
    if a == [] {
      assert a + b == b;
    } else {
      FeedAppend(feed, feed(reg, a[0]), a[1..], b);
      assert (a + b)[1..] == a[1..] + b;
    }
  }

  /** Feeding a word bit by bit is folding it in at once and then shifting. */
  lemma {:induction false} FeedIsShift<T(!new)>(
    f: T -> T, feed: (T, bool) -> T, xor: (T, T) -> T, odd: T -> bool, half: T -> T, reg: T, c: T, n: nat)
    requires forall r, w {:trigger f(xor(r, w))} :: xor(feed(r, odd(w)), half(w)) == f(xor(r, w))
    ensures xor(Feed(feed, reg, BitsFrom(odd, half, c, n)), Iter(half, c, n)) == Iter(f, xor(reg, c), n)
    decreases n
  {
    if n > 0 {
      assert xor(feed(reg, odd(c)), half(c)) == f(xor(reg, c));
      FeedIsShift(f, feed, xor, odd, half, feed(reg, odd(c)), half(c), n - 1);
      assert BitsFrom(odd, half, c, n)[1..] == BitsFrom(odd, half, half(c), n - 1);
    }
  }

  lemma IterEight<T>(f: T -> T, v: T)
    ensures Iter(f, v, 8) == f(f(f(f(f(f(f(f(v))))))))
  {
    assert Iter(f, v, 8) == Iter(f, f(f(v)), 6) == Iter(f, f(f(f(f(v)))), 4);
    var w := f(f(f(f(v))));
    assert Iter(f, w, 4) == Iter(f, f(f(w)), 2) == f(f(f(f(w))));
  }

  // ------------------------------------------------------- whole messages

  function Fold<T, B>(step: (T, B) -> T, reg: T, data: seq<B>): T
    decreases |data|
  {
    if data == [] then reg else Fold(step, step(reg, data[0]), data[1..])
  }

  lemma FoldThree<T, B>(step: (T, B) -> T, reg: T, a: B, b: B, c: B)
    ensures Fold(step, reg, [a, b, c]) == step(step(step(reg, a), b), c)
  {
    var r := step(step(reg, a), b);
    assert [a, b, c][1..] == [b, c] && [b, c][1..] == [c] && [c][1..] == [];
    assert Fold(step, r, [c]) == Fold(step, step(r, c), []) == step(r, c);
  }

  lemma {:induction false} FoldAppend<T, B>(step: (T, B) -> T, reg: T, a: seq<B>, b: seq<B>)
    ensures Fold(step, reg, a + b) == Fold(step, Fold(step, reg, a), b)
    decreases |a|
  {
    if a == [] {
      assert a + b == b;
    } else {
      FoldAppend(step, step(reg, a[0]), a[1..], b);
      assert (a + b)[1..] == a[1..] + b;
    }
  }

  lemma FoldTake<T, B>(step: (T, B) -> T, reg: T, data: seq<B>, i: nat)
    requires i < |data|
    ensures Fold(step, reg, data[..i + 1]) == step(Fold(step, reg, data[..i]), data[i])
  {
    assert data[..i + 1] == data[..i] + [data[i]];
    FoldAppend(step, reg, data[..i], [data[i]]);
    assert [data[i]][1..] == [];
  }

  lemma FoldEight<T, B>(step: (T, B) -> T, reg: T, data: seq<B>, p: nat)
    requires p + 8 <= |data|
    ensures var v := Fold(step, reg, data[..p]);
            Fold(step, reg, data[..p + 8]) ==
            step(step(step(step(step(step(step(step(v, data[p]), data[p + 1]), data[p + 2]), data[p + 3]),
                                data[p + 4]), data[p + 5]), data[p + 6]), data[p + 7])
  {
    FoldTake(step, reg, data, p);
    FoldTake(step, reg, data, p + 1);
    FoldTake(step, reg, data, p + 2);
    FoldTake(step, reg, data, p + 3);
    FoldTake(step, reg, data, p + 4);
    FoldTake(step, reg, data, p + 5);
    FoldTake(step, reg, data, p + 6);
    FoldTake(step, reg, data, p + 7);
  }

  lemma FoldOfFour<T, B>(step: (T, B) -> T, v: T, w: seq<B>)
    requires |w| == 4
    ensures Fold(step, v, w) == step(step(step(step(v, w[0]), w[1]), w[2]), w[3])
  {
    FoldTake(step, v, w, 0);
    FoldTake(step, v, w, 1);
    FoldTake(step, v, w, 2);
    FoldTake(step, v, w, 3);
    assert w[..4] == w;
  }

  /** Two registers that a message leaves equal were equal before it. */
  lemma {:induction false} FoldInjective<T(!new), B(!new)>(step: (T, B) -> T, x: T, y: T, data: seq<B>)
    requires forall v, w, b {:trigger step(v, b), step(w, b)} :: step(v, b) == step(w, b) ==> v == w
    requires Fold(step, x, data) == Fold(step, y, data)
    ensures x == y
    decreases |data|
  {
    if data != [] {
      FoldInjective(step, step(x, data[0]), step(y, data[0]), data[1..]);
    }
  }
}
