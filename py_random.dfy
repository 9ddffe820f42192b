/**
 * The three calls into Python's `random` module that the training utilities make,
 * each modelled as a function of one uniform draw `r` in [0, 1) (the value a call
 * to `random.random()` would return). The draw is a parameter: the model has no
 * random source of its own.
 */
module PyRandom {
  import opened Wrappers

  /** A value `random.random()` can return. */
  predicate IsUnitDraw(r: real) {
    0.0 <= r < 1.0
  }

  lemma ScaledDrawBounds(m: nat, r: real)
    requires m > 0 && IsUnitDraw(r)
    ensures 0.0 <= m as real * r < m as real
  {
  }

  /** The outcome among `m` equally likely ones that the draw `r` selects. */
  function Below(m: nat, r: real): (k: nat)
    requires m > 0 && IsUnitDraw(r)
    ensures k < m
    ensures k as real <= m as real * r < k as real + 1.0
  {
    ScaledDrawBounds(m, r);
    (m as real * r).Floor
  }

  /** `random.randint(lo, hi)`: an integer in [lo, hi]; an empty range raises ValueError (None). */
  function RandInt(lo: int, hi: int, r: real): (k: Option<int>)
    requires IsUnitDraw(r)
    ensures k.None? <==> hi < lo
    ensures k.Some? ==> lo <= k.value <= hi
  {
    if hi < lo then None else Some(lo + Below(hi - lo + 1, r))
  }

  /**
   * `randint` is uniform: the draws giving `k` form the interval
   * [(k - lo) / m, (k - lo + 1) / m) of width 1 / m, where m = hi - lo + 1.
   */
  lemma RandIntPreimage(lo: int, hi: int, r: real, k: int)
    requires IsUnitDraw(r) && lo <= k <= hi
    ensures var m := (hi - lo + 1) as real;
            RandInt(lo, hi, r) == Some(k) <==> (k - lo) as real <= m * r < (k - lo) as real + 1.0
  {
  }

  /** Every value of the range is returned for some draw, so the model loses no outcome. */
  lemma RandIntReaches(lo: int, hi: int, k: int)
    requires lo <= k <= hi
    ensures exists r :: IsUnitDraw(r) && RandInt(lo, hi, r) == Some(k)
  {
    var m := (hi - lo + 1) as real;
    var r := (k - lo) as real / m;
    assert m * r == (k - lo) as real;
    assert r < 1.0 by {
      assert (k - lo) as real < m;
    }
    RandIntPreimage(lo, hi, r, k);
    assert RandInt(lo, hi, r) == Some(k);
  }

  /** `random.choice(s)`: an element of `s`; an empty sequence raises IndexError (None). */
  function Choice<T>(s: seq<T>, r: real): (x: Option<T>)
    requires IsUnitDraw(r)
    ensures x.None? <==> s == []
    ensures x.Some? ==> x.value in s
  {
    if s == [] then None else Some(s[Below(|s|, r)])
  }

  /**
   * `choice` is uniform: the draws picking position `i` form the interval
   * [i / |s|, (i + 1) / |s|) of width 1 / |s|.
   */
  lemma ChoicePreimage<T>(s: seq<T>, r: real, i: nat)
    requires i < |s| && IsUnitDraw(r)
    ensures Choice(s, r) == Some(s[Below(|s|, r)])
    ensures Below(|s|, r) == i <==> i as real <= |s| as real * r < i as real + 1.0
  {
  }

  /** Every position of a non-empty sequence is chosen by some draw. */
  lemma ChoiceReaches<T>(s: seq<T>, i: nat)
    requires i < |s|
    ensures exists r :: IsUnitDraw(r) && Choice(s, r) == Some(s[i])
  {
    var m := |s| as real;
    var r := i as real / m;
    assert m * r == i as real;
    assert r < 1.0 by {
      assert i as real < m;
    }
    assert Below(|s|, r) == i;
    assert Choice(s, r) == Some(s[i]);
  }
}
