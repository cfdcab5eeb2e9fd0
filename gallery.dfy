/**
 * The cyclic image index of the product-details gallery: the arithmetic of
 * `nextImage` and `prevImage`, independent of the screen that holds it.
 */
module Gallery {

  /**
   * JavaScript's `a % n` for a positive divisor: it truncates toward zero, so
   * the remainder takes the sign of the dividend (unlike Dafny's `%`).
   */
  function JsRemainder(a: int, n: int): (r: int)
    requires n > 0
    ensures a >= 0 ==> 0 <= r < n
    ensures a < 0 ==> -n < r <= 0
  {
    if a >= 0 then a % n else -((-a) % n)
  }

  /** The JavaScript remainder differs from its dividend by a multiple of the divisor. */
  lemma JsRemainderCongruent(a: int, n: int)
    requires n > 0
    ensures exists q :: a == q * n + JsRemainder(a, n)
  {
    var b := if a >= 0 then a else -a;
    var q, r := b / n, b % n;
    assert b == q * n + r;
    if a >= 0 {
      assert a == q * n + JsRemainder(a, n);
    } else {
      assert a == (-q) * n + JsRemainder(a, n);
    }
  }

  /** The index `nextImage` moves to among n images: `(i + 1) % n`. */
  function NextIndex(i: int, n: int): (r: int)
    requires n > 1
    ensures 0 <= i < n ==> r == if i == n - 1 then 0 else i + 1
  {
    JsRemainder(i + 1, n)
  }

  /** The index `prevImage` moves to among n images: `(i - 1 + n) % n`. */
  function PrevIndex(i: int, n: int): (r: int)
    requires n > 1
    ensures 0 <= i < n ==> r == if i == 0 then n - 1 else i - 1
  {
    JsRemainder(i - 1 + n, n)
  }

  /** Both steps keep an in-range index in range. */
  lemma StepsStayInRange(i: int, n: int)
    requires n > 1 && 0 <= i < n
    ensures 0 <= NextIndex(i, n) < n
    ensures 0 <= PrevIndex(i, n) < n
  {
  }

  /** `prevImage` undoes `nextImage` and `nextImage` undoes `prevImage`. */
  lemma StepsAreInverse(i: int, n: int)
    requires n > 1 && 0 <= i < n
    ensures PrevIndex(NextIndex(i, n), n) == i
    ensures NextIndex(PrevIndex(i, n), n) == i
  {
  }

  /** The index reached after k successive `nextImage` steps from i. */
  function NextSteps(i: int, n: int, k: nat): int
    requires n > 1
  {
    if k == 0 then i else NextIndex(NextSteps(i, n, k - 1), n)
  }

  lemma ModSuccessor(a: int, n: int)
    requires a >= 0 && n > 1
    ensures (a + 1) % n == if a % n == n - 1 then 0 else a % n + 1
  {
    var q, r := a / n, a % n;
    assert a == q * n + r;
    if r == n - 1 {
      assert a + 1 == (q + 1) * n;
      ModOfMultiple(q + 1, n);
    } else {
      assert a + 1 == q * n + (r + 1);
      ModUnique(a + 1, n, q, r + 1);
    }
  }

  lemma ModUnique(a: int, n: int, q: int, r: int)
    requires n > 0 && 0 <= r < n && a == q * n + r
    ensures a % n == r
  {
    var q', r' := a / n, a % n;
    assert q' * n + r' == q * n + r;
    if q' > q {
      assert (q' - q) * n == q' * n - q * n;
      MulAtLeast(q' - q, n);
    } else if q' < q {
      assert (q - q') * n == q * n - q' * n;
      MulAtLeast(q - q', n);
    }
  }

  lemma {:induction false} MulAtLeast(d: int, n: int)
    requires d >= 1 && n > 0
    ensures d * n >= n
  {
    if d > 1 {
      MulAtLeast(d - 1, n);
      assert d * n == (d - 1) * n + n;
    }
  }

  lemma ModOfMultiple(q: int, n: int)
    requires n > 0
    ensures (q * n) % n == 0
  {
    ModUnique(q * n, n, q, 0);
  }

  /**
   * k successive `nextImage` steps from an in-range index land on
   * `(i + k) % n`: the gallery walks the images in order and wraps.
   */
  lemma {:induction false} NextStepsWrap(i: int, n: int, k: nat)
    requires n > 1 && 0 <= i < n
    ensures NextSteps(i, n, k) == (i + k) % n
  {
    if k == 0 {
      ModUnique(i, n, 0, i);
    } else {
      NextStepsWrap(i, n, k - 1);
      ModSuccessor(i + k - 1, n);
    }
  }

  /** n successive `nextImage` steps return to the starting image. */
  lemma FullCycle(i: int, n: int)
    requires n > 1 && 0 <= i < n
    ensures NextSteps(i, n, n) == i
  {
    NextStepsWrap(i, n, n);
    ModUnique(i + n, n, 1, i);
  }

  /** Starting from the first image, the k-th step shows image k, for every k < n. */
  lemma VisitsEveryImage(n: int, k: nat)
    requires n > 1 && k < n
    ensures NextSteps(0, n, k) == k
  {
    NextStepsWrap(0, n, k);
    ModUnique(k, n, 0, k);
  }
}
