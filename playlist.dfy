/**
 * Index arithmetic of the music player: which song comes after and before
 * the current one in a playlist of `n` songs. The playlist is circular:
 * the last song is followed by the first, and the first is preceded by the
 * last.
 */
module Playlist {

  /** Index of the song after song `i` (the forward control and the timer). */
  function NextIdx(i: nat, n: nat): (r: nat)
    requires i < n
    ensures r < n
    ensures i + 1 < n ==> r == i + 1
    ensures i + 1 == n ==> r == 0
  {
    (i + 1) % n
  }

  /**
   * Index of the song before song `i` (the backward control). The source
   * picks `n - 1` when `i - 1` would be negative and then also reduces the
   * choice modulo `n`; both operands are non-negative there, so the
   * truncating remainder of the source and Dafny's `%` agree.
   */
  function PrevIdx(i: nat, n: nat): (r: nat)
    requires i < n
    ensures r < n
    ensures i > 0 ==> r == i - 1
    ensures i == 0 ==> r == n - 1
  {
    var newIndex := if i - 1 < 0 then n - 1 else i - 1;
    newIndex % n
  }

  /** Going back after going forward returns to the same song. */
  lemma PrevAfterNext(i: nat, n: nat)
    requires i < n
    ensures PrevIdx(NextIdx(i, n), n) == i
  {
  }

  /** Going forward after going back returns to the same song. */
  lemma NextAfterPrev(i: nat, n: nat)
    requires i < n
    ensures NextIdx(PrevIdx(i, n), n) == i
  {
  }

  /** The index reached from `i` after `k` consecutive forward steps. */
  function NextPow(i: nat, k: nat, n: nat): (r: nat)
    requires i < n
    ensures r < n
    decreases k
  {
    if k == 0 then i else NextIdx(NextPow(i, k - 1, n), n)
  }

  /** Taking the first step separately does not change where `k + 1` steps lead. */
  lemma {:induction false} NextPowFirst(i: nat, k: nat, n: nat)
    requires i < n
    ensures NextPow(NextIdx(i, n), k, n) == NextPow(i, k + 1, n)
    decreases k
  {
    if k > 0 {
      NextPowFirst(i, k - 1, n);
    }
  }

  /** A positive multiple of `n` is at least `n`. */
  lemma MulAtLeast(k: int, n: nat)
    requires k >= 1
    ensures k * n >= n
  {
  }

  /** The remainder of `q * n + r` is `r` whenever `r` is a residue modulo `n`. */
  lemma ModUnique(x: int, q: int, r: int, n: nat)
    requires 0 <= r < n
    requires x == q * n + r
    ensures x % n == r
  {
    var d, m := x / n, x % n;
    assert x == d * n + m;
    assert (q - d) * n == m - r;
    if q > d {
      MulAtLeast(q - d, n);
    } else if q < d {
      MulAtLeast(d - q, n);
    }
  }

  /** One more step on a residue is one more step on the number it reduces. */
  lemma ModSucc(a: nat, n: nat)
    requires n > 0
    ensures (a % n + 1) % n == (a + 1) % n
  {
    var q, r := a / n, a % n;
    assert a == q * n + r;
    if r + 1 < n {
      ModUnique(a + 1, q, r + 1, n);
    } else {
      ModUnique(a + 1, q + 1, 0, n);
    }
  }

  /** `k` forward steps from `i` land on `(i + k) % n`. */
  lemma {:induction false} NextPowIsShift(i: nat, k: nat, n: nat)
    requires i < n
    ensures NextPow(i, k, n) == (i + k) % n
    decreases k
  {
    if k == 0 {
      ModUnique(i, 0, i, n);
    } else {
      NextPowIsShift(i, k - 1, n);
      var prev := NextPow(i, k - 1, n);
      assert prev == (i + k - 1) % n;
      assert NextPow(i, k, n) == (prev + 1) % n;
      ModSucc(i + k - 1, n);
    }
  }

  /** `n` consecutive forward steps come back to the starting song. */
  lemma FullCycle(i: nat, n: nat)
    requires i < n
    ensures NextPow(i, n, n) == i
  {
    NextPowIsShift(i, n, n);
    ModUnique(i + n, 1, i, n);
  }

  /** One backward step is the same as `n - 1` forward steps. */
  lemma PrevIsNextPow(i: nat, n: nat)
    requires i < n
    ensures PrevIdx(i, n) == NextPow(i, n - 1, n)
  {
    NextPowIsShift(i, n - 1, n);
    if i == 0 {
      ModUnique(n - 1, 0, n - 1, n);
    } else {
      ModUnique(i + n - 1, 1, i - 1, n);
    }
  }
}
