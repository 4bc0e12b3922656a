/** The home page's banner carousel in src/App.jsx: five images and an index that the two
    arrows move forwards and backwards, wrapping at both ends. */
module Banner {
  /** The length of `bannerImages`. */
  const BannerCount: nat := 5

  /** `nextBanner`: one step forwards, from the last image back to the first. */
  function Next(i: nat): (r: nat)
    ensures r < BannerCount
    ensures i + 1 < BannerCount ==> r == i + 1
    ensures i == BannerCount - 1 ==> r == 0
  {
    (i + 1) % BannerCount
  }

  /** `prevBanner`: one step backwards, from the first image to the last. */
  function Prev(i: nat): (r: nat)
    ensures i < BannerCount ==> r < BannerCount
    ensures 0 < i ==> r + 1 == i
    ensures i == 0 ==> r == BannerCount - 1
  {
    if i == 0 then BannerCount - 1 else i - 1
  }

  /** The arrows undo each other on every index the carousel can show. */
  lemma NextPrevInverse(i: nat)
    requires i < BannerCount
    ensures Prev(Next(i)) == i
    ensures Next(Prev(i)) == i
  {
  }

  /** The index after `k` presses of the forward arrow. */
  function Forward(i: nat, k: nat): nat
    decreases k
  {
    if k == 0 then i else Next(Forward(i, k - 1))
  }

  /** `k` forward presses move the index `k` places round the circle. */
  lemma {:induction false} ForwardWraps(i: nat, k: nat)
    requires i < BannerCount
    ensures Forward(i, k) == (i + k) % BannerCount
    decreases k
  {
    if k > 0 {
      ForwardWraps(i, k - 1);
      var j := (i + k - 1) % BannerCount;
      assert (j + 1) % BannerCount == (i + k) % BannerCount by {
        var q := (i + k - 1) / BannerCount;
        assert i + k - 1 == q * BannerCount + j;
        assert i + k == q * BannerCount + (j + 1);
      }
    }
  }

  /** A full turn of the carousel comes back to the same image. */
  lemma FullTurn(i: nat)
    requires i < BannerCount
    ensures Forward(i, BannerCount) == i
  {
    ForwardWraps(i, BannerCount);
  }
}
