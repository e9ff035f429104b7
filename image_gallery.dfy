/**
 * The product image gallery (`ProductImageGallery`): a selected index that
 * wraps around under next and previous, read back through a guard that
 * falls back to the first image.
 */
module ImageGallery {
  import opened Wrappers
  import opened ProductTypes

  /** `selectedImage >= totalImages ? 0 : selectedImage`. */
  function SafeIndex(selected: nat, total: nat): (i: nat)
    ensures total > 0 ==> i < total
    ensures selected < total ==> i == selected
  {
    if selected >= total then 0 else selected
  }

  /** `(prev + 1) % totalImages`, unchanged when there are no images. */
  function NextIndex(selected: nat, total: nat): (i: nat)
    ensures total > 0 ==> i < total
  {
    if total == 0 then selected else (selected + 1) % total
  }

  /** `(prev - 1 + totalImages) % totalImages`, unchanged when there are no images. */
  function PrevIndex(selected: nat, total: nat): (i: nat)
    ensures total > 0 ==> i < total
  {
    if total == 0 then selected else (selected - 1 + total) % total
  }

  /** Previous undoes next and next undoes previous on an index in range. */
  lemma NextPrevInverse(selected: nat, total: nat)
    requires selected < total
    ensures PrevIndex(NextIndex(selected, total), total) == selected
    ensures NextIndex(PrevIndex(selected, total), total) == selected
  {
    ModSmall(selected + 1, total);
    ModSmall(selected - 1 + total, total);
    ModSmall(NextIndex(selected, total) - 1 + total, total);
    ModSmall(PrevIndex(selected, total) + 1, total);
  }

  function NextTimes(selected: nat, total: nat, n: nat): nat
    decreases n
  {
    if n == 0 then selected else NextTimes(NextIndex(selected, total), total, n - 1)
  }

  /** `n` presses of next move the index `n` places round the ring. */
  lemma {:induction false} NextTimesWraps(selected: nat, total: nat, n: nat)
    requires selected < total
    ensures NextTimes(selected, total, n) == (selected + n) % total
    decreases n
  {
    if n == 0 {
      ModSmall(selected, total);
    } else {
      var m := NextIndex(selected, total);
      assert m == (selected + 1) % total;
      assert NextTimes(selected, total, n) == NextTimes(m, total, n - 1);
      NextTimesWraps(m, total, n - 1);
      ModAddMod(selected + 1, n - 1, total);
      assert selected + 1 + (n - 1) == selected + n;
    }
  }

  /** Euclidean division is unique: a quotient and remainder in range are `/` and `%`. */
  lemma DivModUnique(y: int, q: int, r: int, t: int)
    requires t > 0 && y == q * t + r && 0 <= r < t
    ensures y % t == r
  {
    var q2 := y / t;
    var r2 := y % t;
    assert y == q2 * t + r2 && 0 <= r2 < t;
    var d := q - q2;
    assert d * t == r2 - r;
    MultipleBounds(d, t);
  }

  lemma MultipleBounds(d: int, t: int)
    requires t > 0
    ensures d >= 1 ==> d * t >= t
    ensures d <= -1 ==> d * t <= -t
  {
  }

  lemma ModSmall(x: int, t: int)
    requires t > 0 && 0 <= x < 2 * t
    ensures x % t == if x < t then x else x - t
  {
    if x < t {
      DivModUnique(x, 0, x, t);
    } else {
      DivModUnique(x, 1, x - t, t);
    }
  }

  /** Reducing the first summand first does not change the remainder. */
  lemma ModAddMod(a: nat, b: nat, t: nat)
    requires t > 0
    ensures (a % t + b) % t == (a + b) % t
  {
    var q1 := a / t;
    var r1 := a % t;
    var q2 := (r1 + b) / t;
    var r2 := (r1 + b) % t;
    assert a == q1 * t + r1;
    assert r1 + b == q2 * t + r2 && 0 <= r2 < t;
    assert a + b == (q1 + q2) * t + r2 by {
      assert (q1 + q2) * t == q1 * t + q2 * t;
    }
    DivModUnique(a + b, q1 + q2, r2, t);
  }

  /** A full turn of next comes back to the start. */
  lemma FullTurn(selected: nat, total: nat)
    requires selected < total
    ensures NextTimes(selected, total, total) == selected
  {
    NextTimesWraps(selected, total, total);
    DivModUnique(selected + total, 1, selected, total);
  }

  class Gallery {
    const images: seq<ProductImage>
    var selectedImage: nat

    constructor (images: seq<ProductImage>)
      ensures this.images == images && selectedImage == 0
    {
      this.images := images;
      selectedImage := 0;
    }

    /** `currentImage`: none when there are no images, else the image at the safe index. */
    function CurrentImage(): (r: Option<ProductImage>)
      reads this
      ensures r.None? <==> images == []
      ensures r.Some? ==> r.value in images
      ensures selectedImage < |images| ==> r == Some(images[selectedImage])
    {
      if |images| > 0 then Some(images[SafeIndex(selectedImage, |images|)]) else None
    }

    method NextImage()
      modifies this
      ensures selectedImage == NextIndex(old(selectedImage), |images|)
    {
      selectedImage := NextIndex(selectedImage, |images|);
    }

    method PrevImage()
      modifies this
      ensures selectedImage == PrevIndex(old(selectedImage), |images|)
    {
      selectedImage := PrevIndex(selectedImage, |images|);
    }

    /** A click on thumbnail `index`. */
    method SelectThumbnail(index: nat)
      requires index < |images|
      modifies this
      ensures selectedImage == index
    {
      selectedImage := index;
    }
  }
}
