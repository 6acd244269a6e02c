/**
 * Lifting `Compose` and `Interpolate` to optional values, from
 * draw/src/lib.rs. The element-level operations are parameters.
 */
module Animate {
  import opened Wrappers

  /**
   * `Option::compose`: both present merge through the element `compose`;
   * otherwise the first present value wins; both absent stay absent.
   */
  function ComposeOption<T>(a: Option<T>, b: Option<T>, compose: (T, T) -> T): (r: Option<T>)
    ensures a.Some? && b.Some? ==> r == Some(compose(a.value, b.value))
    ensures a.Some? && b.None? ==> r == a
    ensures a.None? ==> r == b
  {
    match (a, b)
    case (Some(x), Some(y)) => Some(compose(x, y))
    case _ => a.Or(b)
  }

  /** Composition of optional values is associative whenever the element composition is. */
  lemma ComposeOptionAssociative<T>(a: Option<T>, b: Option<T>, c: Option<T>, compose: (T, T) -> T)
    requires forall x, y, z :: compose(compose(x, y), z) == compose(x, compose(y, z))
    ensures ComposeOption(ComposeOption(a, b, compose), c, compose)
         == ComposeOption(a, ComposeOption(b, c, compose), compose)
  {
    if a.Some? && b.Some? && c.Some? {
      assert compose(compose(a.value, b.value), c.value) == compose(a.value, compose(b.value, c.value));
    }
  }

  /** `Option::lerp`: defined only when both ends are present. */
  function LerpOption<T>(a: Option<T>, b: Option<T>, x: real, lerp: (T, T, real) -> T): (r: Option<T>)
    ensures r.Some? <==> a.Some? && b.Some?
    ensures r.Some? ==> r.value == lerp(a.value, b.value, x)
  {
    match (a, b)
    case (Some(u), Some(v)) => Some(lerp(u, v, x))
    case _ => None
  }

  /** `Option::scale`: scales a present value and keeps an absent one absent. */
  function ScaleOption<T>(a: Option<T>, x: real, scale: (T, real) -> T): (r: Option<T>)
    ensures r.Some? <==> a.Some?
    ensures r.Some? ==> r.value == scale(a.value, x)
  {
    match a
    case Some(v) => Some(scale(v, x))
    case None => None
  }

  /**
   * Scaling commutes with interpolation on optional values whenever it does
   * on the elements.
   */
  lemma ScaleCommutesWithLerp<T>(a: Option<T>, b: Option<T>, x: real, s: real,
                                 lerp: (T, T, real) -> T, scale: (T, real) -> T)
    requires forall u, v :: scale(lerp(u, v, x), s) == lerp(scale(u, s), scale(v, s), x)
    ensures ScaleOption(LerpOption(a, b, x, lerp), s, scale)
         == LerpOption(ScaleOption(a, s, scale), ScaleOption(b, s, scale), x, lerp)
  {
    if a.Some? && b.Some? {
      assert scale(lerp(a.value, b.value, x), s) == lerp(scale(a.value, s), scale(b.value, s), x);
    }
  }
}
