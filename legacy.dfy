/** The definitions of the older revision (the `L/` tree) that are written
    differently from the current one.  Every other operation of that
    revision has the same formula as the current one and is modelled there. */
module Legacy {
  import opened Base
  import opened Prisms
  import opened Isos
  import Composition

  /** The older iso `modify`: convert, transform, convert back, written
      directly instead of through the always-matching `tryGet`. */
  function IsoModify<S(!new), T(!new), A(!new), B(!new)>(i: LIso<S, T, A, B>, x: S, f: A -> B): (r: T)
    ensures r == i.reverseGet(f(i.get(x)))
  {
    After(i.reverseGet, After(f, i.get))(x)
  }

  /** The older iso `set`: `modify` with a constant function, so the old
      structure plays no part. */
  function IsoSet<S(!new), T(!new), A(!new), B(!new)>(i: LIso<S, T, A, B>, y: B, x: S): (r: T)
    ensures r == i.reverseGet(y)
  {
    IsoModify(i, x, Const(y))
  }

  /** Both revisions of iso `modify` and `set` agree. */
  lemma IsoRevisionsAgree<S(!new), T(!new), A(!new), B(!new)>(i: LIso<S, T, A, B>, x: S, f: A -> B, y: B)
    ensures IsoModify(i, x, f) == i.Modify(x, f)
    ensures IsoSet(i, y, x) == i.Set(y, x)
  {
  }

  /** The older prism composition: the inner prism's outcome is rewritten
      with `bimap`, turning a miss `b` into the outer prism's `set(b, s)` and
      leaving a hit as it is. */
  function ComposePrisms<S(!new), T(!new), A(!new), B(!new), C(!new), D(!new)>(outer: LPrism<S, T, A, B>, inner: LPrism<A, B, C, D>): (r: LPrism<S, T, C, D>)
    ensures forall s: S :: outer.tryGet(s).Left? ==> r.tryGet(s) == Left(outer.tryGet(s).left)
    ensures forall s: S :: outer.tryGet(s).Right? && inner.tryGet(outer.tryGet(s).right).Left? ==>
      r.tryGet(s) == Left(outer.Set(inner.tryGet(outer.tryGet(s).right).left, s))
    ensures forall s: S :: outer.tryGet(s).Right? && inner.tryGet(outer.tryGet(s).right).Right? ==>
      r.tryGet(s) == Right(inner.tryGet(outer.tryGet(s).right).right)
    ensures forall d: D :: r.reverseGet(d) == outer.reverseGet(inner.reverseGet(d))
  {
    LPrism((s: S) => outer.tryGet(s).FlatMap((a: A) => inner.tryGet(a).Bimap((b: B) => outer.Set(b, s), Id)),
           After(outer.reverseGet, inner.reverseGet))
  }

  /** The `bimap` form of the older revision and the `map` form of the
      current one compose prisms to the same prism, pointwise. */
  lemma {:induction false} ComposePrismsRevisionsAgree<S(!new), T(!new), A(!new), B(!new), C(!new), D(!new)>(outer: LPrism<S, T, A, B>, inner: LPrism<A, B, C, D>, s: S, d: D)
    ensures ComposePrisms(outer, inner).tryGet(s) == Composition.ComposePrisms(outer, inner).tryGet(s)
    ensures ComposePrisms(outer, inner).reverseGet(d) == Composition.ComposePrisms(outer, inner).reverseGet(d)
  {
    if outer.tryGet(s).Right? {
      var a := outer.tryGet(s).right;
      BimapIdIsMapLeft(inner.tryGet(a), (b: B) => outer.Set(b, s));
    }
  }

  /** The older prism composed with an iso: the iso is used as a prism. */
  function ComposePrismIso<S(!new), T(!new), A(!new), B(!new), C(!new), D(!new)>(outer: LPrism<S, T, A, B>, inner: LIso<A, B, C, D>): (r: LPrism<S, T, C, D>)
    ensures forall s: S :: r.tryGet(s) == outer.tryGet(s).MapRight(inner.get)
    ensures forall d: D :: r.reverseGet(d) == outer.reverseGet(inner.reverseGet(d))
  {
    ComposePrisms(outer, inner.AsLPrism())
  }

  /** The older prism-then-iso composition, built on the older `bimap`
      prism composition, agrees with the current one, built on the `map`
      form: the two revisions give the same prism, pointwise. */
  lemma ComposePrismIsoRevisionsAgree<S(!new), T(!new), A(!new), B(!new), C(!new), D(!new)>(outer: LPrism<S, T, A, B>, inner: LIso<A, B, C, D>, s: S, d: D)
    ensures ComposePrismIso(outer, inner).tryGet(s) == Composition.ComposePrismIso(outer, inner).tryGet(s)
    ensures ComposePrismIso(outer, inner).reverseGet(d) == Composition.ComposePrismIso(outer, inner).reverseGet(d)
  {
  }
}
