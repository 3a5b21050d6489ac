/** Composition of optics (Source/Composition.swift).  `outer` focuses on an
    `A` inside an `S`; `inner` focuses on a `C` inside that `A`.  The result
    is of the weaker kind of the two; a mixed pair first weakens one side
    with its `as...` conversion.  Each `>>>` operator is the `compose` of the
    same operand kinds, so one function stands for both. */
module Composition {
  import opened Base
  import opened Setters
  import opened Getters
  import opened Lenses
  import opened Prisms
  import opened Isos

  // ---------------------------------------------------------------- Getter

  /** Getter after getter: read the outer focus, then the inner one. */
  function ComposeGetters<S(!new), A(!new), C(!new)>(outer: Getter<S, A>, inner: Getter<A, C>): (r: Getter<S, C>)
    ensures forall s: S :: r.get(s) == inner.get(outer.get(s))
  {
    Getter(After(inner.get, outer.get))
  }

  /** Getter then lens: the lens is used as a getter. */
  function ComposeGetterLens<S(!new), A(!new), B(!new), C(!new), D(!new)>(outer: Getter<S, A>, inner: LLens<A, B, C, D>): (r: Getter<S, C>)
    ensures forall s: S :: r.get(s) == inner.get(outer.get(s))
  {
    ComposeGetters(outer, inner.AsGetter())
  }

  /** Getter then iso: the iso is used as a getter. */
  function ComposeGetterIso<S(!new), A(!new), B(!new), C(!new), D(!new)>(outer: Getter<S, A>, inner: LIso<A, B, C, D>): (r: Getter<S, C>)
    ensures forall s: S :: r.get(s) == inner.get(outer.get(s))
  {
    ComposeGetters(outer, inner.AsGetter())
  }

  // ---------------------------------------------------------------- Setter

  /** Setter after setter: transform the outer focus by transforming its
      inner focus. */
  function ComposeSetters<S(!new), T(!new), A(!new), B(!new), C(!new), D(!new)>(outer: LSetter<S, T, A, B>, inner: LSetter<A, B, C, D>): (r: LSetter<S, T, C, D>)
    ensures forall s: S, f: C -> D :: r.update(s, f) == outer.update(s, (a: A) => inner.update(a, f))
  {
    LSetter((s: S, f: C -> D) => outer.update(s, (a: A) => inner.update(a, f)))
  }

  /** Setter then lens: the lens is used as a setter. */
  function ComposeSetterLens<S(!new), T(!new), A(!new), B(!new), C(!new), D(!new)>(outer: LSetter<S, T, A, B>, inner: LLens<A, B, C, D>): (r: LSetter<S, T, C, D>)
    ensures Congruent(outer) ==>
      forall s: S, f: C -> D :: r.update(s, f) == outer.update(s, (a: A) => inner.put(f(inner.get(a)), a))
  {
    ComposeSetters(outer, inner.AsLSetter())
  }

  /** Setter then prism: the prism is used as a setter. */
  function ComposeSetterPrism<S(!new), T(!new), A(!new), B(!new), C(!new), D(!new)>(outer: LSetter<S, T, A, B>, inner: LPrism<A, B, C, D>): (r: LSetter<S, T, C, D>)
    ensures Congruent(outer) ==>
      forall s: S, f: C -> D :: r.update(s, f) == outer.update(s, (a: A) => inner.Modify(a, f))
  {
    ComposeSetters(outer, inner.AsLSetter())
  }

  /** Setter then iso: the iso is used as a setter. */
  function ComposeSetterIso<S(!new), T(!new), A(!new), B(!new), C(!new), D(!new)>(outer: LSetter<S, T, A, B>, inner: LIso<A, B, C, D>): (r: LSetter<S, T, C, D>)
    ensures Congruent(outer) ==>
      forall s: S, f: C -> D :: r.update(s, f) == outer.update(s, (a: A) => inner.reverseGet(f(inner.get(a))))
  {
    ComposeSetters(outer, inner.AsLSetter())
  }

  // ----------------------------------------------------------------- Prism

  /** Prism after prism.  A miss of the outer prism is the result's miss; a
      miss `b` of the inner prism is written back into the structure with the
      outer prism's `set`, which on an outer hit is `reverseGet(b)`; an inner
      hit is the result's hit.  `.map` here rewrites the miss: it has to turn
      the inner prism's `B` into the outer prism's `T`. */
  function ComposePrisms<S(!new), T(!new), A(!new), B(!new), C(!new), D(!new)>(outer: LPrism<S, T, A, B>, inner: LPrism<A, B, C, D>): (r: LPrism<S, T, C, D>)
    ensures forall s: S :: outer.tryGet(s).Left? ==> r.tryGet(s) == Left(outer.tryGet(s).left)
    ensures forall s: S :: outer.tryGet(s).Right? && inner.tryGet(outer.tryGet(s).right).Left? ==>
      r.tryGet(s) == Left(outer.reverseGet(inner.tryGet(outer.tryGet(s).right).left))
    ensures forall s: S :: outer.tryGet(s).Right? && inner.tryGet(outer.tryGet(s).right).Right? ==>
      r.tryGet(s) == Right(inner.tryGet(outer.tryGet(s).right).right)
    ensures forall d: D :: r.reverseGet(d) == outer.reverseGet(inner.reverseGet(d))
  {
    LPrism((s: S) => outer.tryGet(s).FlatMap((a: A) => inner.tryGet(a).MapLeft((b: B) => outer.Set(b, s))),
           After(outer.reverseGet, inner.reverseGet))
  }

  /** Prism then iso: the iso is used as a prism, so a hit is converted. */
  function ComposePrismIso<S(!new), T(!new), A(!new), B(!new), C(!new), D(!new)>(outer: LPrism<S, T, A, B>, inner: LIso<A, B, C, D>): (r: LPrism<S, T, C, D>)
    ensures forall s: S :: r.tryGet(s) == outer.tryGet(s).MapRight(inner.get)
    ensures forall d: D :: r.reverseGet(d) == outer.reverseGet(inner.reverseGet(d))
  {
    ComposePrisms(outer, inner.AsLPrism())
  }

  /** The cases of a prism's setter composed with a setter, on which
      `ComposePrismSetter` rests. */
  lemma {:induction false} PrismSetterCases<S(!new), T(!new), A(!new), B(!new), C(!new), D(!new)>(outer: LPrism<S, T, A, B>, inner: LSetter<A, B, C, D>)
    ensures forall s: S, f: C -> D :: outer.tryGet(s).Left? ==>
      ComposeSetters(outer.AsLSetter(), inner).update(s, f) == outer.tryGet(s).left
  {
    forall s: S, f: C -> D | outer.tryGet(s).Left?
      ensures ComposeSetters(outer.AsLSetter(), inner).update(s, f) == outer.tryGet(s).left
    {
      var l := (a: A) => inner.update(a, f);
      assert ComposeSetters(outer.AsLSetter(), inner).update(s, f) == outer.AsLSetter().update(s, l);
      assert outer.AsLSetter().update(s, l) == outer.Modify(s, l);
    }
  }

  /** Prism then setter: the prism is used as a setter.  A structure the
      prism misses comes back as the prism rebuilt it; a hit is transformed
      by the setter and rebuilt with `reverseGet`. */
  function ComposePrismSetter<S(!new), T(!new), A(!new), B(!new), C(!new), D(!new)>(outer: LPrism<S, T, A, B>, inner: LSetter<A, B, C, D>): (r: LSetter<S, T, C, D>)
    ensures forall s: S, f: C -> D :: outer.tryGet(s).Right? ==>
      r.update(s, f) == outer.reverseGet(inner.update(outer.tryGet(s).right, f))
    ensures forall s: S, f: C -> D :: outer.tryGet(s).Left? ==> r.update(s, f) == outer.tryGet(s).left
  {
    PrismSetterCases(outer, inner);
    ComposeSetters(outer.AsLSetter(), inner)
  }

  // ------------------------------------------------------------------ Lens

  /** Lens after lens: read through both; write by writing into the outer
      focus the inner lens's update of it. */
  function ComposeLenses<S(!new), T(!new), A(!new), B(!new), C(!new), D(!new)>(outer: LLens<S, T, A, B>, inner: LLens<A, B, C, D>): (r: LLens<S, T, C, D>)
    ensures forall s: S :: r.get(s) == inner.get(outer.get(s))
    ensures forall d: D, s: S :: r.put(d, s) == outer.put(inner.put(d, outer.get(s)), s)
  {
    LLens(After(inner.get, outer.get),
          (d: D, s: S) => outer.Modify(s, (a: A) => inner.put(d, a)))
  }

  /** Lens then iso: the iso is used as a lens, so writing converts back. */
  function ComposeLensIso<S(!new), T(!new), A(!new), B(!new), C(!new), D(!new)>(outer: LLens<S, T, A, B>, inner: LIso<A, B, C, D>): (r: LLens<S, T, C, D>)
    ensures forall s: S :: r.get(s) == inner.get(outer.get(s))
    ensures forall d: D, s: S :: r.put(d, s) == outer.put(inner.reverseGet(d), s)
  {
    ComposeLenses(outer, inner.AsLLens())
  }

  /** Lens then setter: the lens is used as a setter. */
  function ComposeLensSetter<S(!new), T(!new), A(!new), B(!new), C(!new), D(!new)>(outer: LLens<S, T, A, B>, inner: LSetter<A, B, C, D>): (r: LSetter<S, T, C, D>)
    ensures forall s: S, f: C -> D :: r.update(s, f) == outer.put(inner.update(outer.get(s), f), s)
  {
    ComposeSetters(outer.AsLSetter(), inner)
  }

  // ------------------------------------------------------------------- Iso

  /** Iso after iso: `get` converts through both in order, `reverseGet` back
      through both in the opposite order. */
  function ComposeIsos<S(!new), T(!new), A(!new), B(!new), C(!new), D(!new)>(outer: LIso<S, T, A, B>, inner: LIso<A, B, C, D>): (r: LIso<S, T, C, D>)
    ensures forall s: S :: r.get(s) == inner.get(outer.get(s))
    ensures forall d: D :: r.reverseGet(d) == outer.reverseGet(inner.reverseGet(d))
  {
    LIso(After(inner.get, outer.get), After(outer.reverseGet, inner.reverseGet))
  }

  /** Iso then setter: the iso is used as a setter. */
  function ComposeIsoSetter<S(!new), T(!new), A(!new), B(!new), C(!new), D(!new)>(outer: LIso<S, T, A, B>, inner: LSetter<A, B, C, D>): (r: LSetter<S, T, C, D>)
    ensures forall s: S, f: C -> D :: r.update(s, f) == outer.reverseGet(inner.update(outer.get(s), f))
  {
    ComposeSetters(outer.AsLSetter(), inner)
  }

  /** Iso then lens: the iso is used as a lens. */
  function ComposeIsoLens<S(!new), T(!new), A(!new), B(!new), C(!new), D(!new)>(outer: LIso<S, T, A, B>, inner: LLens<A, B, C, D>): (r: LLens<S, T, C, D>)
    ensures forall s: S :: r.get(s) == inner.get(outer.get(s))
    ensures forall d: D, s: S :: r.put(d, s) == outer.reverseGet(inner.put(d, outer.get(s)))
  {
    ComposeLenses(outer.AsLLens(), inner)
  }

  /** Iso then prism: the iso is used as a prism, so a miss is converted back. */
  function ComposeIsoPrism<S(!new), T(!new), A(!new), B(!new), C(!new), D(!new)>(outer: LIso<S, T, A, B>, inner: LPrism<A, B, C, D>): (r: LPrism<S, T, C, D>)
    ensures forall s: S :: r.tryGet(s) == inner.tryGet(outer.get(s)).MapLeft(outer.reverseGet)
    ensures forall d: D :: r.reverseGet(d) == outer.reverseGet(inner.reverseGet(d))
  {
    ComposePrisms(outer.AsLPrism(), inner)
  }

  // ------------------------------------------------------- laws preserved

  /** Composing lawful lenses gives a lawful lens; in particular setting
      through the composite and then getting returns the value set. */
  lemma {:induction false} ComposeLensesLawful<S(!new), A(!new), C(!new)>(outer: Lens<S, A>, inner: Lens<A, C>)
    requires LensLaws(outer) && LensLaws(inner)
    ensures LensLaws(ComposeLenses(outer, inner))
  {
    var r := ComposeLenses(outer, inner);
    forall s
      ensures r.put(r.get(s), s) == s
    {
      var a := outer.get(s);
      assert inner.put(inner.get(a), a) == a;
    }
    forall c, s
      ensures r.get(r.put(c, s)) == c
    {
      var a := outer.get(s);
      assert outer.get(outer.put(inner.put(c, a), s)) == inner.put(c, a);
    }
    forall c1, c2, s
      ensures r.put(c2, r.put(c1, s)) == r.put(c2, s)
    {
      var a := outer.get(s);
      var s1 := outer.put(inner.put(c1, a), s);
      assert outer.get(s1) == inner.put(c1, a);
      assert inner.put(c2, inner.put(c1, a)) == inner.put(c2, a);
      assert outer.put(inner.put(c2, a), s1) == outer.put(inner.put(c2, a), s);
    }
  }

  /** Composing lawful prisms gives a lawful prism. */
  lemma {:induction false} ComposePrismsLawful<S(!new), A(!new), C(!new)>(outer: Prism<S, A>, inner: Prism<A, C>)
    requires PrismLaws(outer) && PrismLaws(inner)
    ensures PrismLaws(ComposePrisms(outer, inner))
  {
    var r := ComposePrisms(outer, inner);
    forall s | r.tryGet(s).Left?
      ensures r.tryGet(s).left == s
    {
      if outer.tryGet(s).Right? {
        var a := outer.tryGet(s).right;
        if inner.tryGet(a).Left? {
          assert inner.tryGet(a).left == a;
        }
      }
    }
    forall s | r.tryGet(s).Right?
      ensures r.reverseGet(r.tryGet(s).right) == s
    {
      var a := outer.tryGet(s).right;
      assert inner.reverseGet(inner.tryGet(a).right) == a;
    }
    forall c
      ensures r.tryGet(r.reverseGet(c)) == Right(c)
    {
      var a := inner.reverseGet(c);
      assert outer.tryGet(outer.reverseGet(a)) == Right(a);
      assert inner.tryGet(a) == Right(c);
    }
  }

  /** Composing lawful isos gives a lawful iso. */
  lemma ComposeIsosLawful<S(!new), A(!new), C(!new)>(outer: Iso<S, A>, inner: Iso<A, C>)
    requires IsoLaws(outer) && IsoLaws(inner)
    ensures IsoLaws(ComposeIsos(outer, inner))
  {
  }

  /** One fusion step of the composite setter: the outer setter's fusion,
      then the inner one's under the outer setter's congruence. */
  lemma {:induction false} ComposeSettersFuse<S(!new), A(!new), C(!new)>(outer: Setter<S, A>, inner: Setter<A, C>, s: S, f: C -> C, g: C -> C)
    requires SetterLaws(outer) && SetterLaws(inner)
    ensures ComposeSetters(outer, inner).update(ComposeSetters(outer, inner).update(s, g), f)
         == ComposeSetters(outer, inner).update(s, After(f, g))
  {
    var lf, lg := (a: A) => inner.update(a, f), (a: A) => inner.update(a, g);
    var lfg := (a: A) => inner.update(a, After(f, g));
    assert outer.update(outer.update(s, lg), lf) == outer.update(s, After(lf, lg));
    assert forall a :: After(lf, lg)(a) == lfg(a);
  }

  /** The composite setter keeps the identity. */
  lemma {:induction false} ComposeSettersIdentity<S(!new), A(!new), C(!new)>(outer: Setter<S, A>, inner: Setter<A, C>, s: S)
    requires SetterLaws(outer) && SetterLaws(inner)
    ensures ComposeSetters(outer, inner).update(s, Id) == s
  {
    var li := (a: A) => inner.update(a, Id);
    assert forall a :: li(a) == Id(a);
    assert outer.update(s, li) == outer.update(s, Id);
  }

  /** Composing lawful setters gives a lawful setter. */
  lemma {:induction false} ComposeSettersLawful<S(!new), A(!new), C(!new)>(outer: Setter<S, A>, inner: Setter<A, C>)
    requires SetterLaws(outer) && SetterLaws(inner)
    ensures SetterLaws(ComposeSetters(outer, inner))
  {
    var r := ComposeSetters(outer, inner);
    forall s, f: C -> C, g: C -> C | forall c :: f(c) == g(c)
      ensures r.update(s, f) == r.update(s, g)
    {
      var lf, lg := (a: A) => inner.update(a, f), (a: A) => inner.update(a, g);
      assert forall a :: lf(a) == lg(a);
    }
    forall s
      ensures r.update(s, Id) == s
    {
      ComposeSettersIdentity(outer, inner, s);
    }
    forall s, f: C -> C, g: C -> C
      ensures r.update(r.update(s, g), f) == r.update(s, After(f, g))
    {
      ComposeSettersFuse(outer, inner, s, f, g);
    }
  }

  /** Composing a lawful lens with a lawful iso gives a lawful lens. */
  lemma {:induction false} ComposeLensIsoLawful<S(!new), A(!new), C(!new)>(outer: Lens<S, A>, inner: Iso<A, C>)
    requires LensLaws(outer) && IsoLaws(inner)
    ensures LensLaws(ComposeLensIso(outer, inner))
  {
    Isos.AsLLensLawful(inner);
    ComposeLensesLawful(outer, inner.AsLLens());
  }

  /** Composing a lawful iso with a lawful prism gives a lawful prism. */
  lemma {:induction false} ComposeIsoPrismLawful<S(!new), A(!new), C(!new)>(outer: Iso<S, A>, inner: Prism<A, C>)
    requires IsoLaws(outer) && PrismLaws(inner)
    ensures PrismLaws(ComposeIsoPrism(outer, inner))
  {
    Isos.AsLPrismLawful(outer);
    ComposePrismsLawful(outer.AsLPrism(), inner);
  }

  // --------------------------------------------------------- associativity

  /** Getter composition is associative. */
  lemma ComposeGettersAssociative<S(!new), A(!new), C(!new), E(!new)>(g1: Getter<S, A>, g2: Getter<A, C>, g3: Getter<C, E>, s: S)
    ensures ComposeGetters(ComposeGetters(g1, g2), g3).get(s) == ComposeGetters(g1, ComposeGetters(g2, g3)).get(s)
  {
  }

  /** Lens composition is associative, for reading and for writing. */
  lemma ComposeLensesAssociative<S(!new), T(!new), A(!new), B(!new), C(!new), D(!new), E(!new), F(!new)>(
    l1: LLens<S, T, A, B>, l2: LLens<A, B, C, D>, l3: LLens<C, D, E, F>, s: S, f: F)
    ensures ComposeLenses(ComposeLenses(l1, l2), l3).get(s) == ComposeLenses(l1, ComposeLenses(l2, l3)).get(s)
    ensures ComposeLenses(ComposeLenses(l1, l2), l3).put(f, s) == ComposeLenses(l1, ComposeLenses(l2, l3)).put(f, s)
  {
  }

  /** Prism composition is associative, for matching and for building. */
  lemma {:induction false} ComposePrismsAssociative<S(!new), T(!new), A(!new), B(!new), C(!new), D(!new), E(!new), F(!new)>(
    p1: LPrism<S, T, A, B>, p2: LPrism<A, B, C, D>, p3: LPrism<C, D, E, F>, s: S, f: F)
    ensures ComposePrisms(ComposePrisms(p1, p2), p3).tryGet(s) == ComposePrisms(p1, ComposePrisms(p2, p3)).tryGet(s)
    ensures ComposePrisms(ComposePrisms(p1, p2), p3).reverseGet(f) == ComposePrisms(p1, ComposePrisms(p2, p3)).reverseGet(f)
  {
    var p12, p23 := ComposePrisms(p1, p2), ComposePrisms(p2, p3);
    if p1.tryGet(s).Right? {
      var a := p1.tryGet(s).right;
      if p2.tryGet(a).Right? {
        var c := p2.tryGet(a).right;
        if p3.tryGet(c).Left? {
          var d := p3.tryGet(c).left;
          assert p12.tryGet(s) == Right(c);
          assert p23.tryGet(a) == Left(p2.reverseGet(d));
        }
      }
    }
  }

  /** Iso composition is associative, both ways. */
  lemma ComposeIsosAssociative<S(!new), T(!new), A(!new), B(!new), C(!new), D(!new), E(!new), F(!new)>(
    i1: LIso<S, T, A, B>, i2: LIso<A, B, C, D>, i3: LIso<C, D, E, F>, s: S, f: F)
    ensures ComposeIsos(ComposeIsos(i1, i2), i3).get(s) == ComposeIsos(i1, ComposeIsos(i2, i3)).get(s)
    ensures ComposeIsos(ComposeIsos(i1, i2), i3).reverseGet(f) == ComposeIsos(i1, ComposeIsos(i2, i3)).reverseGet(f)
  {
  }

  /** Setter composition is associative when the outermost setter only
      depends on the values of the function it is given. */
  lemma {:induction false} ComposeSettersAssociative<S(!new), T(!new), A(!new), B(!new), C(!new), D(!new), E(!new), F(!new)>(
    s1: LSetter<S, T, A, B>, s2: LSetter<A, B, C, D>, s3: LSetter<C, D, E, F>, s: S, f: E -> F)
    requires Congruent(s1)
    ensures ComposeSetters(ComposeSetters(s1, s2), s3).update(s, f) == ComposeSetters(s1, ComposeSetters(s2, s3)).update(s, f)
  {
    var s23 := ComposeSetters(s2, s3);
    var left := (a: A) => s2.update(a, (c: C) => s3.update(c, f));
    var right := (a: A) => s23.update(a, f);
    assert forall a :: left(a) == right(a);
  }

  // ----------------------------------------------- weakening is coherent

  /** Composing two lenses and then using the result as a setter is the same
      as composing their setters. */
  lemma ComposeLensesAsSetter<S(!new), T(!new), A(!new), B(!new), C(!new), D(!new)>(outer: LLens<S, T, A, B>, inner: LLens<A, B, C, D>, s: S, f: C -> D)
    ensures ComposeLenses(outer, inner).AsLSetter().update(s, f) == ComposeSetters(outer.AsLSetter(), inner.AsLSetter()).update(s, f)
  {
  }

  /** Composing two prisms and then using the result as a setter is the same
      as composing their setters. */
  lemma {:induction false} ComposePrismsAsSetter<S(!new), T(!new), A(!new), B(!new), C(!new), D(!new)>(outer: LPrism<S, T, A, B>, inner: LPrism<A, B, C, D>, s: S, f: C -> D)
    ensures ComposePrisms(outer, inner).AsLSetter().update(s, f) == ComposeSetters(outer.AsLSetter(), inner.AsLSetter()).update(s, f)
  {
    if outer.tryGet(s).Right? {
      var a := outer.tryGet(s).right;
      if inner.tryGet(a).Right? {
        assert ComposePrisms(outer, inner).tryGet(s) == Right(inner.tryGet(a).right);
      }
    }
  }

  /** Composing two isos and then using the result as a lens, or as a prism,
      is the same as composing their lenses, or their prisms. */
  lemma ComposeIsosWeaken<S(!new), T(!new), A(!new), B(!new), C(!new), D(!new)>(outer: LIso<S, T, A, B>, inner: LIso<A, B, C, D>, s: S, d: D)
    ensures ComposeIsos(outer, inner).AsLLens().get(s) == ComposeLenses(outer.AsLLens(), inner.AsLLens()).get(s)
    ensures ComposeIsos(outer, inner).AsLLens().put(d, s) == ComposeLenses(outer.AsLLens(), inner.AsLLens()).put(d, s)
    ensures ComposeIsos(outer, inner).AsLPrism().tryGet(s) == ComposePrisms(outer.AsLPrism(), inner.AsLPrism()).tryGet(s)
    ensures ComposeIsos(outer, inner).AsLPrism().reverseGet(d) == ComposePrisms(outer.AsLPrism(), inner.AsLPrism()).reverseGet(d)
  {
  }
}
