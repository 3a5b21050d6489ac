/** Prisms: optics on a part that may be absent (Source/Prism.swift). */
module Prisms {
  import opened Base
  import opened Setters
  import opened Getters

  /** `tryGet` either finds the focus (`Right`) or gives back the structure
      rebuilt without one (`Left`); `reverseGet` builds a structure from a
      new focus. */
  datatype LPrism<!S(!new), T(!new), A(!new), !B(!new)> = LPrism(tryGet: S -> Either<T, A>, reverseGet: B -> T) {

    /** Transforms the focus if there is one: `tryGet(x).either(id, reverseGet • f)`. */
    function Modify(x: S, f: A -> B): (r: T)
      ensures tryGet(x).Left? ==> r == tryGet(x).left
      ensures tryGet(x).Right? ==> r == reverseGet(f(tryGet(x).right))
    {
      tryGet(x).Fold(Id, After(reverseGet, f))
    }

    /** `set(_:to:)`, derived from `Modify` with a constant function: on a miss
        the structure comes back as `tryGet` rebuilt it, not as `reverseGet(y)`. */
    function Set(y: B, x: S): (r: T)
      ensures tryGet(x).Left? ==> r == tryGet(x).left
      ensures tryGet(x).Right? ==> r == reverseGet(y)
    {
      Modify(x, Const(y))
    }

    /** `re`: the getter that runs the prism backwards. */
    function Re(): (r: Getter<B, T>)
      ensures forall b: B :: r.get(b) == reverseGet(b)
    {
      Getter(reverseGet)
    }

    /** Focuses on the first slot of a pair; the second slot `x` rides along
        untouched on both outcomes and through `reverseGet`. */
    function First<X(!new)>(): (r: LPrism<(S, X), (T, X), (A, X), (B, X)>)
      ensures forall p: (S, X) :: tryGet(p.0).Left? ==> r.tryGet(p) == Either.Left((tryGet(p.0).left, p.1))
      ensures forall p: (S, X) :: tryGet(p.0).Right? ==> r.tryGet(p) == Either.Right((tryGet(p.0).right, p.1))
      ensures forall q: (B, X) :: r.reverseGet(q) == (reverseGet(q.0), q.1)
    {
      LPrism((p: (S, X)) => tryGet(p.0).Bimap((t: T) => (t, p.1), (a: A) => (a, p.1)),
             (q: (B, X)) => (reverseGet(q.0), q.1))
    }

    /** Focuses on the second slot of a pair, the mirror image of `First`. */
    function Second<X(!new)>(): (r: LPrism<(X, S), (X, T), (X, A), (X, B)>)
      ensures forall p: (X, S) :: tryGet(p.1).Left? ==> r.tryGet(p) == Either.Left((p.0, tryGet(p.1).left))
      ensures forall p: (X, S) :: tryGet(p.1).Right? ==> r.tryGet(p) == Either.Right((p.0, tryGet(p.1).right))
      ensures forall q: (X, B) :: r.reverseGet(q) == (q.0, reverseGet(q.1))
    {
      LPrism((p: (X, S)) => tryGet(p.1).Bimap((t: T) => (p.0, t), (a: A) => (p.0, a)),
             (q: (X, B)) => (q.0, reverseGet(q.1)))
    }

    /** Acts on the `Left` case of a sum.  A `Left(s)` is looked into with this
        prism, both outcomes wrapped in `Left`; a `Right(x)` is a match whose
        focus is `Right(x)` itself. */
    function Left<X(!new)>(): (r: LPrism<Either<S, X>, Either<T, X>, Either<A, X>, Either<B, X>>)
      ensures forall s: S :: tryGet(s).Left? ==> r.tryGet(Either.Left(s)) == Either.Left(Either.Left(tryGet(s).left))
      ensures forall s: S :: tryGet(s).Right? ==> r.tryGet(Either.Left(s)) == Either.Right(Either.Left(tryGet(s).right))
      ensures forall x: X :: r.tryGet(Either.Right(x)) == Either.Right(Either.Right(x))
      ensures forall b: B :: r.reverseGet(Either.Left(b)) == Either.Left(reverseGet(b))
      ensures forall x: X :: r.reverseGet(Either.Right(x)) == Either.Right(x)
    {
      LPrism((e: Either<S, X>) => e.Fold(
                (s: S) => tryGet(s).Bimap((t: T) => Either.Left(t), (a: A) => Either.Left(a)),
                (x: X) => Either.Right(Either.Right(x))),
             (e: Either<B, X>) => e.MapLeft(reverseGet))
    }

    /** The match of `right` on a `Right(s)`: `tryGet(s)` with both outcomes
        wrapped in `Right`. */
    function TryGetRight<X(!new)>(s: S): (r: Either<Either<X, T>, Either<X, A>>)
      ensures tryGet(s).Left? ==> r == Either.Left(Either<X, T>.Right(tryGet(s).left))
      ensures tryGet(s).Right? ==> r == Either.Right(Either<X, A>.Right(tryGet(s).right))
    {
      tryGet(s).Bimap((t: T) => Either<X, T>.Right(t), (a: A) => Either<X, A>.Right(a))
    }

    /** Acts on the `Right` case of a sum, as written in the source: a
        `Right(s)` is looked into with this prism, both outcomes wrapped in
        `Right`, but a `Left(x)` is reported as NO match, `Left(Left(x))`,
        unlike `Left`, where the passed-through case is a match. */
    function Right<X(!new)>(): (r: LPrism<Either<X, S>, Either<X, T>, Either<X, A>, Either<X, B>>)
      ensures forall x: X :: r.tryGet(Either.Left(x)) == Either.Left(Either.Left(x))
      ensures forall s: S :: tryGet(s).Right? ==> r.tryGet(Either.Right(s)) == Either.Right(Either.Right(tryGet(s).right))
      ensures forall s: S :: tryGet(s).Left? ==> r.tryGet(Either.Right(s)) == Either.Left(Either.Right(tryGet(s).left))
      ensures forall x: X :: r.reverseGet(Either.Left(x)) == Either.Left(x)
      ensures forall b: B :: r.reverseGet(Either.Right(b)) == Either.Right(reverseGet(b))
    {
      LPrism((e: Either<X, S>) => e.Fold(
                (x: X) => Either.Left(Either.Left(x)),
                (s: S) => TryGetRight<X>(s)),
             (e: Either<X, B>) => e.MapRight(reverseGet))
    }

    /** The match of `left` on a `Left(s)`: `tryGet(s)` with both outcomes
        wrapped in `Left`. */
    function TryGetLeft<X(!new)>(s: S): (r: Either<Either<T, X>, Either<A, X>>)
      ensures tryGet(s).Left? ==> r == Either.Left(Either<T, X>.Left(tryGet(s).left))
      ensures tryGet(s).Right? ==> r == Either.Right(Either<A, X>.Left(tryGet(s).right))
    {
      tryGet(s).Bimap((t: T) => Either<T, X>.Left(t), (a: A) => Either<A, X>.Left(a))
    }

    /** `Left` written with the convention of `Right`: a `Right(x)` that this
        prism does not look into is the miss `Left(Right(x))`. */
    function LeftAsMiss<X(!new)>(): (r: LPrism<Either<S, X>, Either<T, X>, Either<A, X>, Either<B, X>>)
      ensures forall s: S :: tryGet(s).Left? ==> r.tryGet(Either<S, X>.Left(s)) == Either.Left(Either.Left(tryGet(s).left))
      ensures forall s: S :: tryGet(s).Right? ==> r.tryGet(Either<S, X>.Left(s)) == Either.Right(Either.Left(tryGet(s).right))
      ensures forall x: X :: r.tryGet(Either.Right(x)) == Either<Either<T, X>, Either<A, X>>.Left(Either<T, X>.Right(x))
      ensures forall b: B :: r.reverseGet(Either<B, X>.Left(b)) == Either.Left(reverseGet(b))
      ensures forall x: X :: r.reverseGet(Either.Right(x)) == Either<T, X>.Right(x)
    {
      LPrism((e: Either<S, X>) => e.Fold(
                (s: S) => TryGetLeft<X>(s),
                (x: X) => Either<Either<T, X>, Either<A, X>>.Left(Either<T, X>.Right(x))),
             (e: Either<B, X>) => e.MapLeft(reverseGet))
    }

    /** `Right` written with the convention of `Left`: a `Left(x)` is a match
        whose focus is `Left(x)` itself. */
    function RightMirrored<X(!new)>(): (r: LPrism<Either<X, S>, Either<X, T>, Either<X, A>, Either<X, B>>)
      ensures forall x: X :: r.tryGet(Either.Left(x)) == Either.Right(Either.Left(x))
      ensures forall s: S :: tryGet(s).Right? ==> r.tryGet(Either.Right(s)) == Either.Right(Either.Right(tryGet(s).right))
      ensures forall s: S :: tryGet(s).Left? ==> r.tryGet(Either.Right(s)) == Either.Left(Either.Right(tryGet(s).left))
      ensures forall x: X :: r.reverseGet(Either.Left(x)) == Either.Left(x)
      ensures forall b: B :: r.reverseGet(Either.Right(b)) == Either.Right(reverseGet(b))
    {
      LPrism((e: Either<X, S>) => e.Fold(
                (x: X) => Either.Right(Either.Left(x)),
                (s: S) => TryGetRight<X>(s)),
             (e: Either<X, B>) => e.MapRight(reverseGet))
    }

    /** `asLSetter` and `asSetter`: the prism seen as a setter. */
    function AsLSetter(): (r: LSetter<S, T, A, B>)
      ensures forall x: S, f: A -> B :: r.update(x, f) == Modify(x, f)
      ensures forall x: S, f: A -> B :: tryGet(x).Left? ==> r.update(x, f) == tryGet(x).left
    {
      LSetter((x: S, f: A -> B) => Modify(x, f))
    }

    /** `asLPrism` and `asPrism`: the same prism, rebuilt from its operations. */
    function AsLPrism(): (r: LPrism<S, T, A, B>)
      ensures forall x: S :: r.tryGet(x) == tryGet(x)
      ensures forall b: B :: r.reverseGet(b) == reverseGet(b)
      ensures forall x: S, f: A -> B :: r.Modify(x, f) == Modify(x, f)
    {
      LPrism((x: S) => tryGet(x), (b: B) => reverseGet(b))
    }
  }

  /** The simple form, where the structure and the focus keep their types. */
  type Prism<!S(!new), !A(!new)> = LPrism<S, S, A, A>

  /** The convenience constructor `prism(tryGet:reverseGet:)` from an optional
      match: no match gives back the source itself. */
  function FromOptional<S(!new), A(!new), B(!new)>(tryGet: S -> Option<A>, reverseGet: B -> S): (r: LPrism<S, S, A, B>)
    ensures forall s: S :: tryGet(s).None? ==> r.tryGet(s) == Left(s)
    ensures forall s: S :: tryGet(s).Some? ==> r.tryGet(s) == Right(tryGet(s).value)
    ensures forall b: B :: r.reverseGet(b) == reverseGet(b)
  {
    LPrism((s: S) => if tryGet(s).Some? then Right(tryGet(s).value) else Left(s), reverseGet)
  }

  /** A miss hands back the structure unchanged. */
  ghost predicate MissKeepsSource<S(!new), A(!new)>(p: Prism<S, A>) {
    forall s :: p.tryGet(s).Left? ==> p.tryGet(s).left == s
  }

  /** A hit determines the structure: building it back from the focus gives
      the structure that was looked into. */
  ghost predicate HitRebuildsSource<S(!new), A(!new)>(p: Prism<S, A>) {
    forall s :: p.tryGet(s).Right? ==> p.reverseGet(p.tryGet(s).right) == s
  }

  /** The prism laws: a miss keeps the structure, a hit rebuilds it, and what
      `reverseGet` builds is matched with the focus it was built from. */
  ghost predicate PrismLaws<S(!new), A(!new)>(p: Prism<S, A>) {
    && MissKeepsSource(p)
    && HitRebuildsSource(p)
    && (forall a :: p.tryGet(p.reverseGet(a)) == Right(a))
  }

  /** Right identity, as the tests state it: when a hit rebuilds its
      structure, modifying a hit with the identity gives the structure back;
      a miss gives the structure `tryGet` reported. */
  lemma RightIdentity<S(!new), A(!new)>(p: Prism<S, A>, s: S)
    requires HitRebuildsSource(p)
    ensures p.tryGet(s).Right? ==> p.Modify(s, Id) == s
    ensures p.tryGet(s).Left? ==> p.Modify(s, Id) == p.tryGet(s).left
  {
  }

  /** For a lawful prism, modifying with the identity changes nothing, on a
      hit and on a miss. */
  lemma ModifyIdentity<S(!new), A(!new)>(p: Prism<S, A>, s: S)
    requires PrismLaws(p)
    ensures p.Modify(s, Id) == s
  {
  }

  /** Modifying a structure that `re` built from a focus, through a lawful
      prism, is building it from the modified focus. */
  lemma ReThenModify<S(!new), A(!new)>(p: Prism<S, A>, a: A, f: A -> A)
    requires PrismLaws(p)
    ensures p.Modify(p.Re().get(a), f) == p.Re().get(f(a))
  {
  }

  /** The optional constructor keeps the source on a miss, for any match
      function; it is lawful when the match function and `reverseGet` are a
      partial inverse pair. */
  lemma FromOptionalLawful<S(!new), A(!new)>(tryGet: S -> Option<A>, reverseGet: A -> S)
    ensures MissKeepsSource(FromOptional(tryGet, reverseGet))
    ensures (forall a: A :: tryGet(reverseGet(a)) == Some(a))
         && (forall s: S :: tryGet(s).Some? ==> reverseGet(tryGet(s).value) == s)
        ==> PrismLaws(FromOptional(tryGet, reverseGet))
  {
  }

  /** The setter of a lawful prism is a lawful setter. */
  lemma {:induction false} AsLSetterLawful<S(!new), A(!new)>(p: Prism<S, A>)
    requires PrismLaws(p)
    ensures SetterLaws(p.AsLSetter())
  {
    var st := p.AsLSetter();
    forall x, f: A -> A, g: A -> A
      ensures st.update(st.update(x, g), f) == st.update(x, After(f, g))
    {
      if p.tryGet(x).Right? {
        var a := p.tryGet(x).right;
        assert p.tryGet(p.reverseGet(g(a))) == Right(g(a));
      }
    }
  }

  /** `first` of a lawful prism is lawful. */
  lemma FirstLawful<S(!new), A(!new), X(!new)>(p: Prism<S, A>)
    requires PrismLaws(p)
    ensures PrismLaws(p.First<X>())
  {
  }

  /** `second` of a lawful prism is lawful. */
  lemma SecondLawful<S(!new), A(!new), X(!new)>(p: Prism<S, A>)
    requires PrismLaws(p)
    ensures PrismLaws(p.Second<X>())
  {
  }

  /** `left` of a lawful prism is lawful. */
  lemma LeftLawful<S(!new), A(!new), X(!new)>(p: Prism<S, A>)
    requires PrismLaws(p)
    ensures PrismLaws(p.Left<X>())
  {
  }

  /** The two sum combinators as written treat the case they pass through
      differently: `left` reports it as a hit, `right` as a miss. */
  lemma LeftRightAsymmetric<S(!new), A(!new), X(!new)>(p: Prism<S, A>, x: X)
    ensures p.Left<X>().tryGet(Either.Right(x)) == Either.Right(Either.Right(x))
    ensures p.Right<X>().tryGet(Either.Left(x)) == Either.Left(Either.Left(x))
  {
  }

  /** `right` as written breaks the third law for every prism: a structure
      `Left(x)` built by `reverseGet` is not matched again. */
  lemma RightMissesWhatItBuilds<S(!new), A(!new), X(!new)>(p: Prism<S, A>, x: X)
    ensures p.Right<X>().tryGet(p.Right<X>().reverseGet(Either.Left(x))) == Either.Left(Either.Left(x))
    ensures !PrismLaws(p.Right<X>())
  {
  }

  /** Of the prism laws, `right` as written breaks only the round trip on a
      `Left` focus: for a lawful prism it keeps the miss and hit laws, the
      identity law of `modify`, and the round trip of every `Right` focus. */
  lemma RightKeepsMissAndHit<S(!new), A(!new), X(!new)>(p: Prism<S, A>)
    requires PrismLaws(p)
    ensures MissKeepsSource(p.Right<X>())
    ensures HitRebuildsSource(p.Right<X>())
    ensures forall e: Either<X, S> :: p.Right<X>().Modify(e, Id) == e
    ensures forall a: A :: p.Right<X>().tryGet(p.Right<X>().reverseGet(Either.Right(a))) == Either.Right(Either.Right(a))
  {
  }

  /** `left` with the miss convention of `right` keeps, for a lawful prism,
      the miss and hit laws and the identity law of `modify`; like `right` it
      does not match again a `Right(x)` that `reverseGet` built. */
  lemma LeftAsMissKeeps<S(!new), A(!new), X(!new)>(p: Prism<S, A>)
    requires PrismLaws(p)
    ensures MissKeepsSource(p.LeftAsMiss<X>())
    ensures HitRebuildsSource(p.LeftAsMiss<X>())
    ensures forall e: Either<S, X> :: p.LeftAsMiss<X>().Modify(e, Id) == e
    ensures forall a: A :: p.LeftAsMiss<X>().tryGet(p.LeftAsMiss<X>().reverseGet(Either.Left(a))) == Either.Right(Either.Left(a))
    ensures forall x: X :: p.LeftAsMiss<X>().tryGet(p.LeftAsMiss<X>().reverseGet(Either.Right(x))) == Either<Either<S, X>, Either<A, X>>.Left(Either<S, X>.Right(x))
  {
  }

  /** The mirrored `right` of a lawful prism is lawful. */
  lemma RightMirroredLawful<S(!new), A(!new), X(!new)>(p: Prism<S, A>)
    requires PrismLaws(p)
    ensures PrismLaws(p.RightMirrored<X>())
  {
  }

  /** Rebuilding a lawful prism keeps it lawful. */
  lemma AsLPrismLawful<S(!new), A(!new)>(p: Prism<S, A>)
    requires PrismLaws(p)
    ensures PrismLaws(p.AsLPrism())
  {
  }
}
