/** Isos: lossless two-way conversions, which are at once lenses and prisms
    (Source/Iso.swift). */
module Isos {
  import opened Base
  import opened Setters
  import opened Getters
  import opened Lenses
  import opened Prisms

  /** `get` converts an `S` into an `A`; `reverseGet` converts a `B` back into a `T`. */
  datatype LIso<!S(!new), T(!new), A(!new), !B(!new)> = LIso(get: S -> A, reverseGet: B -> T) {

    /** An iso always matches. */
    function TryGet(x: S): (r: Either<T, A>)
      ensures r.Right? && r.right == get(x)
    {
      Either.Right(get(x))
    }

    /** The prism-derived `modify`, run on the always-matching `TryGet`. */
    function Modify(x: S, f: A -> B): (r: T)
      ensures r == reverseGet(f(get(x)))
    {
      AsLPrism().Modify(x, f)
    }

    /** The setter-derived `set`: the old structure plays no part. */
    function Set(y: B, x: S): (r: T)
      ensures r == reverseGet(y)
    {
      Modify(x, Const(y))
    }

    /** Converts the two halves of a pair, each with its own iso. */
    function Split<S1(!new), T1(!new), A1(!new), B1(!new)>(other: LIso<S1, T1, A1, B1>): (r: LIso<(S, S1), (T, T1), (A, A1), (B, B1)>)
      ensures forall p: (S, S1) :: r.get(p) == (get(p.0), other.get(p.1))
      ensures forall q: (B, B1) :: r.reverseGet(q) == (reverseGet(q.0), other.reverseGet(q.1))
    {
      LIso((p: (S, S1)) => (get(p.0), other.get(p.1)),
           (q: (B, B1)) => (reverseGet(q.0), other.reverseGet(q.1)))
    }

    /** Converts the first slot of a pair, both ways, and keeps the second. */
    function First<X(!new)>(): (r: LIso<(S, X), (T, X), (A, X), (B, X)>)
      ensures forall p: (S, X) :: r.get(p) == (get(p.0), p.1)
      ensures forall q: (B, X) :: r.reverseGet(q) == (reverseGet(q.0), q.1)
    {
      LIso((p: (S, X)) => (get(p.0), p.1), (q: (B, X)) => (reverseGet(q.0), q.1))
    }

    /** Converts the second slot of a pair, both ways, and keeps the first. */
    function Second<X(!new)>(): (r: LIso<(X, S), (X, T), (X, A), (X, B)>)
      ensures forall p: (X, S) :: r.get(p) == (p.0, get(p.1))
      ensures forall q: (X, B) :: r.reverseGet(q) == (q.0, reverseGet(q.1))
    {
      LIso((p: (X, S)) => (p.0, get(p.1)), (q: (X, B)) => (q.0, reverseGet(q.1)))
    }

    /** Converts the `Left` case of a sum, both ways, and passes `Right` through. */
    function Left<X(!new)>(): (r: LIso<Either<S, X>, Either<T, X>, Either<A, X>, Either<B, X>>)
      ensures forall s: S :: r.get(Either.Left(s)) == Either.Left(get(s))
      ensures forall x: X :: r.get(Either.Right(x)) == Either.Right(x)
      ensures forall b: B :: r.reverseGet(Either.Left(b)) == Either.Left(reverseGet(b))
      ensures forall x: X :: r.reverseGet(Either.Right(x)) == Either.Right(x)
    {
      LIso((e: Either<S, X>) => e.MapLeft(get), (e: Either<B, X>) => e.MapLeft(reverseGet))
    }

    /** Converts the `Right` case of a sum, both ways, and passes `Left` through. */
    function Right<X(!new)>(): (r: LIso<Either<X, S>, Either<X, T>, Either<X, A>, Either<X, B>>)
      ensures forall x: X :: r.get(Either.Left(x)) == Either.Left(x)
      ensures forall s: S :: r.get(Either.Right(s)) == Either.Right(get(s))
      ensures forall x: X :: r.reverseGet(Either.Left(x)) == Either.Left(x)
      ensures forall b: B :: r.reverseGet(Either.Right(b)) == Either.Right(reverseGet(b))
    {
      LIso((e: Either<X, S>) => e.MapRight(get), (e: Either<X, B>) => e.MapRight(reverseGet))
    }

    /** `asLIso` and `asIso`: the same iso, rebuilt from its operations. */
    function AsLIso(): (r: LIso<S, T, A, B>)
      ensures forall x: S :: r.get(x) == get(x)
      ensures forall b: B :: r.reverseGet(b) == reverseGet(b)
    {
      LIso((x: S) => get(x), (b: B) => reverseGet(b))
    }

    /** `asLLens` and `asLens`: reads with `get`; writing ignores the old
        structure and converts the new focus back. */
    function AsLLens(): (r: LLens<S, T, A, B>)
      ensures forall x: S :: r.get(x) == get(x)
      ensures forall y: B, x: S :: r.put(y, x) == reverseGet(y)
      ensures forall x: S, f: A -> B :: r.Modify(x, f) == Modify(x, f)
    {
      LLens((x: S) => get(x), (y: B, x: S) => Set(y, x))
    }

    /** `asLPrism` and `asPrism`: a prism that always matches. */
    function AsLPrism(): (r: LPrism<S, T, A, B>)
      ensures forall x: S :: r.tryGet(x) == Either.Right(get(x))
      ensures forall b: B :: r.reverseGet(b) == reverseGet(b)
    {
      LPrism((x: S) => TryGet(x), (b: B) => reverseGet(b))
    }

    /** `asLSetter` and `asSetter`: converts, transforms, converts back. */
    function AsLSetter(): (r: LSetter<S, T, A, B>)
      ensures forall x: S, f: A -> B :: r.update(x, f) == reverseGet(f(get(x)))
    {
      LSetter((x: S, f: A -> B) => Modify(x, f))
    }

    /** `asGetter`: the forward conversion alone. */
    function AsGetter(): (r: Getter<S, A>)
      ensures forall x: S :: r.get(x) == get(x)
    {
      Getter((x: S) => get(x))
    }

    /** `reverse`: the same pair of conversions with their roles swapped. */
    function Reverse(): (r: LIso<B, A, T, S>)
      ensures forall b: B :: r.get(b) == reverseGet(b)
      ensures forall s: S :: r.reverseGet(s) == get(s)
    {
      LIso(reverseGet, get)
    }
  }

  /** The simple form, where the structure and the focus keep their types. */
  type Iso<!S(!new), !A(!new)> = LIso<S, S, A, A>

  /** The iso laws: the two conversions undo each other. */
  ghost predicate IsoLaws<S(!new), A(!new)>(i: Iso<S, A>) {
    && (forall s :: i.reverseGet(i.get(s)) == s)
    && (forall a :: i.get(i.reverseGet(a)) == a)
  }

  /** An iso built from an inverse pair, as the tests build it, round-trips
      both ways and modifies with the identity to the identity. */
  lemma InversePairIsoLaws<S(!new), A(!new)>(to: S -> A, from: A -> S, s: S, a: A)
    requires forall s: S :: from(to(s)) == s
    requires forall a: A :: to(from(a)) == a
    ensures LIso(to, from).get(LIso(to, from).reverseGet(a)) == a
    ensures LIso(to, from).reverseGet(LIso(to, from).get(s)) == s
    ensures LIso(to, from).Modify(s, Id) == s
  {
  }

  /** Reversing twice gives back the very same iso. */
  lemma ReverseReverse<S(!new), T(!new), A(!new), B(!new)>(i: LIso<S, T, A, B>)
    ensures i.Reverse().Reverse() == i
  {
  }

  /** The reverse of a lawful iso is lawful, and its `modify` converts the
      other way. */
  lemma ReverseLawful<S(!new), A(!new)>(i: Iso<S, A>)
    requires IsoLaws(i)
    ensures IsoLaws(i.Reverse())
    ensures forall a: A, f: S -> S :: i.Reverse().Modify(a, f) == i.get(f(i.reverseGet(a)))
  {
  }

  /** A lawful iso seen as a lens is a lawful lens. */
  lemma AsLLensLawful<S(!new), A(!new)>(i: Iso<S, A>)
    requires IsoLaws(i)
    ensures LensLaws(i.AsLLens())
  {
  }

  /** A lawful iso seen as a prism is a lawful prism. */
  lemma AsLPrismLawful<S(!new), A(!new)>(i: Iso<S, A>)
    requires IsoLaws(i)
    ensures PrismLaws(i.AsLPrism())
  {
  }

  /** A lawful iso seen as a setter is a lawful setter. */
  lemma {:induction false} AsLSetterLawful<S(!new), A(!new)>(i: Iso<S, A>)
    requires IsoLaws(i)
    ensures SetterLaws(i.AsLSetter())
  {
    var st := i.AsLSetter();
    forall x, f: A -> A, g: A -> A
      ensures st.update(st.update(x, g), f) == st.update(x, After(f, g))
    {
      assert i.get(i.reverseGet(g(i.get(x)))) == g(i.get(x));
    }
  }

  /** Splitting two lawful isos gives a lawful iso on pairs. */
  lemma SplitLawful<S(!new), A(!new), S1(!new), A1(!new)>(i: Iso<S, A>, other: Iso<S1, A1>)
    requires IsoLaws(i) && IsoLaws(other)
    ensures IsoLaws(i.Split(other))
  {
  }

  /** `first` of a lawful iso is lawful. */
  lemma FirstLawful<S(!new), A(!new), X(!new)>(i: Iso<S, A>)
    requires IsoLaws(i)
    ensures IsoLaws(i.First<X>())
  {
  }

  /** `second` of a lawful iso is lawful. */
  lemma SecondLawful<S(!new), A(!new), X(!new)>(i: Iso<S, A>)
    requires IsoLaws(i)
    ensures IsoLaws(i.Second<X>())
  {
  }

  /** `left` of a lawful iso is lawful. */
  lemma LeftLawful<S(!new), A(!new), X(!new)>(i: Iso<S, A>)
    requires IsoLaws(i)
    ensures IsoLaws(i.Left<X>())
  {
  }

  /** `right` of a lawful iso is lawful. */
  lemma RightLawful<S(!new), A(!new), X(!new)>(i: Iso<S, A>)
    requires IsoLaws(i)
    ensures IsoLaws(i.Right<X>())
  {
  }
}
