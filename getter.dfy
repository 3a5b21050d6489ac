/** Getters: read-only optics (Source/Getter.swift). */
module Getters {
  import opened Base

  /** Reads an `A` out of an `S`. */
  datatype Getter<!S(!new), A(!new)> = Getter(get: S -> A) {

    /** Reads the two halves of a pair, each with its own getter, independently. */
    function Split<S1(!new), A1(!new)>(other: Getter<S1, A1>): (r: Getter<(S, S1), (A, A1)>)
      ensures forall s: S, s1: S1 :: r.get((s, s1)).0 == get(s) && r.get((s, s1)).1 == other.get(s1)
    {
      Getter((p: (S, S1)) => (get(p.0), other.get(p.1)))
    }

    /** Reads either case of a sum, each case with its own getter, into the
        common target. */
    function Choice<S1(!new)>(other: Getter<S1, A>): (r: Getter<Either<S, S1>, A>)
      ensures forall s: S :: r.get(Either.Left(s)) == get(s)
      ensures forall s1: S1 :: r.get(Either.Right(s1)) == other.get(s1)
    {
      Getter((e: Either<S, S1>) => e.Fold(get, other.get))
    }

    /** Reads the first slot of a pair and hands the second one back untouched. */
    function First<X(!new)>(): (r: Getter<(S, X), (A, X)>)
      ensures forall s: S, x: X :: r.get((s, x)).0 == get(s)
      ensures forall s: S, x: X :: r.get((s, x)).1 == x
    {
      Getter((p: (S, X)) => (get(p.0), p.1))
    }

    /** Reads the second slot of a pair and hands the first one back untouched. */
    function Second<X(!new)>(): (r: Getter<(X, S), (X, A)>)
      ensures forall x: X, s: S :: r.get((x, s)).0 == x
      ensures forall x: X, s: S :: r.get((x, s)).1 == get(s)
    {
      Getter((p: (X, S)) => (p.0, get(p.1)))
    }

    /** Reads a `Left` and passes a `Right` through. */
    function Left<X(!new)>(): (r: Getter<Either<S, X>, Either<A, X>>)
      ensures forall s: S :: r.get(Either.Left(s)) == Either.Left(get(s))
      ensures forall x: X :: r.get(Either.Right(x)) == Either.Right(x)
    {
      Getter((e: Either<S, X>) => e.MapLeft(get))
    }

    /** Reads a `Right` and passes a `Left` through. */
    function Right<X(!new)>(): (r: Getter<Either<X, S>, Either<X, A>>)
      ensures forall x: X :: r.get(Either.Left(x)) == Either.Left(x)
      ensures forall s: S :: r.get(Either.Right(s)) == Either.Right(get(s))
    {
      Getter((e: Either<X, S>) => e.MapRight(get))
    }
  }

  /** `first` is `split` with the getter that reads nothing out of the second
      slot but the slot itself. */
  lemma FirstIsSplitWithIdentity<S(!new), A(!new), X(!new)>(g: Getter<S, A>, p: (S, X))
    ensures g.First<X>().get(p) == g.Split(Getter(Id<X>)).get(p)
  {
  }

  /** `second` is the identity getter split with this one. */
  lemma SecondIsIdentitySplit<S(!new), A(!new), X(!new)>(g: Getter<S, A>, p: (X, S))
    ensures g.Second<X>().get(p) == Getter(Id<X>).Split(g).get(p)
  {
  }
}
