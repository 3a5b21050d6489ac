/** Setters: optics that can only transform their focus (Source/Setter.swift). */
module Setters {
  import opened Base

  /** Applies a transformation `A -> B` of a part of an `S`, giving a `T`.
      The stored closure is the source's `modify`; `modify` is a Dafny keyword,
      so the field is called `update`. */
  datatype LSetter<!S(!new), T(!new), !A(!new), !B(!new)> = LSetter(update: (S, A -> B) -> T) {

    /** `set(_:to:)`: replaces the focus by `y`, derived from `modify` with a
        constant function; for a congruent setter, any function that always
        returns `y` gives the same structure. */
    function Set(y: B, x: S): (r: T)
      ensures Congruent(this) ==> forall f: A -> B :: (forall a: A :: f(a) == y) ==> update(x, f) == r
    {
      update(x, Const(y))
    }

    /** Combines two setters on the two cases of a sum; the case of the input
        is the case of the output. */
    function Choice<S1(!new), T1(!new)>(other: LSetter<S1, T1, A, B>): (r: LSetter<Either<S, S1>, Either<T, T1>, A, B>)
      ensures forall s: S, f: A -> B :: r.update(Left(s), f) == Left(update(s, f))
      ensures forall s1: S1, f: A -> B :: r.update(Right(s1), f) == Right(other.update(s1, f))
    {
      LSetter((e: Either<S, S1>, f: A -> B) =>
        e.Fold((s: S) => Left(update(s, f)), (s1: S1) => Right(other.update(s1, f))))
    }

    /** `asLSetter` and `asSetter`: the same transformation, rebuilt. */
    function AsLSetter(): (r: LSetter<S, T, A, B>)
      ensures forall x: S, f: A -> B :: r.update(x, f) == update(x, f)
    {
      LSetter((x: S, f: A -> B) => update(x, f))
    }
  }

  /** The simple form, where the structure and the focus keep their types. */
  type Setter<!S(!new), !A(!new)> = LSetter<S, S, A, A>

  /** `modify` depends only on the values of the function it is given.
      Dafny's function values are not extensional, so this is stated for
      each setter that needs it. */
  ghost predicate Congruent<S(!new), T(!new), A(!new), B(!new)>(st: LSetter<S, T, A, B>) {
    forall x, f: A -> B, g: A -> B :: (forall a :: f(a) == g(a)) ==> st.update(x, f) == st.update(x, g)
  }

  /** The setter laws: modifying with the identity changes nothing, and two
      modifications fuse into one with the composed function. */
  ghost predicate SetterLaws<S(!new), A(!new)>(st: Setter<S, A>) {
    && Congruent(st)
    && (forall x :: st.update(x, Id) == x)
    && (forall x, f: A -> A, g: A -> A {:trigger st.update(x, After(f, g))} ::
          st.update(st.update(x, g), f) == st.update(x, After(f, g)))
  }

  /** For a lawful setter the second `set` wins. */
  lemma {:induction false} SetTwiceKeepsLast<S(!new), A(!new)>(st: Setter<S, A>, y1: A, y2: A, x: S)
    requires SetterLaws(st)
    ensures st.Set(y2, st.Set(y1, x)) == st.Set(y2, x)
  {
    var c1, c2 := Const<A, A>(y1), Const<A, A>(y2);
    assert st.update(st.update(x, c1), c2) == st.update(x, After(c2, c1));
    assert forall a :: After(c2, c1)(a) == c2(a);
  }

  /** Choosing between two lawful setters gives a lawful setter. */
  lemma {:induction false} ChoiceLawful<S(!new), S1(!new), A(!new)>(st: Setter<S, A>, other: Setter<S1, A>)
    requires SetterLaws(st) && SetterLaws(other)
    ensures SetterLaws(st.Choice(other))
  {
    var r := st.Choice(other);
    forall e, f: A -> A, g: A -> A | forall a :: f(a) == g(a)
      ensures r.update(e, f) == r.update(e, g)
    {
      match e
      case Left(s) =>
      case Right(s1) =>
    }
    forall e
      ensures r.update(e, Id) == e
    {
      match e
      case Left(s) =>
      case Right(s1) =>
    }
    forall e, f: A -> A, g: A -> A
      ensures r.update(r.update(e, g), f) == r.update(e, After(f, g))
    {
      match e
      case Left(s) =>
      case Right(s1) =>
    }
  }

  /** Rebuilding a lawful setter keeps it lawful. */
  lemma AsLSetterLawful<S(!new), A(!new)>(st: Setter<S, A>)
    requires SetterLaws(st)
    ensures SetterLaws(st.AsLSetter())
  {
  }
}
