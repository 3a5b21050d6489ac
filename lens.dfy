/** Lenses: optics on a part that is always present (Source/Lens.swift). */
module Lenses {
  import opened Base
  import opened Setters
  import opened Getters

  /** Reads an `A` out of an `S`, and writes a `B` into an `S`, giving a `T`.
      The stored writer is the source's `set`; `set` is a Dafny keyword, so
      the field is called `put`. */
  datatype LLens<!S(!new), T(!new), A(!new), !B(!new)> = LLens(get: S -> A, put: (B, S) -> T) {

    /** Transforms the focus: reads it, applies `f`, writes the result back.
        With a function that always returns `y` it is the stored `set`. */
    function Modify(x: S, f: A -> B): (r: T)
      ensures forall y: B :: (forall a: A :: f(a) == y) ==> r == put(y, x)
    {
      put(f(get(x)), x)
    }

    /** Reads and writes the two halves of a pair, each with its own lens. */
    function Split<S1(!new), T1(!new), A1(!new), B1(!new)>(other: LLens<S1, T1, A1, B1>): (r: LLens<(S, S1), (T, T1), (A, A1), (B, B1)>)
      ensures forall p: (S, S1) :: r.get(p) == (get(p.0), other.get(p.1))
      ensures forall q: (B, B1), p: (S, S1) :: r.put(q, p) == (put(q.0, p.0), other.put(q.1, p.1))
    {
      LLens((p: (S, S1)) => (get(p.0), other.get(p.1)),
            (q: (B, B1), p: (S, S1)) => (put(q.0, p.0), other.put(q.1, p.1)))
    }

    /** Focuses on the first slot of a pair.  Writing `(b, x)` writes `b` into
        the first slot and puts `x` in the second, whatever was there. */
    function First<X(!new)>(): (r: LLens<(S, X), (T, X), (A, X), (B, X)>)
      ensures forall p: (S, X) :: r.get(p) == (get(p.0), p.1)
      ensures forall q: (B, X), p: (S, X) :: r.put(q, p) == (put(q.0, p.0), q.1)
    {
      LLens((p: (S, X)) => (get(p.0), p.1),
            (q: (B, X), p: (S, X)) => (put(q.0, p.0), q.1))
    }

    /** Focuses on the second slot of a pair, the mirror image of `First`. */
    function Second<X(!new)>(): (r: LLens<(X, S), (X, T), (X, A), (X, B)>)
      ensures forall p: (X, S) :: r.get(p) == (p.0, get(p.1))
      ensures forall q: (X, B), p: (X, S) :: r.put(q, p) == (q.0, put(q.1, p.1))
    {
      LLens((p: (X, S)) => (p.0, get(p.1)),
            (q: (X, B), p: (X, S)) => (q.0, put(q.1, p.1)))
    }

    /** `asLSetter` and `asSetter`: the lens seen as a setter whose
        transformation reads the focus, applies the function and writes back. */
    function AsLSetter(): (r: LSetter<S, T, A, B>)
      ensures forall x: S, f: A -> B :: r.update(x, f) == put(f(get(x)), x)
    {
      LSetter((x: S, f: A -> B) => Modify(x, f))
    }

    /** `asLLens` and `asLens`: the same lens, rebuilt from its operations. */
    function AsLLens(): (r: LLens<S, T, A, B>)
      ensures forall x: S :: r.get(x) == get(x)
      ensures forall y: B, x: S :: r.put(y, x) == put(y, x)
      ensures forall x: S, f: A -> B :: r.Modify(x, f) == Modify(x, f)
    {
      LLens((x: S) => get(x), (y: B, x: S) => put(y, x))
    }

    /** `asGetter`: the lens seen as a getter. */
    function AsGetter(): (r: Getter<S, A>)
      ensures forall x: S :: r.get(x) == get(x)
    {
      Getter((x: S) => get(x))
    }
  }

  /** The simple form, where the structure and the focus keep their types. */
  type Lens<!S(!new), !A(!new)> = LLens<S, S, A, A>

  /** The lens laws: writing back what was read changes nothing, reading
      returns what was written, and of two writes the second wins. */
  ghost predicate LensLaws<S(!new), A(!new)>(l: Lens<S, A>) {
    && (forall s :: l.put(l.get(s), s) == s)
    && (forall a, s :: l.get(l.put(a, s)) == a)
    && (forall a1, a2, s :: l.put(a2, l.put(a1, s)) == l.put(a2, s))
  }

  /** The `set` a lens gets from the setter protocol (its setter's `modify`
      with a constant function) is the lens's own stored `set`. */
  lemma DerivedSetIsStoredSet<S(!new), T(!new), A(!new), B(!new)>(l: LLens<S, T, A, B>, y: B, x: S)
    ensures l.AsLSetter().Set(y, x) == l.put(y, x)
  {
  }

  /** Modifying through a lawful lens with the identity changes nothing. */
  lemma ModifyIdentity<S(!new), A(!new)>(l: Lens<S, A>, s: S)
    requires LensLaws(l)
    ensures l.Modify(s, Id) == s
  {
  }

  /** Two modifications through a lawful lens are one modification with the
      composed function. */
  lemma {:induction false} ModifyFusion<S(!new), A(!new)>(l: Lens<S, A>, s: S, f: A -> A, g: A -> A)
    requires LensLaws(l)
    ensures l.Modify(l.Modify(s, g), f) == l.Modify(s, After(f, g))
  {
    var a := l.get(s);
    assert l.get(l.put(g(a), s)) == g(a);
    assert l.put(f(g(a)), l.put(g(a), s)) == l.put(f(g(a)), s);
  }

  /** The lens the tests build from an inverse pair `to`/`from`, whose `set`
      ignores the old structure, is lawful. */
  lemma InversePairLensLawful<S(!new), A(!new)>(to: S -> A, from: A -> S)
    requires forall s: S :: from(to(s)) == s
    requires forall a: A :: to(from(a)) == a
    ensures LensLaws(LLens(to, (a: A, _: S) => from(a)))
  {
  }

  /** The setter of a lawful lens is a lawful setter: identity and fusion. */
  lemma {:induction false} AsLSetterLawful<S(!new), A(!new)>(l: Lens<S, A>)
    requires LensLaws(l)
    ensures SetterLaws(l.AsLSetter())
  {
    var st := l.AsLSetter();
    forall x, f: A -> A, g: A -> A
      ensures st.update(st.update(x, g), f) == st.update(x, After(f, g))
    {
      ModifyFusion(l, x, f, g);
    }
  }

  /** Splitting two lawful lenses gives a lawful lens on pairs. */
  lemma SplitLawful<S(!new), A(!new), S1(!new), A1(!new)>(l: Lens<S, A>, other: Lens<S1, A1>)
    requires LensLaws(l) && LensLaws(other)
    ensures LensLaws(l.Split(other))
  {
  }

  /** `first` of a lawful lens is lawful. */
  lemma FirstLawful<S(!new), A(!new), X(!new)>(l: Lens<S, A>)
    requires LensLaws(l)
    ensures LensLaws(l.First<X>())
  {
  }

  /** `second` of a lawful lens is lawful. */
  lemma SecondLawful<S(!new), A(!new), X(!new)>(l: Lens<S, A>)
    requires LensLaws(l)
    ensures LensLaws(l.Second<X>())
  {
  }

  /** Rebuilding a lawful lens keeps it lawful. */
  lemma AsLLensLawful<S(!new), A(!new)>(l: Lens<S, A>)
    requires LensLaws(l)
    ensures LensLaws(l.AsLLens())
  {
  }
}
