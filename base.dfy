/** The small functional toolkit the optics are written against: a two-case
    sum type, an optional value, the identity, constant functions and
    function composition (`•`).  The optics library takes these from an
    external library; here they are defined with the meaning the library's
    types force on every call site. */
module Base {

  /** A value of one of two types.  For a prism, `Left` is "no match" and
      carries the rebuilt structure, `Right` is "match" and carries the focus. */
  datatype Either<L, R> = Left(left: L) | Right(right: R) {

    /** Case analysis, `either(ifLeft:ifRight:)`. */
    function Fold<U>(ifLeft: L -> U, ifRight: R -> U): U {
      match this
      case Left(l) => ifLeft(l)
      case Right(r) => ifRight(r)
    }

    /** Rewrites a `Left` payload and passes a `Right` through. */
    function MapLeft<L2>(f: L -> L2): Either<L2, R> {
      match this
      case Left(l) => Left(f(l))
      case Right(r) => Right(r)
    }

    /** Rewrites a `Right` payload and passes a `Left` through. */
    function MapRight<R2>(f: R -> R2): Either<L, R2> {
      match this
      case Left(l) => Left(l)
      case Right(r) => Right(f(r))
    }

    /** Rewrites whichever payload is present, each case with its own function. */
    function Bimap<L2, R2>(f: L -> L2, g: R -> R2): Either<L2, R2> {
      match this
      case Left(l) => Left(f(l))
      case Right(r) => Right(g(r))
    }

    /** Continues with `f` on a `Right`; a `Left` short-circuits. */
    function FlatMap<R2>(f: R -> Either<L, R2>): Either<L, R2> {
      match this
      case Left(l) => Left(l)
      case Right(r) => f(r)
    }
  }

  /** The optional value a prism's convenience constructor starts from. */
  datatype Option<T> = None | Some(value: T)

  /** The identity, `id`. */
  function Id<X>(x: X): X { x }

  /** Function composition `g • f`: first `f`, then `g`. */
  function After<X, Y, Z>(g: Y -> Z, f: X -> Y): X -> Z {
    x => g(f(x))
  }

  /** The function that ignores its argument and returns `y`, the `{ _ in y }`
      with which `set` is derived from `modify`. */
  function Const<X, Y>(y: Y): X -> Y {
    _ => y
  }

  /** Mapping both sides with the identity on the right is mapping the left
      side only: the older revision's `bimap(f, id)` and the newer `map(f)`
      in prism composition are the same rewiring. */
  lemma BimapIdIsMapLeft<L, R, L2>(e: Either<L, R>, f: L -> L2)
    ensures e.Bimap(f, Id) == e.MapLeft(f)
  {
  }
}
