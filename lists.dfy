/** Finite lists. The text a syntax tree is written with is a list: two
    texts are equal as values, which keeps proofs about them by structure
    rather than element by element. */
module Lists {

  datatype List<X> = Nil | Cons(head: X, tail: List<X>)

  function Length<X>(xs: List<X>): nat
  {
    match xs
    case Nil => 0
    case Cons(_, rest) => 1 + Length(rest)
  }

  function Append<X>(xs: List<X>, ys: List<X>): List<X>
  {
    match xs
    case Nil => ys
    case Cons(x, rest) => Cons(x, Append(rest, ys))
  }

  lemma {:induction false} AppendLength<X>(xs: List<X>, ys: List<X>)
    ensures Length(Append(xs, ys)) == Length(xs) + Length(ys)
  {
    match xs
    case Nil =>
    case Cons(_, rest) => AppendLength(rest, ys);
  }

  predicate Mem<X(==)>(x: X, xs: List<X>)
  {
    match xs
    case Nil => false
    case Cons(y, rest) => x == y || Mem(x, rest)
  }

  lemma {:induction false} AppendAssoc<X>(xs: List<X>, ys: List<X>, zs: List<X>)
    ensures Append(Append(xs, ys), zs) == Append(xs, Append(ys, zs))
  {
    match xs
    case Nil =>
    case Cons(_, rest) => AppendAssoc(rest, ys, zs);
  }

  lemma {:induction false} AppendNil<X>(xs: List<X>)
    ensures Append(xs, Nil) == xs
  {
    match xs
    case Nil =>
    case Cons(_, rest) => AppendNil(rest);
  }

  /** A list splits at a known length in one way only. */
  lemma {:induction false} AppendCancel<X>(xs: List<X>, ys: List<X>, xs2: List<X>, ys2: List<X>)
    requires Length(xs) == Length(xs2) && Append(xs, ys) == Append(xs2, ys2)
    ensures xs == xs2 && ys == ys2
  {
    match xs
    case Nil =>
    case Cons(_, rest) => AppendCancel(rest, ys, xs2.tail, ys2);
  }

  lemma {:induction false} MemAppend<X>(x: X, xs: List<X>, ys: List<X>)
    ensures Mem(x, Append(xs, ys)) <==> Mem(x, xs) || Mem(x, ys)
  {
    match xs
    case Nil =>
    case Cons(_, rest) => MemAppend(x, rest, ys);
  }
}
