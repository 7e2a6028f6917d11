/** Products and quotients of reals as symbols: proofs hide the definitions and use
    these laws, which keeps nonlinear terms away from the solver. */
module RealArith {

  /** The product, named so that a proof can treat it as a symbol. */
  function Times(x: real, y: real): real { x * y }

  function Over(a: real, w: real): real
    requires w != 0.0
  {
    a / w
  }

  lemma Scale(k: real, a: real, b: real)
    requires k >= 0.0 && a <= b
    ensures Times(k, a) <= Times(k, b)
  {
    assert k * (b - a) >= 0.0;
  }

  lemma Products(a: real, b: real, c: real)
    ensures Times(0.0, a) == 0.0 && Times(a, 0.0) == 0.0 && Times(1.0, a) == a && Times(a, 1.0) == a
    ensures Times(a, b) == Times(b, a)
    ensures Times(a, b + c) == Times(a, b) + Times(a, c) && Times(a + b, c) == Times(a, c) + Times(b, c)
    ensures Times(a, b - c) == Times(a, b) - Times(a, c) && Times(a - b, c) == Times(a, c) - Times(b, c)
  {
  }

  lemma Assoc(a: real, b: real, c: real)
    ensures Times(a, Times(b, c)) == Times(Times(a, b), c) == Times(b, Times(a, c))
  {
  }

  lemma Positive(x: real, y: real)
    requires x > 0.0 && y > 0.0
    ensures Times(x, y) > 0.0
  {
  }

  lemma InOrder(w: real, a: real, b: real)
    requires w > 0.0 && Times(w, a) <= Times(w, b)
    ensures a <= b
  {
    hide Times;
    if b < a {
      Positive(w, a - b);
      Products(w, a, b);
    }
  }

  lemma Cancel(w: real, a: real, b: real)
    requires w > 0.0 && Times(w, a) == Times(w, b)
    ensures a == b
  {
    hide Times;
    InOrder(w, a, b);
    InOrder(w, b, a);
  }

  lemma Fraction(a: real, w: real)
    requires w > 0.0
    ensures Times(w, a / w) == a
  {
  }

  lemma Quotient(a: real, w: real)
    requires w > 0.0
    ensures Times(w, Over(a, w)) == a
  {
  }
}
