/** Small facts of real arithmetic used by the reflectivity proofs. Each is stated
    over plain variables, so that the solver instantiates it with the model's terms
    instead of reasoning about products of products itself. */
module RealArithmetic {

  lemma MulPositive(x: real, y: real)
    requires x > 0.0 && y > 0.0
    ensures x * y > 0.0
  {
  }

  lemma MulZero(x: real, y: real)
    requires x * y == 0.0
    ensures x == 0.0 || y == 0.0
  {
  }

  lemma SquarePositive(x: real)
    requires x != 0.0
    ensures x * x > 0.0
  {
    if x < 0.0 {
      MulPositive(-x, -x);
      assert (-x) * (-x) == x * x;
    } else {
      MulPositive(x, x);
    }
  }

  lemma SquareZero(x: real)
    ensures x * x == 0.0 <==> x == 0.0
  {
    if x * x == 0.0 {
      MulZero(x, x);
    }
  }

  lemma DivNegate(n: real, d: real)
    requires d != 0.0
    ensures (-n) / d == -(n / d)
  {
  }

  lemma DivCancel(n: real, d: real)
    requires d != 0.0
    ensures (n / d) * d == n
  {
  }

  lemma ProductDivision(n: real, x: real, y: real)
    requires x != 0.0 && y != 0.0
    ensures x * y != 0.0
    ensures n / (x * y) == (n / x) / y
  {
  }

  /** Dividing by a square is dividing twice. */
  lemma SquareDivision(n: real, x: real)
    requires x != 0.0
    ensures x * x != 0.0
    ensures n / (x * x) == (n / x) / x
  {
    ProductDivision(n, x, x);
  }
}
