/** The few facts about products that the bounds in this project need. */
module Products {

  lemma MulMonotone(a: int, b: int, s: int)
    requires a <= b && 0 <= s
    ensures a * s <= b * s
  {
    assert b * s - a * s == (b - a) * s;
  }

  /** Going down by one in a factor outweighs a remainder within the other. */
  lemma ProductDown(n': int, n: int, s: int, h': int, h: int)
    requires n' < n && 0 <= s && h' <= s && 1 <= h
    ensures n' * s + h' < n * s + h
  {
    MulMonotone(n' + 1, n, s);
    assert (n' + 1) * s == n' * s + s;
  }

  lemma OnlyZero(x: int, b: int)
    requires 0 <= x * b < b
    ensures x == 0
  {
    if x >= 1 { MulMonotone(1, x, b); }
    if x <= -1 { MulMonotone(x, -1, b); }
  }

  lemma MultipleGoes(a: nat, b: nat, n: nat)
    requires b > 0 && n == a * b
    ensures n / b == a && n % b == 0
  {
    var q := n / b;
    assert n == q * b + n % b;
    assert (a - q) * b == a * b - q * b;
    OnlyZero(a - q, b);
  }
}
