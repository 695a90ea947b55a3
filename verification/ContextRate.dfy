/** Fast rates of a context tier (internal/usage/pricing/mode_context.go): the digit-bounded
    exact quotient fast * context / base, found by reducing the fraction and counting the
    factors 2 and 5 of its denominator. */
module ContextRate {
  import opened Wrappers
  import opened Decimal
  import opened Spelling
  import opened Rates

  // ------------------------------------------------------------- number theory

  function Power(b: nat, n: nat): (r: nat)
    ensures b > 0 ==> r > 0
  {
    if n == 0 then 1 else b * Power(b, n - 1)
  }

  // big.Int.GCD.
  function Gcd(a: nat, b: nat): nat
    decreases b
  {
    if b == 0 then a else Gcd(b, a % b)
  }

  lemma DivMod(a: nat, b: nat)
    requires b > 0
    ensures a == b * (a / b) + a % b
  {}

  /** The gcd divides both numbers and is a combination of them. */
  lemma {:induction false} Bezout(a: nat, b: nat) returns (x: int, y: int, p: nat, q: nat)
    requires a > 0 || b > 0
    ensures Gcd(a, b) > 0 && a == Gcd(a, b) * p && b == Gcd(a, b) * q
    ensures a * x + b * y == Gcd(a, b)
    decreases b
  {
    if b == 0 {
      x, y, p, q := 1, 0, 1, 0;
    } else {
      var x', y', p', q' := Bezout(b, a % b);
      DivMod(a, b);
      x, y := y', x' - (a / b) * y';
      p, q := p' * (a / b) + q', p';
      BezoutStep(a, b, a / b, a % b, Gcd(a, b), x', y', p', q');
    }
  }

  lemma BezoutStep(a: int, b: int, d: int, m: int, g: int, x: int, y: int, p: int, q: int)
    requires a == b * d + m && b == g * p && m == g * q && b * x + m * y == g
    ensures a == g * (p * d + q) && a * y + b * (x - d * y) == g
  {
    assert g * (p * d + q) == g * p * d + g * q;
    assert m * y == a * y - b * d * y;
    assert b * (x - d * y) == b * x - b * d * y;
  }

  /** Gauss's lemma: a number coprime to b that divides b * c divides c. */
  lemma Gauss(a: int, b: int, c: int, k: int, x: int, y: int)
    requires a * x + b * y == 1 && b * c == a * k
    ensures c == a * (x * c + k * y)
  {
    assert c == c * (a * x + b * y);
    assert c * (b * y) == (b * c) * y;
  }

  lemma {:induction false} PowerOfTen(n: nat)
    ensures Pow10(n) == Power(2, n) * Power(5, n)
  {
    hide Power, Pow10;
    if n > 0 {
      PowerOfTen(n - 1);
      PowStep(n - 1);
      PowerStep(2, n);
      PowerStep(5, n);
      TwoFives(Power(2, n - 1), Power(5, n - 1));
    } else {
      PowerNone();
    }
  }

  lemma TwoFives(x: nat, y: nat)
    ensures 10 * (x * y) == (2 * x) * (5 * y)
  {}

  lemma PowerNone()
    ensures Pow10(0) == 1 == Power(2, 0) * Power(5, 0)
  {}

  lemma PowerStep(b: nat, n: nat)
    requires n > 0
    ensures Power(b, n) == b * Power(b, n - 1)
  {}

  lemma {:induction false} PowerAdd(b: nat, m: nat, n: nat)
    ensures Power(b, m + n) == Power(b, m) * Power(b, n)
  {
    if m > 0 {
      PowerAdd(b, m - 1, n);
      PowerStep(b, m);
      PowerStep(b, m + n);
      hide Power;
      Swap(b, Power(b, m - 1), Power(b, n));
    } else {
      assert Power(b, 0) == 1;
    }
  }

  /** The product of two numbers split by d leaves the product of their remainders. */
  lemma SplitProduct(d: int, p: int, q: int, i: int, j: int)
    ensures (d * p + i) * (d * q + j) == d * (p * (d * q + j) + i * q) + i * j
  {
    var b := d * q + j;
    assert (d * p + i) * b == d * p * b + i * b;
    assert d * p * b == d * (p * b);
    assert i * b == i * (d * q) + i * j;
    assert i * (d * q) == d * (i * q);
    assert d * (p * b) + d * (i * q) == d * (p * b + i * q);
  }

  lemma OddTimesOdd(a: nat, b: nat)
    ensures (a * b) % 2 == ((a % 2) * (b % 2)) % 2
  {
    var p, q, i, j := a / 2, b / 2, a % 2, b % 2;
    Halved(a);
    Halved(b);
    SplitProduct(2, p, q, i, j);
    ModTwo(p * b + i * q, i * j);
  }

  lemma Halved(a: nat)
    ensures a == 2 * (a / 2) + a % 2
  {}

  lemma ModTwo(k: int, r: int)
    ensures (2 * k + r) % 2 == r % 2
  {}

  lemma FiveTimes(a: nat, b: nat)
    requires a % 5 != 0 && b % 5 != 0
    ensures (a * b) % 5 != 0
  {
    var p, q, i, j := a / 5, b / 5, a % 5, b % 5;
    InFives(a);
    InFives(b);
    SplitProduct(5, p, q, i, j);
    FiveDigits(i, j);
    ModFive(p * b + i * q, i * j);
  }

  lemma InFives(a: nat)
    ensures a == 5 * (a / 5) + a % 5
  {}

  lemma FiveDigits(i: nat, j: nat)
    requires 0 < i < 5 && 0 < j < 5
    ensures (i * j) % 5 != 0
  {
    if i == 1 {} else if i == 2 {} else if i == 3 {} else {}
  }

  lemma ModFive(k: int, r: int)
    ensures (5 * k + r) % 5 == r % 5
  {}

  lemma {:induction false} PowersOddAndFive(n: nat)
    ensures Power(5, n) % 2 == 1 && Power(2, n) % 5 != 0
  {
    if n > 0 {
      PowersOddAndFive(n - 1);
      OddTimesOdd(5, Power(5, n - 1));
      FiveTimes(2, Power(2, n - 1));
    }
  }

  /** A divisor of a power of ten that has no factor 2 or 5 is one. */
  lemma HalfOf(m: nat, q: nat, p: nat) returns (h: nat)
    requires m % 2 == 1 && m * q == 2 * p
    ensures m * h == p
  {
    OddTimesOdd(m, q);
    h := q / 2;
    assert q == 2 * h;
    Swap(2, m, h);
    Swap(m, 2, h);
  }

  lemma FifthOf(m: nat, h: nat, p: nat) returns (f: nat)
    requires m % 5 != 0 && m * h == 5 * p
    ensures m * f == p
  {
    if h % 5 != 0 { FiveTimes(m, h); }
    f := h / 5;
    assert h == 5 * f;
    Swap(5, m, f);
    Swap(m, 5, f);
  }

  lemma TenthOf(m: nat, q: nat, p: nat) returns (f: nat)
    requires m % 2 == 1 && m % 5 != 0 && m * q == 10 * p
    ensures m * f == p
  {
    var h := HalfOf(m, q, 5 * p);
    f := FifthOf(m, h, p);
  }

  lemma {:induction false} OnlyTwosAndFives(m: nat, q: nat, s: nat)
    requires m % 2 == 1 && m % 5 != 0 && m * q == Pow10(s)
    ensures m == 1
  {
    if s == 0 {
      UnitDivisor(m, q);
    } else {
      var p := Pow10(s - 1);
      assert m * q == 10 * p;
      hide Pow10;
      var f := TenthOf(m, q, p);
      OnlyTwosAndFives(m, f, s - 1);
    }
  }

  lemma BigProduct(m: nat, q: nat)
    requires m > 1 && q > 0
    ensures m * q > 1
  {
    assert m * q >= 2 * q;
  }

  lemma UnitDivisor(m: nat, q: nat)
    requires m * q == 1
    ensures m == 1
  {
    if m > 1 && q > 0 {
      BigProduct(m, q);
    }
  }

  lemma Regroup(a: int, b: int, c: int, d: int)
    requires a == b * c
    ensures a * d == b * (c * d)
  {}

  /** If b^t divides b^s * c and t exceeds s, then b divides c. */
  lemma ExcessFactor(b: nat, t: nat, q: nat, s: nat, c: nat) returns (k: nat)
    requires b > 1 && s < t && Power(b, t) * q == Power(b, s) * c
    ensures c == b * k
  {
    PowerAdd(b, s, t - s);
    Regroup(Power(b, t), Power(b, s), Power(b, t - s), q);
    Cancel(Power(b, s), Power(b, t - s) * q, c);
    Regroup(Power(b, t - s), b, Power(b, t - s - 1), q);
    k := Power(b, t - s - 1) * q;
  }

  lemma Swap(a: int, b: int, q: int)
    ensures a * b * q == a * (b * q) && a * b * q == b * (a * q)
  {}

  lemma TwosBound(t: nat, x: nat, s: nat)
    requires Power(2, t) * x == Power(2, s) * Power(5, s)
    ensures t <= s
  {
    hide Power;
    if t > s {
      var k := ExcessFactor(2, t, x, s, Power(5, s));
      PowersOddAndFive(s);
    }
  }

  lemma FivesBound(f: nat, x: nat, s: nat)
    requires Power(5, f) * x == Power(5, s) * Power(2, s)
    ensures f <= s
  {
    hide Power;
    if f > s {
      var k := ExcessFactor(5, f, x, s, Power(2, s));
      PowersOddAndFive(s);
    }
  }

  lemma Cancel(k: int, a: int, b: int)
    requires k > 0 && k * a == k * b
    ensures a == b
  {}

  // ---------------------------------------------------------------- the source

  lemma SplitFactor(p: nat, rest: nat, factor: nat, quotient: nat)
    requires rest > 0 && factor > 1 && rest == factor * quotient
    ensures p * rest == factor * p * quotient && 0 < quotient < rest
  {
    Swap(factor, p, quotient);
    if quotient > 0 {
      Larger(factor, quotient);
    }
  }

  lemma Larger(m: nat, q: nat)
    requires m > 1 && q > 0
    ensures m * q > q
  {
    assert m * q >= 2 * q;
  }

  /** removeFactor: divides factor out as often as it goes. */
  method RemoveFactor(value: nat, factor: nat) returns (count: nat, rest: nat)
    requires value > 0 && factor > 1
    ensures value == Power(factor, count) * rest && rest > 0 && rest % factor != 0
  {
    count, rest := 0, value;
    while rest % factor == 0
      invariant rest > 0 && value == Power(factor, count) * rest
      decreases rest
    {
      DivMod(rest, factor);
      SplitFactor(Power(factor, count), rest, factor, rest / factor);
      rest, count := rest / factor, count + 1;
    }
  }

  /** base, fast and context as one fraction: numerator and denominator of the quotient. */
  lemma NotNegative(a: nat, b: nat)
    ensures a * b >= 0
  {}

  function Numerator(base: Rate, fast: Rate, context: Rate): nat {
    var product := fast.coefficient * context.coefficient;
    NotNegative(fast.coefficient, context.coefficient);
    NotNegative(product, Pow10(base.scale));
    product * Pow10(base.scale)
  }

  function Denominator(base: Rate, fast: Rate, context: Rate): nat {
    NotNegative(base.coefficient, Pow10(fast.scale + context.scale));
    base.coefficient * Pow10(fast.scale + context.scale)
  }

  /** r is worth numerator / denominator. */
  predicate IsQuotient(r: Scaled, numerator: nat, denominator: nat) {
    r.coefficient * denominator == numerator * Pow10(r.scale)
  }

  /** The quotient is a decimal with at most 18 fractional digits, below 10^18. */
  ghost predicate Representable(numerator: nat, denominator: nat) {
    numerator < denominator * Pow10(MAX_EXPANDED_DIGITS) &&
    exists r: Scaled :: r.scale <= MAX_EXPANDED_DIGITS && IsQuotient(r, numerator, denominator)
  }

  /** A reduced denominator d = 2^t * 5^f * m, with nothing left to remove from m. */
  predicate Factored(d: nat, t: nat, f: nat, m: nat) {
    d == Power(2, t) * (Power(5, f) * m) && m % 2 == 1 && m % 5 != 0
  }

  /** n and d have no common factor: some combination of them is one. */
  predicate Coprime(n: nat, d: nat, x: int, y: int) { n * x + d * y == 1 }

  function Max(a: nat, b: nat): nat { if a < b then b else a }

  lemma PositiveFactor(d: nat, q: int, ten: nat)
    requires d > 0 && ten > 0 && ten == d * q
    ensures q > 0
  {}

  lemma DivisorOfTen(n: nat, d: nat, x: int, y: int, c: nat, s: nat) returns (q: nat)
    requires d > 0 && Coprime(n, d, x, y) && c * d == n * Pow10(s)
    ensures d * q == Pow10(s)
  {
    var ten := Pow10(s);
    hide Pow10;
    Gauss(d, n, ten, c, y, x);
    PositiveFactor(d, y * ten + c * x, ten);
    q := y * ten + c * x;
  }

  lemma Reorder(a: nat, b: nat, c: nat)
    ensures a * (b * c) == b * (a * c) && a * (b * c) == c * (a * b)
  {}

  lemma TwosPart(d: nat, q: nat, t: nat, rest: nat, s: nat)
    requires d == Power(2, t) * rest && d * q == Pow10(s)
    ensures t <= s
  {
    hide Power, Pow10;
    PowerOfTen(s);
    Regroup(d, Power(2, t), rest, q);
    TwosBound(t, rest * q, s);
  }

  lemma FivesPart(d: nat, q: nat, f: nat, rest: nat, s: nat)
    requires d == Power(5, f) * rest && d * q == Pow10(s)
    ensures f <= s
  {
    hide Power, Pow10;
    PowerOfTen(s);
    Regroup(d, Power(5, f), rest, q);
    FivesBound(f, rest * q, s);
  }

  lemma RestPart(d: nat, q: nat, m: nat, rest: nat, s: nat)
    requires d == m * rest && d * q == Pow10(s) && m % 2 == 1 && m % 5 != 0
    ensures m == 1
  {
    hide Power, Pow10;
    Regroup(d, m, rest, q);
    OnlyTwosAndFives(m, rest * q, s);
  }

  lemma DivisorBound(d: nat, q: nat, t: nat, f: nat, m: nat, s: nat)
    requires Factored(d, t, f, m) && d * q == Pow10(s)
    ensures m == 1 && t <= s && f <= s
  {
    hide Power, Pow10;
    var two, five := Power(2, t), Power(5, f);
    Reorder(two, five, m);
    TwosPart(d, q, t, five * m, s);
    FivesPart(d, q, f, two * m, s);
    RestPart(d, q, m, two * five, s);
  }

  /** If n / d has s fractional digits then d divides 10^s, so m is one and s is at least
      the number of twos and the number of fives. */
  lemma ScaleBound(n: nat, d: nat, x: int, y: int, t: nat, f: nat, m: nat, c: nat, s: nat)
    requires d > 0 && Coprime(n, d, x, y) && Factored(d, t, f, m) && c * d == n * Pow10(s)
    ensures m == 1 && t <= s && f <= s
  {
    hide *;
    var q := DivisorOfTen(n, d, x, y, c, s);
    DivisorBound(d, q, t, f, m, s);
  }

  lemma ExactQuotient(g: nat, p: nat)
    requires g > 0
    ensures (g * p) / g == p
  {
    DivMod(g * p, g);
    var k := p - (g * p) / g;
    assert g * k == (g * p) % g;
    if k > 0 {
      Regroup(g * k, g, k, 1);
    }
  }

  lemma CoprimeQuotients(g: nat, n: nat, d: nat, x: int, y: int)
    requires g > 0 && g * n * x + g * d * y == g
    ensures Coprime(n, d, x, y)
  {
    assert g * (n * x + d * y) == g * 1;
    Cancel(g, n * x + d * y, 1);
  }

  /** Dividing by the gcd leaves a fraction in lowest terms. */
  lemma LowestTerms(a: nat, b: nat) returns (x: int, y: int)
    requires a > 0 && b > 0
    ensures var g := Gcd(a, b);
      g > 0 && a == g * (a / g) && b == g * (b / g) && a / g > 0 && b / g > 0 && Coprime(a / g, b / g, x, y)
  {
    var p, q;
    x, y, p, q := Bezout(a, b);
    var g := Gcd(a, b);
    hide Gcd;
    ExactQuotient(g, p);
    ExactQuotient(g, q);
    CoprimeQuotients(g, p, q, x, y);
  }

  /** The numerator of the balanced fraction: denominators 2^t * 5^f become 10^max(t, f). */
  function Balanced(n: nat, t: nat, f: nat): nat {
    n * Power(2, Max(t, f) - t) * Power(5, Max(t, f) - f)
  }

  lemma FourProduct(n: nat, a: nat, b: nat, two: nat, five: nat)
    ensures (n * a * b) * (two * five) == n * ((a * two) * (b * five))
  {
    var p := a * two;
    assert n * a * b * two == n * p * b;
    var q := b * five;
    assert n * p * b * five == n * p * q;
  }

  lemma BalancedExact(n: nat, d: nat, t: nat, f: nat)
    requires d == Power(2, t) * Power(5, f)
    ensures Balanced(n, t, f) * d == n * Pow10(Max(t, f))
  {
    var s := Max(t, f);
    PowerOfTen(s);
    PowerAdd(2, s - t, t);
    PowerAdd(5, s - f, f);
    FourProduct(n, Power(2, s - t), Power(5, s - f), Power(2, t), Power(5, f));
    hide Power, Pow10;
  }

  lemma NotBoth(n: nat, d: nat, x: int, y: int, k: int, h: int, b: int)
    requires Coprime(n, d, x, y) && b > 1
    ensures !(n == b * k && d == b * h)
  {
    if n == b * k && d == b * h {
      assert (b * k) * x == b * (k * x) && (b * h) * y == b * (h * y);
      var z := k * x + h * y;
      assert b * z == 1;
      NoUnit(b, z);
    }
  }

  lemma NoUnit(b: int, z: int)
    requires b > 1
    ensures b * z != 1
  {
    if z > 0 {
      Larger(b, z);
    }
  }

  lemma NotTen(x: nat)
    requires x % 2 != 0 || x % 5 != 0
    ensures x % 10 != 0
  {
    if x % 10 == 0 { TenDivides(x, x / 10); }
  }

  lemma TenDivides(x: nat, k: nat)
    requires x == 10 * k
    ensures x % 2 == 0 && x % 5 == 0
  {
    EvenlyDivided(x, 2, 5 * k);
    EvenlyDivided(x, 5, 2 * k);
  }

  lemma EvenlyDivided(x: nat, b: nat, k: nat)
    requires (b == 2 || b == 5) && x == b * k
    ensures x % b == 0
  {}

  lemma PowerZero(b: nat)
    ensures Power(b, 0) == 1
  {}

  lemma CoprimeToTwo(n: nat, d: nat, x: int, y: int, t: nat, five: nat)
    requires Coprime(n, d, x, y) && d == Power(2, t) * five && t > 0
    ensures n % 2 == 1
  {
    Regroup(Power(2, t), 2, Power(2, t - 1), five);
    NotBoth(n, d, x, y, n / 2, Power(2, t - 1) * five, 2);
  }

  lemma CoprimeToFive(n: nat, d: nat, x: int, y: int, f: nat, two: nat)
    requires Coprime(n, d, x, y) && d == Power(5, f) * two && f > 0
    ensures n % 5 != 0
  {
    Regroup(Power(5, f), 5, Power(5, f - 1), two);
    NotBoth(n, d, x, y, n / 5, Power(5, f - 1) * two, 5);
  }

  lemma TimesFives(n: nat, k: nat)
    requires n % 2 == 1
    ensures (n * Power(5, k)) % 10 != 0
  {
    PowersOddAndFive(k);
    hide Power;
    OddTimesOdd(n, Power(5, k));
    NotTen(n * Power(5, k));
  }

  lemma TimesTwos(n: nat, k: nat)
    requires n % 5 != 0
    ensures (n * Power(2, k)) % 10 != 0
  {
    PowersOddAndFive(k);
    hide Power;
    FiveTimes(n, Power(2, k));
    NotTen(n * Power(2, k));
  }

  /** Balancing leaves no factor ten in the coefficient: the scale is minimal. */
  lemma BalancedMinimal(n: nat, d: nat, x: int, y: int, t: nat, f: nat)
    requires Coprime(n, d, x, y) && d == Power(2, t) * Power(5, f) && Max(t, f) > 0
    ensures Balanced(n, t, f) % 10 != 0
  {
    PowerZero(2);
    PowerZero(5);
    hide Power, Coprime;
    if t >= f {
      CoprimeToTwo(n, d, x, y, t, Power(5, f));
      TimesFives(n, t - f);
    } else {
      CoprimeToFive(n, d, x, y, f, Power(2, t));
      TimesTwos(n, f - t);
    }
  }

  // ------------------------------------------------------------ the derived rate

  lemma ScaleUp(g: nat, n: nat, d: nat, c: nat, ten: nat)
    requires c * d == n * ten
    ensures c * (g * d) == (g * n) * ten
  {
    assert c * (g * d) == g * (c * d);
    assert (g * n) * ten == g * (n * ten);
  }

  lemma ScaleDown(g: nat, n: nat, d: nat, c: nat, ten: nat)
    requires g > 0 && c * (g * d) == (g * n) * ten
    ensures c * d == n * ten
  {
    assert c * (g * d) == g * (c * d);
    assert (g * n) * ten == g * (n * ten);
    Cancel(g, c * d, n * ten);
  }

  lemma BelowIff(c: nat, d: nat, n: nat, ten: nat, bound: nat)
    requires d > 0 && ten > 0 && c * d == n * ten
    ensures c < bound * ten <==> n < d * bound
  {
    Times(c, bound * ten, d);
    Times(n, d * bound, ten);
    Exchange(bound, ten, d);
  }

  lemma Exchange(bound: nat, ten: nat, d: nat)
    ensures (bound * ten) * d == (d * bound) * ten
  {}

  /** Multiplying by a positive number keeps the order. */
  lemma Times(a: nat, b: nat, k: nat)
    requires k > 0
    ensures a < b <==> a * k < b * k
  {
    assert b * k - a * k == (b - a) * k;
    if a < b { Grows(b - a, k); } else { Grows(a - b, k); }
  }

  lemma Grows(a: nat, k: nat)
    requires k > 0
    ensures a * k >= a >= 0
  {}

  /** At most 18 integer digits means a value below 10^18. */
  lemma DigitsBelow(r: Scaled, n: nat, d: nat)
    requires d > 0 && IsQuotient(r, n, d)
    ensures IntegerDigits(r) <= MAX_EXPANDED_DIGITS <==> n < d * Pow10(MAX_EXPANDED_DIGITS)
  {
    DigitCount(r.coefficient, MAX_EXPANDED_DIGITS + r.scale);
    PowAdd(MAX_EXPANDED_DIGITS, r.scale);
    hide Pow10, Digits;
    BelowIff(r.coefficient, d, n, Pow10(r.scale), Pow10(MAX_EXPANDED_DIGITS));
  }

  /** Any exact decimal of the fraction needs the factors the reduction found. */
  lemma Unrepresentable(a: nat, b: nat, r: Scaled, x: int, y: int, t: nat, f: nat, m: nat)
    requires a > 0 && b > 0 && Gcd(a, b) > 0 && a == Gcd(a, b) * (a / Gcd(a, b)) && b == Gcd(a, b) * (b / Gcd(a, b))
    requires b / Gcd(a, b) > 0 && Coprime(a / Gcd(a, b), b / Gcd(a, b), x, y) && Factored(b / Gcd(a, b), t, f, m)
    requires IsQuotient(r, a, b)
    ensures m == 1 && Max(t, f) <= r.scale
  {
    var g := Gcd(a, b);
    var n, d := a / g, b / g;
    hide Gcd, Pow10, Coprime, Factored, Power;
    ScaleDown(g, n, d, r.coefficient, Pow10(r.scale));
    ScaleBound(n, d, x, y, t, f, m, r.coefficient, r.scale);
  }

  lemma FactorsFound(d: nat, t: nat, rest: nat, f: nat, m: nat)
    requires d == Power(2, t) * rest && rest % 2 != 0 && rest == Power(5, f) * m && m % 5 != 0
    ensures Factored(d, t, f, m)
  {
    hide Power;
    OddFactor(Power(5, f), m, rest);
    assert rest == Power(5, f) * m;
  }

  lemma OddFactor(a: nat, b: nat, product: nat)
    requires product == a * b && product % 2 != 0
    ensures b % 2 == 1
  {
    OddTimesOdd(a, b);
    assert (a % 2) * 0 == 0;
  }

  lemma NotRepresentable(a: nat, b: nat, x: int, y: int, t: nat, f: nat, m: nat)
    requires a > 0 && b > 0 && Gcd(a, b) > 0 && a == Gcd(a, b) * (a / Gcd(a, b)) && b == Gcd(a, b) * (b / Gcd(a, b))
    requires b / Gcd(a, b) > 0 && Coprime(a / Gcd(a, b), b / Gcd(a, b), x, y) && Factored(b / Gcd(a, b), t, f, m)
    requires m != 1 || Max(t, f) > MAX_EXPANDED_DIGITS
    ensures !Representable(a, b)
  {
    hide Gcd, Coprime, Factored, IsQuotient;
    forall r: Scaled | r.scale <= MAX_EXPANDED_DIGITS && IsQuotient(r, a, b)
      ensures false
    {
      Unrepresentable(a, b, r, x, y, t, f, m);
    }
  }

  lemma FactoredOne(d: nat, t: nat, f: nat)
    requires Factored(d, t, f, 1)
    ensures d == Power(2, t) * Power(5, f)
  {
    assert Power(5, f) * 1 == Power(5, f);
  }

  /** The balanced numerator over 10^max(t, f) is the reduced fraction, canonically. */
  lemma BalancedQuotient(a: nat, b: nat, x: int, y: int, t: nat, f: nat)
    requires a > 0 && b > 0 && Gcd(a, b) > 0 && a == Gcd(a, b) * (a / Gcd(a, b)) && b == Gcd(a, b) * (b / Gcd(a, b))
    requires a / Gcd(a, b) > 0 && Coprime(a / Gcd(a, b), b / Gcd(a, b), x, y) && Factored(b / Gcd(a, b), t, f, 1)
    ensures var r := Scaled(Balanced(a / Gcd(a, b), t, f), Max(t, f));
      IsQuotient(r, a, b) && Canonical(r)
  {
    var g := Gcd(a, b);
    var n, d := a / g, b / g;
    FactoredOne(d, t, f);
    BalancedExact(n, d, t, f);
    if Max(t, f) > 0 { BalancedMinimal(n, d, x, y, t, f); }
    BalancedPositive(n, t, f);
    hide Gcd, Pow10, Coprime, Factored, Power, Balanced;
    ScaleUp(g, n, d, Balanced(n, t, f), Pow10(Max(t, f)));
  }

  lemma BalancedPositive(n: nat, t: nat, f: nat)
    requires n > 0
    ensures Balanced(n, t, f) > 0
  {
    var a, b := Power(2, Max(t, f) - t), Power(5, Max(t, f) - f);
    assert n * a > 0;
    assert n * a * b > 0;
  }

  /** Reduce numerator / denominator, count the twos and fives of the denominator, balance
      them, check the bounds: a rate exactly when the quotient is representable. */
  method Quotient(numerator: nat, denominator: nat) returns (r: Option<Rate>)
    requires numerator > 0 && denominator > 0
    ensures r.Some? <==> Representable(numerator, denominator)
    ensures r.Some? ==> IsQuotient(r.value, numerator, denominator)
  {
    hide Gcd, Pow10, Coprime, Factored, Power, IsQuotient, Digits, Canonical, Representable, IntegerDigits;
    var common := Gcd(numerator, denominator);
    ghost var x, y := LowestTerms(numerator, denominator);
    var n, d := numerator / common, denominator / common;
    var twos, rest := RemoveFactor(d, 2);
    var fives, left := RemoveFactor(rest, 5);
    FactorsFound(d, twos, rest, fives, left);
    if left != 1 {
      NotRepresentable(numerator, denominator, x, y, twos, fives, left);
      return None;
    }
    var scale := Max(twos, fives);
    var coefficient := n;
    PowerZero(2);
    PowerZero(5);
    if twos < scale {
      coefficient := coefficient * Power(2, scale - twos);
    }
    if fives < scale {
      coefficient := coefficient * Power(5, scale - fives);
    }
    assert coefficient == Balanced(n, twos, fives) by { BalancedSteps(n, twos, fives, coefficient); }
    var rate := Scaled(coefficient, scale);
    BalancedQuotient(numerator, denominator, x, y, twos, fives);
    DigitsBelow(rate, numerator, denominator);
    if IntegerDigits(rate) > MAX_EXPANDED_DIGITS || scale > MAX_EXPANDED_DIGITS {
      if scale > MAX_EXPANDED_DIGITS {
        NotRepresentable(numerator, denominator, x, y, twos, fives, 1);
      }
      TooLarge(rate, numerator, denominator);
      return None;
    }
    TooLarge(rate, numerator, denominator);
    return Some(rate);
  }

  lemma TooLarge(r: Scaled, n: nat, d: nat)
    requires IsQuotient(r, n, d)
    ensures r.scale <= MAX_EXPANDED_DIGITS ==> (Representable(n, d) <==> n < d * Pow10(MAX_EXPANDED_DIGITS))
    ensures n >= d * Pow10(MAX_EXPANDED_DIGITS) ==> !Representable(n, d)
  {
    hide Pow10, IsQuotient;
  }

  lemma BalancedSteps(n: nat, t: nat, f: nat, c: nat)
    requires Power(2, 0) == 1 && Power(5, 0) == 1
    requires var s := Max(t, f);
      var a := if t < s then n * Power(2, s - t) else n;
      c == if f < s then a * Power(5, s - f) else a
    ensures c == Balanced(n, t, f)
  {
    hide Power;
  }

  /** deriveFastContextRate: a rate exactly when all three operands are present, the base is
      nonzero and fast * context / base is zero or a decimal of at most 18 integer and 18
      fractional digits; the rate is then that quotient, at its least scale. */
  method DeriveFastContextRate(base: Option<Rate>, fast: Option<Rate>, context: Option<Rate>) returns (r: Option<Rate>)
    ensures r.Some? <==>
      && base.Some? && fast.Some? && context.Some? && base.value.coefficient > 0
      && Representable(Numerator(base.value, fast.value, context.value), Denominator(base.value, fast.value, context.value))
    ensures r.Some? ==> Canonical(r.value)
    ensures r.Some? ==>
      IsQuotient(r.value, Numerator(base.value, fast.value, context.value), Denominator(base.value, fast.value, context.value))
  {
    hide Representable, IsQuotient, Pow10, Numerator, Denominator, InBounds, Canonical;
    if base.None? || fast.None? || context.None? || base.value.coefficient == 0 {
      return None;
    }
    if fast.value.coefficient == 0 || context.value.coefficient == 0 {
      ZeroQuotient(base.value, fast.value, context.value);
      return Some(Scaled(0, 0));
    }
    NotNegative(fast.value.coefficient, context.value.coefficient);
    var numerator: nat := fast.value.coefficient * context.value.coefficient;
    if base.value.scale > 0 {
      NotNegative(numerator, Pow10(base.value.scale));
      numerator := numerator * Pow10(base.value.scale);
    }
    var denominator: nat := base.value.coefficient;
    var scale := fast.value.scale + context.value.scale;
    if scale > 0 {
      NotNegative(denominator, Pow10(scale));
      denominator := denominator * Pow10(scale);
    }
    FractionParts(base.value, fast.value, context.value, numerator, denominator);
    r := Quotient(numerator, denominator);
  }

  lemma ZeroQuotient(base: Rate, fast: Rate, context: Rate)
    requires base.coefficient > 0 && (fast.coefficient == 0 || context.coefficient == 0)
    ensures IsRate(Scaled(0, 0)) && Canonical(Scaled(0, 0))
    ensures var n, d := Numerator(base, fast, context), Denominator(base, fast, context);
      Representable(n, d) && IsQuotient(Scaled(0, 0), n, d)
  {
    hide Pow10, Digits;
    var n, d := Numerator(base, fast, context), Denominator(base, fast, context);
    assert n == 0 by { assert fast.coefficient * context.coefficient == 0; }
    assert d > 0;
    assert IsQuotient(Scaled(0, 0), 0, d);
  }

  lemma FractionParts(base: Rate, fast: Rate, context: Rate, n: nat, d: nat)
    requires base.coefficient > 0 && fast.coefficient > 0 && context.coefficient > 0
    requires var p := fast.coefficient * context.coefficient;
      n == if base.scale > 0 then p * Pow10(base.scale) else p
    requires d == if fast.scale + context.scale > 0 then base.coefficient * Pow10(fast.scale + context.scale) else base.coefficient
    ensures n == Numerator(base, fast, context) > 0 && d == Denominator(base, fast, context) > 0
  {
    var p := fast.coefficient * context.coefficient;
    ProductPositive(fast.coefficient, context.coefficient);
    PowerOne(p);
    PowerOne(base.coefficient);
    hide Pow10;
    ProductPositive(p, Pow10(base.scale));
    ProductPositive(base.coefficient, Pow10(fast.scale + context.scale));
  }

  lemma ProductPositive(a: nat, b: nat)
    requires a > 0 && b > 0
    ensures a * b > 0
  {}

  lemma PowerOne(a: nat)
    ensures a * Pow10(0) == a
  {}
}
