/** Prices in integer microUSD computed through a binary64 quotient, and the
    token counts a request is held and settled for
    (app/services/gateway_billing.py). */
module Pricing {
  import opened Schema
  import opened Json

  const MILLION: int := 1_000_000

  // ------------------------------------------------- one binary64 quotient

  /** Doubles between 10^-6 and 2^1024 are whole multiples of 2^-72, so a
      double is kept here as the integer that counts those ticks. */
  const TICKS: int := 4722366482869645213696       // 2^72
  const SIGNIFICAND: int := 9007199254740992       // 2^53

  /** a / b to the nearest integer, ties to even (section 4.3.1 of IEEE 754-2019). */
  function Nearest(a: nat, b: nat): nat
    requires b > 0
  {
    var q, r := a / b, a % b;
    if 2 * r < b || (2 * r == b && q % 2 == 0) then q else q + 1
  }

  /** The spacing of doubles at the quotient x / MILLION, in ticks: the least
      doubling of `g` that leaves fewer than 2^53 steps. */
  function Spacing(x: nat, g: nat): (s: nat)
    requires g > 0
    ensures s >= g
    decreases x - g
  {
    if x < MILLION * SIGNIFICAND * g then g else Spacing(x, 2 * g)
  }

  /** The double that `product / 1_000_000` evaluates to, in ticks. */
  function Quotient(product: nat): nat {
    var x := product * TICKS;
    var g := Spacing(x, 1);
    Nearest(x, MILLION * g) * g
  }

  function CeilDiv(a: nat, b: nat): nat
    requires b > 0
  {
    (a + b - 1) / b
  }

  /** `token_cost`: the ceiling of the double quotient. */
  function TokenCost(tokens: int, price: int): (cost: nat) {
    if tokens <= 0 || price <= 0 then 0
    else
      assert tokens * price > 0;
      CeilDiv(Quotient(tokens * price), TICKS)
  }

  // ---------------------------------------------------- rounding is monotone

  lemma Scaled(a: int, b: int, g: nat)
    requires a <= b
    ensures a * g <= b * g
  {
  }

  /** A quotient q and remainder r place a between q * b and (q + 1) * b. */
  lemma Between(q: nat, r: nat, b: nat, c: nat)
    requires r < b
    ensures q * b + r <= c * b ==> q < c || (q == c && r == 0)
    ensures c * b <= q * b + r ==> c <= q
  {
    if c < q { Scaled(c + 1, q, b); }
    if q < c { Scaled(q + 1, c, b); }
  }

  lemma Division(a: nat, b: nat)
    requires b > 0
    ensures a == (a / b) * b + a % b && 0 <= a % b < b
  {
  }

  lemma NearestBounds(a: nat, b: nat, c: nat)
    requires b > 0
    ensures a <= c * b ==> Nearest(a, b) <= c
    ensures c * b <= a ==> c <= Nearest(a, b)
    ensures -(b as int) <= 2 * (Nearest(a, b) * b - a) <= b
  {
    Division(a, b);
    var q, r := a / b, a % b;
    Between(q, r, b, c);
    assert (q + 1) * b == q * b + b;
  }

  /** The result is the nearest integer to the quotient, and the even one of two that
      are equally near; no other integer is. */
  lemma NearestIff(a: nat, b: nat, m: nat)
    requires b > 0
    ensures m == Nearest(a, b) <==> -(b as int) <= 2 * (m * b - a) <= b && ((2 * (m * b - a) == b || 2 * (a - m * b) == b) ==> m % 2 == 0)
  {
    Division(a, b);
    var q, r := a / b, a % b;
    assert (q + 1) * b == q * b + b;
    if m < q { Scaled(m, q - 1, b); assert (q - 1) * b == q * b - b; }
    if m > q + 1 { Scaled(q + 2, m, b); assert (q + 2) * b == q * b + 2 * b; }
  }

  lemma NearestMonotone(a: nat, a': nat, b: nat)
    requires b > 0 && a <= a'
    ensures Nearest(a, b) <= Nearest(a', b)
  {
    Division(a, b);
    Division(a', b);
    var q, r, q', r' := a / b, a % b, a' / b, a' % b;
    Between(q', r', b, q);
    assert q == q' ==> r <= r';
  }

  /** Rounding to multiples of g * MILLION and scaling back keeps a bound that
      is itself a multiple of g. */
  lemma RoundedBounds(x: nat, g: nat, c: nat)
    requires g > 0
    ensures x <= MILLION * (c * g) ==> Nearest(x, MILLION * g) * g <= c * g
    ensures MILLION * (c * g) <= x ==> c * g <= Nearest(x, MILLION * g) * g
    ensures 2 * (MILLION * (Nearest(x, MILLION * g) * g) - x) >= -(MILLION * g)
  {
    NearestBounds(x, MILLION * g, c);
    var m := Nearest(x, MILLION * g);
    assert c * (MILLION * g) == MILLION * (c * g);
    assert m * (MILLION * g) == MILLION * (m * g);
    if m <= c { Scaled(m, c, g); }
    if c <= m { Scaled(c, m, g); }
  }

  lemma {:induction false} SpacingMonotone(x: nat, x': nat, g: nat)
    requires g > 0 && x <= x'
    ensures Spacing(x, g) == Spacing(x', g) || 2 * Spacing(x, g) <= Spacing(x', g)
    decreases x' - g
  {
    if x >= MILLION * SIGNIFICAND * g {
      SpacingMonotone(x, x', 2 * g);
    }
  }

  lemma {:induction false} SpacingFits(x: nat, g: nat)
    requires g > 0
    ensures x < MILLION * SIGNIFICAND * Spacing(x, g)
    ensures Spacing(x, g) == g || MILLION * (SIGNIFICAND / 2) * Spacing(x, g) <= x
    decreases x - g
  {
    if x >= MILLION * SIGNIFICAND * g {
      SpacingFits(x, 2 * g);
    }
  }

  lemma QuotientMonotone(p: nat, p': nat)
    requires p <= p'
    ensures Quotient(p) <= Quotient(p')
  {
    var x, x' := p * TICKS, p' * TICKS;
    var g, g' := Spacing(x, 1), Spacing(x', 1);
    SpacingMonotone(x, x', 1);
    if g == g' {
      NearestMonotone(x, x', MILLION * g);
      Scaled(Nearest(x, MILLION * g), Nearest(x', MILLION * g), g);
    } else {
      SpacingFits(x, 1);
      SpacingFits(x', 1);
      RoundedBounds(x, g, SIGNIFICAND);
      RoundedBounds(x', g', SIGNIFICAND / 2);
    }
  }

  /** More tokens never cost less, at any price and any size. */
  lemma TokenCostMonotone(tokens: int, tokens': int, price: int)
    requires tokens <= tokens'
    ensures TokenCost(tokens, price) <= TokenCost(tokens', price)
  {
    if tokens > 0 && price > 0 {
      assert tokens * price <= tokens' * price;
      QuotientMonotone(tokens * price, tokens' * price);
    }
  }

  // ------------------------------------- where the float ceiling is the true one

  function Pow2(k: nat): (p: nat)
    ensures p > 0
  {
    if k == 0 then 1 else 2 * Pow2(k - 1)
  }

  lemma {:induction false} Pow2Sum(j: nat, k: nat)
    ensures Pow2(j + k) == Pow2(j) * Pow2(k)
  {
    if j > 0 {
      Pow2Sum(j - 1, k);
      assert Pow2(j + k) == 2 * Pow2(j - 1 + k);
    }
  }

  lemma {:induction false} Pow2Monotone(j: nat, k: nat)
    requires j <= k
    ensures Pow2(j) <= Pow2(k)
  {
    if j < k { Pow2Monotone(j, k - 1); }
  }

  lemma SmallPowers()
    ensures Pow2(24) == 16777216 && Pow2(5) == 32 && Pow2(10) == 1024
  {
    assert Pow2(8) == 256;
    assert Pow2(16) == 65536 by { Pow2Sum(8, 8); }
    Pow2Sum(8, 16);
    Pow2Sum(5, 5);
  }

  const BOUND: int := 17179869184                  // 2^34

  lemma Powers()
    ensures Pow2(34) == BOUND && Pow2(53) == SIGNIFICAND && Pow2(54) == 2 * SIGNIFICAND
    ensures Pow2(72) == TICKS && Pow2(106) == SIGNIFICAND * SIGNIFICAND == BOUND * TICKS
  {
    SmallPowers();
    Pow2Sum(24, 10);
    assert Pow2(48) == 281474976710656 by { Pow2Sum(24, 24); }
    Pow2Sum(5, 48);
    Pow2Sum(24, 48);
    Pow2Sum(53, 53);
  }

  /** The spacing is a power of two, and the first one that fits. */
  lemma {:induction false} SpacingIs(x: nat, j: nat, k: nat)
    requires j <= k && x < MILLION * SIGNIFICAND * Pow2(k)
    ensures exists i: nat :: j <= i <= k && Spacing(x, Pow2(j)) == Pow2(i)
    decreases k - j
  {
    if x >= MILLION * SIGNIFICAND * Pow2(j) {
      assert j < k;
      assert Pow2(j + 1) == 2 * Pow2(j);
      SpacingIs(x, j + 1, k);
      var i: nat :| j + 1 <= i <= k && Spacing(x, Pow2(j + 1)) == Pow2(i);
      assert Spacing(x, Pow2(j)) == Pow2(i);
    } else {
      assert Spacing(x, Pow2(j)) == Pow2(j);
    }
  }

  lemma Reassociated(a: nat, b: nat, c: nat)
    ensures (a * b) * c == a * (b * c)
  {
  }

  /** An integer quotient is a double, and no rounding crosses it. */
  lemma IntegersAreFixed(product: nat, k: nat, g: nat, h: nat)
    requires g > 0 && Spacing(product * TICKS, 1) == g && h * g == TICKS
    ensures k * MILLION <= product ==> k * TICKS <= Quotient(product)
    ensures product <= k * MILLION ==> Quotient(product) <= k * TICKS
  {
    var c := k * h;
    assert c * g == k * TICKS by { Reassociated(k, h, g); }
    RoundedBounds(product * TICKS, g, c);
    assert Quotient(product) == Nearest(product * TICKS, MILLION * g) * g;
  }

  /** While tokens * price <= 2^34 * 10^6, which covers every product below 2^53,
      the ceiling of the rounded quotient is the integer ceiling of the exact
      one. */
  lemma TokenCostIsExact(tokens: nat, price: nat)
    requires tokens * price <= BOUND * MILLION
    ensures TokenCost(tokens, price) == CeilDiv(tokens * price, MILLION)
  {
    if tokens > 0 && price > 0 {
      ExactCeiling(tokens * price);
    }
  }

  lemma ExactCeiling(product: nat)
    requires product <= BOUND * MILLION
    ensures CeilDiv(Quotient(product), TICKS) == CeilDiv(product, MILLION)
  {
    var g, h := SpacingDivides(product * TICKS);
    var k := product / MILLION;
    IntegersAreFixed(product, k, g, h);
    IntegersAreFixed(product, k + 1, g, h);
    if k * MILLION < product {
      assert product * TICKS < BOUND * MILLION * TICKS;
      SpacingBelow(product * TICKS);
      StrictlyAbove(product, k, g);
      CeilingIs(Quotient(product), TICKS, k);
      CeilingIs(product, MILLION, k);
    } else {
      assert Quotient(product) == k * TICKS;
      CeilingIs(k * TICKS, TICKS, k - 1);
      CeilingIs(k * MILLION, MILLION, k - 1);
    }
  }

  lemma CeilingIs(a: nat, b: nat, k: int)
    requires b > 0 && k * b < a <= (k + 1) * b
    ensures CeilDiv(a, b) == k + 1
  {
    assert (k + 1) * b == k * b + b;
    if k < -1 { Scaled(k + 2, 0, b); }
    if k == -1 {
      QuotientAndRest(b - 1, b, 0, b - 1);
    } else {
      QuotientAndRest(a + b - 1, b, k + 1, a - 1 - k * b);
    }
  }

  /** Up to the bound every spacing divides one whole unit. */
  lemma SpacingDivides(x: nat) returns (g: nat, h: nat)
    requires x <= BOUND * MILLION * TICKS
    ensures g == Spacing(x, 1) > 0 && h * g == TICKS
  {
    Powers();
    SpacingIs(x, 0, 54);
    var i: nat :| i <= 54 && Spacing(x, 1) == Pow2(i);
    Pow2Sum(72 - i, i);
    g, h := Pow2(i), Pow2(72 - i);
  }

  /** Below 2^34 the spacing is at most 2^53 ticks, 2^-19 in all. */
  lemma SpacingBelow(x: nat)
    requires x < BOUND * MILLION * TICKS
    ensures Spacing(x, 1) <= SIGNIFICAND
  {
    Powers();
    SpacingIs(x, 0, 53);
    var i: nat :| i <= 53 && Spacing(x, 1) == Pow2(i);
    Pow2Monotone(i, 53);
  }

  /** A quotient that is not whole keeps enough of its fraction to round above
      the integer below it. */
  lemma StrictlyAbove(product: nat, k: nat, g: nat)
    requires k * MILLION < product && 0 < g <= SIGNIFICAND
    requires Spacing(product * TICKS, 1) == g
    ensures Quotient(product) > k * TICKS
  {
    var x := product * TICKS;
    assert x >= MILLION * k * TICKS + TICKS;
    RoundedBounds(x, g, 0);
  }

  /** One more microUSD-token than that bound and the quotient rounds down to a
      whole number: the charge is one microUSD below the true ceiling. The bound
      of TokenCostIsExact is the largest possible. */
  lemma TokenCostFirstShortfall()
    ensures TokenCost(BOUND * MILLION + 1, 1) + 1 == CeilDiv(BOUND * MILLION + 1, MILLION)
  {
    var n := BOUND * MILLION + 1;
    var x := n * TICKS;
    var g, half := 2 * SIGNIFICAND, SIGNIFICAND / 2;
    assert x == half * (MILLION * g) + TICKS;
    FirstSpacing(x);
    QuotientAndRest(x, MILLION * g, half, TICKS);
    assert Quotient(n) == BOUND * TICKS;
    CeilingIs(BOUND * TICKS, TICKS, BOUND - 1);
    CeilingIs(n, MILLION, BOUND);
  }

  lemma FirstSpacing(x: nat)
    requires MILLION * SIGNIFICAND * SIGNIFICAND <= x < MILLION * SIGNIFICAND * (2 * SIGNIFICAND)
    ensures Spacing(x, 1) == 2 * SIGNIFICAND
  {
    Powers();
    SpacingIs(x, 0, 54);
    SpacingFits(x, 1);
    var i: nat :| i <= 54 && Spacing(x, 1) == Pow2(i);
    if i < 54 { Pow2Monotone(i, 53); }
  }

  lemma QuotientAndRest(a: nat, b: nat, q: nat, r: nat)
    requires b > 0 && a == q * b + r && r < b
    ensures a / b == q && a % b == r
  {
    assert a == (a / b) * b + a % b;
    if a / b > q { Scaled(q + 1, a / b, b); }
    if a / b < q { Scaled(a / b + 1, q, b); }
  }

  // ------------------------------------------------------------ token counts

  function Utf8Width(c: char): nat {
    if c as int < 0x80 then 1
    else if c as int < 0x800 then 2
    else if c as int < 0x10000 then 3
    else 4
  }

  function Utf8Length(text: string): nat {
    if |text| == 0 then 0 else Utf8Length(text[..|text| - 1]) + Utf8Width(text[|text| - 1])
  }

  /** `estimate_tokens` of a value whose JSON text is given. */
  function EstimateTokens(text: string): nat { Max(1, CeilDiv(|text|, 4)) }

  /** `input_token_reservation_upper_bound`, with the two list lengths added up. */
  function ProtocolItems(value: Json): nat {
    if value.JObject? then ListLength(Get(value.fields, "messages")) + ListLength(Get(value.fields, "tools")) else 0
  }

  function InputUpperBound(value: Json, text: string): nat {
    Max(1, Utf8Length(text) + 4096 + 32 * ProtocolItems(value))
  }

  /** The bound as the source computes it, field by field. */
  method InputTokenReservationUpperBound(value: Json, text: string) returns (bound: nat)
    ensures bound == InputUpperBound(value, text)
    ensures bound >= EstimateTokens(text)
  {
    var protocolItems := 0;
    if value.JObject? {
      var names := ["messages", "tools"];
      for i := 0 to |names|
        invariant protocolItems == (if i >= 1 then ListLength(Get(value.fields, names[0])) else 0)
                                 + (if i >= 2 then ListLength(Get(value.fields, names[1])) else 0)
      {
        var field := Get(value.fields, names[i]);
        if field.JList? {
          protocolItems := protocolItems + |field.items|;
        }
      }
    }
    var bytes := 0;
    for i := 0 to |text|
      invariant bytes == Utf8Length(text[..i])
    {
      assert text[..i + 1][..i] == text[..i];
      bytes := bytes + Utf8Width(text[i]);
    }
    assert text[..|text|] == text;
    bound := Max(1, bytes + 4096 + 32 * protocolItems);
    EstimateWithinBound(value, text);
  }

  lemma {:induction false} CharactersWithinBytes(text: string)
    ensures |text| <= Utf8Length(text)
  {
    if |text| > 0 { CharactersWithinBytes(text[..|text| - 1]); }
  }

  /** The observed-input estimate never exceeds the input a hold is sized for. */
  lemma EstimateWithinBound(value: Json, text: string)
    ensures EstimateTokens(text) <= InputUpperBound(value, text)
  {
    CharactersWithinBytes(text);
  }

  datatype Price = Price(input: Money, output: Money, maxOutput: int)

  /** The hold `reserve_model_request` takes for a payload. */
  function HoldFor(price: Price, value: Json, text: string, maxOutput: int): (hold: nat) {
    Max(1, TokenCost(InputUpperBound(value, text), price.input) + TokenCost(maxOutput, price.output))
  }

  /** Usage inside the bounds a hold was sized for is covered by that hold. */
  lemma HoldCoversUsage(price: Price, value: Json, text: string, maxOutput: int, input: int, output: int)
    requires input <= InputUpperBound(value, text) && output <= maxOutput
    ensures TokenCost(input, price.input) + TokenCost(output, price.output) <= HoldFor(price, value, text, maxOutput)
  {
    TokenCostMonotone(input, InputUpperBound(value, text), price.input);
    TokenCostMonotone(output, maxOutput, price.output);
  }
}
