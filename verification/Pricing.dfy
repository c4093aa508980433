/** Exact pricing: domain.Cost and the frozen attempt quote
    (internal/domain/types.go, internal/application/pricing.go). */
module Pricing {
  import opened Domain

  const UNIT: int := 1_000_000

  /** The reference: `c` is the least number of micro-dollars that covers
      `product` (tokens times rate per million tokens). */
  ghost predicate IsCeiling(product: int, c: int) {
    (c - 1) * UNIT < product <= c * UNIT
  }

  lemma CeilingUnique(product: int, c: int, d: int)
    requires IsCeiling(product, c) && IsCeiling(product, d)
    ensures c == d
  {}

  /** Single term price.  Every `int64` local is an intermediate of the source. */
  function Cost(tokens: int64, rate: int64): (r: Result<int64>)
    ensures r.Failure? && r.error == ErrInvalid <==> tokens < 0 || rate < 0
    ensures r.Success? ==> IsCeiling(tokens * rate, r.value)
    ensures r.Failure? && r.error != ErrInvalid ==> r.error == ErrOverflow && tokens * rate > MAX_INT64 * UNIT
  {
    if tokens < 0 || rate < 0 then Failure(ErrInvalid)
    else if tokens == 0 || rate == 0 then Success(0)
    else
      var whole: int64, rem: int64 := tokens / UNIT, tokens % UNIT;
      var limit: int64 := MAX_INT64 / rate;
      if whole > limit then
        WholeOverflow(tokens, rate, whole);
        Failure(ErrOverflow)
      else
        WholeFits(whole, rate);
        var result: int64 := whole * rate;
        var rateWhole: int64, rateRem: int64 := rate / UNIT, rate % UNIT;
        FractionFits(rem, rateWhole, rateRem);
        var scaled: int64 := rem * rateWhole;
        var cross: int64 := rem * rateRem;
        var rounded: int64 := cross + UNIT - 1;
        var fraction: int64 := scaled + rounded / UNIT;
        Decomposition(tokens, rate, whole, rem, rateWhole, rateRem);
        if result > MAX_INT64 - fraction then Failure(ErrOverflow)
        else Success(result + fraction)
  }

  lemma WholeOverflow(tokens: int, rate: int, whole: int)
    requires tokens > 0 && rate > 0 && whole == tokens / UNIT && whole > MAX_INT64 / rate
    ensures tokens * rate > MAX_INT64 * UNIT
  {
    assert whole >= MAX_INT64 / rate + 1;
    assert whole * rate >= (MAX_INT64 / rate + 1) * rate > MAX_INT64;
    assert tokens * rate >= whole * UNIT * rate == whole * rate * UNIT;
  }

  lemma WholeFits(whole: int, rate: int)
    requires rate > 0 && 0 <= whole <= MAX_INT64 / rate
    ensures 0 <= whole * rate <= MAX_INT64
  {
    assert whole * rate <= (MAX_INT64 / rate) * rate <= MAX_INT64;
  }

  lemma FractionFits(rem: int, rateWhole: int, rateRem: int)
    requires 0 <= rem < UNIT && 0 <= rateRem < UNIT && 0 <= rateWhole <= MAX_INT64 / UNIT
    ensures 0 <= rem * rateWhole <= (UNIT - 1) * (MAX_INT64 / UNIT)
    ensures 0 <= rem * rateRem <= (UNIT - 1) * (UNIT - 1)
  {
    ProductBound(rem, rateWhole, UNIT - 1, MAX_INT64 / UNIT);
    ProductBound(rem, rateRem, UNIT - 1, UNIT - 1);
  }

  lemma ProductBound(a: int, b: int, c: int, d: int)
    requires 0 <= a <= c && 0 <= b <= d
    ensures 0 <= a * b <= c * d
  {
    assert a * b <= a * d <= c * d;
  }

  lemma Decomposition(tokens: int, rate: int, whole: int, rem: int, rateWhole: int, rateRem: int)
    requires whole == tokens / UNIT && rem == tokens % UNIT
    requires rateWhole == rate / UNIT && rateRem == rate % UNIT
    ensures tokens * rate == (whole * rate + rem * rateWhole) * UNIT + rem * rateRem
  {
    assert tokens == whole * UNIT + rem;
    assert rate == rateWhole * UNIT + rateRem;
    calc {
      tokens * rate;
      whole * UNIT * rate + rem * (rateWhole * UNIT + rateRem);
      (whole * rate) * UNIT + (rem * rateWhole) * UNIT + rem * rateRem;
    }
  }

  // ----- weighted sums of terms -------------------------------------------

  datatype PricedTokens = PricedTokens(tokens: int64, rate: int64)

  ghost function Weight(terms: seq<PricedTokens>): int {
    if terms == [] then 0
    else Weight(terms[..|terms| - 1]) + terms[|terms| - 1].tokens * terms[|terms| - 1].rate
  }

  ghost predicate NonNegative(terms: seq<PricedTokens>) {
    forall i :: 0 <= i < |terms| ==> terms[i].tokens >= 0 && terms[i].rate >= 0
  }

  lemma {:induction false} WeightNonNegative(terms: seq<PricedTokens>)
    requires NonNegative(terms)
    ensures Weight(terms) >= 0
  {
    if terms != [] {
      WeightNonNegative(terms[..|terms| - 1]);
      var last := terms[|terms| - 1];
      assert last.tokens * last.rate >= 0;
    }
  }

  /** `priceTerms`: one rounding of the whole sum, in unbounded arithmetic. */
  method PriceTerms(terms: seq<PricedTokens>) returns (r: Result<int64>)
    ensures r.Failure? && r.error == ErrInvalid <==> !NonNegative(terms)
    ensures r.Success? ==> IsCeiling(Weight(terms), r.value) && r.value >= 0
    ensures r.Failure? && NonNegative(terms) ==> r.error == ErrOverflow && Weight(terms) > MAX_INT64 * UNIT
  {
    var sum := 0;
    for i := 0 to |terms|
      invariant NonNegative(terms[..i])
      invariant sum == Weight(terms[..i])
    {
      if terms[i].tokens < 0 || terms[i].rate < 0 {
        return Failure(ErrInvalid);
      }
      assert terms[..i + 1][..i] == terms[..i];
      sum := sum + terms[i].tokens * terms[i].rate;
    }
    assert terms[..|terms|] == terms;
    WeightNonNegative(terms);
    sum := sum + 999999;
    sum := sum / UNIT;
    if sum > MAX_INT64 {
      return Failure(ErrOverflow);
    }
    return Success(sum);
  }

  /** `Cost` and a single-term `PriceTerms` agree on every input. */
  method PriceOneTerm(tokens: int64, rate: int64) returns (r: Result<int64>)
    ensures r == Cost(tokens, rate)
  {
    var term := PricedTokens(tokens, rate);
    r := PriceTerms([term]);
    assert [term][..0] == [];
    assert [term][0] == term;
    assert Weight([term]) == tokens * rate;
    assert NonNegative([term]) <==> tokens >= 0 && rate >= 0;
  }

  ghost function Sum(values: seq<int64>): int {
    if values == [] then 0 else Sum(values[..|values| - 1]) + values[|values| - 1]
  }

  ghost predicate Counts(values: seq<int64>) {
    forall i :: 0 <= i < |values| ==> values[i] >= 0
  }

  lemma {:induction false} SumPrefix(values: seq<int64>, i: nat)
    requires Counts(values) && i <= |values|
    ensures 0 <= Sum(values[..i]) <= Sum(values)
    decreases |values|
  {
    assert values[..|values|] == values;
    if i < |values| {
      SumPrefix(values[..|values| - 1], i);
      assert values[..|values| - 1][..i] == values[..i];
    } else if i > 0 {
      SumPrefix(values[..i - 1], i - 1);
      assert values[..i - 1][..i - 1] == values[..i - 1];
    }
  }

  /** `addTokens`: the total, or the first error met from the left. */
  method AddTokens(values: seq<int64>) returns (r: Result<int64>)
    ensures Counts(values) && Sum(values) <= MAX_INT64 ==> r == Success(Sum(values))
    ensures r.Success? ==> Counts(values) && r.value == Sum(values)
    ensures Counts(values) && Sum(values) > MAX_INT64 ==> r == Failure(ErrOverflow)
    ensures !Counts(values) ==> r.Failure? && (r.error == ErrInvalid || r.error == ErrOverflow)
    ensures r == Failure(ErrInvalid) ==> exists i :: 0 <= i < |values| && values[i] < 0 && Counts(values[..i]) && Sum(values[..i]) <= MAX_INT64
  {
    var total: int64 := 0;
    for i := 0 to |values|
      invariant Counts(values[..i])
      invariant total == Sum(values[..i]) && total >= 0
    {
      assert values[..i + 1][..i] == values[..i];
      if values[i] < 0 {
        assert Counts(values[..i]) && Sum(values[..i]) <= MAX_INT64;
        return Failure(ErrInvalid);
      }
      if values[i] > MAX_INT64 - total {
        if Counts(values) {
          SumPrefix(values, i + 1);
        }
        return Failure(ErrOverflow);
      }
      total := total + values[i];
    }
    assert values[..|values|] == values;
    return Success(total);
  }

  // ----- frozen quote: reservation bounds settlement ------------------------

  datatype Provider = Fake | OpenAi | Anthropic | DeepSeek

  datatype Quote = Quote(provider: Provider, exact: bool, contextTokens: int64, maxOutputTokens: int64,
                         inputPrice: int64, outputPrice: int64,
                         cacheRead: Option<int64>, cacheWrite5m: Option<int64>, cacheWrite1h: Option<int64>)
  {
    /** The parts of `attemptPricing.validate` that concern numbers. */
    ghost predicate Valid() {
      && contextTokens > 0 && maxOutputTokens > 0 && contextTokens <= MAX_INT64 - maxOutputTokens
      && inputPrice >= 0 && outputPrice >= 0
      && (provider != Fake && !exact ==> inputPrice > 0 && outputPrice > 0)
      && (cacheRead.Some? ==> cacheRead.value >= 0)
      && (cacheWrite5m.Some? ==> cacheWrite5m.value >= 0)
      && (cacheWrite1h.Some? ==> cacheWrite1h.value >= 0)
      && (provider == Anthropic && exact ==> cacheRead.Some? && cacheWrite5m.Some? && cacheWrite1h.Some?)
    }
  }

  function Dearer(a: int64, b: Option<int64>): int64 {
    if b.Some? && b.value > a then b.value else a
  }

  function InputRate(p: Quote): int64 {
    Dearer(Dearer(Dearer(p.inputPrice, p.cacheRead), p.cacheWrite5m), p.cacheWrite1h)
  }

  /** The reserve rate is the dearest configured one. */
  lemma InputRateIsDearest(p: Quote)
    ensures p.inputPrice <= InputRate(p) && (p.cacheRead.Some? ==> p.cacheRead.value <= InputRate(p))
    ensures (p.cacheWrite5m.Some? ==> p.cacheWrite5m.value <= InputRate(p)) && (p.cacheWrite1h.Some? ==> p.cacheWrite1h.value <= InputRate(p))
    ensures InputRate(p) == p.inputPrice || Some(InputRate(p)) == p.cacheRead || Some(InputRate(p)) == p.cacheWrite5m
      || Some(InputRate(p)) == p.cacheWrite1h
  {}

  ghost function ReserveWeight(p: Quote): int {
    p.contextTokens * InputRate(p) + p.maxOutputTokens * p.outputPrice
  }

  method ReserveCost(p: Quote) returns (r: Result<int64>)
    requires p.Valid()
    ensures r.Success? ==> IsCeiling(ReserveWeight(p), r.value)
    ensures r.Failure? ==> r.error == ErrOverflow && ReserveWeight(p) > MAX_INT64 * UNIT
  {
    var rates := [p.cacheRead, p.cacheWrite5m, p.cacheWrite1h];
    var inputRate := p.inputPrice;
    for i := 0 to |rates|
      invariant inputRate >= 0
      invariant i == 0 ==> inputRate == p.inputPrice
      invariant i == 1 ==> inputRate == Dearer(p.inputPrice, p.cacheRead)
      invariant i == 2 ==> inputRate == Dearer(Dearer(p.inputPrice, p.cacheRead), p.cacheWrite5m)
      invariant i == 3 ==> inputRate == InputRate(p)
    {
      if rates[i].Some? && rates[i].value > inputRate {
        inputRate := rates[i].value;
      }
    }
    var terms := [PricedTokens(p.contextTokens, inputRate), PricedTokens(p.maxOutputTokens, p.outputPrice)];
    TwoTerms(terms);
    r := PriceTerms(terms);
  }

  lemma TwoTerms(t: seq<PricedTokens>)
    requires |t| == 2
    ensures Weight(t) == t[0].tokens * t[0].rate + t[1].tokens * t[1].rate
  {
    AppendWeight([], t[0]);
    AppendWeight([] + [t[0]], t[1]);
    assert t == [] + [t[0]] + [t[1]];
  }

  lemma AppendWeight(terms: seq<PricedTokens>, t: PricedTokens)
    ensures Weight(terms + [t]) == Weight(terms) + t.tokens * t.rate
  {
    assert (terms + [t])[..|terms|] == terms;
  }

  datatype Usage = Usage(final: bool, input: Option<int64>, output: Option<int64>,
                         cacheRead: Option<int64>, cacheWrite: Option<int64>)
  {
    ghost predicate Counted() {
      && !Negative(input) && !Negative(output) && !Negative(cacheRead) && !Negative(cacheWrite)
    }
  }

  datatype Settlement = Unpriced | Priced(tokens: int64, cost: int64)

  ghost predicate Negative(c: Option<int64>) { c.Some? && c.value < 0 }

  /** What the input side of a usage report bills: a refusal, an ambiguous report
      (`None`), or the priced classes, one entry per cache class. */
  function InputTerms(p: Quote, u: Usage): Result<Option<seq<PricedTokens>>>
    requires u.Counted() && u.input.Some?
  {
    var input := u.input.value;
    match p.provider
    case Fake => Success(Some([PricedTokens(input, p.inputPrice)]))
    case Anthropic =>
      if u.cacheRead.None? || u.cacheWrite.None? then Success(None)
      else if u.cacheRead.value > 0 && p.cacheRead.None? then Success(None)
      else if u.cacheWrite.value > 0
           && (p.cacheWrite5m.None? || p.cacheWrite1h.None? || p.cacheWrite5m.value != p.cacheWrite1h.value) then Success(None)
      else Success(Some([PricedTokens(input, p.inputPrice)]
                        + (if u.cacheRead.value > 0 then [PricedTokens(u.cacheRead.value, p.cacheRead.value)] else [])
                        + (if u.cacheWrite.value > 0 then [PricedTokens(u.cacheWrite.value, p.cacheWrite5m.value)] else [])))
    case _ =>
      // input_tokens of these providers already includes the cached reads
      if u.cacheRead.None? then Success(None)
      else if u.cacheRead.value > input then Failure(ErrInvalid)
      else if u.cacheRead.value > 0 && p.cacheRead.None? then Success(None)
      else Success(Some([PricedTokens(input - u.cacheRead.value, p.inputPrice)]
                        + (if u.cacheRead.value > 0 then [PricedTokens(u.cacheRead.value, p.cacheRead.value)] else [])))
  }

  /** Tokens the provider billed on the input side. */
  function BilledInput(p: Quote, u: Usage): int
    requires u.input.Some?
  {
    if p.provider == Anthropic && u.cacheRead.Some? && u.cacheWrite.Some?
    then u.input.value + u.cacheRead.value + u.cacheWrite.value else u.input.value
  }

  ghost function Tokens(terms: seq<PricedTokens>): int {
    if terms == [] then 0 else Tokens(terms[..|terms| - 1]) + terms[|terms| - 1].tokens
  }

  /** Charging every class at the dearest rate dominates the actual weight. */
  lemma {:induction false} DearestDominates(terms: seq<PricedTokens>, top: int)
    requires NonNegative(terms) && forall i :: 0 <= i < |terms| ==> terms[i].rate <= top
    ensures 0 <= Weight(terms) <= Tokens(terms) * top && Tokens(terms) >= 0
  {
    if terms != [] {
      var init, last := terms[..|terms| - 1], terms[|terms| - 1];
      DearestDominates(init, top);
      ProductBound(last.tokens, last.rate, last.tokens, top);
      assert Tokens(terms) * top == Tokens(init) * top + last.tokens * top;
    }
  }

  /** The classes add up to exactly the billed input, none above the reserve rate. */
  lemma InputTermsFacts(p: Quote, u: Usage)
    requires p.Valid() && u.Counted() && u.input.Some?
    requires InputTerms(p, u).Success? && InputTerms(p, u).value.Some?
    ensures var t := InputTerms(p, u).value.value;
            && NonNegative(t) && (forall i :: 0 <= i < |t| ==> t[i].rate <= InputRate(p))
            && Tokens(t) == BilledInput(p, u)
  {
    var t := InputTerms(p, u).value.value;
    FewTokens(t);
  }

  lemma FewTokens(t: seq<PricedTokens>)
    ensures |t| == 1 ==> Tokens(t) == t[0].tokens
    ensures |t| == 2 ==> Tokens(t) == t[0].tokens + t[1].tokens
    ensures |t| == 3 ==> Tokens(t) == t[0].tokens + t[1].tokens + t[2].tokens
  {
    if 1 <= |t| <= 3 {
      FewTokens(t[..|t| - 1]);
    }
  }

  /** Within the frozen token bounds, no usage report outweighs the reservation. */
  lemma ReservationBoundsUsage(p: Quote, terms: seq<PricedTokens>, output: int64)
    requires p.Valid() && NonNegative(terms) && (forall i :: 0 <= i < |terms| ==> terms[i].rate <= InputRate(p))
    requires 0 <= output <= p.maxOutputTokens && Tokens(terms) <= p.contextTokens
    ensures Weight(terms) + output * p.outputPrice <= ReserveWeight(p)
  {
    DearestDominates(terms, InputRate(p));
    ProductBound(Tokens(terms), InputRate(p), p.contextTokens, InputRate(p));
    ProductBound(output, p.outputPrice, p.maxOutputTokens, p.outputPrice);
  }

  lemma CeilingMonotone(small: int, c: int, large: int, d: int)
    requires IsCeiling(small, c) && IsCeiling(large, d) && small <= large
    ensures c <= d
  {}

  lemma {:induction false} WeightConcat(a: seq<PricedTokens>, b: seq<PricedTokens>)
    ensures Weight(a + b) == Weight(a) + Weight(b)
    decreases |b|
  {
    if b == [] {
      assert a + b == a;
    } else {
      var init := b[..|b| - 1];
      WeightConcat(a, init);
      assert (a + b)[..|a + b| - 1] == a + init;
    }
  }

  lemma SumOfTwo(a: int64, b: int64)
    ensures Sum([a, b]) == a + b
  {
    assert [a, b][..1] == [a] && [a][..0] == [];
    assert Sum([a]) == a;
  }

  lemma SumOfFour(a: int64, b: int64, c: int64, d: int64)
    ensures Sum([a, b, c, d]) == a + b + c + d
  {
    assert [a, b, c, d][..3] == [a, b, c] && [a, b, c][..2] == [a, b];
    SumOfTwo(a, b);
  }

  // ----- what a usage report costs, said of the quote and the report alone -------------------

  /** A definitive report under an exact quote. */
  ghost predicate Ready(p: Quote, u: Usage) { u.final && u.input.Some? && u.output.Some? && p.exact }

  ghost function Value(c: Option<int64>): int { if c.Some? then c.value else 0 }

  ghost predicate Inclusive(p: Quote) { p.provider == OpenAi || p.provider == DeepSeek }

  /** Cached reads beyond the input they are part of. */
  ghost predicate Overbilled(p: Quote, u: Usage) { Inclusive(p) && u.cacheRead.Some? && u.cacheRead.value > Value(u.input) }

  /** A cache class is unreported or has no definite rate. */
  ghost predicate Ambiguous(p: Quote, u: Usage) {
    match p.provider
    case Fake => false
    case Anthropic =>
      || u.cacheRead.None? || u.cacheWrite.None?
      || (u.cacheRead.value > 0 && p.cacheRead.None?)
      || (u.cacheWrite.value > 0 && (p.cacheWrite5m.None? || p.cacheWrite1h.None? || p.cacheWrite5m != p.cacheWrite1h))
    case _ => u.cacheRead.None? || (0 < u.cacheRead.value <= Value(u.input) && p.cacheRead.None?)
  }

  /** Input, output and, where they come on top, cache tokens. */
  ghost function UsageTokens(p: Quote, u: Usage): int {
    Value(u.input) + Value(u.output)
    + if p.provider == Anthropic && u.cacheRead.Some? && u.cacheWrite.Some? then u.cacheRead.value + u.cacheWrite.value else 0
  }

  ghost predicate TokensOverflow(p: Quote, u: Usage) {
    Value(u.input) + Value(u.output) > MAX_INT64 || UsageTokens(p, u) > MAX_INT64
  }

  /** Each token class at its own rate. */
  ghost function UsageWeight(p: Quote, u: Usage): int { InputWeight(p, u) + Value(u.output) * p.outputPrice }

  ghost function InputWeight(p: Quote, u: Usage): int {
    var input, read, write := Value(u.input), Value(u.cacheRead), Value(u.cacheWrite);
    match p.provider
    case Fake => input * p.inputPrice
    case Anthropic => input * p.inputPrice + read * Value(p.cacheRead) + write * Value(p.cacheWrite5m)
    case _ => (input - read) * p.inputPrice + read * Value(p.cacheRead)
  }

  lemma InputTermsMeaning(p: Quote, u: Usage)
    requires u.Counted() && u.input.Some?
    ensures InputTerms(p, u) == Failure(ErrInvalid) <==> Overbilled(p, u)
    ensures InputTerms(p, u).Failure? ==> InputTerms(p, u).error == ErrInvalid
    ensures InputTerms(p, u) == Success(None) <==> Ambiguous(p, u)
    ensures InputTerms(p, u).Success? && InputTerms(p, u).value.Some? ==> Weight(InputTerms(p, u).value.value) == InputWeight(p, u)
  {
    var r := InputTerms(p, u);
    if r.Success? && r.value.Some? {
      FewWeight(r.value.value);
    }
  }

  lemma FewWeight(t: seq<PricedTokens>)
    ensures |t| == 1 ==> Weight(t) == t[0].tokens * t[0].rate
    ensures |t| == 2 ==> Weight(t) == t[0].tokens * t[0].rate + t[1].tokens * t[1].rate
    ensures |t| == 3 ==> Weight(t) == t[0].tokens * t[0].rate + t[1].tokens * t[1].rate + t[2].tokens * t[2].rate
  {
    if 1 <= |t| <= 3 {
      var n := |t| - 1;
      FewWeight(t[..n]);
      assert n == 0 ==> t[..n] == [];
      AppendWeight(t[..n], t[n]);
      assert t == t[..n] + [t[n]];
    }
  }

  /** `priceUsage`: the exact price of a definite report, rounded up once, and exactly
      when there is none.  Within the frozen bounds it is at most the reserved cost,
      whatever the provider's cache classes. */
  method PriceUsage(p: Quote, u: Usage) returns (r: Result<Settlement>)
    requires p.Valid()
    ensures r == Failure(ErrInvalid) <==> !u.Counted() || (Ready(p, u) && !TokensOverflow(p, u) && Overbilled(p, u))
    ensures r == Success(Unpriced) <==> u.Counted() && (!Ready(p, u) || (!TokensOverflow(p, u) && Ambiguous(p, u)))
    ensures r == Failure(ErrOverflow) <==>
      u.Counted() && Ready(p, u)
      && (TokensOverflow(p, u) || (!Overbilled(p, u) && !Ambiguous(p, u) && UsageWeight(p, u) > MAX_INT64 * UNIT))
    ensures r.Failure? ==> r.error == ErrInvalid || r.error == ErrOverflow
    ensures r.Success? && r.value.Priced? ==> r.value.tokens == UsageTokens(p, u) && IsCeiling(UsageWeight(p, u), r.value.cost)
    ensures r.Success? && r.value.Priced?
            && UsageTokens(p, u) - u.output.value <= p.contextTokens && u.output.value <= p.maxOutputTokens
            ==> forall reserved :: IsCeiling(ReserveWeight(p), reserved) ==> 0 <= r.value.cost <= reserved
  {
    var counters := [u.input, u.output, u.cacheRead, u.cacheWrite];
    for i := 0 to |counters|
      invariant forall k :: 0 <= k < i ==> !Negative(counters[k])
    {
      if counters[i].Some? && counters[i].value < 0 {
        return Failure(ErrInvalid);
      }
    }
    assert !Negative(counters[0]) && !Negative(counters[1]) && !Negative(counters[2]) && !Negative(counters[3]);
    if !u.final || u.input.None? || u.output.None? || !p.exact {
      return Success(Unpriced);
    }
    hide InputTerms, InputWeight, IsCeiling, Quote.Valid, Ambiguous, Overbilled, NonNegative, ReserveWeight;
    var input, output := u.input.value, u.output.value;
    var total := AddTokens([input, output]);
    SumOfTwo(input, output);
    if total.Failure? {
      return Failure(total.error);
    }
    if p.provider == Anthropic && u.cacheRead.Some? && u.cacheWrite.Some? {
      total := AddTokens([input, u.cacheRead.value, u.cacheWrite.value, output]);
      SumOfFour(input, u.cacheRead.value, u.cacheWrite.value, output);
      if total.Failure? {
        return Failure(total.error);
      }
    }
    InputTermsMeaning(p, u);
    var inputTerms := InputTerms(p, u);
    if inputTerms.Failure? {
      return Failure(inputTerms.error);
    }
    if inputTerms.value.None? {
      return Success(Unpriced);
    }
    InputTermsFacts(p, u);
    var first := PricedTokens(output, p.outputPrice);
    var terms := [first] + inputTerms.value.value;
    WeightConcat([first], inputTerms.value.value);
    FewWeight([first]);
    AllNonNegative(p, first, inputTerms.value.value);
    var cost := PriceTerms(terms);
    if cost.Failure? {
      return Failure(cost.error);
    }
    CeilingFits(UsageWeight(p, u), cost.value);
    if BilledInput(p, u) <= p.contextTokens && output <= p.maxOutputTokens {
      ReservationBoundsUsage(p, inputTerms.value.value, output);
      forall reserved | IsCeiling(ReserveWeight(p), reserved) ensures cost.value <= reserved {
        CeilingMonotone(Weight(terms), cost.value, ReserveWeight(p), reserved);
      }
    }
    return Success(Priced(total.value, cost.value));
  }

  lemma AllNonNegative(p: Quote, first: PricedTokens, rest: seq<PricedTokens>)
    requires p.Valid() && first.tokens >= 0 && first.rate == p.outputPrice && NonNegative(rest)
    ensures NonNegative([first] + rest)
  {}

  lemma CeilingFits(weight: int, cost: int)
    requires IsCeiling(weight, cost) && cost <= MAX_INT64
    ensures weight <= MAX_INT64 * UNIT
  {}
}
