// Burn sizing for a bridged payment (dashboard/lib/cctp.ts): the least burn that delivers a price
// at a fee, and the decision to pay once it is attested.
module Burn {
  import opened Wrappers

  const SCALE: int := 10_000

  function CeilDiv(a: int, b: int): int
    requires b > 0
  {
    (a + b - 1) / b
  }

  function MaxFee(burn: int, bps: int): int {
    CeilDiv(burn * bps, SCALE)
  }

  // The burn leaves the price after its full fee.
  predicate Delivers(burn: int, price: int, bps: int) {
    burn - MaxFee(burn, bps) >= price
  }

  function ClosedForm(price: int, bps: int): int
    requires bps < SCALE
  {
    price + CeilDiv(price * bps, SCALE - bps)
  }

  // A ceiling is the least multiplier that covers.
  lemma CeilDivCovers(a: int, b: int, k: int)
    requires b > 0
    ensures CeilDiv(a, b) <= k <==> a <= k * b
  {
    var q := CeilDiv(a, b);
    assert q * b <= a + b - 1 < q * b + b;
    if q <= k {
      Times(q, k, b);
    } else {
      Times(k + 1, q, b);
    }
  }

  lemma Times(j: int, k: int, b: int)
    requires j <= k && b > 0
    ensures j * b <= k * b
  {
  }

  // A burn delivers exactly when what it adds to the price covers the price's share of the fee.
  lemma DeliversAt(price: int, bps: int, extra: int)
    requires 0 <= bps < SCALE
    ensures Delivers(price + extra, price, bps) <==> price * bps <= extra * (SCALE - bps)
  {
    CeilDivCovers((price + extra) * bps, SCALE, extra);
    assert (price + extra) * bps == price * bps + extra * bps;
    assert extra * (SCALE - bps) == extra * SCALE - extra * bps;
  }

  // The closed form is exact: a burn delivers the price at the full fee exactly when it is at
  // least the closed form. So the correction loop never runs, and no smaller burn would do.
  lemma ClosedFormIsLeast(price: int, bps: int, burn: int)
    requires 0 <= bps < SCALE
    ensures Delivers(burn, price, bps) <==> burn >= ClosedForm(price, bps)
  {
    var extra := burn - price;
    DeliversAt(price, bps, extra);
    CeilDivCovers(price * bps, SCALE - bps, extra);
  }

  datatype Sized = Sized(burn: int, maxFee: int)

  // The correction loop, from any start at or below the least delivering burn: it stops there,
  // after as many rounds as the start fell short.
  method Correct(start: int, price: int, bps: int) returns (sized: Sized, ghost rounds: nat)
    requires 0 <= bps < SCALE && start <= ClosedForm(price, bps)
    ensures sized == Sized(ClosedForm(price, bps), MaxFee(sized.burn, bps))
    ensures rounds == sized.burn - start
  {
    var burn, maxFee := start, CeilDiv(start * bps, SCALE);
    rounds := 0;
    while burn - maxFee < price
      invariant burn <= ClosedForm(price, bps) && maxFee == MaxFee(burn, bps) && rounds == burn - start
      decreases ClosedForm(price, bps) - burn
    {
      ClosedFormIsLeast(price, bps, burn);
      burn := burn + 1;
      maxFee := CeilDiv(burn * bps, SCALE);
      rounds := rounds + 1;
    }
    ClosedFormIsLeast(price, bps, burn);
    sized := Sized(burn, maxFee);
  }

  // The sizing as it runs: it starts from the closed form, which is already the answer, so that no
  // round of correction is ever made.
  method BurnFor(price: int, bps: int) returns (r: Option<Sized>, ghost rounds: nat)
    ensures r.None? <==> price <= 0 || bps < 0 || bps >= SCALE
    ensures r.Some? ==>
              && r.value == Sized(ClosedForm(price, bps), MaxFee(r.value.burn, bps))
              && forall burn :: Delivers(burn, price, bps) <==> burn >= r.value.burn
    ensures rounds == 0
  {
    if price <= 0 || bps < 0 || bps >= SCALE {
      return None, 0;
    }
    var sized;
    sized, rounds := Correct(price + CeilDiv(price * bps, SCALE - bps), price, bps);
    forall burn ensures Delivers(burn, price, bps) <==> burn >= sized.burn {
      ClosedFormIsLeast(price, bps, burn);
    }
    r := Some(sized);
  }

  // ----- Finishing -----

  datatype Pay = Now | Short | AfterMint

  datatype Finish = Finish(mint: bool, pay: Pay)

  datatype Attested = Attested(
    alreadyMinted: bool,
    amount: int,
    feeExecuted: Option<int>,
    maxFee: Option<int>,
    arcBalance: int,
    price: int)

  function FinishPlan(p: Attested): Finish {
    if p.alreadyMinted then Finish(false, if p.arcBalance >= p.price then Now else Short)
    else
      var fee := if p.feeExecuted.Some? then p.feeExecuted else p.maxFee;
      match fee
      case None => Finish(true, AfterMint)
      case Some(f) =>
        var minted := if p.amount > f then p.amount - f else 0;
        Finish(true, if p.arcBalance + minted >= p.price then Now else Short)
  }

  // What the wallet will hold once the mint has landed with the fee actually charged.
  function BalanceAfter(p: Attested, fee: int): int {
    if p.alreadyMinted then p.arcBalance else p.arcBalance + if p.amount > fee then p.amount - fee else 0
  }

  // The fee charged is the one reported, or unreported and within the cap.
  predicate Charged(p: Attested, fee: int) {
    (p.feeExecuted.Some? ==> fee == p.feeExecuted.value) && (p.maxFee.Some? ==> fee <= p.maxFee.value)
  }

  // It mints exactly what has not been minted already. It never says pay now when the balance after
  // the mint would be short; when the fee is reported or nothing is left to mint it says so exactly
  // when the balance suffices; and it leaves the question open exactly when neither fee nor cap is
  // known.
  lemma PaysOnlyWhenCovered(p: Attested, fee: int)
    requires Charged(p, fee)
    ensures FinishPlan(p).mint <==> !p.alreadyMinted
    ensures FinishPlan(p).pay == Now ==> BalanceAfter(p, fee) >= p.price
    ensures p.alreadyMinted || p.feeExecuted.Some? ==>
              (FinishPlan(p).pay == Now <==> BalanceAfter(p, fee) >= p.price) &&
              (FinishPlan(p).pay == Short <==> BalanceAfter(p, fee) < p.price)
    ensures FinishPlan(p).pay == AfterMint <==> !p.alreadyMinted && p.feeExecuted.None? && p.maxFee.None?
  {
  }

  // A burn sized for a price pays it now, whatever fee up to its cap is reported or left unreported.
  lemma SizedBurnPaysNow(price: int, bps: int, p: Attested)
    requires price > 0 && 0 <= bps < SCALE
    requires p.amount == ClosedForm(price, bps) && p.maxFee == Some(MaxFee(p.amount, bps)) && p.price == price
    requires !p.alreadyMinted && p.arcBalance >= 0
    requires p.feeExecuted.Some? ==> p.feeExecuted.value <= p.maxFee.value
    ensures FinishPlan(p) == Finish(true, Now)
  {
    ClosedFormIsLeast(price, bps, p.amount);
  }
}
