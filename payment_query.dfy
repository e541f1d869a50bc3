/** The backend's `PaymentQuery`: the database summary with every figure rounded
    to two decimals, midpoints away from zero. */
module Query {
  import opened Wrappers
  import opened Rounding
  import opened Models
  import opened DbClient

  /** `Math.Round(amount, 2, MidpointRounding.AwayFromZero)`. */
  function RoundToCommercialAmount(amount: real): (r: real)
    ensures amount - 0.005 <= r <= amount + 0.005
    ensures (r * 100.0).Floor as real == r * 100.0
    ensures r - amount == 0.005 ==> amount > 0.0
    ensures amount - r == 0.005 ==> amount < 0.0
  {
    RoundHalfAway(amount * 100.0) as real / 100.0
  }

  /** Rounding an already rounded amount changes nothing. */
  lemma RoundingIsIdempotent(amount: real)
    ensures RoundToCommercialAmount(RoundToCommercialAmount(amount)) == RoundToCommercialAmount(amount)
  {
    var n := RoundHalfAway(amount * 100.0);
    assert RoundToCommercialAmount(amount) * 100.0 == n as real;
    RoundHalfAwayOfInteger(n);
  }

  /** Whole numbers, such as request counts, come back unchanged. */
  lemma WholeNumbersUnchanged(k: int)
    ensures RoundToCommercialAmount(k as real) == k as real
  {
    RoundHalfAwayOfInteger(k * 100);
  }

  /** A midpoint goes away from zero on either side. */
  lemma MidpointsGoAwayFromZero()
    ensures RoundToCommercialAmount(20.005) == 20.01
    ensures RoundToCommercialAmount(-20.005) == -20.01
  {
    RoundHalfAwayUnique(2000.5, 2001);
    RoundHalfAwayUnique(-2000.5, -2001);
  }

  function RoundData(d: PaymentSummaryData): PaymentSummaryData {
    PaymentSummaryData(RoundToCommercialAmount(d.totalRequests), RoundToCommercialAmount(d.totalAmount))
  }

  /** `GetPaymentsSummaryAsync`, given the database server's response (absent when
      its body is `null`): each of the four figures rounded on its own. */
  function GetPaymentsSummary(response: Option<PaymentSummary>): (s: PaymentSummary)
    ensures response.None? ==> s == EmptySummary
    ensures response.Some? ==>
              var d := response.value;
              && s.default.totalRequests == RoundToCommercialAmount(d.default.totalRequests)
              && s.default.totalAmount == RoundToCommercialAmount(d.default.totalAmount)
              && s.fallback.totalRequests == RoundToCommercialAmount(d.fallback.totalRequests)
              && s.fallback.totalAmount == RoundToCommercialAmount(d.fallback.totalAmount)
    ensures response.Some? ==>
              var d := response.value;
              && -0.005 <= s.default.totalAmount - d.default.totalAmount <= 0.005
              && -0.005 <= s.fallback.totalAmount - d.fallback.totalAmount <= 0.005
              && -0.005 <= s.default.totalRequests - d.default.totalRequests <= 0.005
              && -0.005 <= s.fallback.totalRequests - d.fallback.totalRequests <= 0.005
    ensures response.Some? && response.value.default.totalRequests.Floor as real == response.value.default.totalRequests ==>
              s.default.totalRequests == response.value.default.totalRequests
    ensures response.Some? && response.value.fallback.totalRequests.Floor as real == response.value.fallback.totalRequests ==>
              s.fallback.totalRequests == response.value.fallback.totalRequests
  {
    var result := SummaryOrZero(response);
    WholeNumbersUnchanged(0);
    WholeNumbersUnchanged(result.default.totalRequests.Floor);
    WholeNumbersUnchanged(result.fallback.totalRequests.Floor);
    PaymentSummary(RoundData(result.default), RoundData(result.fallback))
  }

  /** A summary whose figures are already whole cents passes through unchanged. */
  lemma RoundedSummaryIsStable(response: Option<PaymentSummary>)
    ensures GetPaymentsSummary(Some(GetPaymentsSummary(response))) == GetPaymentsSummary(response)
  {
    var s := GetPaymentsSummary(response);
    if response.Some? {
      var d := response.value;
      RoundingIsIdempotent(d.default.totalRequests);
      RoundingIsIdempotent(d.default.totalAmount);
      RoundingIsIdempotent(d.fallback.totalRequests);
      RoundingIsIdempotent(d.fallback.totalAmount);
    } else {
      WholeNumbersUnchanged(0);
    }
  }
}
