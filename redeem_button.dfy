/**
 * The state of the redeem (rent with credits) button
 * (src/screens/components/RedeemButton.tsx), computed from the entitlement
 * check and the user's credit balance.
 */
module RedeemButton {
  import opened Wrappers

  datatype RedeemState = CheckingEntitlement | NotEntitledNoCredit | NotEntitled | Entitled

  /** A number that JavaScript treats as true: present and nonzero. */
  predicate TruthyNumber(n: Option<int>)
  {
    n.Some? && n.value != 0
  }

  /**
   * `useRedeemState`: `entitled` is whether an entitlement object is given,
   * `credits` the wallet balance and `price` the asset's credits.
   */
  function UseRedeemState(entitlementLoading: bool, entitled: bool, creditsLoading: bool, credits: Option<int>, price: Option<int>): (r: RedeemState)
    ensures entitlementLoading ==> r == CheckingEntitlement
    ensures !entitlementLoading && entitled ==> r == Entitled
    ensures !entitlementLoading && !entitled && creditsLoading ==> r == CheckingEntitlement
    ensures !entitlementLoading && !entitled && !creditsLoading ==>
              (r == NotEntitled <==> TruthyNumber(credits) && TruthyNumber(price) && credits.value >= price.value) &&
              (r == NotEntitled || r == NotEntitledNoCredit)
  {
    if entitlementLoading then CheckingEntitlement
    else if entitled then Entitled
    else if creditsLoading then CheckingEntitlement
    else if TruthyNumber(credits) && TruthyNumber(price) && credits.value >= price.value then NotEntitled
    else NotEntitledNoCredit
  }

  /** Entitlement does not depend on credits: an entitled, settled check is Entitled whatever the balance. */
  lemma EntitledRegardlessOfCredits(creditsLoading: bool, credits: Option<int>, price: Option<int>, creditsLoading': bool, credits': Option<int>, price': Option<int>)
    ensures UseRedeemState(false, true, creditsLoading, credits, price) == UseRedeemState(false, true, creditsLoading', credits', price')
  {
  }

  /** A free asset (no price, or a price of 0) can never be redeemed with credits. */
  lemma FreeAssetNeedsNoCredit(credits: Option<int>, price: Option<int>)
    requires !TruthyNumber(price)
    ensures UseRedeemState(false, false, false, credits, price) == NotEntitledNoCredit
  {
  }

  /** Raising the balance never takes away the possibility to redeem. */
  lemma MoreCreditsStillRedeemable(c1: int, c2: int, price: Option<int>)
    requires 0 < c1 <= c2
    requires UseRedeemState(false, false, false, Some(c1), price) == NotEntitled
    ensures UseRedeemState(false, false, false, Some(c2), price) == NotEntitled
  {
  }
}
