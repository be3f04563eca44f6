/**
 * The GitHub `sponsorship` webhook payload, restricted to the fields the
 * relay reads, as a closed union of its six actions.  Every variant carries
 * the same `sponsorship`; the extra fields of the later variants are declared
 * by the source and never read.
 */
module Events {

  /** A GitHub account: the sponsor reads all four fields, the sponsorable all but the avatar. */
  datatype Account = Account(login: string, id: int, url: string, avatarUrl: string)

  /** A sponsorship tier; the price is a whole number of dollars. */
  datatype Tier = Tier(name: string, monthlyPriceInDollars: int)

  datatype Sponsorship = Sponsorship(sponsor: Account, sponsorable: Account, tier: Tier)

  datatype Event =
    | Created(sponsorship: Sponsorship)
    | Cancelled(sponsorship: Sponsorship)
    | Edited(sponsorship: Sponsorship, privacyLevelFrom: string)
    | TierChanged(sponsorship: Sponsorship, tierFrom: Tier)
    | PendingTierChange(sponsorship: Sponsorship, tierFrom: Tier, effectiveDate: string)
    | PendingCancellation(sponsorship: Sponsorship, effectiveDate: string)
  {
    /** The payload's `action` tag, the value the union is discriminated on. */
    function Action(): (a: string)
      ensures a == "created" <==> Created?
      ensures a == "cancelled" <==> Cancelled?
    {
      match this
      case Created(_) => "created"
      case Cancelled(_) => "cancelled"
      case Edited(_, _) => "edited"
      case TierChanged(_, _) => "tier_changed"
      case PendingTierChange(_, _, _) => "pending_tier_change"
      case PendingCancellation(_, _) => "pending_cancellation"
    }
  }

  /** Two events are of the same action variant. */
  predicate SameVariant(e1: Event, e2: Event) {
    match (e1, e2)
    case (Created(_), Created(_)) => true
    case (Cancelled(_), Cancelled(_)) => true
    case (Edited(_, _), Edited(_, _)) => true
    case (TierChanged(_, _), TierChanged(_, _)) => true
    case (PendingTierChange(_, _, _), PendingTierChange(_, _, _)) => true
    case (PendingCancellation(_, _), PendingCancellation(_, _)) => true
    case _ => false
  }

  /** The action tag is a faithful discriminant: equal tags exactly when the variants agree. */
  lemma ActionIdentifiesVariant(e1: Event, e2: Event)
    ensures e1.Action() == e2.Action() <==> SameVariant(e1, e2)
  {
  }
}
