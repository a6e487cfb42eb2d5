/** Sponsor tiers and their ranks (src/company/company-tier.util.ts). */
module CompanyTier {
  import opened Common

  datatype Tier = Default | Bronze | Silver | Gold | Platinum | Headliner

  function Rank(t: Option<Tier>): nat {
    match t
    case None => 0
    case Some(Default) => 0
    case Some(Bronze) => 1
    case Some(Silver) => 2
    case Some(Gold) => 3
    case Some(Platinum) => 4
    case Some(Headliner) => 5
  }

  function MaxTier(a: Option<Tier>, b: Option<Tier>): Option<Tier> {
    if Rank(a) >= Rank(b) then a else b
  }

  /** The tier shown for a company: the stored tier or the tier of its booth, whichever ranks higher. */
  function EffectiveDisplayTier(stored: Option<Tier>, booth: Option<Tier>): Tier {
    var s := if stored.None? then Some(Default) else stored;
    var m := MaxTier(s, booth);
    if m.None? then Default else m.value
  }

  lemma EffectiveRank(stored: Option<Tier>, booth: Option<Tier>)
    ensures Rank(Some(EffectiveDisplayTier(stored, booth))) ==
            if Rank(stored) >= Rank(booth) then Rank(stored) else Rank(booth)
    ensures EffectiveDisplayTier(stored, booth) ==
            if Some(Headliner) in {stored, booth} then Headliner
            else if Some(Platinum) in {stored, booth} then Platinum
            else if Some(Gold) in {stored, booth} then Gold
            else if Some(Silver) in {stored, booth} then Silver
            else if Some(Bronze) in {stored, booth} then Bronze
            else Default
  {
  }

  /** The highest tier of a set, with no tier at all when nothing in it ranks above zero. */
  function BestTier(s: set<Tier>): (t: Option<Tier>)
    ensures forall x | x in s :: Rank(Some(x)) <= Rank(t)
    ensures Rank(t) > 0 ==> t.value in s
    ensures Rank(t) == 0 ==> t == None
  {
    if Headliner in s then Some(Headliner)
    else if Platinum in s then Some(Platinum)
    else if Gold in s then Some(Gold)
    else if Silver in s then Some(Silver)
    else if Bronze in s then Some(Bronze)
    else None
  }
}
