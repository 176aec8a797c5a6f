/** Tier names, tier numbers and the two image tables keyed by tier number.
    An image is named here by the asset file the table entry loads. */
module TierImages {
  import opened Wrappers

  const TierImages: map<int, string> := map[
    1 := "tier/1.png", 2 := "tier/2.png", 3 := "tier/3.png", 4 := "tier/4.png", 5 := "tier/5.png"]

  /** The shooting-star table has no entry for tier 1. */
  const TierStarImages: map<int, string> := map[
    2 := "tier/22.png", 3 := "tier/33.png", 4 := "tier/44.png", 5 := "tier/55.png"]

  const KnownTiers := ["TinyStar", "ShinyStar", "WaveStar", "PlanetStar", "HappyGalaxy"]

  /** A table lookup that is undefined for a missing key. */
  function Lookup(table: map<int, string>, n: int): Option<string> {
    if n in table then Some(table[n]) else None
  }

  /** The tier number of a tier name: its position in the tier ladder, and 1
      for any name the ladder does not know. */
  function GetTierNumber(tier: string): (n: int)
    ensures 1 <= n <= 5
    ensures forall i :: 0 <= i < |KnownTiers| && tier == KnownTiers[i] ==> n == i + 1
  {
    match tier
    case "TinyStar" => 1
    case "ShinyStar" => 2
    case "WaveStar" => 3
    case "PlanetStar" => 4
    case "HappyGalaxy" => 5
    case _ => 1
  }

  /** `TIER_IMAGES[n] || TIER_IMAGES[1]`: always an image of the table. */
  function GetTierImage(n: int): (img: Option<string>)
    ensures img.Some? && img.value in TierImages.Values
    ensures img == if 1 <= n <= 5 then Some(TierImages[n]) else Some(TierImages[1])
  {
    Lookup(TierImages, n).OrElse(Lookup(TierImages, 1))
  }

  /** `TIER_STAR_IMAGES[n] || TIER_STAR_IMAGES[1]`: the fallback entry does
      not exist, so the result is undefined outside 2..5. */
  function GetTierStarImage(n: int): (img: Option<string>)
    ensures img.Some? <==> 2 <= n <= 5
    ensures img.Some? ==> img.value == TierStarImages[n]
  {
    Lookup(TierStarImages, n).OrElse(Lookup(TierStarImages, 1))
  }

  /** The ladder: the k-th known name has number k + 1 ... */
  lemma TierNumberLadder()
    ensures forall i :: 0 <= i < |KnownTiers| ==> GetTierNumber(KnownTiers[i]) == i + 1
  {
    forall i | 0 <= i < |KnownTiers| ensures GetTierNumber(KnownTiers[i]) == i + 1 {
      if i == 0 {} else if i == 1 {} else if i == 2 {} else if i == 3 {} else {}
    }
  }

  /** ... any other name is tier 1 ... */
  lemma UnknownTierIsOne(tier: string)
    requires tier !in KnownTiers
    ensures GetTierNumber(tier) == 1
  {
    assert tier != KnownTiers[0] && tier != KnownTiers[1] && tier != KnownTiers[2];
    assert tier != KnownTiers[3] && tier != KnownTiers[4];
  }

  /** ... and no two known names share a number. */
  lemma TierNumberInjectiveOnKnown(a: string, b: string)
    requires a in KnownTiers && b in KnownTiers
    requires GetTierNumber(a) == GetTierNumber(b)
    ensures a == b
  {
    TierNumberLadder();
    var i :| 0 <= i < |KnownTiers| && KnownTiers[i] == a;
    var j :| 0 <= j < |KnownTiers| && KnownTiers[j] == b;
  }

  /** Every tier name has a tier image; only ShinyStar and above have a star image. */
  lemma ImagesOfTierName(tier: string)
    ensures GetTierImage(GetTierNumber(tier)).Some?
    ensures GetTierStarImage(GetTierNumber(tier)).None?
            <==> tier !in ["ShinyStar", "WaveStar", "PlanetStar", "HappyGalaxy"]
  {
  }
}
