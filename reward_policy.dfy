/** The reward policy of the recycling handler: a fixed table from device type
    to environmental risk tier, and a payout computed from the tier.

    Both lookups are total. A device type missing from the risk table is
    treated as `Safe`, and a tier name missing from the multiplier table is
    paid with multiplier 1; neither is an error. */
module RewardPolicy {

  /** The risk tiers named in the two tables. `LowRisk` appears only in the
      multiplier table. */
  datatype RiskTier = Safe | LowRisk | MediumRisk | HighRisk | VeryHighRisk

  /** The string the handler carries for a tier (it passes tiers around as
      strings and hands them to the ledger and to the reward computation). */
  function TierName(t: RiskTier): (name: string) {
    match t
    case Safe => "Safe"
    case LowRisk => "LowRisk"
    case MediumRisk => "MediumRisk"
    case HighRisk => "HighRisk"
    case VeryHighRisk => "VeryHighRisk"
  }

  /** The device-type table of getEnvironmentalRisk. */
  const RiskMap: map<string, RiskTier> := map[
    "usb_cable" := Safe,
    "phone_charger" := Safe,
    "smartphone" := MediumRisk,
    "laptop" := HighRisk,
    "power_bank" := VeryHighRisk,
    "laptop_battery" := VeryHighRisk
  ]

  /** Risk tier of a device type. The source writes `riskMap[deviceType] || 'Safe'`;
      every value of the table is a non-empty (truthy) string, so the fallback
      is taken exactly when the key is absent. The contract gives the preimage
      of every tier, independently of the table. */
  function EnvironmentalRisk(deviceType: string): (r: RiskTier)
    ensures r == VeryHighRisk <==> deviceType == "power_bank" || deviceType == "laptop_battery"
    ensures r == HighRisk <==> deviceType == "laptop"
    ensures r == MediumRisk <==> deviceType == "smartphone"
    ensures r != LowRisk
    ensures r == Safe <==>
              deviceType !in {"smartphone", "laptop", "power_bank", "laptop_battery"}
  {
    if deviceType in RiskMap then RiskMap[deviceType] else Safe
  }

  /** Base payout, in ADA. */
  const BaseReward: nat := 2

  /** The multiplier table of calculateReward, keyed by tier name. */
  const Multipliers: map<string, nat> := map[
    "Safe" := 1,
    "LowRisk" := 1,
    "MediumRisk" := 2,
    "HighRisk" := 2,
    "VeryHighRisk" := 3
  ]

  /** Payout for a tier name: `baseReward * (multipliers[environmentalRisk] || 1)`.
      A zero multiplier would be falsy in the source and fall back to 1 too, so
      that test is kept although the table has no zero entry. */
  function CalculateReward(environmentalRisk: string): (r: nat)
    ensures r == 2 || r == 4 || r == 6
    ensures environmentalRisk !in Multipliers ==> r == BaseReward
    ensures r == 6 <==> environmentalRisk == TierName(VeryHighRisk)
    ensures r == BaseReward * (if environmentalRisk == "VeryHighRisk" then 3
                               else if environmentalRisk in {"MediumRisk", "HighRisk"} then 2
                               else 1)
  {
    var m := if environmentalRisk in Multipliers && Multipliers[environmentalRisk] != 0
             then Multipliers[environmentalRisk] else 1;
    BaseReward * m
  }

  /** Position of a tier in the multiplier table, from least to most hazardous. */
  function Severity(t: RiskTier): (rank: nat) {
    match t
    case Safe => 0
    case LowRisk => 1
    case MediumRisk => 2
    case HighRisk => 3
    case VeryHighRisk => 4
  }

  /** Every tier the risk table can produce is paid from the table, never
      through the fallback; only a string that names no tier gets the fallback. */
  lemma TierNamesInTable(t: RiskTier)
    ensures TierName(t) in Multipliers && Multipliers[TierName(t)] != 0
  {
  }

  /** A more hazardous tier never pays less than a less hazardous one. */
  lemma RewardMonotone(t1: RiskTier, t2: RiskTier)
    requires Severity(t1) <= Severity(t2)
    ensures CalculateReward(TierName(t1)) <= CalculateReward(TierName(t2))
  {
  }

  /** The reward a drop of a given device type is estimated at, as the drop
      submission composes the two lookups: 6 for batteries and power banks,
      4 for laptops and smartphones, 2 for everything else, unknown types
      included. */
  lemma DeviceReward(deviceType: string)
    ensures CalculateReward(TierName(EnvironmentalRisk(deviceType))) ==
              if deviceType in {"power_bank", "laptop_battery"} then 6
              else if deviceType in {"laptop", "smartphone"} then 4
              else 2
  {
  }
}
