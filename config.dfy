/**
 * The category registry and the per-network threshold profiles
 * (proof_of_quality/config.py).
 */
module Config {
  import opened Wrappers

  /** The eight recognised file names; the position of a name is its slot in the packed record. */
  const InterestingFiles: seq<string> := [
    "Retail.CartItems.1.csv",
    "Digital Items.csv",
    "Retail.OrderHistory.1.csv",
    "Retail.OrderHistory.2.csv",
    "Audible.PurchaseHistory.csv",
    "Audible.Library.csv",
    "Audible.MembershipBillings.csv",
    "PrimeVideo.ViewingHistory.csv"
  ]

  const FileCount: nat := 8

  /** The seven extraction/scoring rules; both order-history files share one. */
  datatype Rule = CartItemsRule | DigitalItemsRule | OrderHistoryRule | AudiblePurchaseRule
                | AudibleLibraryRule | AudibleBillingsRule | VideoViewingRule

  /** The name dispatch of analyze_data and calculate_score; None is their ValueError. */
  function RuleOf(name: string): (r: Option<Rule>)
    ensures r.Some? <==> name in InterestingFiles
    ensures r == Some(OrderHistoryRule) <==> name == InterestingFiles[2] || name == InterestingFiles[3]
  {
    if name == "Retail.CartItems.1.csv" then Some(CartItemsRule)
    else if name == "Digital Items.csv" then Some(DigitalItemsRule)
    else if name in ["Retail.OrderHistory.1.csv", "Retail.OrderHistory.2.csv"] then Some(OrderHistoryRule)
    else if name == "Audible.PurchaseHistory.csv" then Some(AudiblePurchaseRule)
    else if name == "Audible.Library.csv" then Some(AudibleLibraryRule)
    else if name == "Audible.MembershipBillings.csv" then Some(AudibleBillingsRule)
    else if name == "PrimeVideo.ViewingHistory.csv" then Some(VideoViewingRule)
    else None
  }

  /** No two slots of the registry hold the same name. */
  lemma InterestingFilesDistinct()
    ensures |InterestingFiles| == FileCount
    ensures forall i, j :: 0 <= i < j < FileCount ==> InterestingFiles[i] != InterestingFiles[j]
  {
  }

  /** The slot of a recognised file name. */
  function Position(name: string): (k: nat)
    requires name in InterestingFiles
    ensures k < FileCount && InterestingFiles[k] == name
  {
    InterestingFilesDistinct();
    PositionFrom(name, 0)
  }

  function PositionFrom(name: string, start: nat): (k: nat)
    requires start <= FileCount
    requires name in InterestingFiles[start..]
    ensures start <= k < FileCount && InterestingFiles[k] == name
    decreases FileCount - start
  {
    if InterestingFiles[start] == name then start else PositionFrom(name, start + 1)
  }

  /** The numeric settings of one network (the text setting GPT_MODEL is not modelled). */
  type Profile = map<string, real>

  const ThresholdKey := "THRESHOLD_SCORE"
  const SampleSizeKey := "SAMPLE_SIZE"

  const Satori: Profile := map[
    "MIN_ORDERS" := 1.0,
    "MIN_TOTAL_AMOUNT" := 5.0,
    "MIN_UNIQUE_PRODUCTS" := 1.0,
    "THRESHOLD_SCORE" := 10.0,
    "SAMPLE_SIZE" := 3.0,
    "MAX_VALIDATION_CHUNK_SIZE" := 4000.0,
    "HALF_LIFE_DAYS" := 730.0,
    "ROLLOFF_EXPONENT" := 1.2,
    "MIN_ITEMS" := 1.0,
    "MIN_DIGITAL_ITEMS" := 1.0,
    "MIN_LIBRARY_ITEMS" := 1.0,
    "MIN_UNIQUE_AUDIOBOOKS" := 1.0,
    "MIN_PURCHASES" := 1.0,
    "MIN_BILLINGS" := 1.0,
    "MIN_VIEWING_SESSIONS" := 1.0,
    "MIN_TOTAL_HOURS" := 0.5,
    "MIN_UNIQUE_TITLES" := 1.0,
    "MIN_DATE_RANGE_DAYS" := 1.0,
    "MIN_WEBSITES" := 1.0,
    "MIN_PAYMENT_METHODS" := 1.0,
    "SCORE_SCALING" := 1.2,
    "LOG_BASE" := 1.8
  ]

  const Mainnet: Profile := map[
    "MIN_ORDERS" := 2.0,
    "MIN_TOTAL_AMOUNT" := 20.0,
    "MIN_UNIQUE_PRODUCTS" := 2.0,
    "THRESHOLD_SCORE" := 15.0,
    "SAMPLE_SIZE" := 30.0,
    "MAX_VALIDATION_CHUNK_SIZE" := 16285.0,
    "HALF_LIFE_DAYS" := 365.0,
    "ROLLOFF_EXPONENT" := 1.2,
    "MIN_DATA_TIME" := 1825.0,
    "MIN_PURCHASES_PER_WEEK" := 3.0,
    "MIN_ITEMS" := 2.0,
    "MIN_DIGITAL_ITEMS" := 2.0,
    "MIN_LIBRARY_ITEMS" := 2.0,
    "MIN_UNIQUE_AUDIOBOOKS" := 2.0,
    "MIN_PURCHASES" := 2.0,
    "MIN_BILLINGS" := 1.0,
    "MIN_VIEWING_SESSIONS" := 2.0,
    "MIN_TOTAL_HOURS" := 1.0,
    "MIN_UNIQUE_TITLES" := 2.0,
    "MIN_DATE_RANGE_DAYS" := 7.0,
    "MIN_WEBSITES" := 1.0,
    "MIN_PAYMENT_METHODS" := 1.0,
    "SCORE_SCALING" := 2.5,
    "LOG_BASE" := 1.2
  ]

  const ValidationProfiles: map<string, Profile> := map["satori" := Satori, "mainnet" := Mainnet]

  /** `profile.get(key, default)`. */
  function Setting(p: Profile, key: string, default: real): (r: real)
    ensures key in p ==> r == p[key] && r in p.Values
    ensures key !in p ==> r == default
  {
    if key in p then p[key] else default
  }

  /**
   * get_validation_config: the profile named by the configuration's
   * "network" entry; a missing entry or an unknown name is a KeyError.
   */
  function GetValidationConfig(config: map<string, string>): (r: Result<Profile, Error>)
    ensures r.Success? <==> "network" in config && (config["network"] == "satori" || config["network"] == "mainnet")
    ensures r.Success? && config["network"] == "satori" ==> r.value == Satori
    ensures r.Success? && config["network"] == "mainnet" ==> r.value == Mainnet
  {
    if "network" !in config then Failure(MissingSetting("network"))
    else if config["network"] !in ValidationProfiles then Failure(MissingSetting(config["network"]))
    else Success(ValidationProfiles[config["network"]])
  }

  /** Both profiles carry the two settings that are read without a default. */
  lemma ProfilesDefineRequiredSettings(config: map<string, string>)
    requires GetValidationConfig(config).Success?
    ensures ThresholdKey in GetValidationConfig(config).value
    ensures SampleSizeKey in GetValidationConfig(config).value
    ensures GetValidationConfig(config).value[ThresholdKey] in {10.0, 15.0}
  {
  }

  /**
   * Only mainnet sets the order-history floors, and satori's fall-back
   * defaults (365*5 days, 3 purchases a week) are the same values.
   */
  lemma OrderHistoryFloorsAgree()
    ensures "MIN_DATA_TIME" !in Satori && "MIN_PURCHASES_PER_WEEK" !in Satori
    ensures Setting(Satori, "MIN_DATA_TIME", 365.0 * 5.0) == Setting(Mainnet, "MIN_DATA_TIME", 365.0 * 5.0) == 1825.0
    ensures Setting(Satori, "MIN_PURCHASES_PER_WEEK", 3.0) == Setting(Mainnet, "MIN_PURCHASES_PER_WEEK", 3.0) == 3.0
  {
  }

  /**
   * Both profiles set the date-range floor, so the calculators' defaults
   * for it are never used: 1 day on satori, 7 on mainnet.
   */
  lemma DateRangeFloors(config: map<string, string>, default: real)
    requires GetValidationConfig(config).Success?
    ensures config["network"] == "satori" ==> Setting(GetValidationConfig(config).value, "MIN_DATE_RANGE_DAYS", default) == 1.0
    ensures config["network"] == "mainnet" ==> Setting(GetValidationConfig(config).value, "MIN_DATE_RANGE_DAYS", default) == 7.0
  {
  }

  /** The category label the semantic validator uses for each file. */
  const DataTypeMap: map<string, string> := map[
    "Retail.CartItems.1.csv" := "Retail Cart Items",
    "Digital Items.csv" := "Digital Items",
    "Retail.OrderHistory.1.csv" := "Retail Order History",
    "Retail.OrderHistory.2.csv" := "Retail Order History",
    "Audible.PurchaseHistory.csv" := "Audible Purchase History",
    "Audible.Library.csv" := "Audible Library",
    "Audible.MembershipBillings.csv" := "Audible Membership Billings",
    "PrimeVideo.ViewingHistory.csv" := "Prime Video Viewing History"
  ]

  const WeightPerFile: map<string, real> := map[
    "Retail.CartItems.1.csv" := 1.5,
    "Digital Items.csv" := 1.5,
    "Retail.OrderHistory.1.csv" := 4.0,
    "Retail.OrderHistory.2.csv" := 4.0,
    "Audible.PurchaseHistory.csv" := 2.0,
    "Audible.Library.csv" := 2.0,
    "Audible.MembershipBillings.csv" := 1.5,
    "PrimeVideo.ViewingHistory.csv" := 1.0
  ]

  /** Both tables are keyed by exactly the registry's names; the two order-history files share a label. */
  lemma TablesCoverRegistry()
    ensures DataTypeMap.Keys == set f | f in InterestingFiles
    ensures WeightPerFile.Keys == set f | f in InterestingFiles
    ensures DataTypeMap[InterestingFiles[2]] == DataTypeMap[InterestingFiles[3]] == "Retail Order History"
  {
  }
}
