/** The dials of the system that more than one part shares. */
module Constants {
  const ALPHA_PER_ASSET_YEAR := 1.0
  const REANCHORS_PER_YEAR := 52
  const RECENCY_CAP := 0.20
  const CHANGE_ABSORB_ANCHOR_PERIODS := 1
}
