/** The process-wide configuration both the filter gate and the float supervisor read. */
module FirewallConfig {

  import opened Wrappers

  /** The role this process plays in a split or combined deployment. */
  datatype FirewallMode = SenderReceiver | BridgeInner | FloatOuter

  /** High-availability settings; their contents do not matter to this model. */
  datatype HAConfig = HAConfig(settings: seq<string>)

  datatype FirewallConfiguration = FirewallConfiguration(
    firewallMode: FirewallMode,
    haConfig: Option<HAConfig>,
    whitelistedHeaders: seq<string>)
}
