/** The configuration records that settings authority, daemon and journal exchange. */
module Configuration {

  datatype Option<+T> = None | Some(value: T)

  datatype NetworkMode = Dhcp | StaticIpv4

  datatype NetworkConfig = NetworkConfig(
    name: string,
    mode: NetworkMode,
    address: string,
    prefixLength: nat,
    gateway: string,
    dnsServers: seq<string>,
    preferredDefault: bool)

  type Network = seq<NetworkConfig>

  datatype Preferences = Preferences(hostname: string, sshEnabled: bool, network: Network)

  datatype TimePreferences = TimePreferences(
    synchronization: string,
    timezone: string,
    ptpInterface: string,
    ntpServers: seq<string>)

  datatype Configuration = Configuration(system: Preferences, time: TimePreferences)
}
