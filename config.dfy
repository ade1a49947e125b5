/** The parsed configuration the core consumes (the structs of conf.go). */
module Config {

  datatype Credentials = Credentials(username: string, password: string)

  datatype OpcAuthentication = OpcAuthentication(authType: string, credentials: Credentials)

  datatype OpcCerts = OpcCerts(autoCreate: bool)

  datatype OpcConnection = OpcConnection(
    endpoint: string,
    port: int,
    mode: string,
    policy: string,
    authentication: OpcAuthentication,
    certificate: OpcCerts,
    retries: int)

  /** `interval` is the subscription interval in seconds. */
  datatype Subscription = Subscription(nodeIds: seq<string>, interval: int)

  datatype OpcConfig = OpcConfig(connection: OpcConnection, subscription: Subscription)
}
