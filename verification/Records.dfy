/** The records that travel through the server. Fields that no modelled
    operation reads are dropped. */
module Records {
  import opened GoNumbers

  datatype Option<+T> = None | Some(value: T)

  /** One agent report. */
  datatype Report = Report(
    cpuUsage: real,
    memTotal: uint64, memUsed: uint64,
    diskTotal: uint64, diskUsed: uint64,
    netIn: uint64, netOut: uint64,
    netTotalIn: uint64, netTotalOut: uint64,
    load1: real,
    tcpConns: int,
    uptime: uint64)

  /** One stored minute. */
  datatype MinutePoint = MinutePoint(
    time: int,
    cpu: real, memPct: real, diskPct: real,
    netIn: real, netOut: real, load1: real,
    tcp: int, uptime: int)

  /** The digest of a token; a constructor is injective, as the hash is taken to be. */
  datatype Digest = Sha256(preimage: string)

  /** One row of the servers table. `monthlyReset` is None for the empty column;
      a calendar month is its index, which orders like the "YYYY-MM" text. */
  datatype ServerRow = ServerRow(
    name: string,
    token: string, tokenHash: Digest,
    expiredAt: int64, trafficLimit: int64, trafficType: string,
    offlineNotify: bool, offlineGrace: int, lastOfflineNotify: int,
    monthlyBaseIn: uint64, monthlyBaseOut: uint64, monthlyReset: Option<int>)

  /** A server as the notifier and the API see it: its row and the live part. */
  datatype ServerAdmin = ServerAdmin(
    uuid: string, row: ServerRow,
    online: bool, lastSeen: int, report: Option<Report>)

  datatype LoadRule = LoadRule(
    id: int, serverUUID: string, metric: string,
    threshold: real, ratio: real, intervalMin: int, lastNotify: int)

  /** A call of `Send`, identified by what it is about. */
  datatype Alert =
    | OfflineAlert(uuid: string, at: int)
    | LoadAlert(ruleId: int, at: int)
    | ExpiryAlert(uuids: seq<string>, day: int)
    | TrafficAlert(uuid: string, pct: int)
}
