/** The parts of DaosSystem's status and of its server pods that several controllers read, and the
    operator's time unit (nanoseconds, as in Go). */
module DaosStatus {

  const SECOND: int := 1_000_000_000
  const MINUTE: int := 60 * SECOND

  const JOINED := "joined"
  const UNRESPONSIVE := "unresponsive"
  const AWAIT_FORMAT := "awaitformat"

  /** One row of `status.ranks`. */
  datatype RankStatus = RankStatus(rank: int, node: string, state: string)

  /** One row of `status.nodeConfigs`; workload says whether a server StatefulSet is recorded. */
  datatype NodeConfig = NodeConfig(node: string, controlAddr: string, ready: bool, workload: bool, serverReady: bool)

  datatype Pod = Pod(name: string, node: string, image: string, ready: bool, deleting: bool)

  /** `minRequeue`: the sooner of two delays, 0 meaning none. */
  function MinRequeue(a: int, b: int): int {
    if a == 0 then b else if b == 0 then a else if a < b then a else b
  }

  function JoinedCount(ranks: seq<RankStatus>): nat {
    if ranks == [] then 0
    else JoinedCount(ranks[..|ranks| - 1]) + if ranks[|ranks| - 1].state == JOINED then 1 else 0
  }
}
