/** The manager's configuration record, consumed once by the cache constructor. */
module CacheConfig {

  /** Go's `int` on a 64-bit platform. */
  newtype int64 = x: int | -0x8000_0000_0000_0000 <= x < 0x8000_0000_0000_0000

  datatype Config = Config(
    addr: string,                        // this instance's listening address, e.g. "localhost:8080"
    peerAddresses: seq<string>,          // static peer list, may contain addr itself
    headlessServiceName: string,         // name resolved to find peers; "" means static peers
    headlessServicePort: int64,          // port appended to every resolved peer
    cacheCleanupIntervalSec: int64,      // period of the TTL sweep; <= 0 disables it
    headlessServiceWatchIntervalSec: int64 // period of peer discovery; <= 0 means one second
  )
}
