/** How recordings and the data directory belong together. */
module Backing {
  import opened Prelude
  import opened Uuid
  import opened Bytes
  import opened Tables

  type Disk = map<Path, seq<byte>>

  predicate InUse(recs: map<Id, Recording>, r: Id) {
    r in recs && recs[r].deletingAt.None?
  }

  predicate HasContent(disk: Disk, p: Path, size: nat, hash: Hash, digest: seq<byte> -> Hash) {
    FinalName(p) && p in disk && |disk[p]| == size && digest(disk[p]) == hash
  }

  /** A recording that is not being deleted has its file, with the recorded size and hash. */
  ghost predicate Backed(recs: map<Id, Recording>, disk: Disk, digest: seq<byte> -> Hash) {
    forall r :: InUse(recs, r) ==> HasContent(disk, recs[r].path, recs[r].size, recs[r].hash, digest)
  }
}
