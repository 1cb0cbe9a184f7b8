/** The entry every directory hands out (`pyleans/cluster/directory.py`). */
module Directory {
  import opened Identity

  datatype DirectoryEntry = DirectoryEntry(grain: GrainId, silo: SiloAddress, epoch: int)

  type Partition = map<GrainId, DirectoryEntry>

  /** Every entry is stored under its own grain. */
  predicate WellKeyed(p: Partition) {
    forall g :: g in p ==> p[g].grain == g
  }
}
