/**
 Evidence of a real provider collection, and when it may be applied to a resource
 that already applied other evidence.
 */
module Evidence {

  /** Instants of the database clock, in microseconds from the unset time, which begins the year 1. */
  type Time = nat

  /** Identifies a collection. The hash is an opaque content digest. */
  datatype Proof = Proof(collectedAt: Time, hash: string, coveredGeneration: nat)

  datatype Requirement = Requirement(requestedGeneration: nat, appliedAt: Time, hash: string)

  /** Different content must not be older than the content already applied; notifications must be covered. */
  predicate Covers(p: Proof, r: Requirement) {
    && p.collectedAt != 0
    && p.coveredGeneration >= r.requestedGeneration
    && (p.collectedAt >= r.appliedAt || (p.hash != "" && p.hash == r.hash))
  }
}
