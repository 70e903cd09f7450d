// The approved intent, field for field (daemon/internal/approval/hash.go).
module Intents {
  // An instant in nanoseconds since the Unix epoch.
  type Instant = int

  const SECOND: int := 1_000_000_000

  const ADVANCE: string := "advance"
  const PAYMENT: string := "payment"

  datatype Intent = Intent(
    intentId: string,
    orgId: string,
    jobId: string,
    taskId: string,
    agentId: string,
    kind: string,
    merchant: string,
    resource: string,
    amountMicros: int,
    purpose: string,
    nonce: string,
    policyVersion: string,
    expiresAt: Instant,
    chainRef: string,
    alternativeTo: string,
    asset: string,
    network: string,
    maxAmountMicros: int,
    payTo: string,
    resourceUrl: string)

  // Second precision, as the reservation ledger stores an expiry.
  function WholeSeconds(t: Instant): Instant {
    t - t % SECOND
  }

  predicate SecondAligned(t: Instant) {
    t % SECOND == 0
  }
}
