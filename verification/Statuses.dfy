// The enumerations of the Prisma schema that the campaign code branches on, and the Option type
// that stands for nullable columns.

module Options {
  datatype Option<+T> = None | Some(value: T)
}

/** CampaignRecipientStatus of the schema. */
module RecipientStatus {
  datatype Status =
    | Pending | Queued | Processing
    | Sent | Delivered | Read
    | Failed | Skipped | Cancelled

  // The three statuses that keep a campaign from completing.
  predicate Open(s: Status) {
    s.Pending? || s.Queued? || s.Processing?
  }

  // The statuses on which the send worker returns at once (`idempotent: true`).
  predicate Terminal(s: Status) {
    s.Sent? || s.Delivered? || s.Read? || s.Failed? || s.Skipped? || s.Cancelled?
  }

  // The statuses of a recipient for which the provider was asked and the answer is known.
  predicate Attempted(s: Status) {
    s.Sent? || s.Delivered? || s.Read? || s.Failed?
  }

  predicate InFlight(s: Status) {
    s.Queued? || s.Processing?
  }

  // The two statuses that cancel and opt-out move to Cancelled.
  predicate Waiting(s: Status) {
    s.Pending? || s.Queued?
  }

  /** How the groups lie: each status is open or terminal, results are the terminal ones that were not skipped or
      cancelled, and a recipient that is open waits or is PROCESSING, and is in flight unless it is PENDING. */
  lemma GroupsAre(s: Status)
    ensures Open(s) <==> !Terminal(s)
    ensures Attempted(s) <==> Terminal(s) && s != Skipped && s != Cancelled
    ensures Waiting(s) <==> Open(s) && s != Processing
    ensures InFlight(s) <==> Open(s) && s != Pending
    ensures Open(s) <==> s in {Pending, Queued, Processing}
  {}
}

/** CampaignStatus of the schema. */
module CampaignStatus {
  datatype Status =
    | Draft | Preparing | Scheduled | Ready | Queued | Running | Paused
    | Completed | CompletedWithErrors | Failed | Cancelled

  // The statuses from which recipients may be dispatched and sent.
  predicate Active(s: Status) {
    s.Scheduled? || s.Running?
  }
}

/** The size of a dispatch batch. */
module BatchLimits {
  import opened Options

  // A value of null or zero falls back.
  function PositiveOr(own: Option<nat>, fallback: nat): nat {
    if own.Some? && own.value > 0 then own.value else fallback
  }

  // `Math.min(campaign.batchSize || env.CAMPAIGN_BATCH_SIZE, env.CAMPAIGN_ADMIN_MAX_BATCH_SIZE)`
  function EffectiveBatchSize(own: Option<nat>, fallback: nat, maximum: nat): nat {
    if PositiveOr(own, fallback) < maximum then PositiveOr(own, fallback) else maximum
  }

  /** The largest size that neither the campaign's own, or the fallback if it has none or zero, nor the maximum
      exceeds. */
  lemma BatchSizeIsLargest(own: Option<nat>, fallback: nat, maximum: nat, size: nat)
    ensures size <= EffectiveBatchSize(own, fallback, maximum) <==>
              size <= maximum && size <= match own
                                          case Some(n) => if n == 0 then fallback else n
                                          case None => fallback
  {}
}
