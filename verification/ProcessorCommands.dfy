/** The commands the worker composes: the compare-and-set that claims a payment, and the two ways to
    finish one. Each works in the transaction of the session its repositories share. */
module ProcessorCommands {
  import opened Contracts
  import opened Store
  import opened ProcessorRepositories

  class MarkProcessingCommand {
    const payments: PaymentRepository

    constructor (payments: PaymentRepository)
      ensures this.payments == payments
    {
      this.payments := payments;
    }

    method Execute(id: PaymentId, version: nat) returns (won: bool)
      modifies payments.session`working
      ensures won == WinsSwap(old(payments.session.working), id, version)
      ensures payments.session.working == SwapToProcessing(old(payments.session.working), id, version)
    {
      won := payments.MarkProcessing(id, version);
    }
  }

  class FinalizePaymentCommand {
    const payments: PaymentRepository
    const outbox: OutboxRepository

    constructor (payments: PaymentRepository, outbox: OutboxRepository)
      requires payments.session == outbox.session
      ensures this.payments == payments && this.outbox == outbox
    {
      this.payments, this.outbox := payments, outbox;
    }

    // `version` is that of the payment object at hand, which the session may or may not have refreshed
    // since it was read. The outcome event goes into the same transaction.
    method Confirm(cfg: Settings, id: PaymentId, version: nat, at: Stamp, ghost read: nat)
      requires payments.session == outbox.session
      requires version == read + if cfg.refreshes then 1 else 0
      modifies payments.session`working
      ensures payments.session.working == Finalise(cfg, old(payments.session.working), id, read, CONFIRMED, None, at)
    {
      var _ := payments.MarkConfirmed(id, version);
      outbox.EmitEvent(id, PaymentConfirmed, at);
    }

    method Fail(cfg: Settings, id: PaymentId, version: nat, reason: string, at: Stamp, ghost read: nat)
      requires payments.session == outbox.session
      requires version == read + if cfg.refreshes then 1 else 0
      modifies payments.session`working
      ensures payments.session.working ==
        Finalise(cfg, old(payments.session.working), id, read, FAILED, Some(reason), at)
    {
      var _ := payments.MarkFailed(id, version, reason);
      outbox.EmitEvent(id, PaymentFailed, at);
    }
  }
}
