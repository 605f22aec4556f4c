/** The monitor's static tables, held against what the simulator does: who writes
    to a queue, and which way messages flow. */
module Owners {
  import opened Sequences
  import opened Messages
  import opened Signals
  import opened Correlation
  import opened BrokerLaws
  import opened Pipeline
  import opened PipelineRuns
  import opened Quiescence

  function QueueName(q: nat): string
    requires q < 5
  {
    if q == ORDER_QUEUE then "order-queue"
    else if q == PAYMENT_QUEUE then "payment-queue"
    else if q == PAYMENT_DLQ then "payment-dlq"
    else if q == NOTIFICATION_SUB then "notification-payment-sub"
    else "notification-dlq"
  }

  function NameOf(svc: Service): string {
    match svc
    case Order => "order"
    case Payment => "payment"
    case Fulfillment => "fulfillment"
    case Notification => "notification"
  }

  function WriterOf(t: Thread): Option<string> {
    match t
    case OrderLoop(_, _, _, _) => Some("order")
    case Worker(w) => Some(NameOf(w.svc))
    case _ => None
  }

  /** Every message that did not come from outside was put on its queue by a
      goroutine of the service which the monitor takes for the owner. */
  lemma OwnerWrites(s: System, q: nat, m: Message) returns (i: nat)
    requires Reached(s) && Closed(s) && q < 5 && q != NOTIFICATION_SUB
    requires |s.broker.queues| == 5 && m in s.broker.queues[q].put
    ensures i < |s.threads| && |s.broker.clients| == |s.threads|
    ensures Count(s.broker.clients[i].log, CallsTo(q, Just(m))) > 0
    ensures WriterOf(s.threads[i]).Some? && QueueOwner(QueueName(q)) == WriterOf(s.threads[i])
  {
    i := StoredBy(s, q, m);
    CallerIs(s, i, q, m);
  }

  /** The root queue a consumer's messages come from. */
  function SourceOf(svc: Service): nat { if svc.Notification? then PAYMENT_QUEUE else InQueue(svc) }

  /** Messages flow down: a consumer is below the owner of the queue it reads from,
      and the owner of a dead-letter queue is the service that failed. */
  lemma FlowsDown(svc: Service)
    requires !svc.Order?
    ensures QueueOwner(QueueName(SourceOf(svc))).Some?
    ensures Downstream(QueueOwner(QueueName(SourceOf(svc))).value, NameOf(svc))
    ensures !Discards(svc) ==> QueueOwner(QueueName(DeadLetterQueue(svc))) == Some(NameOf(svc))
  {
  }
}
