/** The SQLite tables of outbound deliveries; every method is one transaction. */
module OutboundStore {
  import opened Prelude
  import opened OutboundLane

  type Id = nat

  datatype DeliveryRow = DeliveryRow(status: Status, attempts: nat, nextAttempt: Option<int>, payloadHash: nat)

  /** Unique per (workload, route, idempotency key). */
  datatype Key = Key(workload: nat, route: nat, idempotency: nat)

  datatype CreateError = IdempotencyConflict

  /** What PrepareGatewayDLQReplay answers; only Pending goes on to the queue. */
  datatype Prepared = NotFound | AlreadyDiscarded | AlreadyReplayed | Pending(generation: nat)

  class Store {
    var deliveries: map<Id, DeliveryRow>
    var keys: map<Key, Id>
    var attemptRows: map<Id, seq<nat>>
    var dlq: map<Id, DlqRow>
    var outbox: map<Id, nat>
    var recipients: set<Id>

    constructor ()
      ensures deliveries == map[] && Valid()
    {
      deliveries, keys, attemptRows, dlq, outbox, recipients := map[], map[], map[], map[], map[], {};
    }

    /** All the rows of one delivery. */
    ghost function RowOf(id: Id): Row
      requires id in deliveries
      reads this
    {
      var d := deliveries[id];
      Row(id in recipients, d.status, d.attempts, if id in attemptRows then attemptRows[id] else [], d.nextAttempt,
          if id in dlq then Some(dlq[id]) else None, if id in outbox then Some(outbox[id]) else None)
    }

    ghost predicate Valid()
      reads this
    {
      && (forall k | k in keys :: keys[k] in deliveries && keys[k] !in recipients)
      && (forall id | id !in deliveries :: id !in attemptRows && id !in dlq && id !in outbox && id !in recipients)
    }

    /** The rows of one delivery became r; keys and other deliveries stay. */
    twostate predicate Became(id: Id, r: Row)
      reads this
    {
      && deliveries.Keys == old(deliveries.Keys) && id in deliveries && keys == old(keys)
      && deliveries[id].payloadHash == old(deliveries)[id].payloadHash
      && RowOf(id) == r
      && (forall other | other in deliveries && other != id ::
            RowOf(other) == old(RowOf(other)) && deliveries[other] == old(deliveries)[other])
      && (old(Valid()) ==> Valid())
    }

    /** A key names one delivery for ever; only a request with the same payload
        finds it again, and a conflicting one changes nothing. */
    method CreateGatewayOutboundDelivery(key: Key, payloadHash: nat, newId: Id) returns (r: Result<Id, CreateError>)
      requires Valid() && newId !in deliveries
      modifies this`deliveries, this`keys
      ensures Valid()
      ensures r == if key in old(keys) && old(deliveries)[old(keys)[key]].payloadHash != payloadHash
                   then Err(IdempotencyConflict)
                   else Ok(if key in old(keys) then old(keys)[key] else newId)
      ensures key in old(keys) ==> unchanged(this)
      ensures key !in old(keys) ==>
                && deliveries == old(deliveries)[newId := DeliveryRow(PendingEnqueue, 0, None, payloadHash)]
                && keys == old(keys)[key := newId]
                && RowOf(newId) == CreatedRow(false)
                && (forall other | other in old(deliveries) :: RowOf(other) == old(RowOf(other)))
    {
      if key in keys {
        var id := keys[key];
        return if deliveries[id].payloadHash == payloadHash then Ok(id) else Err(IdempotencyConflict);
      }
      deliveries := deliveries[newId := DeliveryRow(PendingEnqueue, 0, None, payloadHash)];
      keys := keys[key := newId];
      return Ok(newId);
    }

    /** createServiceDeliveries for one recipient: row, recipient and outbox together. */
    method CreateServiceDelivery(payloadHash: nat, newId: Id)
      requires Valid() && newId !in deliveries
      modifies this`deliveries, this`recipients, this`outbox
      ensures Valid() && keys == old(keys)
      ensures deliveries == old(deliveries)[newId := DeliveryRow(PendingEnqueue, 0, None, payloadHash)]
      ensures RowOf(newId) == CreatedRow(true)
      ensures forall other | other in old(deliveries) :: RowOf(other) == old(RowOf(other))
    {
      deliveries := deliveries[newId := DeliveryRow(PendingEnqueue, 0, None, payloadHash)];
      recipients := recipients + {newId};
      outbox := outbox[newId := 0];
    }

    method MarkGatewayDeliveryAccepted(id: Id)
      requires id in deliveries
      modifies this`deliveries
      ensures Became(id, MarkAccepted(old(RowOf(id))))
    {
      if deliveries[id].status == PendingEnqueue {
        deliveries := deliveries[id := deliveries[id].(status := Accepted)];
      }
    }

    method PendingServiceEnqueue(id: Id) returns (generation: nat)
      requires id in deliveries && id in outbox
      ensures RowOf(id).outbox == Some(generation)
    {
      return outbox[id];
    }

    /** Only the generation the outbox row still holds may complete. */
    method CompleteServiceEnqueue(id: Id, generation: nat)
      requires id in deliveries
      modifies this`deliveries, this`dlq, this`outbox
      ensures Became(id, CompleteEnqueue(old(RowOf(id)), generation))
    {
      if id !in outbox || outbox[id] != generation {
        return;
      }
      var status := deliveries[id].status;
      if status == PendingEnqueue || status == ReplayPending {
        deliveries := deliveries[id := deliveries[id].(status := Accepted)];
      }
      if generation > 0 && id in dlq && dlq[id] == DlqRow(AwaitingReplay, generation) {
        dlq := dlq[id := DlqRow(Replayed, generation)];
      }
      outbox := outbox - {id};
    }

    /** The first replay of an active item opens a new generation; asking again
        before it completes finds the same generation. */
    method PrepareGatewayDLQReplay(id: Id) returns (r: Prepared)
      requires id in deliveries
      modifies this`deliveries, this`dlq, this`outbox
      ensures Became(id, PrepareReplay(old(RowOf(id))))
      ensures r == if id !in old(dlq) then NotFound
                   else if old(dlq)[id].state == Dropped then AlreadyDiscarded
                   else if old(dlq)[id].state == Replayed then AlreadyReplayed
                   else Pending(ReplayCount(RowOf(id)))
    {
      if id !in dlq {
        return NotFound;
      }
      if dlq[id].state == Dropped {
        return AlreadyDiscarded;
      }
      if dlq[id].state == Replayed {
        return AlreadyReplayed;
      }
      if dlq[id].state == Active {
        var count := dlq[id].replayCount + 1;
        dlq := dlq[id := DlqRow(AwaitingReplay, count)];
        deliveries := deliveries[id := deliveries[id].(status := ReplayPending, nextAttempt := None)];
        if id in recipients {
          outbox := outbox[id := count];
        }
      }
      return Pending(dlq[id].replayCount);
    }

    method CompleteGatewayDLQReplay(id: Id)
      requires id in deliveries
      modifies this`deliveries, this`dlq
      ensures Became(id, CompleteReplay(old(RowOf(id))))
    {
      if deliveries[id].status == ReplayPending {
        deliveries := deliveries[id := deliveries[id].(status := Accepted)];
      }
      if id in dlq && dlq[id].state == AwaitingReplay {
        dlq := dlq[id := dlq[id].(state := Replayed)];
      }
    }

    method DiscardGatewayDLQ(id: Id)
      requires id in deliveries
      modifies this`deliveries, this`dlq
      ensures Became(id, DiscardRow(old(RowOf(id))))
    {
      if id in dlq && dlq[id].state == Active {
        dlq := dlq[id := dlq[id].(state := Dropped)];
        if deliveries[id].status == DeadLettered {
          deliveries := deliveries[id := deliveries[id].(status := Discarded)];
        }
      }
    }

    /** The compare-and-set on the status is what admits an attempt. */
    method BeginGatewayDeliveryAttempt(id: Id) returns (attempt: Option<nat>)
      requires id in deliveries
      modifies this`deliveries, this`attemptRows
      ensures Became(id, BeginAttempt(old(RowOf(id))))
      ensures attempt == if CanBegin(old(deliveries)[id].status) then Some(old(deliveries)[id].attempts + 1) else None
    {
      var d := deliveries[id];
      if d.status != Accepted && d.status != Retrying {
        return None;
      }
      deliveries := deliveries[id := d.(status := Processing, attempts := d.attempts + 1, nextAttempt := None)];
      attemptRows := attemptRows[id := (if id in attemptRows then attemptRows[id] else []) + [d.attempts + 1]];
      return Some(d.attempts + 1);
    }

    method MarkGatewayDeliverySucceeded(id: Id)
      requires id in deliveries
      modifies this`deliveries
      ensures Became(id, MarkSucceeded(old(RowOf(id))))
    {
      deliveries := deliveries[id := deliveries[id].(status := Succeeded, nextAttempt := None)];
    }

    method MarkGatewayDeliveryRetrying(id: Id, next: int)
      requires id in deliveries
      modifies this`deliveries
      ensures Became(id, MarkRetrying(old(RowOf(id)), next))
    {
      deliveries := deliveries[id := deliveries[id].(status := Retrying, nextAttempt := Some(next))];
    }

    method MarkGatewayDeliveryReconciling(id: Id)
      requires id in deliveries
      modifies this`deliveries
      ensures Became(id, MarkReconciling(old(RowOf(id))))
    {
      deliveries := deliveries[id := deliveries[id].(status := Reconciling, nextAttempt := None)];
    }

    method MarkGatewayDeliveryDeadLettered(id: Id)
      requires id in deliveries
      modifies this`deliveries, this`dlq
      ensures Became(id, MarkDeadLettered(old(RowOf(id))))
    {
      dlq := dlq[id := DlqRow(Active, if id in dlq then dlq[id].replayCount else 0)];
      deliveries := deliveries[id := deliveries[id].(status := DeadLettered, nextAttempt := None)];
    }
  }
}
