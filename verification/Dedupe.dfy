/** winner/c2/dedupe.ts: one durable receipt per delivery. */
module Dedupe {
  import opened Domain
  import opened PushPolicy
  import opened PushEvidence

  datatype Decision =
    | Selected | Rejected | NoMatchingPolicy | PolicyDisabled | PolicyAmbiguous
    | TransitionRejected | NotAuthorityEligible | PolicyAlreadyBound

  /** Everything an accepted receipt freezes. */
  datatype Acceptance = Acceptance(
    policy: PolicyRef, registryIdentity: string, content: Policy, identity: BindingIdentity,
    revokesDeployKey: bool, title: string, incident: IncidentId, request: CreateRequest)

  datatype State = Reserved | Accepted(acceptance: Acceptance) | Refused(decision: Decision)

  /** `event` is both the source identity and the normalized event of the record. */
  datatype Receipt = Receipt(key: DedupeKey, event: Event, state: State, reservation: Nonce, reservedAt: int)

  type Receipts = map<DedupeKey, Receipt>

  predicate StoredRequestOk(request: CreateRequest, incident: IncidentId) {
    request.incident == incident && 0 < request.keyId <= MAX_SAFE_INTEGER && 0 < request.ttlSecs <= 86_400
  }

  /** validateDedupeRecord on an accepted record. */
  predicate Complete(receipt: Receipt) {
    receipt.state.Accepted? ==> StoredRequestOk(receipt.state.acceptance.request, receipt.state.acceptance.incident)
  }

  datatype Status = New | DuplicateSame | Conflict

  datatype Reservation = Reservation(status: Status, receipt: Receipt)

  /** reserveDedupe: exclusive create, or a look at what is there. */
  function Reserve(receipts: Receipts, event: Event, nonce: Nonce, now: int): (Receipts, Reservation) {
    var key := KeyOf(event);
    if key !in receipts then
      var candidate := Receipt(key, event, Reserved, nonce, now);
      (receipts[key := candidate], Reservation(New, candidate))
    else if receipts[key].event.body != event.body then (receipts, Reservation(Conflict, receipts[key]))
    else (receipts, Reservation(DuplicateSame, receipts[key]))
  }

  /** finalizeDedupe under the receipt lock; None when it throws. */
  function Finalize(receipts: Receipts, reservation: Reservation, next: State, recovering: bool): Option<Receipts> {
    var key := reservation.receipt.key;
    if !(reservation.status == New || (reservation.status == DuplicateSame && recovering)) || reservation.receipt.state != Reserved then None
    else if key !in receipts then None
    else
      var current := receipts[key];
      if current.state != Reserved || current.reservation != reservation.receipt.reservation then None
      else if !Complete(current.(state := next)) then None
      else Some(receipts[key := current.(state := next)])
  }

  /** A settled receipt stays as it is and an event never changes under its key. */
  ghost predicate Preserves(receipts: Receipts, later: Receipts) {
    forall k <- receipts ::
      k in later && later[k].event == receipts[k].event && later[k].reservation == receipts[k].reservation &&
      (receipts[k].state != Reserved ==> later[k] == receipts[k])
  }

  lemma ReservingPreserves(receipts: Receipts, event: Event, nonce: Nonce, now: int)
    ensures Preserves(receipts, Reserve(receipts, event, nonce, now).0)
  {
  }

  lemma FinalizingPreserves(receipts: Receipts, reservation: Reservation, next: State, recovering: bool)
    requires Finalize(receipts, reservation, next, recovering).Some?
    ensures Preserves(receipts, Finalize(receipts, reservation, next, recovering).value)
  {
  }

  /** Of any two finalizations of one reservation, in either order, only the first lands. */
  lemma FinalizesOnce(receipts: Receipts, reservation: Reservation, first: State, other: Reservation, second: State, recovering: bool)
    requires first != Reserved && other.receipt.key == reservation.receipt.key
    requires Finalize(receipts, reservation, first, recovering).Some?
    ensures Finalize(Finalize(receipts, reservation, first, recovering).value, other, second, true).None?
  {
  }

  /** A delivery gets a receipt of its own, in RESERVED under its own nonce, or the one that is
      there: the same for the same body, a conflict for another. */
  lemma ReservesExactly(receipts: Receipts, event: Event, nonce: Nonce, now: int)
    ensures
      var key := DedupeKey(event.deliveryId, event.source.eventType, event.source.repositoryId, event.source.repository);
      var (later, r) := Reserve(receipts, event, nonce, now);
      && (key !in receipts ==> r == Reservation(New, Receipt(key, event, Reserved, nonce, now)) && later == receipts[key := r.receipt])
      && (key in receipts ==>
            && later == receipts && r.receipt == receipts[key]
            && r.status == if receipts[key].event.body == event.body then DuplicateSame else Conflict)
  {
  }

  /** A finalization lands exactly on the RESERVED receipt of this very reservation, new or taken
      over, and an accepted one only with a request for its own incident that fits; it changes
      nothing but the state. */
  lemma FinalizesExactly(receipts: Receipts, reservation: Reservation, next: State, recovering: bool)
    ensures
      var key := reservation.receipt.key;
      var r := Finalize(receipts, reservation, next, recovering);
      && (r.Some? <==>
            && (reservation.status == New || (reservation.status == DuplicateSame && recovering)) && reservation.receipt.state == Reserved
            && key in receipts && receipts[key].state == Reserved && receipts[key].reservation == reservation.receipt.reservation
            && (next.Accepted? ==>
                  var request := next.acceptance.request;
                  request.incident == next.acceptance.incident && 0 < request.keyId <= 9007199254740991 && 0 < request.ttlSecs <= 86400))
      && (r.Some? ==>
            && r.value.Keys == receipts.Keys && r.value[key] == receipts[key].(state := next)
            && forall k <- receipts :: k != key ==> r.value[k] == receipts[k])
  {
  }

  class ReceiptStore {
    var receipts: Receipts

    constructor ()
      ensures receipts == map[]
    {
      receipts := map[];
    }

    method ReserveDedupe(event: Event, nonce: Nonce, now: int) returns (r: Reservation)
      modifies this`receipts
      ensures (receipts, r) == Reserve(old(receipts), event, nonce, now)
      ensures Preserves(old(receipts), receipts)
      ensures r.status == New <==> KeyOf(event) !in old(receipts)
      ensures r.status == DuplicateSame ==> r.receipt == old(receipts)[KeyOf(event)] && r.receipt.event.body == event.body
    {
      var key := KeyOf(event);
      if key !in receipts {
        var candidate := Receipt(key, event, Reserved, nonce, now);
        receipts := receipts[key := candidate];
        return Reservation(New, candidate);
      }
      var existing := receipts[key];
      if existing.event.body != event.body {
        return Reservation(Conflict, existing);
      }
      return Reservation(DuplicateSame, existing);
    }

    method FinalizeDedupe(reservation: Reservation, next: State, recovering: bool) returns (ok: bool)
      modifies this`receipts
      ensures ok <==> Finalize(old(receipts), reservation, next, recovering).Some?
      ensures receipts == if ok then Finalize(old(receipts), reservation, next, recovering).value else old(receipts)
      ensures Preserves(old(receipts), receipts)
    {
      var key := reservation.receipt.key;
      if !(reservation.status == New || (reservation.status == DuplicateSame && recovering)) || reservation.receipt.state != Reserved {
        return false;
      }
      if key !in receipts {
        return false;
      }
      var current := receipts[key];
      if current.state != Reserved || current.reservation != reservation.receipt.reservation {
        return false;
      }
      var record := current.(state := next);
      if !Complete(record) {
        return false;
      }
      receipts := receipts[key := record];
      return true;
    }
  }
}
