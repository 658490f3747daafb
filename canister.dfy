/** The event ledger canister: the two stable maps as fields of one object,
    whose update calls read a record, change the copy and insert it back, and
    whose query calls only read. Each call is proved to give the state and the
    answer that module Ledger specifies, and to keep Ledger.Valid. */
module Canister {
  import opened Types
  import opened Decimal
  import Ledger

  /** The search createEvent runs over every stored record for one with the
      given name. */
  method FindEventNamed(events: map<EventId, EventMetaData>, name: string) returns (found: bool)
    ensures found <==> Ledger.NameTaken(events, name)
  {
    found := false;
    var remaining := events.Keys;
    while remaining != {} && !found
      invariant remaining <= events.Keys
      invariant found ==> Ledger.NameTaken(events, name)
      invariant !found ==> forall id :: id in events && id !in remaining ==> events[id].eventInfo.name != name
      decreases remaining
    {
      var id :| id in remaining;
      found := events[id].eventInfo.name == name;
      remaining := remaining - {id};
    }
  }

  /** The search claimSeat runs over the claimed seats for the given seat
      number. */
  method FindClaimedSeat(seats: seq<SeatInfo>, seatNo: nat) returns (found: bool)
    ensures found <==> Ledger.SeatTaken(seats, seatNo)
  {
    found := false;
    var i := 0;
    while i < |seats| && !found
      invariant 0 <= i <= |seats|
      invariant found ==> Ledger.SeatTaken(seats, seatNo)
      invariant !found ==> forall k :: 0 <= k < i ==> seats[k].seatNo != seatNo
    {
      found := seats[i].seatNo == seatNo;
      i := i + 1;
    }
  }

  class EventCanister {
    /** eventDataMap: event id to its record. */
    var events: map<EventId, EventMetaData>
    /** userIdXEventIdMap: owner to the ids of the events it created. */
    var eventIdsByOwner: map<Principal, seq<EventId>>

    function State(): Ledger.State
      reads this
    {
      Ledger.State(events, eventIdsByOwner)
    }

    ghost predicate Valid()
      reads this
    {
      Ledger.Valid(State())
    }

    constructor ()
      ensures Valid()
      ensures events == map[] && eventIdsByOwner == map[]
    {
      events := map[];
      eventIdsByOwner := map[];
    }

    method CreateEvent(userIdentity: Principal, payload: Payload, freshId: EventId) returns (r: Result<EventInfo>)
      requires Valid()
      requires freshId !in events
      modifies this
      ensures Valid()
      ensures State() == Ledger.CreateEvent(old(State()), userIdentity, payload, freshId).state
      ensures r == Ledger.CreateEvent(old(State()), userIdentity, payload, freshId).result
    {
      Ledger.CreateEventPreservesValid(State(), userIdentity, payload, freshId);
      if payload.NoKeys? {
        return Err(InvalidPayload(InvalidPayloadText));
      }
      var info := payload.info;
      var taken := FindEventNamed(events, info.name);
      if taken {
        return Err(AlreadyExists(NameExistsText(info.name)));
      }
      ghost var extended := Ledger.OwnedIds(eventIdsByOwner, userIdentity) + [freshId];
      if userIdentity in eventIdsByOwner && |eventIdsByOwner[userIdentity]| > 0 {
        var ids := eventIdsByOwner[userIdentity];
        ids := ids + [freshId];
        eventIdsByOwner := eventIdsByOwner[userIdentity := ids];
      } else {
        assert extended == [freshId];
        eventIdsByOwner := eventIdsByOwner[userIdentity := [freshId]];
      }
      var qrData := QrData([], "0");
      var eventData := EventData([], qrData);
      var meta := EventMetaData(info, eventData, false);
      events := events[freshId := meta];
      r := Ok(info);
    }

    /** The identity's ids, or NotFound when it has no entry or an empty list. */
    function GetEventIds(userIdentity: Principal): (r: Result<seq<EventId>>)
      reads this
      ensures r.Err? <==> userIdentity !in eventIdsByOwner || eventIdsByOwner[userIdentity] == []
      ensures r.Err? ==> r.error == NotFound(NoEventsForUserText)
      ensures r.Ok? ==> r.value == eventIdsByOwner[userIdentity]
      ensures Valid() && r.Ok? ==> forall i :: 0 <= i < |r.value| ==> r.value[i] in events
    {
      Ledger.EventIdsOf(State(), userIdentity)
    }

    method GenerateQrCode(eventId: EventId, code: string) returns (r: Result<string>)
      requires Valid()
      modifies this
      ensures Valid()
      ensures State() == Ledger.GenerateQrCode(old(State()), eventId, code).state
      ensures r == Ledger.GenerateQrCode(old(State()), eventId, code).result
    {
      Ledger.GenerateQrCodePreservesValid(State(), eventId, code);
      if eventId !in events {
        return Err(NotFound(EventNotFoundText));
      }
      var meta := events[eventId];
      if |meta.eventData.qrData.generatedQr| >= Ledger.MaxQrCodes {
        return Err(InvalidPayload(MaxQrReachedText));
      }
      var qrData := meta.eventData.qrData;
      qrData := qrData.(generatedQr := qrData.generatedQr + [code]);
      qrData := qrData.(totalQrGenerated := DecimalString(|qrData.generatedQr|));
      meta := meta.(eventData := meta.eventData.(qrData := qrData));
      events := events[eventId := meta];
      r := Ok(code);
    }

    /** The stored record with its derived counts, or NotFound. */
    function GetEventData(eventId: EventId): (r: Result<EventView>)
      reads this
      ensures r.Err? <==> eventId !in events
      ensures r.Err? ==> r.error == NotFound(EventNotFoundText)
      ensures r.Ok? ==>
        && r.value.eventInfo == events[eventId].eventInfo
        && r.value.eventData == events[eventId].eventData
        && r.value.changeStatus == events[eventId].changeStatus
        && r.value.claimedSeatsCount == |events[eventId].eventData.claimedSeats|
        && r.value.qrCodesGenerated == |events[eventId].eventData.qrData.generatedQr|
        && r.value.isOngoing == events[eventId].changeStatus
      ensures Valid() && r.Ok? ==>
        && r.value.qrCodesGenerated <= Ledger.MaxQrCodes
        && ParseDecimal(r.value.eventData.qrData.totalQrGenerated) == Some(r.value.qrCodesGenerated)
    {
      Ledger.EventDataReportsCounts(State(), eventId);
      Ledger.EventDataOf(State(), eventId)
    }

    method ClaimSeat(eventId: EventId, userIdentity: Principal, seatNo: nat, uniqueCode: string) returns (r: Result<SeatInfo>)
      requires Valid()
      modifies this
      ensures Valid()
      ensures State() == Ledger.ClaimSeat(old(State()), eventId, userIdentity, seatNo, uniqueCode).state
      ensures r == Ledger.ClaimSeat(old(State()), eventId, userIdentity, seatNo, uniqueCode).result
    {
      Ledger.ClaimSeatPreservesValid(State(), eventId, userIdentity, seatNo, uniqueCode);
      if eventId !in events {
        return Err(NotFound(EventNotFoundText));
      }
      var meta := events[eventId];
      var claimed := FindClaimedSeat(meta.eventData.claimedSeats, seatNo);
      if claimed {
        return Err(AlreadyExists(Ledger.SeatClaimedText(seatNo)));
      }
      var seatInfo := SeatInfo(userIdentity, seatNo, uniqueCode);
      meta := meta.(eventData := meta.eventData.(claimedSeats := meta.eventData.claimedSeats + [seatInfo]));
      events := events[eventId := meta];
      r := Ok(seatInfo);
    }

    method UpdateEventStatus(eventId: EventId, status: bool) returns (r: Result<bool>)
      requires Valid()
      modifies this
      ensures Valid()
      ensures State() == Ledger.UpdateEventStatus(old(State()), eventId, status).state
      ensures r == Ledger.UpdateEventStatus(old(State()), eventId, status).result
    {
      Ledger.UpdateEventStatusPreservesValid(State(), eventId, status);
      if eventId !in events {
        return Err(NotFound(EventNotFoundText));
      }
      var meta := events[eventId];
      meta := meta.(changeStatus := status);
      events := events[eventId := meta];
      r := Ok(status);
    }
  }
}
