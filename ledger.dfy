/** The canister's two stable maps as one value, one function per call giving
    the state after the call and the answer it returns, and the properties of
    those calls: their error cases, what a successful call changes and leaves
    alone, the invariant every call keeps, and what holds after any sequence of
    calls. The class in module Canister is proved to follow these functions. */
module Ledger {
  import opened Types
  import opened Decimal

  /** The ceiling on codes minted for one event. */
  const MaxQrCodes: nat := 100

  /** eventDataMap and userIdXEventIdMap. */
  datatype State = State(events: map<EventId, EventMetaData>, eventIdsByOwner: map<Principal, seq<EventId>>)

  /** The state after a call and the answer the call returns. */
  datatype Outcome<T> = Outcome(state: State, result: Result<T>)

  const EmptyState := State(map[], map[])

  // ---------------------------------------------------------------------------
  // Invariant

  predicate QrCountConsistent(q: QrData)
  {
    q.totalQrGenerated == DecimalString(|q.generatedQr|)
  }

  predicate SeatNumbersDistinct(seats: seq<SeatInfo>)
  {
    forall i, j :: 0 <= i < j < |seats| ==> seats[i].seatNo != seats[j].seatNo
  }

  predicate EventWellFormed(m: EventMetaData)
  {
    && |m.eventData.qrData.generatedQr| <= MaxQrCodes
    && QrCountConsistent(m.eventData.qrData)
    && SeatNumbersDistinct(m.eventData.claimedSeats)
  }

  predicate NamesDistinct(events: map<EventId, EventMetaData>)
  {
    forall a, b :: a in events && b in events && a != b ==> events[a].eventInfo.name != events[b].eventInfo.name
  }

  /** Every id in an owner's list names a stored event. */
  predicate OwnedIdsResolve(s: State)
  {
    forall o, i :: o in s.eventIdsByOwner && 0 <= i < |s.eventIdsByOwner[o]| ==> s.eventIdsByOwner[o][i] in s.events
  }

  /** Every stored event appears in the id list of some owner. */
  predicate EventsOwned(s: State)
  {
    forall id :: id in s.events ==> exists o :: o in s.eventIdsByOwner && id in s.eventIdsByOwner[o]
  }

  predicate Valid(s: State)
  {
    && NamesDistinct(s.events)
    && OwnedIdsResolve(s)
    && EventsOwned(s)
    && forall id :: id in s.events ==> EventWellFormed(s.events[id])
  }

  // ---------------------------------------------------------------------------
  // Queries used by the calls

  predicate NameTaken(events: map<EventId, EventMetaData>, name: string)
  {
    exists id :: id in events && events[id].eventInfo.name == name
  }

  predicate SeatTaken(seats: seq<SeatInfo>, seatNo: nat)
  {
    exists i :: 0 <= i < |seats| && seats[i].seatNo == seatNo
  }

  /** The owner's stored list, or the empty list when the owner has no entry. */
  function OwnedIds(owners: map<Principal, seq<EventId>>, owner: Principal): seq<EventId>
  {
    if owner in owners then owners[owner] else []
  }

  // ---------------------------------------------------------------------------
  // Record updates (applied to the copy read from the map, then re-inserted)

  function NewEvent(info: EventInfo): EventMetaData
  {
    EventMetaData(info, EventData([], QrData([], "0")), false)
  }

  function WithQrCode(m: EventMetaData, code: string): EventMetaData
  {
    var generated := m.eventData.qrData.generatedQr + [code];
    m.(eventData := m.eventData.(qrData := QrData(generated, DecimalString(|generated|))))
  }

  function WithSeat(m: EventMetaData, seat: SeatInfo): EventMetaData
  {
    m.(eventData := m.eventData.(claimedSeats := m.eventData.claimedSeats + [seat]))
  }

  // ---------------------------------------------------------------------------
  // The six calls

  function CreateEvent(s: State, userIdentity: Principal, payload: Payload, freshId: EventId): (o: Outcome<EventInfo>)
    ensures o.result.Err? ==> o.state == s
    ensures o.result.Ok? ==>
      && payload.Fields? && o.result.value == payload.info
      && freshId in o.state.events && o.state.events[freshId].eventInfo == payload.info
      && userIdentity in o.state.eventIdsByOwner
      && o.state.eventIdsByOwner[userIdentity] == OwnedIds(s.eventIdsByOwner, userIdentity) + [freshId]
  {
    match payload
    case NoKeys => Outcome(s, Err(InvalidPayload(InvalidPayloadText)))
    case Fields(info) =>
      if NameTaken(s.events, info.name) then
        Outcome(s, Err(AlreadyExists(NameExistsText(info.name))))
      else
        var owners := s.eventIdsByOwner[userIdentity := OwnedIds(s.eventIdsByOwner, userIdentity) + [freshId]];
        Outcome(State(s.events[freshId := NewEvent(info)], owners), Ok(info))
  }

  function EventIdsOf(s: State, userIdentity: Principal): (r: Result<seq<EventId>>)
    ensures r.Err? <==> OwnedIds(s.eventIdsByOwner, userIdentity) == []
    ensures r.Ok? ==> r.value == OwnedIds(s.eventIdsByOwner, userIdentity)
  {
    if userIdentity in s.eventIdsByOwner && |s.eventIdsByOwner[userIdentity]| > 0 then Ok(s.eventIdsByOwner[userIdentity])
    else Err(NotFound(NoEventsForUserText))
  }

  function GenerateQrCode(s: State, eventId: EventId, code: string): (o: Outcome<string>)
    ensures o.result.Err? ==> o.state == s
    ensures o.result.Ok? ==>
      && o.result.value == code
      && eventId in s.events && eventId in o.state.events
      && |s.events[eventId].eventData.qrData.generatedQr| < MaxQrCodes
      && o.state.events[eventId].eventData.qrData.generatedQr == s.events[eventId].eventData.qrData.generatedQr + [code]
  {
    if eventId !in s.events then Outcome(s, Err(NotFound(EventNotFoundText)))
    else if |s.events[eventId].eventData.qrData.generatedQr| >= MaxQrCodes then
      Outcome(s, Err(InvalidPayload(MaxQrReachedText)))
    else
      Outcome(s.(events := s.events[eventId := WithQrCode(s.events[eventId], code)]), Ok(code))
  }

  function EventDataOf(s: State, eventId: EventId): (r: Result<EventView>)
    ensures r.Err? <==> eventId !in s.events
    ensures r.Ok? ==>
      && r.value.claimedSeatsCount == |r.value.eventData.claimedSeats|
      && r.value.qrCodesGenerated == |r.value.eventData.qrData.generatedQr|
      && r.value.isOngoing == r.value.changeStatus
  {
    if eventId !in s.events then Err(NotFound(EventNotFoundText))
    else
      var m := s.events[eventId];
      Ok(EventView(m.eventInfo, m.eventData, m.changeStatus,
                   |m.eventData.claimedSeats|, |m.eventData.qrData.generatedQr|, m.changeStatus))
  }

  function SeatClaimedText(seatNo: nat): string
  {
    "Seat number " + DecimalString(seatNo) + " is already claimed"
  }

  function ClaimSeat(s: State, eventId: EventId, userIdentity: Principal, seatNo: nat, uniqueCode: string): (o: Outcome<SeatInfo>)
    ensures o.result.Err? ==> o.state == s
    ensures o.result.Ok? ==>
      && o.result.value == SeatInfo(userIdentity, seatNo, uniqueCode)
      && eventId in s.events && eventId in o.state.events
      && !SeatTaken(s.events[eventId].eventData.claimedSeats, seatNo)
      && o.state.events[eventId].eventData.claimedSeats == s.events[eventId].eventData.claimedSeats + [o.result.value]
  {
    if eventId !in s.events then Outcome(s, Err(NotFound(EventNotFoundText)))
    else if SeatTaken(s.events[eventId].eventData.claimedSeats, seatNo) then
      Outcome(s, Err(AlreadyExists(SeatClaimedText(seatNo))))
    else
      var seat := SeatInfo(userIdentity, seatNo, uniqueCode);
      Outcome(s.(events := s.events[eventId := WithSeat(s.events[eventId], seat)]), Ok(seat))
  }

  function UpdateEventStatus(s: State, eventId: EventId, status: bool): (o: Outcome<bool>)
    ensures o.result.Err? <==> eventId !in s.events
    ensures o.result.Err? ==> o.state == s
    ensures o.result.Ok? ==>
      && o.result.value == status && eventId in o.state.events
      && o.state.events[eventId] == s.events[eventId].(changeStatus := status)
  {
    if eventId !in s.events then Outcome(s, Err(NotFound(EventNotFoundText)))
    else Outcome(s.(events := s.events[eventId := s.events[eventId].(changeStatus := status)]), Ok(status))
  }

  // ---------------------------------------------------------------------------
  // createEvent

  /** createEvent fails exactly on an empty payload or a taken name, and a
      failed call leaves both maps as they were. */
  lemma CreateEventErrors(s: State, userIdentity: Principal, payload: Payload, freshId: EventId)
    ensures var o := CreateEvent(s, userIdentity, payload, freshId);
      && (payload.NoKeys? ==> o.result == Err(InvalidPayload(InvalidPayloadText)))
      && (payload.Fields? && NameTaken(s.events, payload.info.name) ==>
            o.result == Err(AlreadyExists(NameExistsText(payload.info.name))))
      && (o.result.Ok? <==> payload.Fields? && !NameTaken(s.events, payload.info.name))
      && (o.result.Err? ==> o.state == s)
  {
  }

  /** A successful createEvent stores a fresh record under the new id (no seats,
      no codes, count "0", status false), appends the id to the identity's list,
      returns the info unchanged and touches no other event or owner. */
  lemma CreateEventSuccess(s: State, userIdentity: Principal, info: EventInfo, freshId: EventId)
    requires !NameTaken(s.events, info.name)
    ensures var o := CreateEvent(s, userIdentity, Fields(info), freshId);
      && o.result == Ok(info)
      && o.state.events.Keys == s.events.Keys + {freshId}
      && freshId in o.state.events
      && o.state.events[freshId].eventInfo == info
      && o.state.events[freshId].eventData.claimedSeats == []
      && o.state.events[freshId].eventData.qrData.generatedQr == []
      && o.state.events[freshId].eventData.qrData.totalQrGenerated == "0"
      && !o.state.events[freshId].changeStatus
      && (forall id :: id in s.events && id != freshId ==> o.state.events[id] == s.events[id])
      && userIdentity in o.state.eventIdsByOwner
      && o.state.eventIdsByOwner[userIdentity] == OwnedIds(s.eventIdsByOwner, userIdentity) + [freshId]
      && o.state.eventIdsByOwner.Keys == s.eventIdsByOwner.Keys + {userIdentity}
      && (forall p :: p in s.eventIdsByOwner && p != userIdentity ==> o.state.eventIdsByOwner[p] == s.eventIdsByOwner[p])
  {
  }

  lemma CreateEventPreservesValid(s: State, userIdentity: Principal, payload: Payload, freshId: EventId)
    requires Valid(s)
    ensures Valid(CreateEvent(s, userIdentity, payload, freshId).state)
  {
    var t := CreateEvent(s, userIdentity, payload, freshId).state;
    if t != s {
      forall id | id in t.events
        ensures exists o :: o in t.eventIdsByOwner && id in t.eventIdsByOwner[o]
      {
        if id == freshId {
          assert id in t.eventIdsByOwner[userIdentity];
        } else {
          var o :| o in s.eventIdsByOwner && id in s.eventIdsByOwner[o];
          assert id in t.eventIdsByOwner[o];
        }
      }
    }
  }

  /** After a successful createEvent the identity's id list is non-empty, so
      getEventIds answers it instead of NotFound. */
  lemma CreateThenEventIds(s: State, userIdentity: Principal, info: EventInfo, freshId: EventId)
    requires !NameTaken(s.events, info.name)
    ensures EventIdsOf(CreateEvent(s, userIdentity, Fields(info), freshId).state, userIdentity)
         == Ok(OwnedIds(s.eventIdsByOwner, userIdentity) + [freshId])
  {
  }

  // ---------------------------------------------------------------------------
  // generateQrCode

  /** generateQrCode fails on an unknown id and at the ceiling, leaving the
      state unchanged; it succeeds exactly on a known id below the ceiling. */
  lemma GenerateQrCodeErrors(s: State, eventId: EventId, code: string)
    ensures var o := GenerateQrCode(s, eventId, code);
      && (eventId !in s.events ==> o.result == Err(NotFound(EventNotFoundText)))
      && (eventId in s.events && |s.events[eventId].eventData.qrData.generatedQr| >= MaxQrCodes ==>
            o.result == Err(InvalidPayload(MaxQrReachedText)))
      && (o.result.Ok? <==> eventId in s.events && |s.events[eventId].eventData.qrData.generatedQr| < MaxQrCodes)
      && (o.result.Err? ==> o.state == s)
  {
  }

  /** A successful generateQrCode appends exactly the returned code, sets the
      count text to the new length, and changes nothing else in this event,
      in other events or in the owner index. */
  lemma GenerateQrCodeSuccess(s: State, eventId: EventId, code: string)
    requires eventId in s.events
    requires |s.events[eventId].eventData.qrData.generatedQr| < MaxQrCodes
    ensures var o := GenerateQrCode(s, eventId, code);
      var m := s.events[eventId];
      && o.result == Ok(code)
      && o.state.events.Keys == s.events.Keys
      && o.state.eventIdsByOwner == s.eventIdsByOwner
      && o.state.events[eventId].eventData.qrData.generatedQr == m.eventData.qrData.generatedQr + [code]
      && o.state.events[eventId].eventData.qrData.totalQrGenerated
         == DecimalString(|m.eventData.qrData.generatedQr| + 1)
      && ParseDecimal(o.state.events[eventId].eventData.qrData.totalQrGenerated)
         == Some(|m.eventData.qrData.generatedQr| + 1)
      && o.state.events[eventId].eventData.claimedSeats == m.eventData.claimedSeats
      && o.state.events[eventId].eventInfo == m.eventInfo
      && o.state.events[eventId].changeStatus == m.changeStatus
      && (forall id :: id in s.events && id != eventId ==> o.state.events[id] == s.events[id])
  {
    ParseDecimalRoundTrip(|s.events[eventId].eventData.qrData.generatedQr| + 1);
  }

  lemma GenerateQrCodePreservesValid(s: State, eventId: EventId, code: string)
    requires Valid(s)
    ensures Valid(GenerateQrCode(s, eventId, code).state)
  {
  }

  // ---------------------------------------------------------------------------
  // getEventData

  /** getEventData reports the stored record; its derived counts are the list
      lengths, isOngoing is the status flag, and in a valid ledger the stored
      count text reads back as the number of codes, which is at most 100. */
  lemma EventDataReportsCounts(s: State, eventId: EventId)
    ensures var r := EventDataOf(s, eventId);
      && (r.Err? <==> eventId !in s.events)
      && (r.Ok? ==>
            var m := s.events[eventId];
            && r.value.eventInfo == m.eventInfo
            && r.value.eventData == m.eventData
            && r.value.changeStatus == m.changeStatus
            && r.value.claimedSeatsCount == |m.eventData.claimedSeats|
            && r.value.qrCodesGenerated == |m.eventData.qrData.generatedQr|
            && r.value.isOngoing == m.changeStatus)
      && (Valid(s) && r.Ok? ==>
            && r.value.qrCodesGenerated <= MaxQrCodes
            && ParseDecimal(r.value.eventData.qrData.totalQrGenerated) == Some(r.value.qrCodesGenerated))
  {
    if eventId in s.events {
      ParseDecimalRoundTrip(|s.events[eventId].eventData.qrData.generatedQr|);
    }
  }

  // ---------------------------------------------------------------------------
  // claimSeat

  /** claimSeat fails on an unknown id and on a seat number already in the
      list, leaving the state unchanged. Success depends on nothing else: not
      on the code, nor on the userIdentity. */
  lemma ClaimSeatErrors(s: State, eventId: EventId, userIdentity: Principal, seatNo: nat, uniqueCode: string)
    ensures var o := ClaimSeat(s, eventId, userIdentity, seatNo, uniqueCode);
      && (eventId !in s.events ==> o.result == Err(NotFound(EventNotFoundText)))
      && (eventId in s.events && SeatTaken(s.events[eventId].eventData.claimedSeats, seatNo) ==>
            o.result == Err(AlreadyExists(SeatClaimedText(seatNo))))
      && (o.result.Ok? <==> eventId in s.events && !SeatTaken(s.events[eventId].eventData.claimedSeats, seatNo))
      && (o.result.Err? ==> o.state == s)
  {
  }

  /** A successful claimSeat appends the new seat record and returns it; the
      info, codes and status of the event and every other event stay as they
      were. */
  lemma ClaimSeatSuccess(s: State, eventId: EventId, userIdentity: Principal, seatNo: nat, uniqueCode: string)
    requires eventId in s.events
    requires !SeatTaken(s.events[eventId].eventData.claimedSeats, seatNo)
    ensures var o := ClaimSeat(s, eventId, userIdentity, seatNo, uniqueCode);
      var m := s.events[eventId];
      && o.result == Ok(SeatInfo(userIdentity, seatNo, uniqueCode))
      && o.state.events.Keys == s.events.Keys
      && o.state.eventIdsByOwner == s.eventIdsByOwner
      && o.state.events[eventId].eventData.claimedSeats == m.eventData.claimedSeats + [SeatInfo(userIdentity, seatNo, uniqueCode)]
      && o.state.events[eventId].eventData.qrData == m.eventData.qrData
      && o.state.events[eventId].eventInfo == m.eventInfo
      && o.state.events[eventId].changeStatus == m.changeStatus
      && (forall id :: id in s.events && id != eventId ==> o.state.events[id] == s.events[id])
  {
  }

  lemma ClaimSeatPreservesValid(s: State, eventId: EventId, userIdentity: Principal, seatNo: nat, uniqueCode: string)
    requires Valid(s)
    ensures Valid(ClaimSeat(s, eventId, userIdentity, seatNo, uniqueCode).state)
  {
  }

  // ---------------------------------------------------------------------------
  // updateEventStatus

  /** updateEventStatus fails only on an unknown id; otherwise it sets the
      status flag alone, returns the value it set, and changes nothing else. */
  lemma UpdateEventStatusSpec(s: State, eventId: EventId, status: bool)
    ensures var o := UpdateEventStatus(s, eventId, status);
      && (eventId !in s.events <==> o.result == Err(NotFound(EventNotFoundText)))
      && (eventId !in s.events ==> o.state == s)
      && (eventId in s.events ==>
            && o.result == Ok(status)
            && o.state.events.Keys == s.events.Keys
            && o.state.eventIdsByOwner == s.eventIdsByOwner
            && o.state.events[eventId].changeStatus == status
            && o.state.events[eventId].eventInfo == s.events[eventId].eventInfo
            && o.state.events[eventId].eventData == s.events[eventId].eventData
            && (forall id :: id in s.events && id != eventId ==> o.state.events[id] == s.events[id]))
  {
  }

  lemma UpdateEventStatusPreservesValid(s: State, eventId: EventId, status: bool)
    requires Valid(s)
    ensures Valid(UpdateEventStatus(s, eventId, status).state)
  {
  }

  // ---------------------------------------------------------------------------
  // Sequences of calls

  datatype Call =
    | CreateEventCall(userIdentity: Principal, payload: Payload, freshId: EventId)
    | GetEventIdsCall(userIdentity: Principal)
    | GenerateQrCodeCall(eventId: EventId, code: string)
    | GetEventDataCall(eventId: EventId)
    | ClaimSeatCall(eventId: EventId, userIdentity: Principal, seatNo: nat, uniqueCode: string)
    | UpdateEventStatusCall(eventId: EventId, status: bool)

  /** The state after one call; the two queries leave it as it was. */
  function Step(s: State, c: Call): State
  {
    match c
    case CreateEventCall(userIdentity, payload, freshId) => CreateEvent(s, userIdentity, payload, freshId).state
    case GetEventIdsCall(_) => s
    case GenerateQrCodeCall(eventId, code) => GenerateQrCode(s, eventId, code).state
    case GetEventDataCall(_) => s
    case ClaimSeatCall(eventId, userIdentity, seatNo, uniqueCode) => ClaimSeat(s, eventId, userIdentity, seatNo, uniqueCode).state
    case UpdateEventStatusCall(eventId, status) => UpdateEventStatus(s, eventId, status).state
  }

  /** The state after the calls, run one at a time in order. */
  function Run(s: State, calls: seq<Call>): State
    decreases |calls|
  {
    if calls == [] then s else Run(Step(s, calls[0]), calls[1..])
  }

  /** Every id a createEvent call supplies is new when the call runs, as a
      version-4 UUID is. */
  predicate FreshIds(s: State, calls: seq<Call>)
    decreases |calls|
  {
    calls == [] ||
    ((calls[0].CreateEventCall? ==> calls[0].freshId !in s.events) && FreshIds(Step(s, calls[0]), calls[1..]))
  }

  lemma StepPreservesValid(s: State, c: Call)
    requires Valid(s)
    ensures Valid(Step(s, c))
  {
    match c
    case CreateEventCall(userIdentity, payload, freshId) => CreateEventPreservesValid(s, userIdentity, payload, freshId);
    case GetEventIdsCall(_) =>
    case GenerateQrCodeCall(eventId, code) => GenerateQrCodePreservesValid(s, eventId, code);
    case GetEventDataCall(_) =>
    case ClaimSeatCall(eventId, userIdentity, seatNo, uniqueCode) =>
      ClaimSeatPreservesValid(s, eventId, userIdentity, seatNo, uniqueCode);
    case UpdateEventStatusCall(eventId, status) => UpdateEventStatusPreservesValid(s, eventId, status);
  }

  /** Whatever calls run, event names stay pairwise distinct, every owned id
      resolves, no event holds more than 100 codes, the count text matches the
      code list and seat numbers within an event stay distinct. */
  lemma {:induction false} RunPreservesValid(s: State, calls: seq<Call>)
    requires Valid(s)
    ensures Valid(Run(s, calls))
    decreases |calls|
  {
    if calls != [] {
      StepPreservesValid(s, calls[0]);
      RunPreservesValid(Step(s, calls[0]), calls[1..]);
    }
  }

  /** `t` keeps every event of `s` with the same info, and with the code list,
      the seat list and every owner's id list only extended at the end. */
  predicate Grows(s: State, t: State)
  {
    && (forall id :: id in s.events ==>
          && id in t.events
          && t.events[id].eventInfo == s.events[id].eventInfo
          && s.events[id].eventData.qrData.generatedQr <= t.events[id].eventData.qrData.generatedQr
          && s.events[id].eventData.claimedSeats <= t.events[id].eventData.claimedSeats)
    && (forall o :: o in s.eventIdsByOwner ==>
          o in t.eventIdsByOwner && s.eventIdsByOwner[o] <= t.eventIdsByOwner[o])
  }

  lemma StepGrows(s: State, c: Call)
    requires c.CreateEventCall? ==> c.freshId !in s.events
    ensures Grows(s, Step(s, c))
  {
  }

  lemma GrowsTransitive(s: State, t: State, u: State)
    requires Grows(s, t) && Grows(t, u)
    ensures Grows(s, u)
  {
  }

  /** No call removes an event or changes its info, and the code list, the
      seat list and the owner lists are append-only. */
  lemma {:induction false} RunGrows(s: State, calls: seq<Call>)
    requires FreshIds(s, calls)
    ensures Grows(s, Run(s, calls))
    decreases |calls|
  {
    if calls != [] {
      StepGrows(s, calls[0]);
      RunGrows(Step(s, calls[0]), calls[1..]);
      GrowsTransitive(s, Step(s, calls[0]), Run(s, calls));
    }
  }
}
