/** The records exchanged by the event ledger canister and the error variant its
    calls return. Every record is a value: the stable map hands out a fresh copy
    on each lookup, and a change is only visible once the copy is inserted back. */
module Types {

  datatype Option<T> = None | Some(value: T)

  /** Event ids are the text of a version-4 UUID. */
  type EventId = string

  /** A principal, supplied by the client as an argument; compared by equality only. */
  datatype Principal = Principal(bytes: seq<bv8>)

  datatype SeatInfo = SeatInfo(userIdentity: Principal, seatNo: nat, uniqueCode: string)

  /** The four text fields of an event; times are decimal nanosecond strings kept as text. */
  datatype EventInfo = EventInfo(name: string, description: string, startTime: string, endTime: string)

  /** The minted codes and their count, the count kept as decimal text. */
  datatype QrData = QrData(generatedQr: seq<string>, totalQrGenerated: string)

  datatype EventData = EventData(claimedSeats: seq<SeatInfo>, qrData: QrData)

  datatype EventMetaData = EventMetaData(eventInfo: EventInfo, eventData: EventData, changeStatus: bool)

  /** The three-way error variant; each case carries a human-readable text. */
  datatype ErrorMessage =
    | NotFound(text: string)
    | AlreadyExists(text: string)
    | InvalidPayload(text: string)

  datatype Result<T> = Ok(value: T) | Err(error: ErrorMessage)

  /** The event argument of createEvent: either a record with no keys at all,
      which the canister rejects, or the four fields of an EventInfo. */
  datatype Payload = NoKeys | Fields(info: EventInfo)

  /** What getEventData answers: the stored record spread out, plus three
      derived fields. */
  datatype EventView = EventView(
    eventInfo: EventInfo,
    eventData: EventData,
    changeStatus: bool,
    claimedSeatsCount: nat,
    qrCodesGenerated: nat,
    isOngoing: bool)

  const InvalidPayloadText := "invalid payload"
  const NoEventsForUserText := "No event found for the user"
  const EventNotFoundText := "Event not found"
  const MaxQrReachedText := "Maximum number of QR codes reached"

  function NameExistsText(name: string): string
  {
    "An event with name " + name + " already exists"
  }
}
