# Eventer event ledger, modelled in Dafny

The Eventer backend canister (`src/eventer_backend/src/index.ts`) keeps two
stable maps: `eventDataMap`, from event id to an `EventMetaData` record, and
`userIdXEventIdMap`, from a user identity (a principal the client passes as an
argument) to the ids of the events created for it.
An event record holds its `EventInfo` (name, description, start and end time as
text), the list of claimed seats, the list of minted QR codes with its count as
decimal text, and a `changeStatus` flag. Six calls act on the maps: `createEvent`,
`getEventIds`, `generateQrCode`, `getEventData`, `claimSeat` and
`updateEventStatus`. Each returns either a value or one of three errors:
`NotFound`, `AlreadyExists` or `InvalidPayload`.

The project has five modules:

- `types.dfy` (module `Types`): the records, the error variant, the call result,
  and the error texts the canister returns.
- `decimal.dfy` (module `Decimal`): the decimal text JavaScript's `toString()`
  writes for a count, a parser for it, and the proof that the count reads back.
- `ledger.dfy` (module `Ledger`): the two maps as one `State` value.
  - One function per call gives the new state and the answer.
  - The invariant `Valid` covers:
    - pairwise distinct event names;
    - every owned id names a stored event, and every stored event is listed
      under some owner;
    - at most 100 codes per event;
    - the count text equals the decimal length of the code list;
    - distinct seat numbers within an event.
  - Lemmas give each call's error cases, what a successful call changes and what
    it leaves alone, and invariant preservation.
  - `Run` executes a sequence of calls one at a time, as the canister does.
    Lemmas about it show that the invariant holds after any sequence, and that no
    call removes an event or shortens a list.
- `canister.dfy` (module `Canister`): class `EventCanister` with the two maps as
  fields.
  - Its update methods read a record, change the copy and insert it back, as the
    TypeScript does with the copy `StableBTreeMap.get` returns.
  - Its two queries are functions that only read.
  - The two `.find` searches are methods with loops: by name over the stored
    records, and by seat number over the claimed seats.
  - Every method is proved to produce the state and answer of the matching
    `Ledger` function, and to keep `Valid`.
- `gaps.dfy` (module `Gaps`): what the calls do not guarantee.
  - `claimSeat` accepts any seat number passed in that is not yet taken.
    It never checks that the code was minted, that no seat used the code before,
    or that the identity holds no seat.
  - `generateQrCode` appends whatever code it is handed, so the code list may
    contain duplicates.
  - `createEvent` does not validate the event fields.

## Model

| member | source | states |
|---|---|---|
| `Decimal.DecimalString` | src/eventer_backend/src/index.ts:160 | `length.toString()`: the count text is a non-empty digit string with a leading `0` only for zero |
| `Decimal.ParseDecimalRoundTrip` | src/eventer_backend/src/index.ts:160 | reading `totalQrGenerated` back as a decimal gives exactly the length it was written from |
| `Decimal.DecimalStringInjective` | src/eventer_backend/src/index.ts:160 | two different counts never produce the same count text |
| `Ledger.CreateEvent` | src/eventer_backend/src/index.ts:75-121 | createEvent on the two maps: a failure leaves the state as it was; a success returns the payload's info, stores it under the new id, and makes the identity's list its old list (or empty) with the id appended |
| `Ledger.EventIdsOf` | src/eventer_backend/src/index.ts:127-134 | getEventIds: `NotFound` exactly when the identity has no list or an empty one; otherwise that list |
| `Ledger.GenerateQrCode` | src/eventer_backend/src/index.ts:140-165 | generateQrCode: a failure leaves the state as it was; a success on a known event below 100 codes returns the code and appends it to that event's code list |
| `Ledger.EventDataOf` | src/eventer_backend/src/index.ts:171-189 | getEventData: `NotFound` exactly on an unknown id; otherwise the record with the seat count, code count and `isOngoing` taken from it |
| `Ledger.ClaimSeat` | src/eventer_backend/src/index.ts:196-223 | claimSeat: a failure leaves the state as it was; a success requires a known event whose seats lack the number, returns `{userIdentity, seatNo, uniqueCode}` and appends it to the seat list |
| `Ledger.UpdateEventStatus` | src/eventer_backend/src/index.ts:230-242 | updateEventStatus: fails exactly on an unknown id, leaving the state; otherwise returns the flag and replaces the record by the same record with `changeStatus` set |
| `Ledger.CreateEventErrors` | src/eventer_backend/src/index.ts:77-87 | an empty payload gives `InvalidPayload`; a name already held by a stored event gives `AlreadyExists`; the call succeeds exactly when neither applies; a failed call leaves both maps unchanged |
| `Ledger.CreateEventSuccess` | src/eventer_backend/src/index.ts:89-120 | a successful create stores under the new id a record with the given info, no seats, no codes, count `"0"` and status false; it returns the info unchanged; the identity's list becomes the old list (or empty) with the id appended; no other event and no other owner's list changes |
| `Ledger.CreateEventPreservesValid` | src/eventer_backend/src/index.ts:82-119 | createEvent keeps names pairwise distinct, every owned id resolving to a stored event, and every stored event listed under some owner |
| `Ledger.CreateThenEventIds` | src/eventer_backend/src/index.ts:90-98 | after a successful create, getEventIds for the creator answers its old list extended by the new id, never `NotFound` |
| `Ledger.GenerateQrCodeErrors` | src/eventer_backend/src/index.ts:141-154 | an unknown id gives `NotFound`; 100 or more codes gives `InvalidPayload`; success exactly on a known id below 100 codes; a failure changes nothing |
| `Ledger.GenerateQrCodeSuccess` | src/eventer_backend/src/index.ts:157-164 | success appends exactly the returned code; the count text is exactly the decimal text of the new length and reads back as it; seats, info, status, other events and the owner index stay unchanged |
| `Ledger.GenerateQrCodePreservesValid` | src/eventer_backend/src/index.ts:147-163 | generateQrCode keeps every event at or below 100 codes, with count text equal to the decimal length |
| `Ledger.EventDataReportsCounts` | src/eventer_backend/src/index.ts:172-188 | getEventData fails exactly on an unknown id; otherwise it returns the stored record, the two list lengths as counts, and `isOngoing` equal to the status flag; in a valid ledger the count is at most 100 and the stored count text reads back as it |
| `Ledger.ClaimSeatErrors` | src/eventer_backend/src/index.ts:197-208 | an unknown id gives `NotFound`; a seat number already claimed gives `AlreadyExists`; success holds exactly when neither applies, whatever the code and the identity; a failure changes nothing |
| `Ledger.ClaimSeatSuccess` | src/eventer_backend/src/index.ts:211-222 | success appends `{userIdentity, seatNo, uniqueCode}` to the seat list and returns it; codes, info, status, other events and the owner index stay unchanged |
| `Ledger.ClaimSeatPreservesValid` | src/eventer_backend/src/index.ts:203-221 | claimSeat keeps the seat numbers of every event pairwise distinct |
| `Ledger.UpdateEventStatusSpec` | src/eventer_backend/src/index.ts:231-242 | an unknown id gives `NotFound` with nothing changed; otherwise only the event's status flag is set, and the call returns the value it set |
| `Ledger.UpdateEventStatusPreservesValid` | src/eventer_backend/src/index.ts:231-241 | updateEventStatus keeps the ledger invariant |
| `Ledger.StepPreservesValid` | src/eventer_backend/src/index.ts:71-243 | each of the six calls keeps the ledger invariant |
| `Ledger.RunPreservesValid` | src/eventer_backend/src/index.ts:68-69 | after any sequence of calls, names stay pairwise distinct, owned ids resolve, every event is listed under an owner, no event exceeds 100 codes, count texts match, and seat numbers stay distinct |
| `Ledger.StepGrows` | src/eventer_backend/src/index.ts:71-243 | with a fresh id for createEvent, no call removes an event or changes its info; code, seat and owner lists only grow at the end |
| `Ledger.RunGrows` | src/eventer_backend/src/index.ts:68-69 | over any sequence of calls with fresh ids, events are never removed and all lists are append-only |
| `Canister.FindEventNamed` | src/eventer_backend/src/index.ts:82-84 | the scan over stored records reports a match exactly when some stored event carries the name |
| `Canister.FindClaimedSeat` | src/eventer_backend/src/index.ts:203-205 | the scan over claimed seats reports a match exactly when some seat has the number |
| `Canister.EventCanister.constructor` | src/eventer_backend/src/index.ts:68-69 | both maps start empty and the invariant holds |
| `Canister.EventCanister.CreateEvent` | src/eventer_backend/src/index.ts:72-121 | with a fresh id, the new maps and the answer are those of `Ledger.CreateEvent`, including the source's two branches for an existing or missing list; the invariant is kept |
| `Canister.EventCanister.GetEventIds` | src/eventer_backend/src/index.ts:124-135 | `NotFound` exactly when the owner has no entry or an empty list; otherwise the stored list, every id of which names a stored event |
| `Canister.EventCanister.GenerateQrCode` | src/eventer_backend/src/index.ts:137-166 | the new maps and the answer are those of `Ledger.GenerateQrCode`; the invariant is kept |
| `Canister.EventCanister.GetEventData` | src/eventer_backend/src/index.ts:168-190 | `NotFound` exactly on an unknown id; otherwise the stored record with counts equal to the list lengths and `isOngoing` equal to the status flag; under the invariant, at most 100 codes, and the count text reads back as that count |
| `Canister.EventCanister.ClaimSeat` | src/eventer_backend/src/index.ts:193-224 | the new maps and the answer are those of `Ledger.ClaimSeat`; the invariant is kept |
| `Canister.EventCanister.UpdateEventStatus` | src/eventer_backend/src/index.ts:227-243 | the new maps and the answer are those of `Ledger.UpdateEventStatus`; the invariant is kept |
| `Gaps.SeatsMayShareCodeAndHolder` | src/eventer_backend/src/index.ts:203-218 | any existing claim can be repeated by the same identity with the same code under a new seat number; afterwards two seats share code and holder, and the invariant still holds |
| `Gaps.MintedCodesMayRepeat` | src/eventer_backend/src/index.ts:157-164 | generateQrCode handed the same code twice appends it twice; minted codes are not unique |
| `Gaps.CreateEventSkipsFieldValidation` | src/eventer_backend/src/index.ts:77-87 | createEvent accepts an empty name and description and any two time texts, an end before the start among them, when no stored event has the empty name |
| `Gaps.UnmintedCodeClaimedTwiceBySameHolder` | src/eventer_backend/src/index.ts:193-224 | from an empty ledger, one identity claims seats 7 and 9 with a code never minted, and both claims succeed |

## What the calls do not check

- `claimSeat` does not reject a code that was never minted for the event.
- `claimSeat` does not reject a code that an earlier seat already used.
- `claimSeat` does not reject an identity that already holds a seat.
- `claimSeat` takes the seat number as an argument; it does not number seats
  1, 2, 3, … itself. Module `Gaps` proves these four points.
- `generateQrCode` does not check that a new code differs from the codes already
  minted (`Gaps.MintedCodesMayRepeat`).
- `createEvent` does no field validation. It accepts an empty name or
  description and an `endTime` before `startTime`
  (`Gaps.CreateEventSkipsFieldValidation`). Its only checks are that the
  payload has keys and that no stored event has the name.
- No call checks who is calling. `createEvent` and `claimSeat` take the
  identity as an argument the client supplies, and `generateQrCode` and
  `updateEventStatus` take none.
- No call edits or removes an event.

## Left out

- Random code generation: `generateRandomHexColor` (src/eventer_backend/src/utils.ts) relies on floating-point `Math.random`. Its output is the `code` parameter of `GenerateQrCode`, any string.
- `uuidv4()`: the new event id is the `freshId` parameter of `CreateEvent`. The method requires that the id is not already a key, as a version-4 UUID is taken to be.
- The azle runtime, `StableBTreeMap` persistence and Candid encoding: the maps are Dafny maps and each call runs to completion before the next, as the canister runs them.
- Both stable maps are declared on the same memory id, 0 (src/eventer_backend/src/index.ts:68-69). If the runtime lets maps on one memory id share storage, `eventDataMap.values()` (line 82) would also return the owner-index arrays, and reading `.eventInfo.name` from one of them (line 83) would trap. The model treats the two maps as independent stores. `Ledger.CreateEventErrors` and everything built on it hold only under that reading.
- The payload check `typeof event !== "object" || Object.keys(event).length === 0`: the payload is either a record with no keys (`Payload.NoKeys`) or a full `EventInfo`. `NoKeys` models the code's own check. Candid decoding of the four-field `EventInfo` argument rejects an empty record as it rejects a partial one, so this `InvalidPayload` branch cannot be reached through the canister's interface. A partial record is not modelled.
- `getEventData` returns the record spread with three derived fields. The declared result type lists only the `EventMetaData` fields. Whether the three extra fields reach the client depends on the Candid encoder, which is not part of this model. The model returns them as the code builds them.
- The text of the `AlreadyExists` message for a seat interpolates the seat number as decimal text. It is modelled with the same decimal writer as the code count.
- `src/backend/index.ts` is an unfinished stub whose `createEvent` has an empty body, so there is no behaviour to model.
- The React frontends are not part of this model: components, Internet Identity login, form validation that depends on wall-clock time, date formatting in `nanoToDateTime.js`, and status badges.
- Calls the frontends make that the canister does not define are not part of this model, because they have no source to model: `validateUserQrCode`, `getUserSeat`, `getAllEvent`, `deleteEvent`, `editEvent`, `isAdmin`, `changeQrGenerateStatus`, `getQrCode`.
