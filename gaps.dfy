/** What the canister's calls do not guarantee. claimSeat takes the seat number
    from its arguments and checks only that no claimed seat has that number; it
    does not check that the code was minted for the event, that no seat already
    used the code, or that the identity holds no seat yet. generateQrCode appends
    whatever code it is given, so the code list may repeat an entry. createEvent
    checks only that the payload has keys and that the name is not taken; it
    does not validate the fields. */
module Gaps {
  import opened Types
  import opened Ledger

  /** Any existing claim can be repeated, with the same identity and the same
      code, under any seat number not yet claimed: afterwards two seats share
      both the code and the holder. */
  lemma SeatsMayShareCodeAndHolder(s: State, eventId: EventId, i: nat, seatNo: nat)
    requires Valid(s)
    requires eventId in s.events
    requires i < |s.events[eventId].eventData.claimedSeats|
    requires !SeatTaken(s.events[eventId].eventData.claimedSeats, seatNo)
    ensures var prior := s.events[eventId].eventData.claimedSeats[i];
      var o := ClaimSeat(s, eventId, prior.userIdentity, seatNo, prior.uniqueCode);
      var seats := o.state.events[eventId].eventData.claimedSeats;
      && o.result.Ok?
      && Valid(o.state)
      && exists j, k :: 0 <= j < k < |seats| && seats[j].uniqueCode == seats[k].uniqueCode
                                         && seats[j].userIdentity == seats[k].userIdentity
  {
    var prior := s.events[eventId].eventData.claimedSeats[i];
    var o := ClaimSeat(s, eventId, prior.userIdentity, seatNo, prior.uniqueCode);
    ClaimSeatSuccess(s, eventId, prior.userIdentity, seatNo, prior.uniqueCode);
    ClaimSeatPreservesValid(s, eventId, prior.userIdentity, seatNo, prior.uniqueCode);
    var seats := o.state.events[eventId].eventData.claimedSeats;
    var last := |seats| - 1;
    assert seats[i] == prior && seats[last] == SeatInfo(prior.userIdentity, seatNo, prior.uniqueCode);
  }

  /** generateQrCode does not retry on a repeated code: handed the same code
      twice below the ceiling, it appends it twice. */
  lemma MintedCodesMayRepeat(s: State, eventId: EventId, code: string)
    requires eventId in s.events
    requires |s.events[eventId].eventData.qrData.generatedQr| + 2 <= MaxQrCodes
    ensures var o1 := GenerateQrCode(s, eventId, code);
      var o2 := GenerateQrCode(o1.state, eventId, code);
      var codes := o2.state.events[eventId].eventData.qrData.generatedQr;
      && o1.result == Ok(code) && o2.result == Ok(code)
      && |codes| >= 2 && codes[|codes| - 2] == codes[|codes| - 1] == code
  {
    GenerateQrCodeSuccess(s, eventId, code);
    var o1 := GenerateQrCode(s, eventId, code);
    GenerateQrCodeSuccess(o1.state, eventId, code);
  }

  /** createEvent accepts an empty name and description and any two time
      texts, an end before the start among them, as long as no stored event
      already has the empty name. */
  lemma CreateEventSkipsFieldValidation(s: State, userIdentity: Principal, startTime: string, endTime: string, freshId: EventId)
    requires !NameTaken(s.events, "")
    ensures var info := EventInfo("", "", startTime, endTime);
      var o := CreateEvent(s, userIdentity, Fields(info), freshId);
      && o.result == Ok(info)
      && freshId in o.state.events
      && o.state.events[freshId].eventInfo == info
  {
    CreateEventSuccess(s, userIdentity, EventInfo("", "", startTime, endTime), freshId);
  }

  const Organizer := Principal([1])
  const Attendee := Principal([2])
  const Launch := EventInfo("Launch", "product launch", "1700000000000000000", "1700003600000000000")

  /** From an empty ledger: one event is created, no code is ever minted, and
      one identity claims seats 7 and 9 with the same unminted code. Both claims
      succeed, and the ledger is still valid: seat numbers need not start at 1
      or be consecutive, and neither codes nor holders are unique. */
  lemma UnmintedCodeClaimedTwiceBySameHolder()
    ensures var calls := [
        CreateEventCall(Organizer, Fields(Launch), "e1"),
        ClaimSeatCall("e1", Attendee, 7, "#00ff00"),
        ClaimSeatCall("e1", Attendee, 9, "#00ff00")];
      var t := Run(EmptyState, calls);
      && Valid(t)
      && "e1" in t.events
      && t.events["e1"].eventData.qrData.generatedQr == []
      && t.events["e1"].eventData.claimedSeats
         == [SeatInfo(Attendee, 7, "#00ff00"), SeatInfo(Attendee, 9, "#00ff00")]
  {
    var c0 := CreateEventCall(Organizer, Fields(Launch), "e1");
    var c1 := ClaimSeatCall("e1", Attendee, 7, "#00ff00");
    var c2 := ClaimSeatCall("e1", Attendee, 9, "#00ff00");
    var s1 := Step(EmptyState, c0);
    CreateEventSuccess(EmptyState, Organizer, Launch, "e1");
    var s2 := Step(s1, c1);
    ClaimSeatSuccess(s1, "e1", Attendee, 7, "#00ff00");
    var s3 := Step(s2, c2);
    assert !SeatTaken(s2.events["e1"].eventData.claimedSeats, 9);
    ClaimSeatSuccess(s2, "e1", Attendee, 9, "#00ff00");
    assert Run(EmptyState, [c0, c1, c2]) == Run(s1, [c1, c2]);
    assert Run(s1, [c1, c2]) == Run(s2, [c2]);
    assert Run(s2, [c2]) == s3;
    RunPreservesValid(EmptyState, [c0, c1, c2]);
  }
}
