/** Facts that span the form and the service: what the service answers to the
    requests the form actually sends, and how the form reads those answers. */
module EndToEnd {
  import opened Wrappers
  import opened TextUtil
  import opened Api
  import Server
  import opened Modals

  const RejectAll := Response(400, Msg(EnterAllFields))

  /** The body the form posts has no `styleType`, so the service's validation
      rejects it whatever the form holds. */
  lemma SubmissionAlwaysRejected(n: NewRobot)
    ensures !SubmissionBody(n).styleType.Some?
    ensures Server.Validate(SubmissionBody(n)) == Failure(RejectAll)
  {
  }

  /** Every create request one Add click can send is one the service rejects
      with 400 "Please enter all fields" before touching the store. */
  lemma EveryCreateRequestRejected(s: FormState, phoneReply: Reply, createReply: Reply)
    ensures forall q :: q in AddStep(s, phoneReply, createReply).requests && q.CreateRequest? ==>
              Server.Validate(q.body) == Failure(RejectAll)
  {
    if !s.isLoading {
      var n := BuildNewRobot(s.user, s.generatedImageUrl);
      if IsComplete(n) {
        assert AddStep(s, phoneReply, createReply) == SubmitStep(s, n, phoneReply, createReply);
        SubmissionAlwaysRejected(n);
      }
    }
  }

  /** Against the service as written, Add never adds a robot: once the phone
      check passes, the user is shown the service's "Please enter all fields"
      and the form is kept with `isLoading` cleared. */
  lemma AddNeverSucceeds(s: FormState, phoneReply: Reply)
    requires !s.isLoading
    ensures var r := AddStep(s, phoneReply, Got(RejectAll));
            && r.added.None? && r.next == s
            && (|r.requests| == 2 ==> r.alert == Some(AddFailed(ServerMessage(EnterAllFields))))
  {
    assert ReadCreateReply(Got(RejectAll)) == Failure(ServerMessage(EnterAllFields));
    var n := BuildNewRobot(s.user, s.generatedImageUrl);
    if IsComplete(n) {
      assert AddStep(s, phoneReply, Got(RejectAll)) == SubmitStep(s, n, phoneReply, Got(RejectAll));
    }
  }

  /** The phone check as the form sees the service's answer: a reachable store
      yields whether some stored record has exactly that phone string; an
      unreachable one yields the 500 status. */
  lemma PhoneProbeRoundTrip(records: seq<Robot>, phone: string, storeDown: bool)
    ensures ReadPhoneReply(Got(Server.CheckPhoneResponse(records, phone, storeDown)))
            == if storeDown then Failure(HttpStatus(500))
               else Success(Server.HasPhone(records, phone))
  {
  }

  /** A duplicate reported at create time reaches the user as the service's
      duplicate message. */
  lemma DuplicateSurfaces(records: seq<Robot>, nextId: nat, c: Server.Candidate, i: nat)
    requires i < |records| && Server.Clashes(records[i], c)
    ensures ReadCreateReply(Got(Server.PostResponse(Server.SaveOutcome(records, nextId, c, None))))
            == Failure(ServerMessage(DuplicateMessage))
  {
    Server.DuplicateRejected(records, nextId, c, i);
  }

  /** With the style sent as `styleType` and the saved record echoed back, a
      complete form with a style selected and fresh keys is stored with exactly
      the submitted fields, and the form receives that same record. */
  lemma IntendedSubmissionAccepted(records: seq<Robot>, nextId: nat, n: NewRobot, styleKey: string)
    requires IsComplete(n) && styleKey != ""
    requires !Server.Conflicts(records, Server.Candidate(n.name, n.username, n.email,
                                                         n.phone, n.image, styleKey))
    ensures var v := Server.Validate(IntendedSubmissionBody(n, styleKey));
            && v.Success?
            && var saved := Server.SaveOutcome(records, nextId, v.value, None);
            && saved.Success?
            && saved.value == Robot(nextId, n.name, n.username, n.email, n.phone, n.image, styleKey)
            && ReadCreateReply(Got(Server.IntendedCreatedResponse(saved.value)))
               == Success(saved.value)
  {
  }

  /** The service as written hands the form a record whose name is not the
      stored one. */
  lemma AsWrittenEchoReachesList(records: seq<Robot>, nextId: nat, c: Server.Candidate)
    requires !Server.Conflicts(records, c)
    ensures var saved := Server.SaveOutcome(records, nextId, c, None);
            var received := ReadCreateReply(Got(Server.PostResponse(saved)));
            && received.Success?
            && received.value.name == DebugPrefix + c.name
            && received.value != saved.value
  {
    Server.DebugEchoDiffers(records, nextId, c);
  }

  /** "Rob" and "Ot" join to the name "Rob Ot": trimming leaves it alone. */
  lemma RobOtName()
    ensures Trim("Rob" + " " + "Ot") == "Rob Ot"
  {
    assert "Rob" + " " + "Ot" == "Rob Ot";
    assert !IsJsSpace('R') && !IsJsSpace('t');
    TrimUnchanged("Rob Ot");
  }

  /** A complete form: first name "Rob", last name "Ot", style "Robots" and
      phone "555-0100".
      Generate yields the "RobOt" set-1 avatar and the record is named
      "Rob Ot"; against the service as written, the create is rejected and the
      list does not grow. */
  lemma RobOtScenario(username: string, email: string, phoneReply: Reply)
    requires username != "" && email != ""
    requires ReadPhoneReply(phoneReply) == Success(false)
    ensures var url := ImageUrl("Rob", "Ot", "Robots");
            var s := FormState(UserForm("Rob", "Ot", username, email, "555-0100"), "Robots", url, false);
            var n := BuildNewRobot(s.user, url);
            var r := AddStep(s, phoneReply, Got(RejectAll));
            && url == "https://robohash.org/RobOt.png?set=set1"
            && n == NewRobot("Rob Ot", username, email, "555-0100", url)
            && r.requests == [CheckPhoneRequest("555-0100"), CreateRequest(SubmissionBody(n))]
            && r.added.None?
            && r.alert == Some(AddFailed(ServerMessage(EnterAllFields)))
  {
    var url := ImageUrl("Rob", "Ot", "Robots");
    ImageUrlExample();
    var s := FormState(UserForm("Rob", "Ot", username, email, "555-0100"), "Robots", url, false);
    RobOtName();
    var n := BuildNewRobot(s.user, url);
    assert n == NewRobot("Rob Ot", username, email, "555-0100", url);
    assert IsComplete(n);
  }
}
