/** The widget talking to the server: the request bodies script.js builds,
    answered by `chat()` of app.py. */
module Integration {
  import opened Wrappers
  import opened ChatApi
  import opened Backend
  import opened Widget

  /** The Flask server as the widget sees it, for an FAQ table and a fixed
      outcome of the sheet append: every request is answered with the JSON
      of `chat()`. */
  function Server(answers: map<string, string>, sheet: SheetOutcome): ChatServer {
    req => Some(Reply(answers, req, sheet))
  }

  /** The lead row the server builds from the widget's payload: the widget
      sends `contact` and `query`, the server reads `contact_number` and
      `comments`, so those two positions are always missing. */
  lemma WidgetLeadRow(d: VisitorDetails)
    ensures LeadRow(VisitorPayload(d)) == [Some(d.name), None, Some(d.location), Some(d.email), None]
    ensures !LeadComplete(LeadRow(VisitorPayload(d)))
  {
    var row := LeadRow(VisitorPayload(d));
    assert row[1] == None;
  }

  /** As written, a lead submitted from the widget in state 2 never reaches
      the sheet: whatever the visitor typed and whatever the sheet does, it
      is written to the CSV file, with contact number and comments empty. */
  lemma WidgetLeadSkipsSheet(answers: map<string, string>, s: Session, sheet: SheetOutcome)
    requires s.state == LeadFormState
    ensures Chat(answers, LeadRequest(s), sheet)
         == Turn(CsvThanks, 0, CsvRow([Some(s.form.name), None, Some(s.form.location), Some(s.form.email), None]))
  {
    LeadFormMessageIsNormal();
    WidgetLeadRow(s.form);
  }

  /** The request the submit handler was evidently meant to post: the same
      sentinel and state, with the details under the server's keys. */
  function IntendedLeadRequest(s: Session): (req: ChatRequest)
    ensures req.message == Some(LeadFormMessage) && req.state == Some(s.state)
    ensures LeadRow(req.userData)
         == [Some(s.form.name), Some(s.form.contact), Some(s.form.location), Some(s.form.email), Some(s.form.query)]
  {
    var req := ChatRequest(Some(LeadFormMessage), Some(s.state), IntendedPayload(s.form));
    assert LeadRow(req.userData)[1] == Some(s.form.contact);
    req
  }

  /** With the intended keys, a lead whose five fields are filled in goes to
      the sheet when the append succeeds, and keeps the form open (state 2)
      when it raises; a lead with an empty field goes to the CSV file. */
  lemma IntendedLeadReachesSheet(answers: map<string, string>, s: Session, sheet: SheetOutcome)
    requires s.state == LeadFormState
    ensures var f, t := s.form, Chat(answers, IntendedLeadRequest(s), sheet);
      var row := [Some(f.name), Some(f.contact), Some(f.location), Some(f.email), Some(f.query)];
      var complete := f.name != "" && f.contact != "" && f.location != "" && f.email != "" && f.query != "";
      && (complete && sheet == AppendSucceeds ==> t == Turn(SheetThanks, 0, SheetRow(row)))
      && (complete && sheet == AppendFails ==> t == Turn(SheetError, 2, NoWrite))
      && (!complete || sheet == NoSheet ==> t == Turn(CsvThanks, 0, CsvRow(row)))
  {
    LeadFormMessageIsNormal();
    var f := s.form;
    var row := LeadRow(IntendedLeadRequest(s).userData);
    assert LeadComplete(row) <==> f.name != "" && f.contact != "" && f.location != "" && f.email != "" && f.query != "" by {
      assert Truthy(row[0]) <==> f.name != "";
      assert Truthy(row[1]) <==> f.contact != "";
      assert Truthy(row[2]) <==> f.location != "";
      assert Truthy(row[3]) <==> f.email != "";
      assert Truthy(row[4]) <==> f.query != "";
    }
  }

  /** End to end, as written: submitting the form from state 2 always
      returns the widget to state 0 with the form hidden and reset and the
      CSV thanks spoken, even when the sheet append would have failed. */
  lemma WidgetSubmissionAlwaysSucceeds(answers: map<string, string>, s: Session, sheet: SheetOutcome)
    requires s.state == LeadFormState
    ensures var t := SubmitLead(s, Server(answers, sheet));
      && t.state == 0 && !t.formVisible && t.form == EmptyForm
      && t.spoken == s.spoken + (if s.voiceEnabled then [CsvThanks] else [])
  {
    WidgetLeadSkipsSheet(answers, s, sheet);
  }

  /** End to end: in state 0, a chat message that normalises to "other
      queries" or "idle_timeout" (an FAQ button's text, say) opens the
      lead form. */
  lemma OtherQueriesOpensForm(answers: map<string, string>, s: Session, text: string, sheet: SheetOutcome)
    requires s.state == 0 && Text.JsTrim(text) != ""
    requires NormaliseMessage(Some(Text.JsTrim(text))) == "other queries"
          || NormaliseMessage(Some(Text.JsTrim(text))) == "idle_timeout"
    ensures var t := ClickFaq(s, text, Server(answers, sheet));
      t.state == LeadFormState && t.formVisible && t.input == ""
  {
  }

  /** End to end: every chat turn and every submission moves the widget's
      state along an edge of the server's conversation graph. */
  lemma WidgetFollowsServerGraph(answers: map<string, string>, s: Session, e: Event, sheet: SheetOutcome)
    requires e == SendClicked(Server(answers, sheet)) || e == LeadSubmitted(Server(answers, sheet))
    ensures Backend.Transition(s.state, Step(s, e).state)
  {
    var server := Server(answers, sheet);
    if e.SendClicked? {
      assert Step(s, e) == SendTurn(s, server);
      if Text.JsTrim(s.input) != "" {
        assert SendTurn(s, server).state == Reply(answers, ChatTurnRequest(s), sheet).newState;
      }
    } else {
      assert Step(s, e) == SubmitLead(s, server);
      assert SubmitLead(s, server).state == Reply(answers, LeadRequest(s), sheet).newState;
    }
  }
}
