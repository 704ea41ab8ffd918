/** The server's conversation state machine, `chat()` (app.py:70-155), and
    the empty-text guard of `tts()` (app.py:157-178).

    States 0 (FAQ), 1 (awaiting yes/no), 2 (lead form) and 3 (conversation
    over) are the ones the server knows; any other number is echoed back.
    The Google-Sheets append and the CSV write are not performed here: the
    caller supplies the sheet's outcome, and the resulting `Turn` reports
    which sink the lead row went to. */
module Backend {
  import opened Wrappers
  import opened Text
  import opened Bytes
  import opened ChatApi

  /** The FAQ dictionary `faq_answers` (app.py:49-63). Its keys are already
      stripped and lower-case, so they are compared with the normalised
      message. */
  const FaqAnswers: map<string, string> :=
    map[
      "do you work with startups or only enterprises?" :=
        "We work with both from fast-growing startups needing quick insights to large enterprises needing complex predictive dashboards.",
      "do you offer ongoing support?" :=
        "Yes. We provide full implementation, training, and 24/7 support options depending on your plan.",
      "do you partner with cloud providers?" :=
        "Yes. We integrate seamlessly with AWS, Azure, GCP, and private/on-prem setups.",
      "what makes red switch unique?" :=
        "Unlike generic BI vendors, we focus on prediction + interactive dashboards - helping you not only see what's happening but also forecast what's next.",
      "how do you price your solutions?" :=
        "Pricing depends on scope - number of users, data sources, and complexity of predictive models. We offer flexible packages for SMEs and enterprises.",
      "how quickly can i see results?" :=
        "Usually within weeks. Once we connect your data, you'll see live dashboards right away. Predictive models take a bit longer, but still within the first quarter.",
      "how does red switch differ from other analytics vendors?" :=
        "We focus on prediction, not just reports. Our dashboards are live, interactive, and powered by predictive models, so you see both what's happening now and what's likely next.",
      "how quickly can predictive models be deployed?" :=
        "Typically within weeks. Once your data pipeline...",
      "what services does red switch provide?" :=
        "We offer solutions tailored for industries like healthcare, logistics, oil & gas, retail, and fintech.",
      "what industries does red switch serve?" :=
        "We work across pharma & healthcare, logistics & supply chain, oil & gas, retail & e-commerce, and fintech/banking.",
      "how does red switch ensure data security?" :=
        "We follow enterprise-grade security standards including encryption at rest & in transit, role-based access, and compliance with HIPAA, GDPR, and PCI-DSS.",
      "do your dashboards support real-time data?" :=
        "Yes. We integrate with ERPS, CRMs, IoT sensors, and transactional systems to update dashboards in real time.",
      "can we get role-based dashboards?" :=
        "Absolutely. We will provide the following to you, 'Executives get KPI summaries, while operations teams get detailed, drill-down dashboards'."
    ]

  /** Reply texts, exactly as app.py builds them. */
  const DetailsPrompt := "Thank you for your query. Please provide your details, and a member of our team will be in touch shortly."
  const FaqFollowUp := "  Can I help you with anything else? (Yes/No)"
  const NotUnderstoodFaq := "I'm sorry, I don't understand that. Please select one of the options or type 'Other Queries' for more assistance."
  const YesReply := "Great! How else can I help you?"
  const NoReply := "Thank you for chatting with me. Have a great day!"
  const NotUnderstoodYesNo := "I'm sorry, I didn't understand that. Can I help you with anything else? (Yes/No)"
  const SheetThanks := "Thank you! A member of our team will contact you shortly. for further details Mail id:info@redswitchglobal.com, Contact number: +91 9831076943, +91 7977167595."
  const SheetError := "There was an error submitting your details. Please try again or contact us directly."
  const CsvThanks := "Thank you! A member of our team will contact you shortly. for further details Mail id:info@redswitchglobal.com, Contact number: +91 9831076943, +91 7977167595 "
  const DetailsReminder := "Please provide all the required details to get a personalized response."

  /** The `user_data` keys the server reads, in row order (app.py:113-117). */
  const LeadKeys: seq<string> := ["name", "contact_number", "location", "email", "comments"]

  /** What the environment does with the Google sheet: it failed to open at
      start-up (`sheet = None`), or `append_row` returns, or it raises. */
  datatype SheetOutcome = NoSheet | AppendSucceeds | AppendFails

  /** Where a lead row ended up. A row is a list of `dict.get` results, so a
      missing key is `None`. The timestamp column is not modelled. */
  datatype LeadWrite = NoWrite | SheetRow(row: seq<Option<string>>) | CsvRow(row: seq<Option<string>>)

  /** One answered turn: the JSON reply plus the lead-row side effect. */
  datatype Turn = Turn(response: string, newState: int, write: LeadWrite)

  /** app.py:79: a missing message is `''`; it is stripped, then lower-cased. */
  function NormaliseMessage(message: Option<string>): string {
    Lower(PyStrip(message.GetOr("")))
  }

  /** app.py:80: a missing state is 0. */
  function CurrentState(state: Option<int>): int {
    state.GetOr(0)
  }

  /** Python's `user_data.get(key)`. */
  function Field(userData: map<string, string>, key: string): Option<string> {
    if key in userData then Some(userData[key]) else None
  }

  /** The five values app.py:113-117 reads, in the order they are written. */
  function LeadRow(userData: map<string, string>): (row: seq<Option<string>>)
    ensures |row| == |LeadKeys|
    ensures forall i :: 0 <= i < |row| ==> (row[i].Some? <==> LeadKeys[i] in userData)
    ensures forall i :: 0 <= i < |row| && row[i].Some? ==> row[i].value == userData[LeadKeys[i]]
  {
    seq(|LeadKeys|, i requires 0 <= i < |LeadKeys| => Field(userData, LeadKeys[i]))
  }

  /** Python truthiness of a `dict.get` result holding a string. */
  predicate Truthy(v: Option<string>) {
    v.Some? && v.value != ""
  }

  /** The `name and contact and location and email and comments` test of
      app.py:120. */
  predicate LeadComplete(row: seq<Option<string>>) {
    forall i :: 0 <= i < |row| ==> Truthy(row[i])
  }

  /** The states `chat()` has a branch for. */
  predicate IsKnownState(s: int) {
    0 <= s <= 3
  }

  /** The conversation graph: the edges out of each known state, and a
      self-loop on every unknown one. */
  predicate Transition(from: int, to: int) {
    if from == 0 then to == 0 || to == 1 || to == 2
    else if from == 1 then to == 0 || to == 1 || to == 3
    else if from == 2 then to == 0 || to == 2
    else to == from
  }

  /** The branching of app.py:83-153 on an already normalised message.
      `answers` is the FAQ table; the server's own is `FaqAnswers`. Every
      property below is stated for an arbitrary table, and so holds for
      that one in particular. */
  function Respond(answers: map<string, string>, message: string, state: int, userData: map<string, string>, sheet: SheetOutcome): (t: Turn)
    ensures Transition(state, t.newState)
    ensures !t.write.NoWrite? ==> state == LeadFormState && message == LeadFormMessage
  {
    if state == 0 then
      if message == "other queries" || message == "idle_timeout" then
        Turn(DetailsPrompt, 2, NoWrite)
      else if message in answers then
        Turn(answers[message] + FaqFollowUp, 1, NoWrite)
      else
        Turn(NotUnderstoodFaq, 0, NoWrite)
    else if state == 1 then
      if message == "yes" then Turn(YesReply, 0, NoWrite)
      else if message == "no" then Turn(NoReply, 3, NoWrite)
      else Turn(NotUnderstoodYesNo, 1, NoWrite)
    else if state == 2 then
      if message == LeadFormMessage then
        var row := LeadRow(userData);
        if sheet != NoSheet && LeadComplete(row) then
          if sheet == AppendSucceeds then Turn(SheetThanks, 0, SheetRow(row))
          else Turn(SheetError, 2, NoWrite)
        else
          Turn(CsvThanks, 0, CsvRow(row))
      else
        Turn(DetailsReminder, 2, NoWrite)
    else if state == 3 then
      Turn("", 3, NoWrite)
    else
      Turn("", state, NoWrite)
  }

  /** `chat()` (app.py:70-155) over the FAQ table `answers`: read and
      normalise the request, then branch. */
  function Chat(answers: map<string, string>, req: ChatRequest, sheet: SheetOutcome): (t: Turn)
    ensures Transition(CurrentState(req.state), t.newState)
    ensures !t.write.NoWrite? ==> CurrentState(req.state) == LeadFormState
                                  && NormaliseMessage(req.message) == LeadFormMessage
  {
    Respond(answers, NormaliseMessage(req.message), CurrentState(req.state), req.userData, sheet)
  }

  /** The JSON body `chat()` returns (app.py:155). */
  function Reply(answers: map<string, string>, req: ChatRequest, sheet: SheetOutcome): (r: ChatResponse)
    ensures Transition(CurrentState(req.state), r.newState)
  {
    var t := Chat(answers, req, sheet);
    ChatResponse(t.response, t.newState)
  }

  // ---- Properties of chat() ----

  /** Only the normalised message matters: a message that differs in case
      or surrounding whitespace gets the same turn, and normalising twice is
      the same as normalising once. */
  lemma ChatSeesNormalisedMessage(answers: map<string, string>, req: ChatRequest, sheet: SheetOutcome)
    ensures Chat(answers, req.(message := Some(NormaliseMessage(req.message))), sheet) == Chat(answers, req, sheet)
  {
    StripLowerIdempotent(req.message.GetOr(""));
  }

  /** A request without a state is answered as in state 0. */
  lemma MissingStateIsZero(answers: map<string, string>, req: ChatRequest, sheet: SheetOutcome)
    ensures Chat(answers, req.(state := None), sheet) == Chat(answers, req.(state := Some(0)), sheet)
  {
  }

  /** State 0: "other queries" and "idle_timeout" open the lead form; an FAQ
      question is answered (the reply starts with its answer) and moves to
      the yes/no state; anything else stays in state 0. Nothing is written. */
  lemma FaqStateTurns(answers: map<string, string>, req: ChatRequest, sheet: SheetOutcome)
    requires CurrentState(req.state) == 0
    ensures var m, t := NormaliseMessage(req.message), Chat(answers, req, sheet);
      && t.write == NoWrite
      && (t.newState == 2 <==> m == "other queries" || m == "idle_timeout")
      && (t.newState == 1 <==> m != "other queries" && m != "idle_timeout" && m in answers)
      && (t.newState == 1 ==> answers[m] <= t.response && t.response == answers[m] + FaqFollowUp)
      && (t.newState == 0 <==> m != "other queries" && m != "idle_timeout" && m !in answers)
      && (t.newState == 0 ==> t.response == NotUnderstoodFaq)
  {
  }

  /** State 1: "yes" returns to state 0, "no" ends the conversation, any
      other message asks again. */
  lemma YesNoStateTurns(answers: map<string, string>, req: ChatRequest, sheet: SheetOutcome)
    requires CurrentState(req.state) == 1
    ensures var m, t := NormaliseMessage(req.message), Chat(answers, req, sheet);
      && t.write == NoWrite
      && (t.newState == 0 <==> m == "yes")
      && (t.newState == 3 <==> m == "no")
      && (t.newState == 1 <==> m != "yes" && m != "no")
  {
  }

  /** State 2: anything but the form sentinel stays in state 2. The sentinel
      returns to state 0 in every case but one: the sheet is there, all five
      fields are non-empty, and the append raises; then the state stays 2 and
      nothing is recorded. */
  lemma LeadStateTurns(answers: map<string, string>, req: ChatRequest, sheet: SheetOutcome)
    requires CurrentState(req.state) == LeadFormState
    ensures var m, t := NormaliseMessage(req.message), Chat(answers, req, sheet);
      && (m != LeadFormMessage ==> t == Turn(DetailsReminder, 2, NoWrite))
      && (m == LeadFormMessage ==>
            (t.newState == 2 <==> sheet == AppendFails && LeadComplete(LeadRow(req.userData)))
            && (t.newState != 2 ==> t.newState == 0 && !t.write.NoWrite?))
  {
  }

  /** The CSV fallback: without a sheet, or with any of the five fields
      missing or empty, the row goes to the CSV file and the state is 0. */
  lemma CsvFallback(answers: map<string, string>, req: ChatRequest, sheet: SheetOutcome)
    requires CurrentState(req.state) == LeadFormState
    requires NormaliseMessage(req.message) == LeadFormMessage
    requires sheet == NoSheet || !LeadComplete(LeadRow(req.userData))
    ensures Chat(answers, req, sheet) == Turn(CsvThanks, 0, CsvRow(LeadRow(req.userData)))
  {
  }

  /** A complete lead with a working sheet is appended to the sheet. */
  lemma SheetAppend(answers: map<string, string>, req: ChatRequest)
    requires CurrentState(req.state) == LeadFormState
    requires NormaliseMessage(req.message) == LeadFormMessage
    requires LeadComplete(LeadRow(req.userData))
    ensures Chat(answers, req, AppendSucceeds) == Turn(SheetThanks, 0, SheetRow(LeadRow(req.userData)))
    ensures Chat(answers, req, AppendFails) == Turn(SheetError, 2, NoWrite)
  {
  }

  /** State 3 is absorbing with an empty reply; an unknown state is echoed
      with an empty reply. */
  lemma EndAndUnknownStates(answers: map<string, string>, req: ChatRequest, sheet: SheetOutcome)
    requires !IsKnownState(CurrentState(req.state)) || CurrentState(req.state) == 3
    ensures Chat(answers, req, sheet) == Turn("", CurrentState(req.state), NoWrite)
  {
  }

  /** Closure: from a known state the server only ever moves to a known
      state. */
  lemma KnownStatesClosed(answers: map<string, string>, req: ChatRequest, sheet: SheetOutcome)
    requires IsKnownState(CurrentState(req.state))
    ensures IsKnownState(Chat(answers, req, sheet).newState)
  {
  }

  /** The sheet's outcome changes the answer only for a complete lead
      submitted in state 2. */
  lemma SheetMattersOnlyForCompleteLead(answers: map<string, string>, req: ChatRequest, a: SheetOutcome, b: SheetOutcome)
    requires Chat(answers, req, a) != Chat(answers, req, b)
    ensures CurrentState(req.state) == LeadFormState
    ensures NormaliseMessage(req.message) == LeadFormMessage
    ensures LeadComplete(LeadRow(req.userData))
  {
  }

  /** A string that is stripped and lower-case, as every FAQ key is, is its
      own normal form. `PaddedKeyReachesBranch` covers the same key sent in
      any case and with surrounding whitespace. */
  lemma NormalFormIsFixed(k: string)
    requires k == [] || (!IsPyWhitespace(k[0]) && !IsPyWhitespace(k[|k| - 1]))
    requires IsLowered(k)
    ensures NormaliseMessage(Some(k)) == k
  {
    StripUnpadded(k, IsPyWhitespace);
    LowerOfLowered(k);
  }

  /** A message that lower-cases to a key without surrounding whitespace,
      sent with any whitespace before and after it, normalises to that key
      and so reaches the key's branch. */
  lemma PaddedKeyReachesBranch(k: string, pre: string, v: string, post: string)
    requires k == [] || (!IsPyWhitespace(k[0]) && !IsPyWhitespace(k[|k| - 1]))
    requires forall i :: 0 <= i < |pre| ==> IsPyWhitespace(pre[i])
    requires forall i :: 0 <= i < |post| ==> IsPyWhitespace(post[i])
    requires Lower(v) == k
    ensures NormaliseMessage(Some(pre + v + post)) == k
  {
    if v != [] {
      LowerKeepsWhitespace(v[0]);
      LowerKeepsWhitespace(v[|v| - 1]);
      assert k[0] == LowerChar(v[0]) && k[|k| - 1] == LowerChar(v[|v| - 1]);
    }
    StripPadded(pre, v, post, IsPyWhitespace);
  }


  /** The form sentinel is in normal form, so the server recognises it as
      the client sends it. */
  lemma LeadFormMessageIsNormal()
    ensures NormaliseMessage(Some(LeadFormMessage)) == LeadFormMessage
  {
    var k := LeadFormMessage;
    forall i | 0 <= i < |k|
      ensures !('A' <= k[i] <= 'Z')
    {
      assert i == 0 || i == 1 || i == 2 || i == 3 || i == 4 || i == 5 || i == 6 || i == 7 || i == 8 || i == 9 || i == 10 || i == 11 || i == 12 || i == 13 || i == 14 || i == 15;
    }
    NormalFormIsFixed(k);
  }

  /** Every edge of the conversation graph is taken by some message, given
      a table with some `question` and without some `other` string. */
  lemma TransitionsRealised(answers: map<string, string>, question: string, other: string, from: int, to: int)
    requires Transition(from, to)
    requires question in answers && question != "other queries" && question != "idle_timeout"
    requires other !in answers && other != "other queries" && other != "idle_timeout" && other != "yes" && other != "no"
    requires other != LeadFormMessage
    ensures exists m, u, sheet :: Respond(answers, m, from, u, sheet).newState == to
  {
    var none: map<string, string> := map[];
    if from == 0 {
      if to == 0 {
        assert Respond(answers, other, 0, none, NoSheet).newState == 0;
      } else if to == 1 {
        assert Respond(answers, question, 0, none, NoSheet).newState == 1;
      } else {
        assert Respond(answers, "other queries", 0, none, NoSheet).newState == 2;
      }
    } else if from == 1 {
      if to == 0 {
        assert Respond(answers, "yes", 1, none, NoSheet).newState == 0;
      } else if to == 1 {
        assert Respond(answers, other, 1, none, NoSheet).newState == 1;
      } else {
        assert Respond(answers, "no", 1, none, NoSheet).newState == 3;
      }
    } else if from == 2 {
      if to == 0 {
        assert Respond(answers, LeadFormMessage, 2, none, NoSheet).newState == 0;
      } else {
        assert Respond(answers, other, 2, none, NoSheet).newState == 2;
      }
    } else {
      assert Respond(answers, other, from, none, NoSheet).newState == to;
    }
  }

  /** The server's own table has a question and lacks other strings, so
      every edge is taken there too. */
  lemma ServerTableRealisesAllTransitions(from: int, to: int)
    requires Transition(from, to)
    ensures exists m, u, sheet :: Respond(FaqAnswers, m, from, u, sheet).newState == to
  {
    var question := "do you offer ongoing support?";
    assert question in FaqAnswers;
    assert "hello" !in FaqAnswers;
    TransitionsRealised(FaqAnswers, question, "hello", from, to);
  }

  // ---- tts() ----

  /** What the speech model returns: audio with its MIME type, or an error
      (including a reply without an inline-data part). */
  datatype Synthesis = Synthesised(mimeType: string, audio: seq<uint8>) | SynthesisFailed

  /** The reply of `tts()`: the audio (base64-encoded on the wire) with its
      MIME type, or an HTTP error status with its message. */
  datatype TtsReply = TtsAudio(audioData: seq<uint8>, mimeType: string) | TtsError(status: int, error: string)

  /** `tts()` (app.py:157-178). `text` is the `text` key of the request, a
      missing key or a JSON null being `None`; `synthesise` stands for the
      speech model. */
  function Tts(text: Option<string>, synthesise: string -> Synthesis): (r: TtsReply)
    ensures r.TtsError? && r.status == 400 <==> text.GetOr("") == ""
    ensures text.GetOr("") == "" ==> r == TtsError(400, "No text provided")
    ensures r.TtsAudio? ==> text.Some? && synthesise(text.value) == Synthesised(r.mimeType, r.audioData)
    ensures text.GetOr("") != "" && synthesise(text.value).Synthesised? ==>
              r == TtsAudio(synthesise(text.value).audio, synthesise(text.value).mimeType)
  {
    var t := text.GetOr("");
    if t == "" then TtsError(400, "No text provided")
    else
      match synthesise(t)
      case Synthesised(mime, audio) => TtsAudio(audio, mime)
      case SynthesisFailed => TtsError(500, "Failed to generate speech")
  }

  /** The guard comes before any synthesis: for empty or missing text the
      reply does not depend on the speech model at all. */
  lemma TtsGuardPrecedesSynthesis(text: Option<string>, f: string -> Synthesis, g: string -> Synthesis)
    requires text.GetOr("") == ""
    ensures Tts(text, f) == Tts(text, g)
  {
  }

  /** Past the guard, the reply is the speech model's answer for exactly the
      requested text: two models that agree on it give the same reply. */
  lemma TtsAsksForTheText(text: Option<string>, f: string -> Synthesis, g: string -> Synthesis)
    requires text.GetOr("") != "" && f(text.value) == g(text.value)
    ensures Tts(text, f) == Tts(text, g)
    ensures f(text.value).SynthesisFailed? <==> Tts(text, f) == TtsError(500, "Failed to generate speech")
  {
  }
}
