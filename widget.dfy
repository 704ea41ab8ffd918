/** The chat widget's own state and event handlers (script.js): the
    conversation state it echoes to the server, the lead form's visibility
    and contents, the voice and microphone flags, the persisted message log
    and the texts it asks the server to speak.

    The session is first given as a value, `Session`, with one step function
    per handler; the class `ChatWidget` then holds the same state in mutable
    fields, and each of its methods is proved to perform its step. The
    server is a parameter of type `ChatServer`: it maps the request the widget
    posts to the parsed reply, or to `None` where `fetch` rejects or the body
    is not JSON (the handler then stops with an unhandled rejection). */
module Widget {
  import opened Wrappers
  import opened Text
  import opened ChatApi

  datatype Sender = User | Bot

  /** A persisted message; the server-assigned timestamp is left out, the
      log's order standing for it. */
  datatype Message = Message(text: string, sender: Sender)

  /** The lead form's six inputs (script.js:19-24). */
  datatype VisitorDetails = VisitorDetails(name: string, contact: string, location: string,
                                           email: string, company: string, query: string)

  /** The form after `leadForm.reset()`. */
  const EmptyForm := VisitorDetails("", "", "", "", "", "")

  /** The `user_data` object the submit handler builds (script.js:352-359). */
  function VisitorPayload(d: VisitorDetails): map<string, string> {
    map["name" := d.name, "contact" := d.contact, "location" := d.location,
        "email" := d.email, "company" := d.company, "query" := d.query]
  }

  /** The same details under the keys the server reads (app.py:113-117):
      `contact_number` for the contact and `comments` for the query. */
  function IntendedPayload(d: VisitorDetails): map<string, string> {
    map["name" := d.name, "contact_number" := d.contact, "location" := d.location,
        "email" := d.email, "company" := d.company, "comments" := d.query]
  }

  type ChatServer = ChatRequest -> Option<ChatResponse>

  /** The greeting shown and spoken at start-up (script.js:240). */
  const Greeting := "Hi, I am SDR for Red Switch. How may I help you?"

  const VoiceOnLabel := "Voice On"
  const VoiceOffLabel := "Voice Off"

  /** Everything the handlers read or write. `micShown` is whether the mic
      button carries the `recording` class; `spoken` lists the texts posted
      to /tts, in order. */
  datatype Session = Session(
    state: int,
    formVisible: bool,
    form: VisitorDetails,
    input: string,
    voiceEnabled: bool,
    voiceLabel: string,
    micRecording: bool,
    micShown: bool,
    log: seq<Message>,
    spoken: seq<string>)

  /** The page after loading: state 0 (script.js:246), voice on
      (script.js:27), microphone off (script.js:93), form hidden and empty,
      nothing said yet. The voice button's initial label comes from the page
      markup, which is not part of this model. */
  function InitialSession(voiceLabel: string): Session {
    Session(0, false, EmptyForm, "", true, voiceLabel, false, false, [], [])
  }

  /** What every handler keeps: a visible form means state 2, and the mic
      button shows whether the widget thinks it is recording. */
  predicate Inv(s: Session) {
    && (s.formVisible ==> s.state == LeadFormState)
    && s.micShown == s.micRecording
  }

  // ---- One step per handler ----

  /** `sendMessage` (script.js:167-176): a message that is not blank after
      trimming is appended to the log. */
  function Persist(s: Session, text: string, sender: Sender): Session {
    if JsTrim(text) == "" then s else s.(log := s.log + [Message(text, sender)])
  }

  /** `speakResponse` (script.js:196-235), as far as the widget's state goes:
      with voice off nothing happens; otherwise the text is posted to /tts. */
  function Speak(s: Session, text: string): Session {
    if !s.voiceEnabled then s else s.(spoken := s.spoken + [text])
  }

  /** The body `handleSendMessage` posts (script.js:260). */
  function ChatTurnRequest(s: Session): ChatRequest {
    ChatRequest(Some(JsTrim(s.input)), Some(s.state), map[])
  }

  /** The body the lead form posts (script.js:364-368). */
  function LeadRequest(s: Session): ChatRequest {
    ChatRequest(Some(LeadFormMessage), Some(s.state), VisitorPayload(s.form))
  }

  /** `handleSendMessage` (script.js:248-276). */
  function SendTurn(s: Session, backend: ChatServer): Session {
    var userMessage := JsTrim(s.input);
    if userMessage == "" then s
    else
      var sent := Persist(s, userMessage, User).(input := "");
      match backend(ChatTurnRequest(s))
      case None => sent
      case Some(reply) => ShowReply(sent, reply)
  }

  /** The end of `handleSendMessage` (script.js:264-275): adopt the server's
      state, speak the reply, and show the form exactly in state 2. */
  function ShowReply(s: Session, reply: ChatResponse): Session {
    Speak(s.(state := reply.newState), reply.response).(formVisible := reply.newState == LeadFormState)
  }

  /** An FAQ button (script.js:342-347): its text becomes the input, which
      is then sent. */
  function ClickFaq(s: Session, buttonText: string, backend: ChatServer): Session {
    SendTurn(s.(input := buttonText), backend)
  }

  /** The lead form's submit handler (script.js:350-381). */
  function SubmitLead(s: Session, backend: ChatServer): Session {
    match backend(LeadRequest(s))
    case None => s
    case Some(reply) =>
      var t := Speak(s.(state := reply.newState), reply.response);
      t.(form := EmptyForm, formVisible := false)
  }

  /** The voice button (script.js:97-100). */
  function ToggleVoice(s: Session): Session {
    var on := !s.voiceEnabled;
    s.(voiceEnabled := on, voiceLabel := if on then VoiceOnLabel else VoiceOffLabel)
  }

  /** The mic button (script.js:294-307); `startThrows` says whether
      `recognition.start()` throws. */
  function ToggleMic(s: Session, startThrows: bool): Session {
    var recording := if s.micRecording then false else !startThrows;
    s.(micRecording := recording, micShown := recording)
  }

  /** The delayed greeting (script.js:241-244). */
  function Greet(s: Session): Session {
    Speak(s, Greeting)
  }

  /** The events a page session is made of. `Typed` and `FormFilled` stand
      for the user editing the chat input and the form. */
  datatype Event =
    | Typed(text: string)
    | FormFilled(details: VisitorDetails)
    | SendClicked(backend: ChatServer)
    | FaqClicked(buttonText: string, faqServer: ChatServer)
    | LeadSubmitted(leadServer: ChatServer)
    | VoiceToggled
    | MicToggled(startThrows: bool)
    | Greeted

  function Step(s: Session, e: Event): Session {
    match e
    case Typed(text) => s.(input := text)
    case FormFilled(d) => s.(form := d)
    case SendClicked(b) => SendTurn(s, b)
    case FaqClicked(buttonText, b) => ClickFaq(s, buttonText, b)
    case LeadSubmitted(b) => SubmitLead(s, b)
    case VoiceToggled => ToggleVoice(s)
    case MicToggled(t) => ToggleMic(s, t)
    case Greeted => Greet(s)
  }

  function Run(s: Session, events: seq<Event>): Session
    decreases |events|
  {
    if events == [] then s else Run(Step(s, events[0]), events[1..])
  }

  // ---- Properties ----

  /** Input that is blank after trimming sends nothing and changes nothing. */
  lemma BlankInputIgnored(s: Session, backend: ChatServer)
    requires JsTrim(s.input) == ""
    ensures SendTurn(s, backend) == s
  {
  }

  /** A chat turn replaces the state by the server's `new_state`, whatever it
      was, shows the form exactly when that state is 2, clears the input,
      logs the trimmed message and speaks the reply if voice is on; the form
      contents and the voice and mic settings are left as they were. */
  lemma ChatTurnAdoptsServerState(s: Session, backend: ChatServer)
    requires JsTrim(s.input) != "" && backend(ChatTurnRequest(s)).Some?
    ensures var reply, t := backend(ChatTurnRequest(s)).value, SendTurn(s, backend);
      && t.state == reply.newState
      && (t.formVisible <==> reply.newState == LeadFormState)
      && t.input == ""
      && t.log == s.log + [Message(JsTrim(s.input), User)]
      && t.spoken == s.spoken + (if s.voiceEnabled then [reply.response] else [])
      && t.form == s.form && t.voiceEnabled == s.voiceEnabled && t.voiceLabel == s.voiceLabel
      && t.micRecording == s.micRecording && t.micShown == s.micShown
  {
    StripIdempotent(s.input, IsJsWhitespace);
  }

  /** A failed chat request leaves state and form as they were; the message
      is already logged and the input already cleared. */
  lemma ChatTurnFailureKeepsState(s: Session, backend: ChatServer)
    requires JsTrim(s.input) != "" && backend(ChatTurnRequest(s)).None?
    ensures var t := SendTurn(s, backend);
      && t.state == s.state && t.formVisible == s.formVisible && t.input == ""
      && t.log == s.log + [Message(JsTrim(s.input), User)] && t.spoken == s.spoken
      && t.form == s.form && t.voiceEnabled == s.voiceEnabled && t.voiceLabel == s.voiceLabel
      && t.micRecording == s.micRecording && t.micShown == s.micShown
  {
    StripIdempotent(s.input, IsJsWhitespace);
  }

  /** A lead submission adopts the server's state and always hides and
      resets the form, even when the server stays in state 2; the input,
      the voice and mic settings and the log are left as they were. */
  lemma SubmissionHidesForm(s: Session, backend: ChatServer)
    requires backend(LeadRequest(s)).Some?
    ensures var reply, t := backend(LeadRequest(s)).value, SubmitLead(s, backend);
      && t.state == reply.newState && !t.formVisible && t.form == EmptyForm
      && t.log == s.log
      && t.spoken == s.spoken + (if s.voiceEnabled then [reply.response] else [])
      && t.input == s.input && t.voiceEnabled == s.voiceEnabled && t.voiceLabel == s.voiceLabel
      && t.micRecording == s.micRecording && t.micShown == s.micShown
  {
  }

  /** A failed submission changes nothing. */
  lemma SubmissionFailureChangesNothing(s: Session, backend: ChatServer)
    requires backend(LeadRequest(s)).None?
    ensures SubmitLead(s, backend) == s
  {
  }

  /** The voice button negates the flag and labels it; with voice off no
      text is ever posted to /tts. */
  lemma VoiceToggleRule(s: Session, text: string)
    ensures ToggleVoice(s).voiceEnabled == !s.voiceEnabled
    ensures ToggleVoice(s).voiceLabel == VoiceOnLabel <==> ToggleVoice(s).voiceEnabled
    ensures ToggleVoice(ToggleVoice(s)).voiceEnabled == s.voiceEnabled
    ensures !s.voiceEnabled ==> Speak(s, text) == s && Greet(s) == s
  {
  }

  /** The mic button: recording stops if it was on; otherwise it starts,
      unless `start()` throws, in which case it stays off. */
  lemma MicToggleRule(s: Session, startThrows: bool)
    ensures s.micRecording ==> !ToggleMic(s, startThrows).micRecording
    ensures !s.micRecording ==> ToggleMic(s, startThrows).micRecording == !startThrows
  {
  }

  /** Every handler keeps the invariant. */
  lemma StepKeepsInv(s: Session, e: Event)
    requires Inv(s)
    ensures Inv(Step(s, e))
  {
    match e
    case SendClicked(b) => SendKeepsInv(s, b);
    case FaqClicked(text, b) => SendKeepsInv(s.(input := text), b);
    case LeadSubmitted(b) =>
    case Typed(_) =>
    case FormFilled(_) =>
    case VoiceToggled =>
    case MicToggled(_) =>
    case Greeted =>
  }

  /** A chat turn keeps the invariant: the form is shown exactly in state 2,
      and the mic flags are not touched. */
  lemma SendKeepsInv(s: Session, server: ChatServer)
    requires Inv(s)
    ensures Inv(SendTurn(s, server))
  {
    if JsTrim(s.input) != "" {
      var sent := Persist(s, JsTrim(s.input), User).(input := "");
      assert Inv(sent);
    }
  }

  /** Every sequence of events keeps the invariant. */
  lemma {:induction false} RunKeepsInv(s: Session, events: seq<Event>)
    requires Inv(s)
    ensures Inv(Run(s, events))
    decreases |events|
  {
    if events != [] {
      StepKeepsInv(s, events[0]);
      RunKeepsInv(Step(s, events[0]), events[1..]);
    }
  }

  /** So on every page session the lead form is visible only in state 2. */
  lemma FormOnlyInLeadState(voiceLabel: string, events: seq<Event>)
    ensures var s := Run(InitialSession(voiceLabel), events);
      s.formVisible ==> s.state == LeadFormState
  {
    RunKeepsInv(InitialSession(voiceLabel), events);
  }

  // ---- The widget as an object ----

  /** The module-level variables of script.js (`conversationState`,
      `isVoiceEnabled`, `isMicRecording`) and the parts of the page the
      handlers change, as fields. */
  class ChatWidget {
    var conversationState: int
    var leadFormVisible: bool
    var form: VisitorDetails
    var input: string
    var isVoiceEnabled: bool
    var voiceLabel: string
    var isMicRecording: bool
    var micShowsRecording: bool
    var log: seq<Message>
    var spoken: seq<string>

    /** The fields as a `Session`. */
    function Snapshot(): Session
      reads this
    {
      Session(conversationState, leadFormVisible, form, input, isVoiceEnabled, voiceLabel,
              isMicRecording, micShowsRecording, log, spoken)
    }

    ghost predicate Valid()
      reads this
    {
      Inv(Snapshot())
    }

    constructor (initialVoiceLabel: string)
      ensures Valid() && Snapshot() == InitialSession(initialVoiceLabel)
    {
      conversationState := 0;
      leadFormVisible := false;
      form := EmptyForm;
      input := "";
      isVoiceEnabled := true;
      voiceLabel := initialVoiceLabel;
      isMicRecording := false;
      micShowsRecording := false;
      log := [];
      spoken := [];
    }

    /** The user types into the chat input. */
    method SetInput(text: string)
      modifies this`input
      ensures Snapshot() == old(Snapshot()).(input := text)
    {
      input := text;
    }

    /** The user fills in the lead form. */
    method FillForm(details: VisitorDetails)
      modifies this`form
      ensures Snapshot() == old(Snapshot()).(form := details)
    {
      form := details;
    }

    /** `sendMessage` (script.js:167-176). */
    method SendMessage(message: string, sender: Sender)
      modifies this`log
      ensures Snapshot() == Persist(old(Snapshot()), message, sender)
    {
      if JsTrim(message) == "" {
        return;
      }
      log := log + [Message(message, sender)];
    }

    /** `speakResponse` (script.js:196-235). */
    method SpeakResponse(text: string)
      modifies this`spoken
      ensures Snapshot() == Speak(old(Snapshot()), text)
    {
      if !isVoiceEnabled {
        return;
      }
      spoken := spoken + [text];
    }

    /** `handleSendMessage` (script.js:248-276). */
    method HandleSendMessage(backend: ChatServer)
      requires Valid()
      modifies this
      ensures Valid()
      ensures Snapshot() == SendTurn(old(Snapshot()), backend)
    {
      ghost var s := Snapshot();
      var userMessage := JsTrim(input);
      if userMessage == "" {
        return;
      }
      StripIdempotent(input, IsJsWhitespace);
      assert Persist(s, userMessage, User) == s.(log := s.log + [Message(userMessage, User)]);
      SendMessage(userMessage, User);
      input := "";
      var reply := backend(ChatRequest(Some(userMessage), Some(conversationState), map[]));
      if reply.Some? {
        ShowServerReply(reply.value);
      }
    }

    /** The end of `handleSendMessage` (script.js:264-275). */
    method ShowServerReply(reply: ChatResponse)
      modifies this`conversationState, this`spoken, this`leadFormVisible
      ensures Snapshot() == ShowReply(old(Snapshot()), reply)
    {
      conversationState := reply.newState;
      SpeakResponse(reply.response);
      if conversationState == LeadFormState {
        leadFormVisible := true;
      } else {
        leadFormVisible := false;
      }
    }

    /** An FAQ button (script.js:342-347). */
    method ClickFaqButton(buttonText: string, backend: ChatServer)
      requires Valid()
      modifies this
      ensures Valid()
      ensures Snapshot() == ClickFaq(old(Snapshot()), buttonText, backend)
    {
      input := buttonText;
      HandleSendMessage(backend);
    }

    /** The lead form's submit handler (script.js:350-381). */
    method SubmitLeadForm(backend: ChatServer)
      requires Valid()
      modifies this
      ensures Valid()
      ensures Snapshot() == SubmitLead(old(Snapshot()), backend)
    {
      var reply := backend(ChatRequest(Some(LeadFormMessage), Some(conversationState), VisitorPayload(form)));
      if reply.None? {
        return;
      }
      conversationState := reply.value.newState;
      SpeakResponse(reply.value.response);
      form := EmptyForm;
      leadFormVisible := false;
    }

    /** The voice button (script.js:97-100). */
    method ToggleVoiceButton()
      modifies this`isVoiceEnabled, this`voiceLabel
      ensures Snapshot() == ToggleVoice(old(Snapshot()))
    {
      isVoiceEnabled := !isVoiceEnabled;
      voiceLabel := if isVoiceEnabled then VoiceOnLabel else VoiceOffLabel;
    }

    /** The mic button (script.js:294-307). */
    method ToggleMicButton(startThrows: bool)
      requires Valid()
      modifies this`isMicRecording, this`micShowsRecording
      ensures Valid()
      ensures Snapshot() == ToggleMic(old(Snapshot()), startThrows)
    {
      if isMicRecording {
        isMicRecording := false;
      } else {
        if !startThrows {
          isMicRecording := true;
        }
      }
      micShowsRecording := isMicRecording;
    }

    /** The delayed greeting (script.js:241-244). */
    method GreetUser()
      modifies this`spoken
      ensures Snapshot() == Greet(old(Snapshot()))
    {
      SpeakResponse(Greeting);
    }
  }
}
