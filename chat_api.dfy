/** The JSON records exchanged over POST /chat (app.py:70-155 on the server,
    script.js:257-263 and script.js:361-369 on the client). */
module ChatApi {
  import opened Wrappers

  /** A request body. A key the client leaves out is `None`; `userData` is
      the `user_data` object, whose absence the server reads as `{}`. Its
      values are the strings the lead form sends. */
  datatype ChatRequest = ChatRequest(message: Option<string>, state: Option<int>, userData: map<string, string>)

  /** A response body: the bot's reply text and the next conversation state. */
  datatype ChatResponse = ChatResponse(response: string, newState: int)

  /** The sentinel message the lead form posts (script.js:365, app.py:112). */
  const LeadFormMessage := "submit_lead_form"

  /** The state in which the client shows the lead form and the server
      accepts it (script.js:271, app.py:111). */
  const LeadFormState := 2
}
