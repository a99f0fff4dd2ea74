/** The `POST /api/v1/create-story` handler: validation first, then one
    completion request with the built prompt, then the mapping of its
    outcome to a status and a JSON body. */
module Endpoint {

  import opened Optional
  import opened StorySchema
  import opened PromptBuilder

  /** What `generateStory(prompt)` settles to. The completion service itself
      is not modelled; the handler is given its answer.
      - Text(t): the first choice's `text` field, a string;
      - Missing: that field is `undefined` or `null`;
      - Failed(m): `generateStory` threw an error whose message is `m` (a
        transport or service error, or no choice at all to read). */
  datatype Completion = Text(text: string) | Missing | Failed(message: string)

  /** The JSON bodies the handler sends. */
  datatype Body =
    | MsgBody(msg: string)
    | StoryBody(story: string)
    | ErrorBody(msg: string, error: string)

  datatype Response = Response(status: nat, body: Body)

  /** The response together with the prompt sent upstream, if any. */
  datatype Exchange = Exchange(response: Response, sent: Option<string>)

  const GenerationFailedMsg: string := "Error generating story"
  const NoResponseError: string := "No response was returned from OpenAI GPT-4"

  /** How the `try` block ends: with a story, or with a thrown error. */
  datatype Settlement = Generated(story: string) | Thrown(message: string)

  /** The `try` block around the awaited completion: a falsy story text is
      turned into a thrown error, so either a non-empty story or the
      message of the error that reaches the `catch`. */
  function Settle(c: Completion): (r: Settlement)
    ensures r.Generated? <==> c.Text? && |c.text| > 0
    ensures r.Generated? ==> r.story == c.text
    ensures r.Thrown? && c.Failed? ==> r.message == c.message
    ensures r.Thrown? && !c.Failed? ==> r.message == NoResponseError
  {
    match c
    case Failed(m) => Thrown(m)
    case Missing => Thrown(NoResponseError)
    case Text(t) => if Falsy(t) then Thrown(NoResponseError) else Generated(t)
  }


  /** The response for a settled completion: 200 with the story, or 500
      with the fixed message and the caught error's message. */
  function Respond(c: Completion): (r: Response)
    ensures r.status == 200 || r.status == 500
    ensures r.status == 200 <==> c.Text? && |c.text| > 0
    ensures r.status == 200 ==> r.body == StoryBody(c.text)
    ensures r.status == 500 ==> r.body.ErrorBody? && r.body.msg == GenerationFailedMsg
    ensures c.Failed? ==> r.body == ErrorBody(GenerationFailedMsg, c.message)
    ensures c.Missing? || c == Text("") ==> r.body == ErrorBody(GenerationFailedMsg, NoResponseError)
  {
    match Settle(c)
    case Generated(t) => Response(200, StoryBody(t))
    case Thrown(m) => Response(500, ErrorBody(GenerationFailedMsg, m))
  }

  /** The handler, given the story of the request and the completion
      service as a function of the prompt. */
  function Handle(s: Story, upstream: string -> Completion): (x: Exchange)
    ensures x.response.status == 400 <==> Validate(s).Some?
    ensures x.response.status == 400 ==> x.response.body == MsgBody(IncompleteStoryMsg)
    ensures x.sent.Some? <==> Validate(s).None?
    ensures x.sent.Some? ==> x.sent.value == BuildPrompt(s) && x.response == Respond(upstream(x.sent.value))
    ensures x.response.status in {200, 400, 500}
    ensures x.response.status == 200 ==>
      x.response.body.StoryBody? && |x.response.body.story| > 0
      && upstream(BuildPrompt(s)) == Text(x.response.body.story)
  {
    match Validate(s)
    case Some(msg) => Exchange(Response(400, MsgBody(msg)), None)
    case None =>
      var prompt := BuildPrompt(s);
      Exchange(Respond(upstream(prompt)), Some(prompt))
  }

  /** A rejected story never reaches the completion service: the outcome is
      the same whatever the service would answer, no prompt is sent, and the
      status is neither 200 nor 500. */
  lemma RejectedNeverCallsUpstream(s: Story, upstream: string -> Completion, other: string -> Completion)
    requires Validate(s).Some?
    ensures Handle(s, upstream) == Handle(s, other)
    ensures Handle(s, upstream).sent == None
    ensures Handle(s, upstream).response == Response(400, MsgBody(IncompleteStoryMsg))
  {
  }

  /** An accepted story's response depends on the service only through its
      answer to this story's prompt. */
  lemma AcceptedDependsOnlyOnItsPrompt(s: Story, upstream: string -> Completion, other: string -> Completion)
    requires Validate(s).None?
    requires upstream(BuildPrompt(s)) == other(BuildPrompt(s))
    ensures Handle(s, upstream) == Handle(s, other)
  {
  }

  /** The conflict is not validated: a story that is otherwise complete but
      has an empty conflict still gets its prompt built and sent. */
  lemma EmptyConflictIsSent(s: Story, upstream: string -> Completion)
    requires Validate(s).None?
    ensures Handle(s.(conflict := ""), upstream).sent == Some(BuildPrompt(s.(conflict := "")))
  {
    ConflictNotValidated(s, "");
  }

  /** A 200 response always carries the service's text unchanged and never
      an empty story. */
  lemma SuccessCarriesText(s: Story, upstream: string -> Completion, t: string)
    requires Validate(s).None?
    requires upstream(BuildPrompt(s)) == Text(t)
    ensures |t| > 0 ==> Handle(s, upstream).response == Response(200, StoryBody(t))
    ensures |t| == 0 ==> Handle(s, upstream).response == Response(500, ErrorBody(GenerationFailedMsg, NoResponseError))
  {
  }
}
