/**
 * The relay service's request handling for `POST /api/chat` (index.js):
 * validation of the `messages` body field, its translation into the
 * upstream `contents` shape, and the defensive extraction of the reply
 * text from the upstream response.
 */
module Relay {
  import opened Wrappers

  /** One element of the `messages` array; each property is absent or a string. */
  datatype Entry = Entry(role: Option<string>, message: Option<string>, content: Option<string>)

  /** The `messages` property of the request body: an array, or any other value. */
  datatype MessagesField = NotAnArray | AnArray(entries: seq<Entry>)

  /** One element of an upstream content's `parts`; `text` is `msg.message || msg.content`. */
  datatype Part = Part(text: Option<string>)

  /** One element of the upstream `contents` array. */
  datatype Content = Content(role: Option<string>, parts: seq<Part>)

  /** The argument handed to the upstream generation call: `{ contents }`. */
  datatype GenerateRequest = GenerateRequest(contents: seq<Content>)

  /**
   * The upstream response as the extractor sees it: the value found at
   * `candidates[0].content.parts[0].text` (None when that path is
   * nullish at any step) and the value returned by `text()` (None when
   * there is no such method or it returns a nullish value).
   */
  datatype Response = Response(primary: Option<string>, accessor: Option<string>)

  /** What the awaited upstream call does: return a response or throw an error with a message. */
  datatype UpstreamOutcome = Returned(response: Response) | Threw(message: string)

  /** The reply of the handler: 200 `{message}`, 400 `{error}` or 500 `{error}`. */
  datatype ApiReply = Replied(message: string) | BadRequest(error: string) | ServerError(error: string)

  const NotAnArrayError := "Messages must be an array"
  const EmptyEntryError := "Each message must have a non-empty message or content property."

  /** JavaScript truthiness of a value that is absent or a string. */
  predicate Truthy(v: Option<string>) {
    v.Some? && v.value != ""
  }

  /** An entry the relay accepts: a non-empty `message` or a non-empty `content`. */
  predicate Usable(e: Entry) {
    Truthy(e.message) || Truthy(e.content)
  }

  /** A request body the relay forwards upstream. */
  predicate Acceptable(field: MessagesField) {
    field.AnArray? && forall i | 0 <= i < |field.entries| :: Usable(field.entries[i])
  }

  /** `msg.message || msg.content`: the message when it is truthy, otherwise whatever content holds. */
  function PickText(e: Entry): Option<string> {
    if Truthy(e.message) then e.message else e.content
  }

  /** The translation of one entry: its role copied as is, and a single text part. */
  function ToContent(e: Entry): Content {
    Content(e.role, [Part(PickText(e))])
  }

  /** `messages.map(...)`: the entries translated one by one, in order. */
  function Normalize(entries: seq<Entry>): seq<Content> {
    seq(|entries|, i requires 0 <= i < |entries| => ToContent(entries[i]))
  }

  /** The validation loop's search: some content whose first part has falsy text. */
  predicate HasEmptyPart(contents: seq<Content>)
    requires forall i | 0 <= i < |contents| :: |contents[i].parts| > 0
  {
    exists i | 0 <= i < |contents| :: !Truthy(contents[i].parts[0].text)
  }

  /**
   * The content `c` carries entry `e` as the relay promises: the same role,
   * exactly one part, and that part's text is the message when the message
   * is non-empty and the content otherwise, and it is non-empty.
   */
  predicate Carries(c: Content, e: Entry) {
    && c.role == e.role
    && |c.parts| == 1
    && Truthy(c.parts[0].text)
    && c.parts[0].text == (if Truthy(e.message) then e.message else e.content)
  }

  /** An entry's translated text is truthy exactly when the entry is usable. */
  lemma NormalizeKeepsUsability(entries: seq<Entry>)
    ensures |Normalize(entries)| == |entries|
    ensures forall i | 0 <= i < |entries| ::
      |Normalize(entries)[i].parts| == 1 &&
      (Truthy(Normalize(entries)[i].parts[0].text) <==> Usable(entries[i]))
  {
  }

  /** Lines 75-93 of the handler: everything that happens before the upstream call. */
  function PrepareRequest(field: MessagesField): (r: Result<GenerateRequest, string>)
    ensures field.NotAnArray? ==> r == Failure(NotAnArrayError)
    ensures r.Success? <==> Acceptable(field)
    ensures field.AnArray? && r.Failure? ==> r.error == EmptyEntryError
    ensures r.Success? ==>
      && |r.value.contents| == |field.entries|
      && forall i | 0 <= i < |field.entries| :: Carries(r.value.contents[i], field.entries[i])
  {
    match field
    case NotAnArray => Failure(NotAnArrayError)
    case AnArray(entries) =>
      var contents := Normalize(entries);
      NormalizeKeepsUsability(entries);
      if HasEmptyPart(contents) then Failure(EmptyEntryError)
      else Success(GenerateRequest(contents))
  }

  /**
   * `extractText`: the primary path, or the accessor only when the primary
   * value is nullish; a falsy choice falls back to the serialised response.
   */
  function ExtractText(response: Response, serialize: Response -> string): (text: string)
    ensures Truthy(response.primary) ==> text == response.primary.value
    ensures response.primary == Some("") ==> text == serialize(response)
    ensures response.primary == None && Truthy(response.accessor) ==> text == response.accessor.value
    ensures response.primary == None && !Truthy(response.accessor) ==> text == serialize(response)
  {
    var chosen := if response.primary.Some? then response.primary else response.accessor;
    if Truthy(chosen) then chosen.value else serialize(response)
  }

  /**
   * The whole `POST /api/chat` handler, with the awaited upstream call and
   * `JSON.stringify` passed in as functions.
   */
  function HandleApiChat(field: MessagesField, upstream: GenerateRequest -> UpstreamOutcome,
                         serialize: Response -> string): (reply: ApiReply)
    ensures reply.BadRequest? <==> !Acceptable(field)
    ensures reply.BadRequest? ==>
      reply.error == if field.NotAnArray? then NotAnArrayError else EmptyEntryError
    ensures reply.ServerError? <==>
      Acceptable(field) && upstream(GenerateRequest(Normalize(field.entries))).Threw?
    ensures reply.ServerError? ==>
      reply.error == upstream(GenerateRequest(Normalize(field.entries))).message
    ensures reply.Replied? ==>
      reply.message == ExtractText(upstream(GenerateRequest(Normalize(field.entries))).response, serialize)
  {
    match PrepareRequest(field)
    case Failure(error) => BadRequest(error)
    case Success(request) =>
      match upstream(request)
      case Threw(message) => ServerError(message)
      case Returned(response) => Replied(ExtractText(response, serialize))
  }

  /** A rejected request never reaches the upstream: the reply is the same whatever the upstream does. */
  lemma RejectedBeforeUpstream(field: MessagesField, u1: GenerateRequest -> UpstreamOutcome,
                               u2: GenerateRequest -> UpstreamOutcome, serialize: Response -> string)
    requires !Acceptable(field)
    ensures HandleApiChat(field, u1, serialize) == HandleApiChat(field, u2, serialize)
  {
  }

  /** An empty history is valid and is forwarded as an empty `contents` array. */
  lemma EmptyHistoryForwarded()
    ensures PrepareRequest(AnArray([])) == Success(GenerateRequest([]))
  {
  }

  /** Role is copied verbatim, whatever it is; it is never validated. */
  lemma RoleNotValidated(entries: seq<Entry>, i: nat, role: Option<string>)
    requires i < |entries| && Acceptable(AnArray(entries))
    ensures Acceptable(AnArray(entries[i := entries[i].(role := role)]))
    ensures PrepareRequest(AnArray(entries[i := entries[i].(role := role)])).value.contents[i].role == role
  {
  }
}
