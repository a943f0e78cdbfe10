/**
 * The browser chat page (starter/script.js): the conversation history kept
 * in a global array, its copy in the `chatHistory` storage slot, and the
 * chat box the page renders it into.
 */
module ChatClient {
  import opened Wrappers
  import JsString

  /** One history entry, as pushed by the page and as stored: `{ role, content }`. */
  datatype Message = Message(role: string, content: string)

  /** The CSS class `appendMessage` gives a bubble: 'user' or 'bot'. */
  datatype Sender = User | Bot

  /** One message element in the chat box, with the text it shows. */
  datatype Bubble = Bubble(sender: Sender, text: string)

  /**
   * How the `fetch` of one submit ends: an ok response whose body holds
   * `message`, a non-ok response whose body holds `error` (absent or a
   * string), or an exception thrown by `fetch` or by reading the body.
   */
  datatype FetchOutcome = Ok(message: string) | NotOk(error: Option<string>) | Threw(message: string)

  const UserRole := "user"
  const ModelRole := "model"
  const FallbackError := "Something went wrong"
  const ErrorPrefix := "Sorry, something went wrong: "

  /** The sender a stored role is rendered as on load: 'model' is the bot, anything else the user. */
  function SenderOf(role: string): (s: Sender)
    ensures s == Bot <==> role == ModelRole
  {
    if role == ModelRole then Bot else User
  }

  /** The bubbles that rendering a history appends, one per message, in order. */
  function Render(history: seq<Message>): seq<Bubble> {
    if history == [] then []
    else Render(history[..|history| - 1])
         + [Bubble(SenderOf(history[|history| - 1].role), history[|history| - 1].content)]
  }

  /** Rendering is element-wise: bubble i shows message i with its role's sender. */
  lemma {:induction false} RenderAt(history: seq<Message>)
    ensures |Render(history)| == |history|
    ensures forall i | 0 <= i < |history| ::
      Render(history)[i] == Bubble(SenderOf(history[i].role), history[i].content)
  {
    if history != [] {
      RenderAt(history[..|history| - 1]);
    }
  }

  /** Rendering a concatenation renders each part in turn. */
  lemma {:induction false} RenderAppend(a: seq<Message>, b: seq<Message>)
    ensures Render(a + b) == Render(a) + Render(b)
    decreases |b|
  {
    if b != [] {
      var b' := b[..|b| - 1];
      assert (a + b)[..|a + b| - 1] == a + b';
      assert (a + b)[|a + b| - 1] == b[|b| - 1];
      RenderAppend(a, b');
    } else {
      assert a + b == a;
    }
  }

  /**
   * The text of the error thrown for a non-ok response:
   * `errorData.error || 'Something went wrong'`.
   */
  function ThrownMessage(error: Option<string>): (m: string)
    ensures m != ""
    ensures error.Some? && error.value != "" ==> m == error.value
    ensures !(error.Some? && error.value != "") ==> m == FallbackError
  {
    if error.Some? && error.value != "" then error.value else FallbackError
  }

  /** The bot bubble a submit ends with: the reply, or the inline error message. */
  function ReplyBubble(outcome: FetchOutcome): (b: Bubble)
    ensures b.sender == Bot
    ensures outcome.Ok? ==> b.text == outcome.message
    ensures outcome.NotOk? ==> b.text == ErrorPrefix + ThrownMessage(outcome.error)
    ensures outcome.Threw? ==> b.text == ErrorPrefix + outcome.message
  {
    match outcome
    case Ok(message) => Bubble(Bot, message)
    case NotOk(error) => Bubble(Bot, ErrorPrefix + ThrownMessage(error))
    case Threw(message) => Bubble(Bot, ErrorPrefix + message)
  }

  /** The page's state: the global `messages` array, the storage slot and the chat box. */
  class ChatPage {
    /** `messages`: the in-memory conversation history. */
    var messages: seq<Message>
    /** `localStorage['chatHistory']`: None when the key is absent. */
    var storage: Option<seq<Message>>
    /** The bubbles in the chat box, in display order. */
    var transcript: seq<Bubble>

    /** Storage mirrors memory: the slot holds the history, or is absent while the history is empty. */
    ghost predicate Synced()
      reads this
    {
      storage == Some(messages) || (storage == None && messages == [])
    }

    /** A freshly opened page: an empty history and chat box, and whatever storage already holds. */
    constructor (stored: Option<seq<Message>>)
      ensures messages == [] && storage == stored && transcript == []
    {
      messages := [];
      storage := stored;
      transcript := [];
    }

    /** `appendMessage`: adds one bubble at the end of the chat box. */
    method AppendMessage(sender: Sender, text: string)
      modifies this`transcript
      ensures transcript == old(transcript) + [Bubble(sender, text)]
    {
      transcript := transcript + [Bubble(sender, text)];
    }

    /** `saveChatHistory`: overwrites the slot with the current history. */
    method SaveChatHistory()
      modifies this`storage
      ensures storage == Some(messages)
      ensures Synced()
    {
      storage := Some(messages);
    }

    /**
     * `loadChatHistory`: when the slot holds a history, appends it to
     * `messages`, then renders every message of `messages` (not only the
     * loaded ones) into the chat box.
     */
    method LoadChatHistory()
      modifies this`messages, this`transcript
      ensures storage.None? ==> messages == old(messages) && transcript == old(transcript)
      ensures storage.Some? ==>
        && messages == old(messages) + storage.value
        && transcript == old(transcript) + Render(messages)
      ensures old(messages) == [] ==> Synced()
    {
      match storage
      case None =>
      case Some(loaded) =>
        messages := messages + loaded;
        var i := 0;
        while i < |messages|
          invariant messages == old(messages) + loaded
          invariant 0 <= i <= |messages|
          invariant transcript == old(transcript) + Render(messages[..i])
        {
          var msg := messages[i];
          AppendMessage(SenderOf(msg.role), msg.content);
          assert messages[..i + 1] == messages[..i] + [msg];
          RenderAppend(messages[..i], [msg]);
          i := i + 1;
        }
        assert messages[..i] == messages;
    }

    /** The clear button's handler: wipes the chat box, the history and the slot, once confirmed. */
    method ClearChat(confirmed: bool)
      modifies this
      ensures confirmed ==> messages == [] && storage == None && transcript == []
      ensures !confirmed ==>
        messages == old(messages) && storage == old(storage) && transcript == old(transcript)
      ensures confirmed ==> Synced()
    {
      if confirmed {
        transcript := [];
        messages := [];
        storage := None;
      }
    }

    /**
     * The submit handler up to the `fetch`: nothing happens when the trimmed
     * input is empty; otherwise the user's message is shown, pushed and
     * saved, and the request body carries the whole history.
     */
    method BeginSubmit(input: string) returns (request: Option<seq<Message>>)
      modifies this
      ensures JsString.Trim(input) == [] ==>
        && request == None
        && messages == old(messages) && storage == old(storage) && transcript == old(transcript)
      ensures JsString.Trim(input) != [] ==>
        && messages == old(messages) + [Message(UserRole, JsString.Trim(input))]
        && storage == Some(messages)
        && transcript == old(transcript) + [Bubble(User, JsString.Trim(input))]
        && request == Some(messages)
    {
      var userMessage := JsString.Trim(input);
      if userMessage == [] {
        return None;
      }
      AppendMessage(User, userMessage);
      messages := messages + [Message(UserRole, userMessage)];
      SaveChatHistory();
      request := Some(messages);
    }

    /**
     * The submit handler after the `fetch`: a successful reply is shown,
     * pushed as a model message and saved; a failure is shown as an inline
     * error and leaves history and storage alone.
     */
    method FinishSubmit(outcome: FetchOutcome)
      modifies this
      ensures outcome.Ok? ==>
        messages == old(messages) + [Message(ModelRole, outcome.message)] && storage == Some(messages)
      ensures !outcome.Ok? ==> messages == old(messages) && storage == old(storage)
      ensures transcript == old(transcript) + [ReplyBubble(outcome)]
    {
      match outcome
      case Ok(message) =>
        AppendMessage(Bot, message);
        messages := messages + [Message(ModelRole, message)];
        SaveChatHistory();
      case NotOk(error) =>
        AppendMessage(Bot, ErrorPrefix + ThrownMessage(error));
      case Threw(message) =>
        AppendMessage(Bot, ErrorPrefix + message);
    }

    /**
     * One whole submit, taken as an atomic step: the input field's value
     * and the way the request ends are parameters.
     */
    method Submit(input: string, outcome: FetchOutcome) returns (request: Option<seq<Message>>)
      modifies this
      ensures JsString.Trim(input) == [] ==>
        && request == None
        && messages == old(messages) && storage == old(storage) && transcript == old(transcript)
      ensures JsString.Trim(input) != [] ==>
        var user := Message(UserRole, JsString.Trim(input));
        && request == Some(old(messages) + [user])
        && messages == old(messages) + [user] + (if outcome.Ok? then [Message(ModelRole, outcome.message)] else [])
        && storage == Some(messages)
        && transcript == old(transcript) + [Bubble(User, JsString.Trim(input)), ReplyBubble(outcome)]
      ensures old(Synced()) ==> Synced()
    {
      request := BeginSubmit(input);
      if request.Some? {
        FinishSubmit(outcome);
      }
    }
  }

  /**
   * Opening the page: a fresh page over the given storage, then the
   * `DOMContentLoaded` load. The history is the stored one and each stored
   * message is shown once, with 'model' as the bot and any other role as the user.
   */
  method OpenPage(stored: Option<seq<Message>>) returns (history: seq<Message>, shown: seq<Bubble>)
    ensures history == (if stored.Some? then stored.value else [])
    ensures |shown| == |history|
    ensures forall i | 0 <= i < |history| ::
      shown[i] == Bubble(SenderOf(history[i].role), history[i].content)
  {
    var page := new ChatPage(stored);
    page.LoadChatHistory();
    history, shown := page.messages, page.transcript;
    RenderAt(history);
  }

  /**
   * Persistence round trip: after a page is opened and one submit is made,
   * reopening the page restores exactly the history held in memory.
   */
  method ReloadAfterSubmit(stored: Option<seq<Message>>, input: string, outcome: FetchOutcome)
    returns (before: seq<Message>, after: seq<Message>)
    ensures after == before
  {
    var page := new ChatPage(stored);
    page.LoadChatHistory();
    var _ := page.Submit(input, outcome);
    before := page.messages;
    var shown;
    after, shown := OpenPage(page.storage);
  }

  /** Clearing with confirmation, then reopening the page, shows an empty transcript. */
  method ReloadAfterClear(stored: Option<seq<Message>>) returns (after: seq<Message>, shown: seq<Bubble>)
    ensures after == [] && shown == []
  {
    var page := new ChatPage(stored);
    page.LoadChatHistory();
    page.ClearChat(true);
    after, shown := OpenPage(page.storage);
  }
}
