/**
 * The chat panel (client/src/components/ChatInterface.jsx): its message
 * log, input box and loading flag, the per-document history it keeps in
 * browser storage, and the send and clear handlers.
 *
 * The two effects (restore on document change, save on every change) are
 * methods the caller runs where React would; the asynchronous send is
 * split at its `await` into `BeginSend` and `CompleteSend`.
 */
module ChatInterface {
  import opened JsValues
  import opened Strings
  import ChatController

  datatype Role = UserRole | AssistantRole

  datatype Message = Message(role: Role, content: string, sources: Option<seq<ChatController.Source>>)

  const InitialGreeting := "Hello! I am your Second Brain. Upload a PDF and ask me anything about it."
  const DocumentGreeting := "Hello! I am your Second Brain. Ask me anything about this document."
  const ClearedGreeting := "Chat history cleared. Ask me anything about this document."
  const Apology := "I'm sorry, I encountered an error while trying to think. Please try again."
  const StoragePrefix := "chatHistory_"

  function Assistant(content: string): Message {
    Message(AssistantRole, content, None)
  }

  /** The storage key of a document's history: `chatHistory_${documentId}`. */
  function StorageKey(documentId: string): (key: string)
    ensures StoragePrefix <= key && key[|StoragePrefix|..] == documentId
  {
    StoragePrefix + documentId
  }

  /** Different documents never share a history. */
  lemma StorageKeyInjective(d1: string, d2: string)
    ensures StorageKey(d1) == StorageKey(d2) ==> d1 == d2
  {
    if StorageKey(d1) == StorageKey(d2) {
      assert d1 == StorageKey(d1)[|StoragePrefix|..];
    }
  }

  /** The body posted to `/api/chat`. */
  datatype ChatRequestBody = ChatRequestBody(question: string, history: seq<string>, documentId: Option<string>)

  /** The body of a 200 reply from `/api/chat`. */
  datatype ChatReply = ChatReply(answer: string, sources: seq<ChatController.Source>)

  class ChatPanel {
    /** The `documentId` prop. */
    var documentId: Option<string>
    /** Whether the auth context holds a user. */
    const signedIn: bool
    var messages: seq<Message>
    var input: string
    var loading: bool
    /** The browser's local storage, restricted to chat histories. */
    var storage: map<string, seq<Message>>
    /** The routes navigated to, in order. */
    var navigations: seq<string>

    /** The log is never empty, and no empty history is ever kept in storage. */
    ghost predicate Valid()
      reads this
    {
      && |messages| >= 1
      && forall key :: key in storage ==> |storage[key]| >= 1
    }

    constructor(documentId: Option<string>, signedIn: bool, storage: map<string, seq<Message>>)
      requires forall key :: key in storage ==> |storage[key]| >= 1
      ensures Valid()
      ensures this.documentId == documentId && this.signedIn == signedIn && this.storage == storage
      ensures messages == [Assistant(InitialGreeting)] && input == "" && !loading && navigations == []
    {
      this.documentId := documentId;
      this.signedIn := signedIn;
      this.storage := storage;
      messages := [Assistant(InitialGreeting)];
      input := "";
      loading := false;
      navigations := [];
    }

    /** The parent passes a new `documentId`. */
    method SetDocument(d: Option<string>)
      modifies this
      ensures documentId == d
      ensures messages == old(messages) && storage == old(storage) && input == old(input)
      ensures loading == old(loading) && navigations == old(navigations)
    {
      documentId := d;
    }

    /** The restore effect: with a document, its saved history if any, else the document greeting. */
    method RestoreHistory()
      requires Valid()
      modifies this
      ensures Valid()
      ensures Truthy(documentId) && StorageKey(documentId.value) in storage ==>
        messages == storage[StorageKey(documentId.value)]
      ensures Truthy(documentId) && StorageKey(documentId.value) !in storage ==>
        messages == [Assistant(DocumentGreeting)]
      ensures !Truthy(documentId) ==> messages == old(messages)
      ensures storage == old(storage) && input == old(input) && loading == old(loading)
      ensures navigations == old(navigations) && documentId == old(documentId)
    {
      if Truthy(documentId) {
        var key := StorageKey(documentId.value);
        if key in storage {
          messages := storage[key];
        } else {
          messages := [Assistant(DocumentGreeting)];
        }
      }
    }

    /** The save effect: with a document and a non-empty log, the log is stored under the document's key. */
    method PersistMessages()
      requires Valid()
      modifies this
      ensures Valid()
      ensures Truthy(documentId) && |messages| > 0 ==>
        storage == old(storage)[StorageKey(documentId.value) := messages]
      ensures !(Truthy(documentId) && |messages| > 0) ==> storage == old(storage)
      ensures messages == old(messages) && input == old(input) && loading == old(loading)
      ensures navigations == old(navigations) && documentId == old(documentId)
    {
      if Truthy(documentId) && |messages| > 0 {
        storage := storage[StorageKey(documentId.value) := messages];
      }
    }

    /** "Clear Memory": with a document, forget its history and show the cleared greeting; without one, nothing. */
    method ClearChat()
      requires Valid()
      modifies this
      ensures Valid()
      ensures Truthy(documentId) ==>
        && storage == old(storage) - {StorageKey(documentId.value)}
        && messages == [Assistant(ClearedGreeting)]
      ensures !Truthy(documentId) ==> storage == old(storage) && messages == old(messages)
      ensures input == old(input) && loading == old(loading)
      ensures navigations == old(navigations) && documentId == old(documentId)
    {
      if Truthy(documentId) {
        storage := storage - {StorageKey(documentId.value)};
        messages := [Assistant(ClearedGreeting)];
      }
    }

    /** Typing into the input box. */
    method Type(text: string)
      modifies this
      ensures input == text
      ensures messages == old(messages) && storage == old(storage) && loading == old(loading)
      ensures navigations == old(navigations) && documentId == old(documentId)
    {
      input := text;
    }

    /**
     * `handleSend` up to its `await`: blank input does nothing; a signed-out
     * user is sent to /login; otherwise the question joins the log, the
     * input is cleared, loading starts, and the request body is returned.
     */
    method BeginSend() returns (request: Option<ChatRequestBody>)
      requires Valid()
      modifies this
      ensures Valid()
      ensures storage == old(storage) && documentId == old(documentId)
      ensures Blank(old(input)) ==>
        && request.None?
        && messages == old(messages) && input == old(input) && loading == old(loading)
        && navigations == old(navigations)
      ensures !Blank(old(input)) && !signedIn ==>
        && request.None?
        && messages == old(messages) && input == old(input) && loading == old(loading)
        && navigations == old(navigations) + ["/login"]
      ensures !Blank(old(input)) && signedIn ==>
        && request == Some(ChatRequestBody(old(input), [], documentId))
        && messages == old(messages) + [Message(UserRole, old(input), None)]
        && input == "" && loading
        && navigations == old(navigations)
    {
      TrimEmptyIffBlank(input);
      if Trim(input) == "" {
        return None;
      }
      if !signedIn {
        navigations := navigations + ["/login"];
        return None;
      }
      var question := input;
      messages := messages + [Message(UserRole, question, None)];
      input := "";
      loading := true;
      request := Some(ChatRequestBody(question, [], documentId));
    }

    /** The answer a reply adds to the log: the answer with its sources, or the apology. */
    static function AssistantReply(reply: Outcome<ChatReply>): (m: Message)
      ensures m.role == AssistantRole
      ensures reply.Err? ==> m == Assistant(Apology)
    {
      match reply
      case Ok(r) => Message(AssistantRole, r.answer, Some(r.sources))
      case Err(_) => Assistant(Apology)
    }

    /** `handleSend` after its `await`: exactly one assistant message is appended and loading ends. */
    method CompleteSend(reply: Outcome<ChatReply>)
      requires Valid()
      modifies this
      ensures Valid()
      ensures messages == old(messages) + [AssistantReply(reply)]
      ensures !loading
      ensures input == old(input) && storage == old(storage)
      ensures navigations == old(navigations) && documentId == old(documentId)
    {
      messages := messages + [AssistantReply(reply)];
      loading := false;
    }

    /** A whole send with nothing interleaved: one user message, then one assistant message. */
    method Send(reply: Outcome<ChatReply>) returns (request: Option<ChatRequestBody>)
      requires Valid()
      modifies this
      ensures Valid()
      ensures request.Some? <==> !Blank(old(input)) && signedIn
      ensures request.Some? ==>
        && request.value == ChatRequestBody(old(input), [], documentId)
        && messages == old(messages) + [Message(UserRole, old(input), None), AssistantReply(reply)]
        && input == "" && !loading
      ensures request.None? ==> messages == old(messages) && input == old(input) && loading == old(loading)
      ensures navigations == old(navigations) + (if !Blank(old(input)) && !signedIn then ["/login"] else [])
      ensures storage == old(storage) && documentId == old(documentId)
    {
      request := BeginSend();
      if request.Some? {
        CompleteSend(reply);
      }
    }
  }
}
