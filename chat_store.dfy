/** The front end's chat store (Front/src/pages/Chat/stores/chat.store.ts).
    Each request to the backend is recorded in `requests`, and its answer is
    an input: it either threw or answered with an `ApiResponse`. The `watch` on `conversation` is applied right after
    each assignment of a conversation. */
module ChatStore {
  import opened Wrappers

  datatype Message = Message(
    id: int,
    conversationId: int,
    content: string,
    senderType: string,
    isFromUser: bool,
    isFromAssistant: bool)

  datatype Conversation = Conversation(id: int, title: Option<string>, messages: Option<seq<Message>>)

  datatype ApiResponse<T> = ApiResponse(success: bool, data: Option<T>, error: Option<string>)

  /** What an `apiService` request did: it threw (network failure or a
      non-2xx status), or answered. */
  datatype ApiOutcome<T> = Threw | Answered(response: ApiResponse<T>)

  /** `response.success && response.data`. */
  predicate Succeeded<T>(outcome: ApiOutcome<T>) {
    outcome.Answered? && outcome.response.success && outcome.response.data.Some?
  }

  /** A request the store sends through `apiService`, with its arguments. */
  datatype ApiRequest =
    | CreateConversation(title: string)
    | SendMessage(conversationId: int, content: string)
    | GetConversation(conversationId: int)

  /** The title `initializeConversation` asks the backend to create. */
  const NewConversationTitle: string := "Nueva conversación de clima"
  const InitError: string := "Error al inicializar la conversación. Por favor, recarga la página."
  const SendError: string := "Error al enviar el mensaje. Por favor, inténtalo de nuevo."
  const LoadError: string := "Error al cargar la conversación."

  predicate HasId(list: seq<Conversation>, id: int) {
    exists i :: 0 <= i < |list| && list[i].id == id
  }

  predicate UniqueIds(list: seq<Conversation>) {
    forall i, j :: 0 <= i < j < |list| ==> list[i].id != list[j].id
  }

  /** The conversation watcher's update of the list: a conversation whose
      id is not listed goes to the front; otherwise the list stays. */
  function InsertIfAbsent(list: seq<Conversation>, c: Conversation): (r: seq<Conversation>)
    ensures HasId(list, c.id) ==> r == list
    ensures !HasId(list, c.id) ==> r == [c] + list
    ensures HasId(r, c.id)
    ensures UniqueIds(list) ==> UniqueIds(r)
  {
    if HasId(list, c.id) then list
    else
      var r := [c] + list;
      assert r[0].id == c.id;
      r
  }

  /** `conversations.filter(c => c.id !== conversationId)`. */
  function RemoveById(list: seq<Conversation>, id: int): (r: seq<Conversation>)
    ensures |r| <= |list|
    ensures forall c :: c in r <==> c in list && c.id != id
    ensures !HasId(r, id)
    ensures !HasId(list, id) ==> r == list
  {
    if list == [] then []
    else
      var rest := RemoveById(list[1..], id);
      assert !HasId(list, id) ==> !HasId(list[1..], id) && list == [list[0]] + list[1..] by {
        if !HasId(list, id) {
          forall i | 0 <= i < |list[1..]| ensures list[1..][i].id != id {
            assert list[1..][i] == list[i + 1];
          }
        }
      }
      assert forall c :: c in list <==> c == list[0] || c in list[1..];
      if list[0].id == id then rest else [list[0]] + rest
  }

  /** The filter keeps the order of the entries it keeps: it distributes
      over concatenation. */
  lemma {:induction false} RemoveByIdAppend(a: seq<Conversation>, b: seq<Conversation>, id: int)
    ensures RemoveById(a + b, id) == RemoveById(a, id) + RemoveById(b, id)
  {
    if a == [] {
      assert a + b == b;
    } else {
      assert (a + b)[0] == a[0];
      assert (a + b)[1..] == a[1..] + b;
      RemoveByIdAppend(a[1..], b, id);
    }
  }

  /** Removing keeps the ids unique. */
  lemma {:induction false} RemoveByIdUnique(list: seq<Conversation>, id: int)
    requires UniqueIds(list)
    ensures UniqueIds(RemoveById(list, id))
  {
    if list != [] {
      RemoveByIdUnique(list[1..], id);
      var rest := RemoveById(list[1..], id);
      if list[0].id != id {
        forall c | c in rest ensures c.id != list[0].id {
          var k :| 0 <= k < |list[1..]| && list[1..][k] == c;
          assert list[k + 1] == c;
        }
      }
    }
  }

  /** Local storage after the watcher has seen `c`: the watcher saves the
      list only when it inserted `c`. */
  function StoredAfterWatch(list: seq<Conversation>, stored: seq<Conversation>, c: Conversation): (r: seq<Conversation>)
    ensures !HasId(list, c.id) ==> r == InsertIfAbsent(list, c)
    ensures HasId(list, c.id) ==> r == stored
  {
    if HasId(list, c.id) then stored else [c] + list
  }

  class ChatStore {
    var conversation: Option<Conversation>
    var conversations: seq<Conversation>
    var messages: seq<Message>
    var isLoading: bool
    var isSending: bool
    var isTyping: bool
    var error: Option<string>
    var showSidebar: bool
    /** The `meteobot-conversations` entry of local storage. */
    var saved: seq<Conversation>
    /** Every request sent to the backend so far, in order. */
    var requests: seq<ApiRequest>

    ghost predicate Valid()
      reads this
    {
      UniqueIds(conversations)
    }

    /** The store as created, before any conversation is listed. `stored`
        is what local storage holds. */
    constructor (stored: seq<Conversation>)
      ensures Valid()
      ensures conversation.None? && conversations == [] && messages == []
      ensures !isLoading && !isSending && !isTyping && error.None? && showSidebar
      ensures saved == stored && requests == []
    {
      conversation := None;
      conversations := [];
      messages := [];
      isLoading := false;
      isSending := false;
      isTyping := false;
      error := None;
      showSidebar := true;
      saved := stored;
      requests := [];
    }

    /** `saveConversations`. */
    method SaveConversations()
      modifies this
      ensures saved == conversations
      ensures conversations == old(conversations) && conversation == old(conversation)
      ensures messages == old(messages) && error == old(error) && showSidebar == old(showSidebar)
      ensures isLoading == old(isLoading) && isSending == old(isSending) && isTyping == old(isTyping)
      ensures requests == old(requests)
    {
      saved := conversations;
    }

    /** The `watch` on `conversation`: a conversation whose id is not
        listed is put in front and the list is saved. */
    method OnConversationChange()
      requires Valid()
      modifies this
      ensures Valid()
      ensures conversation.Some? ==>
                && conversations == InsertIfAbsent(old(conversations), conversation.value)
                && saved == StoredAfterWatch(old(conversations), old(saved), conversation.value)
      ensures conversation.None? ==> conversations == old(conversations) && saved == old(saved)
      ensures conversation == old(conversation) && messages == old(messages) && error == old(error)
      ensures showSidebar == old(showSidebar)
      ensures isLoading == old(isLoading) && isSending == old(isSending) && isTyping == old(isTyping)
      ensures requests == old(requests)
    {
      if conversation.Some? && !HasId(conversations, conversation.value.id) {
        conversations := [conversation.value] + conversations;
        SaveConversations();
      }
    }

    /** `initializeConversation`: asks the backend for a new conversation
        and selects it, or records the initialisation error. */
    method InitializeConversation(created: ApiOutcome<Conversation>)
      requires Valid()
      modifies this
      ensures Valid()
      ensures Succeeded(created) ==>
                && conversation == created.response.data
                && conversations == InsertIfAbsent(old(conversations), created.response.data.value)
                && saved == StoredAfterWatch(old(conversations), old(saved), created.response.data.value)
                && error.None?
      ensures !Succeeded(created) ==>
                && conversation == old(conversation) && conversations == old(conversations)
                && saved == old(saved) && error == Some(InitError)
      ensures messages == old(messages) && showSidebar == old(showSidebar)
      ensures isLoading == old(isLoading) && isSending == old(isSending) && isTyping == old(isTyping)
      ensures requests == old(requests) + [CreateConversation(NewConversationTitle)]
    {
      error := None;
      requests := requests + [CreateConversation(NewConversationTitle)];
      if Succeeded(created) {
        conversation := created.response.data;
        OnConversationChange();
      } else {
        error := Some(InitError);
      }
    }

    /** `loadConversation`: selects the conversation the backend returns
        and shows its messages (none when it has no `messages`), or
        records the loading error. */
    method LoadConversation(conversationId: int, loaded: ApiOutcome<Conversation>)
      requires Valid()
      modifies this
      ensures Valid()
      ensures Succeeded(loaded) ==>
                && conversation == loaded.response.data
                && messages == loaded.response.data.value.messages.GetOr([])
                && conversations == InsertIfAbsent(old(conversations), loaded.response.data.value)
                && saved == StoredAfterWatch(old(conversations), old(saved), loaded.response.data.value)
                && error == old(error)
      ensures !Succeeded(loaded) ==>
                && conversation == old(conversation) && messages == old(messages)
                && conversations == old(conversations) && saved == old(saved)
                && error == Some(LoadError)
      ensures showSidebar == old(showSidebar)
      ensures isLoading == old(isLoading) && isSending == old(isSending) && isTyping == old(isTyping)
      ensures requests == old(requests) + [GetConversation(conversationId)]
    {
      requests := requests + [GetConversation(conversationId)];
      if Succeeded(loaded) {
        var data := loaded.response.data.value;
        conversation := Some(data);
        messages := data.messages.GetOr([]);
        OnConversationChange();
      } else {
        error := Some(LoadError);
      }
    }

    /** `selectConversation`: `loadConversation`, whose failures it
        already absorbs. */
    method SelectConversation(conversationId: int, loaded: ApiOutcome<Conversation>)
      requires Valid()
      modifies this
      ensures Valid()
      ensures Succeeded(loaded) ==>
                && conversation == loaded.response.data
                && messages == loaded.response.data.value.messages.GetOr([])
                && conversations == InsertIfAbsent(old(conversations), loaded.response.data.value)
                && saved == StoredAfterWatch(old(conversations), old(saved), loaded.response.data.value)
                && error == old(error)
      ensures !Succeeded(loaded) ==>
                && conversation == old(conversation) && messages == old(messages)
                && conversations == old(conversations) && saved == old(saved)
                && error == Some(LoadError)
      ensures showSidebar == old(showSidebar)
      ensures isLoading == old(isLoading) && isSending == old(isSending) && isTyping == old(isTyping)
      ensures requests == old(requests) + [GetConversation(conversationId)]
    {
      LoadConversation(conversationId, loaded);
    }

    /** `sendMessage`. `now` is `Date.now()`, the temporary id of the
        optimistic message. Without a conversation the store first creates
        one, and returns without sending if that fails. Otherwise the
        user's message is shown at once; on success the conversation is
        reloaded from the backend, and on failure the optimistic message
        stays and the sending error is shown. `isLoading` ends false in
        every case. */
    method SendMessage(content: string, now: int, created: ApiOutcome<Conversation>,
                       sent: ApiOutcome<Message>, loaded: ApiOutcome<Conversation>)
      requires Valid()
      modifies this
      ensures Valid()
      ensures !isLoading && showSidebar == old(showSidebar)
      ensures old(conversation).None? && !Succeeded(created) ==>
                && conversation.None? && messages == old(messages) && error == Some(InitError)
                && conversations == old(conversations) && saved == old(saved)
                && isSending == old(isSending) && isTyping == old(isTyping)
                && requests == old(requests) + [CreateConversation(NewConversationTitle)]
      ensures old(conversation).Some? || Succeeded(created) ==>
                var current := if old(conversation).Some? then old(conversation).value
                               else created.response.data.value;
                // The list and storage once a conversation is selected.
                var listed := if old(conversation).Some? then old(conversations)
                              else InsertIfAbsent(old(conversations), current);
                var stored := if old(conversation).Some? then old(saved)
                              else StoredAfterWatch(old(conversations), old(saved), current);
                var optimistic := Message(now, current.id, content, "user", true, false);
                // The requests once a conversation is selected, then the message itself.
                var posted := (if old(conversation).Some? then old(requests)
                               else old(requests) + [CreateConversation(NewConversationTitle)])
                              + [ApiRequest.SendMessage(current.id, content)];
                && !isSending && !isTyping
                && (Succeeded(sent) ==> requests == posted + [GetConversation(current.id)])
                && (!Succeeded(sent) ==> requests == posted)
                && (Succeeded(sent) && Succeeded(loaded) ==>
                      && conversation == loaded.response.data
                      && messages == loaded.response.data.value.messages.GetOr([])
                      && conversations == InsertIfAbsent(listed, loaded.response.data.value)
                      && saved == StoredAfterWatch(listed, stored, loaded.response.data.value)
                      && error.None?)
                && (Succeeded(sent) && !Succeeded(loaded) ==>
                      && conversation == Some(current)
                      && messages == old(messages) + [optimistic]
                      && conversations == listed && saved == stored
                      && error == Some(LoadError))
                && (!Succeeded(sent) ==>
                      && conversation == Some(current)
                      && messages == old(messages) + [optimistic]
                      && conversations == listed && saved == stored
                      && error == Some(SendError))
    {
      if conversation.None? {
        InitializeConversation(created);
        if conversation.None? {
          isLoading := false;
          return;
        }
      }
      error := None;
      var current := conversation.value;
      var userMessage := Message(now, current.id, content, "user", true, false);
      messages := messages + [userMessage];
      isSending := true;
      requests := requests + [ApiRequest.SendMessage(current.id, content)];
      if Succeeded(sent) {
        isSending := false;
        isTyping := true;
        LoadConversation(current.id, loaded);
        isTyping := false;
      } else {
        error := Some(SendError);
        isSending := false;
        isTyping := false;
      }
      isLoading := false;
    }

    /** `clearMessages`. */
    method ClearMessages()
      modifies this
      ensures messages == [] && conversation.None? && error.None?
      ensures conversations == old(conversations) && saved == old(saved) && showSidebar == old(showSidebar)
      ensures isLoading == old(isLoading) && isSending == old(isSending) && isTyping == old(isTyping)
      ensures requests == old(requests)
    {
      messages := [];
      conversation := None;
      error := None;
    }

    /** `clearError`. */
    method ClearError()
      modifies this
      ensures error.None?
      ensures conversation == old(conversation) && conversations == old(conversations)
      ensures messages == old(messages) && saved == old(saved) && showSidebar == old(showSidebar)
      ensures isLoading == old(isLoading) && isSending == old(isSending) && isTyping == old(isTyping)
      ensures requests == old(requests)
    {
      error := None;
    }

    /** `createNewConversation`: clears the current state, then
        initialises a new conversation. */
    method CreateNewConversation(created: ApiOutcome<Conversation>)
      requires Valid()
      modifies this
      ensures Valid()
      ensures messages == []
      ensures Succeeded(created) ==>
                && conversation == created.response.data && error.None?
                && conversations == InsertIfAbsent(old(conversations), created.response.data.value)
                && saved == StoredAfterWatch(old(conversations), old(saved), created.response.data.value)
      ensures !Succeeded(created) ==>
                && conversation.None? && error == Some(InitError)
                && conversations == old(conversations) && saved == old(saved)
      ensures showSidebar == old(showSidebar)
      ensures isLoading == old(isLoading) && isSending == old(isSending) && isTyping == old(isTyping)
      ensures requests == old(requests) + [CreateConversation(NewConversationTitle)]
    {
      messages := [];
      conversation := None;
      error := None;
      InitializeConversation(created);
    }

    /** `deleteConversation`: drops every listed conversation with that
        id, keeping the others in order, and saves the list; deleting the
        current one starts a new conversation. */
    method DeleteConversation(conversationId: int, created: ApiOutcome<Conversation>)
      requires Valid()
      modifies this
      ensures Valid()
      ensures forall c :: c in old(conversations) && c.id != conversationId ==> c in conversations
      ensures old(conversation).Some? && old(conversation).value.id == conversationId ==>
                var rest := RemoveById(old(conversations), conversationId);
                && messages == []
                && (Succeeded(created) ==>
                      && conversation == created.response.data && error.None?
                      && conversations == InsertIfAbsent(rest, created.response.data.value)
                      && saved == StoredAfterWatch(rest, rest, created.response.data.value))
                && (!Succeeded(created) ==>
                      && conversation.None? && error == Some(InitError)
                      && conversations == rest && saved == rest)
                && requests == old(requests) + [CreateConversation(NewConversationTitle)]
      ensures !(old(conversation).Some? && old(conversation).value.id == conversationId) ==>
                && conversations == RemoveById(old(conversations), conversationId)
                && saved == conversations
                && conversation == old(conversation) && messages == old(messages) && error == old(error)
                && requests == old(requests)
      ensures showSidebar == old(showSidebar)
      ensures isLoading == old(isLoading) && isSending == old(isSending) && isTyping == old(isTyping)
    {
      RemoveByIdUnique(conversations, conversationId);
      conversations := RemoveById(conversations, conversationId);
      SaveConversations();
      if conversation.Some? && conversation.value.id == conversationId {
        CreateNewConversation(created);
      }
    }

    /** `toggleSidebar`. */
    method ToggleSidebar()
      modifies this
      ensures showSidebar == !old(showSidebar)
      ensures conversation == old(conversation) && conversations == old(conversations)
      ensures messages == old(messages) && error == old(error) && saved == old(saved)
      ensures isLoading == old(isLoading) && isSending == old(isSending) && isTyping == old(isTyping)
      ensures requests == old(requests)
    {
      showSidebar := !showSidebar;
    }
  }
}
