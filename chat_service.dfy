/** The chat turn (Back/app/Services/ChatService.php): a conversation table
    and the message table, with the answers of the language model and of
    the weather service as inputs. Each call the turn makes to a collaborator is recorded
    in `calls`, so the contracts can say which calls a turn makes, in which
    order and with which arguments. */
module ChatService {
  import opened Wrappers
  import opened PhpStrings
  import opened MessageRepository
  import opened OpenAIResponseDto
  import opened ModelContract
  import opened WeatherService

  datatype Conversation = Conversation(id: int, title: Option<Bytes>)

  /** `!$conversation->title`: a null, empty or "0" title. */
  function UntitledConversation(c: Conversation): (r: bool)
    ensures r <==> c.title.None? || c.title.value == [] || c.title.value == [48]
  {
    c.title.None? || Falsy(c.title.value)
  }

  /** A title held as the UTF-8 of a text is missing exactly when that text is "" or "0". */
  lemma UntitledText(id: int, t: string)
    ensures UntitledConversation(Conversation(id, Some(Utf8(t)))) <==> FalsyText(t)
  {
    FalsyTextUtf8(t);
  }

  const NotFound: string := "Conversation not found"
  const HistoryLimit: int := 10
  const TechnicalApology: string :=
    "Lo siento, he tenido un problema técnico. "
    + "Por favor, inténtalo de nuevo."
  const WeatherApology: string :=
    "Lo siento, no pude obtener la información "
    + "del clima en este momento. Por favor, inténtalo "
    + "más tarde."
  const CouldNotProcess: string := "Lo siento, no pude procesar tu solicitud."

  /** "Nueva conversación" in UTF-8. */
  const DefaultTitle: Bytes := [78, 117, 101, 118, 97, 32, 99, 111, 110, 118, 101, 114, 115, 97, 99, 105, 195, 179, 110]

  /** The default title is the UTF-8 encoding of "Nueva conversación". */
  lemma DefaultTitleIsUtf8()
    ensures Utf8("Nueva conversación") == DefaultTitle
  {
    DefaultTitleParts("Nueva conversación");
  }

  /** The title text taken word by word, so that each part is encoded on its own. */
  lemma DefaultTitleParts(title: string)
    requires title == "Nueva " + ("conver" + ("saci" + "ón"))
    ensures Utf8(title) == DefaultTitle
  {
    Utf8Append("Nueva ", "conver" + ("saci" + "ón"));
    Utf8Append("conver", "saci" + "ón");
    Utf8Append("saci", "ón");
    NuevaUtf8();
    ConverUtf8();
    SaciUtf8();
    OnUtf8();
    DefaultTitleBytes();
  }

  lemma DefaultTitleBytes()
    ensures DefaultTitle == [78, 117, 101, 118, 97, 32] + ([99, 111, 110, 118, 101, 114] + ([115, 97, 99, 105] + [195, 179, 110]))
  {
  }

  lemma NuevaUtf8()
    ensures Utf8("Nueva ") == [78, 117, 101, 118, 97, 32]
  {
    AsciiUtf8("Nueva ");
  }

  lemma ConverUtf8()
    ensures Utf8("conver") == [99, 111, 110, 118, 101, 114]
  {
    AsciiUtf8("conver");
  }

  lemma SaciUtf8()
    ensures Utf8("saci") == [115, 97, 99, 105]
  {
    AsciiUtf8("saci");
  }

  /** The one non-ASCII character, 'ó' (U+00F3), takes the two bytes C3 B3. */
  lemma OnUtf8()
    ensures Utf8("ón") == [195, 179, 110]
  {
    assert Utf8("ón") == EncodeChar('ó') + Utf8("n");
  }
  const Ellipsis: Bytes := [46, 46, 46]
  const TitleMaxLength: nat := 50
  const TitleKeptPrefix: nat := 47
  /** The length limit of a conversation title (Back/app/Http/Requests/CreateConversationRequest.php). */
  const TitleColumnLimit: nat := 255

  /** ChatService::generateConversationTitle: the trimmed message, cut to 47
      bytes plus "..." when longer than 50 bytes, or the default title when
      nothing truthy is left. */
  function DeriveTitle(firstMessage: Bytes): (r: Bytes)
    ensures 0 < |r| <= TitleMaxLength <= TitleColumnLimit
    ensures !Falsy(r)
    ensures |Trim(firstMessage)| > TitleMaxLength ==>
              r == Trim(firstMessage)[..TitleKeptPrefix] + Ellipsis && |r| == TitleMaxLength
    ensures Falsy(Trim(firstMessage)) ==> r == DefaultTitle
    ensures |Trim(firstMessage)| <= TitleMaxLength && !Falsy(Trim(firstMessage)) ==> r == Trim(firstMessage)
  {
    var title := Trim(firstMessage);
    var title := if |title| > TitleMaxLength then title[..TitleKeptPrefix] + Ellipsis else title;
    if Falsy(title) then DefaultTitle else title
  }

  /** A derived title is its own title: trimming and cutting it again
      changes nothing. */
  lemma {:induction false} DeriveTitleIdempotent(firstMessage: Bytes)
    ensures DeriveTitle(DeriveTitle(firstMessage)) == DeriveTitle(firstMessage)
  {
    var t := Trim(firstMessage);
    var r := DeriveTitle(firstMessage);
    if |t| > TitleMaxLength {
      assert r[0] == t[0] && r[|r| - 1] == 46;
      TrimFixpoint(r);
    } else if Falsy(t) {
      TrimFixpoint(DefaultTitle);
    } else {
      TrimFixpoint(t);
    }
  }

  const WeatherReply: string :=
    "🌤️ Hola! Soy MeteoBot, tu asistente del clima. "
    + "Me encantaría ayudarte con información meteorológica, "
    + "pero temporalmente tengo limitaciones técnicas. "
    + "\n\n¿Podrías ser más específico sobre qué "
    + "ciudad te interesa? Mientras tanto, te recomiendo "
    + "revisar el pronóstico local. ☀️"
  const RainReply: string :=
    "🌧️ ¡Excelente pregunta sobre la lluvia! Como "
    + "MeteoBot, normalmente consulto datos meteorológicos "
    + "en tiempo real, pero ahora mismo tengo limitaciones "
    + "técnicas. \n\nTe sugiero revisar apps como "
    + "AccuWeather o Weather.com para información "
    + "precisa sobre precipitaciones. 🌦️"
  const GreetingReply: string :=
    "¡Hola! 👋 Soy MeteoBot, tu asistente especializado "
    + "en clima y meteorología. \n\n¿En qué puedo "
    + "ayudarte hoy? Puedes preguntarme sobre:\n• "
    + "Temperatura actual\n• Pronóstico del tiempo\n• "
    + "Condiciones climáticas\n• Recomendaciones "
    + "según el clima ☀️🌧️❄️"
  const DefaultReply: string :=
    "🤖 ¡Hola! Soy MeteoBot, especializado en información "
    + "meteorológica. \n\nAunque temporalmente tengo "
    + "limitaciones técnicas, estaré encantado de "
    + "ayudarte con temas relacionados al clima cuando "
    + "esté completamente operativo. \n\n¿Hay algo "
    + "específico sobre el tiempo que te gustaría "
    + "saber? 🌤️"

  /** The keywords `generateFallbackResponse` searches for, as the ASCII bytes `str_contains` compares. */
  const ClimaKeyword: Bytes := [99, 108, 105, 109, 97]
  const TiempoKeyword: Bytes := [116, 105, 101, 109, 112, 111]
  const TemperaturaKeyword: Bytes := [116, 101, 109, 112, 101, 114, 97, 116, 117, 114, 97]
  const LluviaKeyword: Bytes := [108, 108, 117, 118, 105, 97]
  const LloverKeyword: Bytes := [108, 108, 111, 118, 101, 114]
  const HolaKeyword: Bytes := [104, 111, 108, 97]
  const BuenosKeyword: Bytes := [98, 117, 101, 110, 111, 115]
  const SaludosKeyword: Bytes := [115, 97, 108, 117, 100, 111, 115]

  /** Each keyword constant is the UTF-8 encoding of the word it names. */
  lemma ClimaIsUtf8()
    ensures Utf8("clima") == ClimaKeyword
  {
    AsciiUtf8("clima");
  }

  lemma TiempoIsUtf8()
    ensures Utf8("tiempo") == TiempoKeyword
  {
    AsciiUtf8("tiempo");
  }

  lemma TemperaturaIsUtf8()
    ensures Utf8("temperatura") == TemperaturaKeyword
  {
    AsciiUtf8("temperatura");
  }

  lemma LluviaIsUtf8()
    ensures Utf8("lluvia") == LluviaKeyword
  {
    AsciiUtf8("lluvia");
  }

  lemma LloverIsUtf8()
    ensures Utf8("llover") == LloverKeyword
  {
    AsciiUtf8("llover");
  }

  lemma HolaIsUtf8()
    ensures Utf8("hola") == HolaKeyword
  {
    AsciiUtf8("hola");
  }

  lemma BuenosIsUtf8()
    ensures Utf8("buenos") == BuenosKeyword
  {
    AsciiUtf8("buenos");
  }

  lemma SaludosIsUtf8()
    ensures Utf8("saludos") == SaludosKeyword
  {
    AsciiUtf8("saludos");
  }

  predicate MentionsWeather(s: Bytes) {
    Contains(s, ClimaKeyword) || Contains(s, TiempoKeyword) || Contains(s, TemperaturaKeyword)
  }

  predicate MentionsRain(s: Bytes) {
    Contains(s, LluviaKeyword) || Contains(s, LloverKeyword)
  }

  predicate MentionsGreeting(s: Bytes) {
    Contains(s, HolaKeyword) || Contains(s, BuenosKeyword) || Contains(s, SaludosKeyword)
  }

  /** ChatService::generateFallbackResponse: one of four fixed replies,
      chosen on the lower-cased content, weather before rain before
      greeting before the default. */
  function FallbackResponse(content: Bytes): (r: string)
    ensures r == WeatherReply || r == RainReply || r == GreetingReply || r == DefaultReply
    ensures MentionsWeather(Lower(content)) ==> r == WeatherReply
    ensures !MentionsWeather(Lower(content)) && MentionsRain(Lower(content)) ==> r == RainReply
    ensures (!MentionsWeather(Lower(content)) && !MentionsRain(Lower(content))
             && MentionsGreeting(Lower(content))) ==> r == GreetingReply
    ensures (!MentionsWeather(Lower(content)) && !MentionsRain(Lower(content))
             && !MentionsGreeting(Lower(content))) ==> r == DefaultReply
  {
    var content := Lower(content);
    if MentionsWeather(content) then WeatherReply
    else if MentionsRain(content) then RainReply
    else if MentionsGreeting(content) then GreetingReply
    else DefaultReply
  }

  lemma LowerIdempotent(s: Bytes)
    ensures Lower(Lower(s)) == Lower(s)
  {
  }

  /** The offline responder ignores ASCII case. */
  lemma FallbackIgnoresCase(content: Bytes)
    ensures FallbackResponse(Lower(content)) == FallbackResponse(content)
  {
    LowerIdempotent(content);
  }

  /** A message mentioning "clima" anywhere, in any ASCII case, gets the
      weather reply, whatever else it mentions. */
  lemma ClimaGetsWeatherReply(content: Bytes, k: nat)
    requires k + 5 <= |content|
    requires Lower(content)[k..k + 5] == ClimaKeyword
    ensures FallbackResponse(content) == WeatherReply
  {
    ContainsAt(Lower(content), ClimaKeyword, k);
  }

  /** The keyword occurs at no offset. */
  ghost predicate Absent(s: Bytes, keyword: Bytes) {
    forall k :: !OccursAt(s, keyword, k)
  }

  lemma AbsentNotContained(s: Bytes, keyword: Bytes)
    requires Absent(s, keyword)
    ensures !Contains(s, keyword)
  {
    if Contains(s, keyword) {
      ContainsOccurs(s, keyword);
      assert false;
    }
  }

  /** A message in which none of the eight keywords occurs, in any ASCII
      case, gets the default reply. */
  lemma NoKeywordGetsDefaultReply(content: Bytes)
    requires Absent(Lower(content), ClimaKeyword) && Absent(Lower(content), TiempoKeyword)
    requires Absent(Lower(content), TemperaturaKeyword)
    requires Absent(Lower(content), LluviaKeyword) && Absent(Lower(content), LloverKeyword)
    requires Absent(Lower(content), HolaKeyword) && Absent(Lower(content), BuenosKeyword)
    requires Absent(Lower(content), SaludosKeyword)
    ensures FallbackResponse(content) == DefaultReply
  {
    var s := Lower(content);
    AbsentNotContained(s, ClimaKeyword);
    AbsentNotContained(s, TiempoKeyword);
    AbsentNotContained(s, TemperaturaKeyword);
    AbsentNotContained(s, LluviaKeyword);
    AbsentNotContained(s, LloverKeyword);
    AbsentNotContained(s, HolaKeyword);
    AbsentNotContained(s, BuenosKeyword);
    AbsentNotContained(s, SaludosKeyword);
  }

  /** A call the turn makes to a collaborator. */
  datatype CollaboratorCall =
    | AskModel(message: string, history: seq<HistoryEntry>)
    | FetchWeather(latitude: real, longitude: real, location: Option<string>)
    | AskModelWithToolResult(message: string, toolResult: ToolResult, history: seq<HistoryEntry>)

  /** The `map` in `sendMessage` that builds the history array: each stored message as a history entry. */
  function HistoryOf(window: seq<Message>): (h: seq<HistoryEntry>)
    ensures |h| == |window|
    ensures forall i :: 0 <= i < |window| ==> h[i] == HistoryEntry(window[i].content, window[i].senderType)
  {
    seq(|window|, i requires 0 <= i < |window| => HistoryEntry(window[i].content, window[i].senderType))
  }

  /** The first reply asks for the weather tool. */
  predicate WantsWeather(first: ModelOutcome) {
    first.ModelReplied? && GetWeatherToolCall(first.response).Some?
  }

  /** The text `handleWeatherToolCall` stores: the follow-up reply, or the
      weather apology when the lookup or the follow-up call fails. */
  function WeatherReplyText(weather: Result<WeatherRecord, string>, followUp: ModelOutcome): (r: string)
    ensures weather.Err? ==> r == WeatherApology
    ensures weather.Ok? && followUp.ModelFailed? ==> r == WeatherApology
    ensures weather.Ok? && followUp.ModelReplied? ==> r == followUp.response.content
  {
    if weather.Err? then WeatherApology
    else if followUp.ModelFailed? then WeatherApology
    else followUp.response.content
  }

  /** The text `sendMessage` stores as the assistant's reply. */
  function TurnReply(first: ModelOutcome, weather: Result<WeatherRecord, string>, followUp: ModelOutcome): (r: string)
    ensures first.ModelFailed? ==> r == TechnicalApology
    ensures first.ModelReplied? && !HasToolCalls(first.response) ==> r == first.response.content
    ensures first.ModelReplied? && HasToolCalls(first.response) && !WantsWeather(first) ==>
              r == (if FalsyText(first.response.content) then CouldNotProcess else first.response.content)
    ensures WantsWeather(first) ==>
              && (weather.Err? ==> r == WeatherApology)
              && (weather.Ok? && followUp.ModelFailed? ==> r == WeatherApology)
              && (weather.Ok? && followUp.ModelReplied? ==> r == followUp.response.content)
  {
    match first
    case ModelFailed => TechnicalApology
    case ModelReplied(response) =>
      if !HasToolCalls(response) then response.content
      else if GetWeatherToolCall(response).None? then
        (if FalsyText(response.content) then CouldNotProcess else response.content)
      else WeatherReplyText(weather, followUp)
  }

  /** The calls of `handleWeatherToolCall`: the weather lookup, then, only
      when it succeeds, the follow-up model call with the original message,
      the tool call with its result, and the same history. */
  function WeatherCalls(message: string, call: ToolCall, history: seq<HistoryEntry>,
                        weather: Result<WeatherRecord, string>): (r: seq<CollaboratorCall>)
    ensures 1 <= |r| <= 2
    ensures r[0] == FetchWeather(call.call.arguments.latitude, call.call.arguments.longitude,
                                 call.call.arguments.location)
    ensures |r| == 2 <==> weather.Ok?
    ensures |r| == 2 ==>
              r[1] == AskModelWithToolResult(message, ToolResult(call, weather.value), history)
  {
    var args := call.call.arguments;
    var fetch := FetchWeather(args.latitude, args.longitude, args.location);
    match weather
    case Err(_) => [fetch]
    case Ok(weatherData) => [fetch, AskModelWithToolResult(message, ToolResult(call, weatherData), history)]
  }

  /** The collaborator calls of one `sendMessage` turn that finds its
      conversation: one model call with the stored history, then, only when
      the weather tool is asked for, one weather lookup and at most one
      follow-up model call. */
  function TurnCalls(content: string, history: seq<HistoryEntry>, first: ModelOutcome,
                     weather: Result<WeatherRecord, string>): (r: seq<CollaboratorCall>)
    ensures 1 <= |r| <= 3
    ensures r[0] == AskModel(content, history)
    ensures |r| > 1 <==> WantsWeather(first)
    ensures |r| > 1 ==> r[1..] == WeatherCalls(content, GetWeatherToolCall(first.response).value, history, weather)
  {
    if WantsWeather(first) then
      [AskModel(content, history)] + WeatherCalls(content, GetWeatherToolCall(first.response).value, history, weather)
    else [AskModel(content, history)]
  }

  /** The history read right after a user message is stored holds at most
      one entry exactly when the conversation had no messages before. */
  lemma FirstTurnOnly(rows: seq<Message>, user: Message, cid: int)
    requires user.conversationId == cid
    ensures |Latest(rows + [user], cid, HistoryLimit)| <= 1 <==> OfConversation(rows, cid) == []
  {
    OfConversationAppend(rows, user, cid);
  }

  /** Once two messages of the conversation are stored the history holds at
      least two entries. */
  lemma HistoryAfterTwo(rows: seq<Message>, user: Message, reply: Message, cid: int)
    requires user.conversationId == cid && reply.conversationId == cid
    ensures |Latest(rows + [user, reply], cid, HistoryLimit)| >= 2
  {
    OfConversationAppendTwoCount(rows, user, reply, cid);
  }

  class ChatService {
    /** The message table. */
    const messages: MessageTable
    /** The conversation table, by id. */
    var conversations: map<int, Conversation>
    /** Every collaborator call made so far, in order. */
    var calls: seq<CollaboratorCall>

    ghost predicate Valid()
      reads this, messages
    {
      messages.Valid() && forall id :: id in conversations ==> conversations[id].id == id
    }

    constructor (table: MessageTable, conversations: map<int, Conversation>)
      requires table.Valid()
      requires forall id :: id in conversations ==> conversations[id].id == id
      ensures Valid()
      ensures this.messages == table && this.conversations == conversations && calls == []
    {
      messages := table;
      this.conversations := conversations;
      calls := [];
    }

    /** ChatService::createAssistantMessage. */
    method CreateAssistantMessage(cid: int, content: string) returns (m: Message)
      requires Valid()
      modifies messages
      ensures Valid()
      ensures messages.rows == old(messages.rows) + [m]
      ensures m.conversationId == cid && m.content == content
      ensures m.senderType == Assistant && m.metadata.None?
    {
      m := messages.Create(CreateMessageDto(cid, content, Assistant, None));
    }

    /** ChatService::handleWeatherToolCall: fetches the weather for the
        call's arguments, hands the record to the model with the original
        message and history, and stores its text; when the lookup or that
        call fails it stores the weather apology. */
    method HandleWeatherToolCall(cid: int, originalMessage: string, call: ToolCall,
                                 history: seq<HistoryEntry>, weather: Result<WeatherRecord, string>,
                                 followUp: ModelOutcome) returns (m: Message)
      requires Valid()
      modifies this, messages
      ensures Valid()
      ensures conversations == old(conversations)
      ensures calls == old(calls) + WeatherCalls(originalMessage, call, history, weather)
      ensures messages.rows == old(messages.rows) + [m]
      ensures m.conversationId == cid && m.senderType == Assistant && m.metadata.None?
      ensures m.content == WeatherReplyText(weather, followUp)
    {
      var args := call.call.arguments;
      calls := calls + [FetchWeather(args.latitude, args.longitude, args.location)];
      // The weather service's answer for these arguments.
      var weatherData := weather;
      if weatherData.Err? {
        m := CreateAssistantMessage(cid, WeatherApology);
        return;
      }
      var toolResult := ToolResult(call, weatherData.value);
      calls := calls + [AskModelWithToolResult(originalMessage, toolResult, history)];
      match followUp {
        case ModelReplied(finalResponse) =>
          m := CreateAssistantMessage(cid, finalResponse.content);
        case ModelFailed =>
          m := CreateAssistantMessage(cid, WeatherApology);
      }
    }

    /** The `try` block of ChatService::sendMessage up to the title check:
        the model call and the stored reply. A failed model call costs the turn its reply, which
        becomes the technical apology. */
    method AnswerWithModel(cid: int, content: string, historyArray: seq<HistoryEntry>, first: ModelOutcome,
                           weather: Result<WeatherRecord, string>, followUp: ModelOutcome)
      returns (assistantMessage: Message)
      requires Valid()
      modifies this, messages
      ensures Valid()
      ensures conversations == old(conversations)
      ensures calls == old(calls) + TurnCalls(content, historyArray, first, weather)
      ensures messages.rows == old(messages.rows) + [assistantMessage]
      ensures assistantMessage.conversationId == cid && assistantMessage.senderType == Assistant
      ensures assistantMessage.metadata.None?
      ensures assistantMessage.content == TurnReply(first, weather, followUp)
    {
      calls := calls + [AskModel(content, historyArray)];
      match first {
      case ModelFailed =>
        assistantMessage := CreateAssistantMessage(cid, TechnicalApology);
      case ModelReplied(aiResponse) =>
        if HasToolCalls(aiResponse) {
          var weatherToolCall := GetWeatherToolCall(aiResponse);
          if weatherToolCall.Some? {
            assistantMessage := HandleWeatherToolCall(cid, content, weatherToolCall.value, historyArray,
                                                      weather, followUp);
          } else {
            var text := if FalsyText(aiResponse.content) then CouldNotProcess else aiResponse.content;
            assistantMessage := CreateAssistantMessage(cid, text);
          }
        } else {
          assistantMessage := CreateAssistantMessage(cid, aiResponse.content);
        }
      }
    }

    /** The first-exchange title check of ChatService::sendMessage (and of
        sendMessageWithFallback): title the conversation
        from the first message when the history holds at most one entry and
        the conversation has no truthy title. A truthy title is never
        overwritten. */
    method TitleFirstExchange(cid: int, historyCount: nat, content: string)
      requires Valid()
      requires cid in conversations
      modifies this
      ensures Valid()
      ensures calls == old(calls)
      ensures conversations == if historyCount <= 1 && UntitledConversation(old(conversations)[cid])
                               then old(conversations)[cid := old(conversations)[cid].(title := Some(DeriveTitle(Utf8(content))))]
                               else old(conversations)
      ensures conversations.Keys == old(conversations).Keys
      ensures conversations != old(conversations) <==>
                historyCount <= 1 && UntitledConversation(old(conversations)[cid])
      ensures forall id :: id in old(conversations) && !UntitledConversation(old(conversations)[id]) ==>
                conversations[id] == old(conversations)[id]
    {
      var conversation := conversations[cid];
      if historyCount <= 1 && UntitledConversation(conversation) {
        var title := DeriveTitle(Utf8(content));
        conversations := conversations[cid := conversation.(title := Some(title))];
        assert conversations[cid].title != conversation.title;
      }
    }

    /** ChatService::sendMessage. An unknown conversation fails with nothing
        written and nothing called. Otherwise the turn stores the user
        message and then one assistant reply, asks the model with the
        history read after the user insert, and titles the conversation
        when the model answered, the conversation had no earlier messages
        and had no title. */
    method SendMessage(cid: int, content: string, first: ModelOutcome,
                       weather: Result<WeatherRecord, string>, followUp: ModelOutcome)
      returns (r: Result<Message, string>)
      requires Valid()
      modifies this, messages
      ensures Valid()
      ensures cid !in old(conversations) ==>
                && r == Err(NotFound)
                && messages.rows == old(messages.rows)
                && conversations == old(conversations) && calls == old(calls)
      ensures cid in old(conversations) ==> r.Ok? && |messages.rows| == |old(messages.rows)| + 2
      ensures cid in old(conversations) ==>
                var user := messages.rows[|old(messages.rows)|];
                && messages.rows == old(messages.rows) + [user, r.value]
                && user.conversationId == cid && user.content == content
                && user.senderType == User && user.metadata.None?
                && r.value.conversationId == cid && r.value.senderType == Assistant
                && r.value.metadata.None?
                && r.value.content == TurnReply(first, weather, followUp)
      ensures cid in old(conversations) ==>
                var user := messages.rows[|old(messages.rows)|];
                var window := Latest(old(messages.rows) + [user], cid, HistoryLimit);
                var conversation := old(conversations)[cid];
                && calls == old(calls) + TurnCalls(content, HistoryOf(window), first, weather)
                && conversations == if first.ModelReplied? && |window| <= 1 && UntitledConversation(conversation)
                                    then old(conversations)[cid := conversation.(title := Some(DeriveTitle(Utf8(content))))]
                                    else old(conversations)
      ensures conversations.Keys == old(conversations).Keys
      ensures forall id :: id in old(conversations) && !UntitledConversation(old(conversations)[id]) ==>
                conversations[id] == old(conversations)[id]
    {
      if cid !in conversations {
        return Err(NotFound);
      }
      var conversation := conversations[cid];
      var userMessage := messages.Create(CreateMessageDto(cid, content, User, None));
      // History for context, read after the user message is stored.
      var conversationHistory := Latest(messages.rows, cid, HistoryLimit);
      var historyArray := HistoryOf(conversationHistory);
      var assistantMessage := AnswerWithModel(cid, content, historyArray, first, weather, followUp);
      assert messages.rows == old(messages.rows) + [userMessage, assistantMessage];
      assert messages.rows[|old(messages.rows)|] == userMessage;
      // The title check runs only when the model call did not throw.
      if first.ModelReplied? {
        TitleFirstExchange(cid, |conversationHistory|, content);
      }
      r := Ok(assistantMessage);
    }

    /** The two inserts of ChatService::sendMessageWithFallback: the user
        message and the keyword reply, stored in that order. */
    method StoreFallbackExchange(cid: int, content: string) returns (userMessage: Message, assistantMessage: Message)
      requires Valid()
      modifies messages
      ensures Valid()
      ensures messages.rows == old(messages.rows) + [userMessage, assistantMessage]
      ensures userMessage.conversationId == cid && userMessage.content == content
      ensures userMessage.senderType == User && userMessage.metadata.None?
      ensures assistantMessage.conversationId == cid && assistantMessage.senderType == Assistant
      ensures assistantMessage.metadata.None?
      ensures assistantMessage.content == FallbackResponse(Utf8(content))
    {
      userMessage := messages.Create(CreateMessageDto(cid, content, User, None));
      var fallbackResponse := FallbackResponse(Utf8(content));
      assistantMessage := CreateAssistantMessage(cid, fallbackResponse);
    }

    /** ChatService::sendMessageWithFallback: the offline turn. It stores
        the user message and the keyword reply, calls no collaborator, and
        never sets the title, since the history it reads already holds both
        new messages. */
    method SendMessageWithFallback(cid: int, content: string) returns (r: Result<Message, string>)
      requires Valid()
      modifies this, messages
      ensures Valid()
      ensures calls == old(calls) && conversations == old(conversations)
      ensures cid !in old(conversations) ==> r == Err(NotFound) && messages.rows == old(messages.rows)
      ensures cid in old(conversations) ==> r.Ok? && |messages.rows| == |old(messages.rows)| + 2
      ensures cid in old(conversations) ==>
                var user := messages.rows[|old(messages.rows)|];
                && messages.rows == old(messages.rows) + [user, r.value]
                && user.conversationId == cid && user.content == content
                && user.senderType == User && user.metadata.None?
                && r.value.conversationId == cid && r.value.senderType == Assistant
                && r.value.metadata.None? && r.value.content == FallbackResponse(Utf8(content))
    {
      if cid !in conversations {
        return Err(NotFound);
      }
      var conversation := conversations[cid];
      var before := messages.rows;
      var userMessage, assistantMessage := StoreFallbackExchange(cid, content);
      assert messages.rows[|before|] == userMessage;
      var conversationHistory := Latest(messages.rows, cid, HistoryLimit);
      HistoryAfterTwo(before, userMessage, assistantMessage, cid);
      if |conversationHistory| <= 1 && UntitledConversation(conversation) {
        // The title update of the first-exchange check cannot run: the history holds
        // both new messages.
        assert false;
      }
      r := Ok(assistantMessage);
    }
  }
}
