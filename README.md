# MeteoBot chat core, modelled in Dafny

MeteoBot is a weather chat assistant. Its Laravel backend handles a user message in one turn:

1. It stores the message.
2. It reads the last ten messages of the conversation as history.
3. It asks a language model for a reply. The model may ask for the `get_weather_for_location` tool. In that case the backend queries Open-Meteo and asks the model again with the weather record.
4. It stores the assistant's reply.
5. On the first exchange it titles the conversation.

An offline variant answers from four canned replies chosen by keyword. The Vue front end keeps two stores:

- a theme store (light, dark or auto, following the system preference);
- a chat store (the open conversation, the conversation list, the message list and the sending flags).

## Structure

The project models these parts:

- `wrappers.dfy`: `Option` and `Result`.
- `php_strings.dfy`: the PHP string primitives the backend relies on, over bytes.
  - `trim`, `strtolower`, `str_contains` and string truthiness.
  - A UTF-8 encoder. Text is held as `string`, and the byte-level primitives run on its UTF-8 encoding, as PHP does.
- `message_repository.dfy`:
  - the `messages` table as a class over a sequence of rows, with `create` and `delete`;
  - the two read queries as functions. `orderBy('created_at')` is a stable insertion sort on the creation stamp.
- `openai_response_dto.dfy`: the reply DTO and its first-match search for the weather tool call.
- `model_contract.dfy`: the records passed to the language-model collaborator (`OpenAIServiceInterface`), and what one call of it can produce.
- `openai_service.dfy`: the OpenAI client component.
  - Prompt assembly, the tool-result follow-up list and tool-call formatting.
  - Building the DTO from the client library's reply.
  - The network call is an input.
- `weather_request_dto.dfy`: the forecast request DTO, its `toArray`, and PHP `array_filter`.
- `weather_service.dfy`: the forecast and geocoding results built from an abstract HTTP outcome, and the WMO weather-code table.
- `chat_service.dfy`: the turn itself, as a class holding the conversation table, the message table and a log of collaborator calls.
  - The model's replies and the weather service's answer are inputs.
  - It also holds the title deriver and the offline responder.
- `theme_store.dfy` and `chat_store.dfy`: the two front-end stores as classes. Local storage, the media query and API answers are inputs.

Choices that differ from a literal reading of the code:

- `created_at` is stamped from a counter that grows with every insert. Rows are therefore strictly chronological, and ties between timestamps do not occur.
- The live model binding is a `GroqService` that is not part of this model. The turn therefore sees the model only through its interface, as a `ModelFailed | ModelReplied(dto)` outcome. `OpenAIService` is modelled as a standalone component.
- The turn takes the weather service's answer as an input, a `Result<WeatherRecord, string>`, just as it takes the model's answers. `WeatherService.GetWeatherForLocation` models how that answer arises from the HTTP outcome.
  - The lookup's arguments are the tool call's latitude, longitude and location. They are recorded in the `FetchWeather` call of the log.
  - An `Err` answer is the exception `getWeatherForLocation` throws. So a lookup failure skips the follow-up model call, and the turn stores the weather apology.
- The Vue `watch` on `conversation` is applied right after each assignment of a conversation. A Pinia action that awaits is one method, with every awaited answer as an input.

## Model

| member | source | states |
|---|---|---|
| PhpStrings.Trim | Back/app/Services/ChatService.php:195 | `trim` returns the infix left after cutting default trim bytes from both ends. The result is empty exactly when every byte is a trim byte. A non-empty result neither starts nor ends with one. |
| PhpStrings.TrimFixpoint | Back/app/Services/ChatService.php:195 | A string that neither starts nor ends with a trim byte is left unchanged by `trim`. |
| PhpStrings.FalsyTextUtf8 | Back/app/Services/ChatService.php:74 | A text is falsy for PHP's `?:` (empty or "0") exactly when its UTF-8 bytes are. |
| PhpStrings.Lower | Back/app/Services/ChatService.php:133 | `strtolower` keeps the length and lower-cases only the bytes `A`..`Z`. |
| PhpStrings.Contains | Back/app/Services/ChatService.php:136-144 | `str_contains` never finds a needle longer than the haystack, and always finds the empty needle. |
| PhpStrings.ContainsAt | Back/app/Services/ChatService.php:136 | A needle occurring at any offset of the haystack makes `str_contains` true. |
| PhpStrings.ContainsOccurs | Back/app/Services/ChatService.php:136 | `str_contains` is true only when the needle occurs at some offset. With `ContainsAt`, it is true exactly then. |
| MessageRepository.SortBy | Back/app/Repositories/MessageRepository.php:25 | `orderBy('created_at')`: the result is a permutation of the rows, sorted by creation stamp in the requested direction. |
| MessageRepository.OfConversation | Back/app/Repositories/MessageRepository.php:24 | `where('conversation_id', ...)` keeps exactly the rows of that conversation. |
| MessageRepository.OfConversationChronological | Back/app/Repositories/MessageRepository.php:24 | Filtering a chronological table by conversation keeps it chronological. |
| MessageRepository.Capped | Back/app/Repositories/MessageRepository.php:33 | `limit(n)` keeps `min(n, count)` rows; a negative limit keeps every row. |
| MessageRepository.Reverse | Back/app/Repositories/MessageRepository.php:35 | `->reverse()` keeps the length and puts element `k` at position `count - 1 - k`. |
| MessageRepository.ByConversation | Back/app/Repositories/MessageRepository.php:22-27 | `getByConversationId` holds every message of the conversation and nothing else, ordered by `created_at`. |
| MessageRepository.Latest | Back/app/Repositories/MessageRepository.php:29-37 | `getLatestByConversationId` has `min(limit, count)` rows, all of that conversation, in ascending `created_at` order even though it is queried descending. |
| MessageRepository.LatestIsSuffix | Back/app/Repositories/MessageRepository.php:22-37 | With distinct timestamps, the latest-`limit` window is exactly the last `min(limit, count)` messages of `getByConversationId`. |
| MessageRepository.MessageTable.constructor | Back/app/Repositories/MessageRepository.php:10 | The repository's table starts empty, which is a valid chronological table. |
| MessageRepository.MessageTable.Create | Back/app/Repositories/MessageRepository.php:12-15 | `create` appends exactly one row carrying the DTO's fields, newer than every existing row. Every other row is unchanged. |
| MessageRepository.MessageTable.Delete | Back/app/Repositories/MessageRepository.php:44-47 | `delete` reports whether a row with that id existed. It removes that row and keeps the others in order. |
| MessageRepository.WithoutId | Back/app/Repositories/MessageRepository.php:46 | After `destroy`, the remaining rows are exactly the rows whose id differs. |
| MessageRepository.WithoutIdAppend | Back/app/Repositories/MessageRepository.php:46 | Removal distributes over concatenation, so `destroy` keeps the remaining rows in their order. |
| OpenAIResponseDto.HasToolCalls | Back/app/DTOs/OpenAIResponseDTO.php:14-17 | `hasToolCalls` is false exactly when the tool calls are null or an empty list, as PHP's `!empty` decides. |
| OpenAIResponseDto.FirstWeatherCall | Back/app/DTOs/OpenAIResponseDTO.php:25-31 | The `foreach` returns the first call named `get_weather_for_location`, or null exactly when no call has that name. |
| OpenAIResponseDto.GetWeatherToolCall | Back/app/DTOs/OpenAIResponseDTO.php:19-32 | The result is null without tool calls. Otherwise it is the first weather call, and null if and only if none is named `get_weather_for_location`. |
| OpenAIService.RoleFor | Back/app/Services/OpenAIService.php:107 | A history entry is replayed as `user` exactly when its sender type is `user`, and as `assistant` otherwise. |
| OpenAIService.BuildMessages | Back/app/Services/OpenAIService.php:95-119 | The result has `|history| + 2` entries: the system prompt, every history entry in order with its role and content, then the user message. When the history already ends with that message, the last two entries are equal. |
| OpenAIService.FormatToolCalls | Back/app/Services/OpenAIService.php:182-196 | Lengths and order are kept, and `id`, `type`, `name` and `arguments` are copied unchanged. |
| OpenAIService.SendMessage | Back/app/Services/OpenAIService.php:20-50 | The request offers the weather tool with `tool_choice` auto, the model name, temperature 0.7 and 1000 max tokens. Client failures and a missing first choice become "Error communicating with AI service: ...". Otherwise the DTO holds the first choice's content (null becomes ""), its finish reason and usage, and tool calls exactly when the message has a non-empty list. Each tool call keeps its `id`, `type`, `name` and `arguments`, as `formatToolCalls` copies them. |
| OpenAIService.SendMessageWithToolResult | Back/app/Services/OpenAIService.php:52-93 | The request list is the prompt, then an assistant entry with `[tool_call]`, then a tool entry with `tool_call.id`, so `|history| + 4` entries. No tools are offered. The DTO never carries tool calls. |
| WeatherRequestDto.NewWeatherRequest | Back/app/DTOs/WeatherRequestDTO.php:7-14 | The constructor keeps its arguments. By default `currentWeather` has three fields and `hourly`/`daily` are empty. |
| WeatherRequestDto.Join | Back/app/DTOs/WeatherRequestDTO.php:21 | `implode(',')` of no parts is "". Otherwise the result starts with the first part. |
| WeatherRequestDto.SplitJoin | Back/app/DTOs/WeatherRequestDTO.php:21 | When no field contains a comma, the comma-joined list reads back as the same fields in the same order. |
| WeatherRequestDto.ToArray | Back/app/DTOs/WeatherRequestDTO.php:16-26 | Latitude and longitude are copied. `current` is the join of `currentWeather`. `hourly`/`daily` are null when empty and the join otherwise. `timezone` is `auto`. |
| WeatherRequestDto.ArrayFilter | Back/app/Services/WeatherService.php:39 | `array_filter` never yields more entries than it was given. |
| WeatherRequestDto.ArrayFilterMembers | Back/app/Services/WeatherService.php:39 | `array_filter` keeps exactly the entries whose value is not falsy (null, 0, 0.0, "" or "0"). |
| WeatherRequestDto.ArrayFilterAppend | Back/app/Services/WeatherService.php:39 | `array_filter` distributes over concatenation, so the kept entries stay in their order. |
| WeatherService.Successful | Back/app/Services/WeatherService.php:41 | `successful()` holds exactly for a status in the 2xx class. The geocoding branch at line 80 uses the same test. |
| WeatherService.WeatherDescription | Back/app/Services/WeatherService.php:107-141 | Every code outside the 28 listed WMO codes gets "Condición desconocida", and only those codes do. |
| WeatherService.FogDescriptions | Back/app/Services/WeatherService.php:114-115 | Codes 45 and 48 read as fog ("Niebla"). |
| WeatherService.DrizzleDescriptions | Back/app/Services/WeatherService.php:116-120 | Codes 51, 53, 55, 56 and 57 read as drizzle ("Llovizna"). |
| WeatherService.FreezingDrizzleDescriptions | Back/app/Services/WeatherService.php:119-120 | Codes 56 and 57 read as freezing drizzle. |
| WeatherService.RainDescriptions | Back/app/Services/WeatherService.php:121-125 | Codes 61, 63, 65, 66 and 67 read as rain ("Lluvia"). |
| WeatherService.FreezingRainDescriptions | Back/app/Services/WeatherService.php:124-125 | Codes 66 and 67 read as freezing rain. |
| WeatherService.SnowDescriptions | Back/app/Services/WeatherService.php:126-128 | Codes 71, 73 and 75 read as snow ("Nieve"). |
| WeatherService.ShowersDescriptions | Back/app/Services/WeatherService.php:130-134 | Codes 80, 81, 82, 85 and 86 read as showers ("Chubascos"). |
| WeatherService.SnowShowersDescriptions | Back/app/Services/WeatherService.php:133-134 | Codes 85 and 86 read as snow showers. |
| WeatherService.ThunderstormDescriptions | Back/app/Services/WeatherService.php:135-137 | Codes 95, 96 and 99 read as thunderstorm ("Tormenta"). |
| WeatherService.ForecastQuery | Back/app/Services/WeatherService.php:24-39 | The query sent holds latitude and longitude unless they are exactly 0, then the seven current fields joined by commas, then `timezone=auto`. The null `hourly` and `daily` entries are dropped. |
| WeatherService.FilteredForecastParams | Back/app/Services/WeatherService.php:39 | What `array_filter` leaves of a request without hourly or daily fields. |
| WeatherService.ShapeCurrent | Back/app/Services/WeatherService.php:49-58 | Each current field is copied, and null when absent. A missing `weather_code` stays null but is described as code 0, "Cielo despejado". |
| WeatherService.Decimal | Back/app/Services/WeatherService.php:42 | The status code rendered into an error message is a non-empty string of decimal digits. |
| WeatherService.DecimalValue | Back/app/Services/WeatherService.php:81 | The rendered status code spells the status itself, without leading zeros. |
| WeatherService.GetWeatherForLocation | Back/app/Services/WeatherService.php:21-68 | A connection error, or a non-2xx status with the status code, fails with the "Error fetching weather data: " prefix. Otherwise the record carries the given location name (or the coordinates), the shaped current data, the units (empty by default), and the timezone and timestamp. |
| WeatherService.GeocodingQuery | Back/app/Services/WeatherService.php:73-78 | The geocoding query has exactly four entries, in order: the name, `count=1`, `language=es` and `format=json`. |
| WeatherService.GetCoordinatesFromLocation | Back/app/Services/WeatherService.php:70-105 | Connection errors, non-2xx statuses and missing or empty `results` fail with their messages under "Error finding location coordinates: ". Otherwise the place comes from `results[0]`, with absent optional fields null. |
| ChatService.UntitledConversation | Back/app/Services/ChatService.php:82 | `!$conversation->title` holds exactly for a null title, an empty one or "0". The fallback's test at line 122 is the same. |
| ChatService.UntitledText | Back/app/Services/ChatService.php:82 | A title stored as the UTF-8 of a text counts as missing exactly when that text is "" or "0". |
| ChatService.DefaultTitleIsUtf8 | Back/app/Services/ChatService.php:199 | The default title's bytes are the UTF-8 encoding of "Nueva conversación", with 'ó' as the two bytes C3 B3. |
| ChatService.DeriveTitle | Back/app/Services/ChatService.php:192-200 | The title is the trimmed message. Over 50 bytes it becomes its first 47 bytes plus "...", exactly 50 bytes. An empty or "0" title becomes "Nueva conversación". It is never empty, never falsy, and at most 50 bytes, within the 255 limit. |
| ChatService.DeriveTitleIdempotent | Back/app/Services/ChatService.php:192-200 | Deriving a title from a derived title gives it back unchanged. |
| ChatService.FallbackResponse | Back/app/Services/ChatService.php:131-150 | The result is one of the four fixed replies, chosen on the lower-cased text with weather keywords first, then rain, then greeting, then the default. |
| ChatService.TemperaturaIsUtf8 | Back/app/Services/ChatService.php:136 | The keyword bytes searched for are the UTF-8 encoding of "temperatura". The other seven keywords have lemmas of the same form. |
| ChatService.FallbackIgnoresCase | Back/app/Services/ChatService.php:133 | The offline reply does not depend on ASCII case. |
| ChatService.ClimaGetsWeatherReply | Back/app/Services/ChatService.php:133-137 | A message containing "clima" anywhere, in any ASCII case, gets the weather reply whatever else it mentions. |
| ChatService.NoKeywordGetsDefaultReply | Back/app/Services/ChatService.php:131-149 | A message in which none of the eight keywords occurs, in any ASCII case, gets the default reply. |
| ChatService.HistoryOf | Back/app/Services/ChatService.php:56-61 | The history array holds each stored message's content and sender type, in order. |
| ChatService.WeatherReplyText | Back/app/Services/ChatService.php:161-178 | The weather branch stores the follow-up reply's text. A failed lookup or a failed follow-up call gives the weather apology. |
| ChatService.WeatherCalls | Back/app/Services/ChatService.php:155-170 | The weather branch makes one weather call. Only if the lookup succeeds does it make one follow-up model call, with the original text, the tool call and its record, and the same history. |
| ChatService.TurnReply | Back/app/Services/ChatService.php:63-95 | The stored reply depends on the model's answer: <br>- a failed first model call gives the technical apology; <br>- a reply without tool calls is stored verbatim; <br>- tool calls without a weather call give the reply text, or "Lo siento, no pude procesar tu solicitud." when that text is falsy; <br>- the weather branch follows `WeatherReplyText`. |
| ChatService.TurnCalls | Back/app/Services/ChatService.php:65-71 | A turn makes one model call with the content and history. Only when the weather tool is asked for does it add the weather branch's calls. So there are at most two model calls and at most one weather call. |
| ChatService.FirstTurnOnly | Back/app/Services/ChatService.php:52-82 | The history read after the user insert holds at most one entry exactly when the conversation had no earlier messages. |
| ChatService.HistoryAfterTwo | Back/app/Services/ChatService.php:114-125 | Once both new messages are stored, the history holds at least two entries. |
| ChatService.ChatService.constructor | Back/app/Services/ChatService.php:19-24 | The service starts over the given message table and conversation table, having called no collaborator. |
| ChatService.ChatService.CreateAssistantMessage | Back/app/Services/ChatService.php:181-190 | It appends one `assistant` message with the given content. |
| ChatService.ChatService.HandleWeatherToolCall | Back/app/Services/ChatService.php:152-179 | It makes exactly the calls of `WeatherCalls`, appends one assistant message holding `WeatherReplyText`, and leaves the conversations unchanged. |
| ChatService.ChatService.AnswerWithModel | Back/app/Services/ChatService.php:63-95 | The model part of the turn makes the calls of `TurnCalls` and appends one assistant message holding `TurnReply`. |
| ChatService.ChatService.TitleFirstExchange | Back/app/Services/ChatService.php:81-85 | The conversation's title is set to the derived title exactly when the history holds at most one entry and the old title is falsy. A truthy title is never overwritten. |
| ChatService.ChatService.SendMessage | Back/app/Services/ChatService.php:37-97 | An unknown conversation fails with "Conversation not found", with nothing written and nothing called. Otherwise the turn: <br>- appends the `user` message and then one `assistant` message holding `TurnReply`; <br>- makes the calls of `TurnCalls` with the history read after the user insert; <br>- titles the conversation only when the model answered, the history had at most one entry and the title was falsy. |
| ChatService.ChatService.StoreFallbackExchange | Back/app/Services/ChatService.php:108-118 | The user message and then the keyword reply are appended, with their conversation, sender types and contents. |
| ChatService.ChatService.SendMessageWithFallback | Back/app/Services/ChatService.php:99-129 | An unknown conversation fails with nothing written. Otherwise the turn appends the `user` message and the keyword reply. It calls no collaborator and never changes a title. |
| ThemeStore.ThemeName | Front/src/stores/theme.store.ts:42 | The stored name of a theme is read back by `initializeTheme` as that same theme. |
| ThemeStore.ParseSaved | Front/src/stores/theme.store.ts:13-18 | A stored `light` or `dark` is kept. `auto`, anything else and nothing all mean `auto`. |
| ThemeStore.Toggled | Front/src/stores/theme.store.ts:51-61 | Toggling maps light to dark and dark to light, and auto to the opposite of the system preference. It never yields auto and always inverts whether the page is dark. |
| ThemeStore.ToggleTwice | Front/src/stores/theme.store.ts:51-61 | Toggling twice from light or dark restores the theme. From auto it lands on what the system shows. |
| ThemeStore.ThemeStore.constructor | Front/src/stores/theme.store.ts:8-9 | The store starts at `light`, not dark. |
| ThemeStore.ThemeStore.UpdateTheme | Front/src/stores/theme.store.ts:23-43 | `isDark` is true exactly for `dark`, or for `auto` with a dark system preference. The document's `dark` class equals `isDark`, and the stored value is the theme's name. |
| ThemeStore.ThemeStore.InitializeTheme | Front/src/stores/theme.store.ts:12-20 | The theme becomes the stored one if valid, otherwise `auto`, and is then applied as by `updateTheme`. |
| ThemeStore.ThemeStore.SetTheme | Front/src/stores/theme.store.ts:46-49 | The theme becomes the given one, applied as by `updateTheme`. |
| ThemeStore.ThemeStore.ToggleTheme | Front/src/stores/theme.store.ts:51-61 | The new theme is `Toggled(old theme)`, never `auto`. When the page showed its theme before, `isDark` is inverted. |
| ThemeStore.ThemeStore.OnSystemPreferenceChange | Front/src/stores/theme.store.ts:64-69 | A system-preference change re-derives the display only while the theme is `auto`. Otherwise nothing changes. |
| ChatStore.InsertIfAbsent | Front/src/pages/Chat/stores/chat.store.ts:192-197 | The conversation goes to the front only if no listed entry has its id. Afterwards its id is listed, and unique ids stay unique. |
| ChatStore.StoredAfterWatch | Front/src/pages/Chat/stores/chat.store.ts:193-195 | The watcher writes storage only when it inserts the conversation, and then writes the list with the conversation in front. |
| ChatStore.RemoveById | Front/src/pages/Chat/stores/chat.store.ts:160 | The filter keeps exactly the entries with a different id, and leaves a list without that id unchanged. |
| ChatStore.RemoveByIdAppend | Front/src/pages/Chat/stores/chat.store.ts:160 | The filter distributes over concatenation, so it keeps the order of the remaining entries. |
| ChatStore.RemoveByIdUnique | Front/src/pages/Chat/stores/chat.store.ts:160 | Removing keeps ids unique. |
| ChatStore.ChatStore.constructor | Front/src/pages/Chat/stores/chat.store.ts:8-15 | The initial state has no conversation, no messages, no error and no flags set, with the sidebar shown. Local storage keeps what it held, and no request has been sent. |
| ChatStore.ChatStore.SaveConversations | Front/src/pages/Chat/stores/chat.store.ts:127-133 | Local storage receives the current list, and nothing else changes. No request is sent. |
| ChatStore.ChatStore.OnConversationChange | Front/src/pages/Chat/stores/chat.store.ts:192-197 | The watcher inserts a new non-null conversation at the front if its id is not listed, and then saves the list, as `StoredAfterWatch` says. Otherwise the list and storage are unchanged. Ids stay unique and nothing else changes, requests included. |
| ChatStore.ChatStore.InitializeConversation | Front/src/pages/Chat/stores/chat.store.ts:18-32 | It sends one `createConversation` request titled "Nueva conversación de clima". On success the returned conversation is selected, with no error, and the watcher lists and saves it when new. Otherwise the initialisation error is set and nothing else changes. The messages, flags and sidebar are untouched either way. |
| ChatStore.ChatStore.LoadConversation | Front/src/pages/Chat/stores/chat.store.ts:88-102 | It sends one `getConversation` request for the given id. On success the conversation and its messages (or []) replace the current ones, and the watcher lists and saves it when new. Otherwise only the loading error is set. On success the error is untouched. The flags and sidebar are never touched. |
| ChatStore.ChatStore.SelectConversation | Front/src/pages/Chat/stores/chat.store.ts:135-141 | Every field, storage and the requests sent included, ends as `loadConversation` leaves it, on success and on failure. So it requests the given id. |
| ChatStore.ChatStore.SendMessage | Front/src/pages/Chat/stores/chat.store.ts:34-86 | `isLoading` ends false in every case. <br>- Without a conversation, a `createConversation` request is sent first. If that fails, only that request is sent, nothing is appended, and the list and storage are unchanged. <br>- Otherwise the optimistic `user` message is appended first, then a `sendMessage` request goes out with the conversation's id and the content. `isSending`/`isTyping` end false. A newly created conversation is listed and saved. <br>- If that request succeeds, a `getConversation` request for the same id follows. On its success the reloaded conversation and the server's list replace the current ones. <br>- When the reload fails, the conversation value is kept and the loading error is set. <br>- On a send failure no reload is requested, the optimistic message stays and the sending error is set. <br>The kept conversation value is the one held before the push; see the `ChatStore.ChatStore.SendMessage` line under "## Left out". |
| ChatStore.ChatStore.ClearMessages | Front/src/pages/Chat/stores/chat.store.ts:104-108 | Afterwards messages are empty and the conversation and error are null. The list, storage, flags and sidebar are unchanged, and no request is sent. |
| ChatStore.ChatStore.ClearError | Front/src/pages/Chat/stores/chat.store.ts:110-112 | Only the error is cleared. Every other field, storage and requests included, is unchanged. |
| ChatStore.ChatStore.CreateNewConversation | Front/src/pages/Chat/stores/chat.store.ts:143-155 | Messages are cleared and the state is reset, then a conversation is initialised. On success it is listed and saved when new. On failure the conversation is null with the initialisation error, and the list and storage are unchanged. The flags and sidebar are unchanged. The one request sent is `createConversation`. |
| ChatStore.ChatStore.DeleteConversation | Front/src/pages/Chat/stores/chat.store.ts:157-170 | Every entry with that id is removed, the rest keep their order, and the list is saved. Deleting the current conversation clears the messages and initialises a new one. That sets the conversation, the error, the list and storage as `createNewConversation` does on success or failure. Every other conversation stays listed, and the flags and sidebar are unchanged. The only request is that `createConversation`, when the current conversation is deleted. |
| ChatStore.ChatStore.ToggleSidebar | Front/src/pages/Chat/stores/chat.store.ts:187-189 | It flips `showSidebar` and changes nothing else, storage, flags and requests included. So applying it twice restores the whole state. |

## Left out

- The network: the OpenAI client call, `Http::get` to Open-Meteo and `fetch` are inputs (`ClientOutcome`, `HttpOutcome`, `ApiOutcome`). The front end records each request it sends, with its arguments, in the chat store's `requests`, as the backend records its collaborator calls. `GroqService`, the live model binding, is not part of this model.
- JSON: decoding of tool-call `arguments` and `json_encode` of the tool result are not modelled. Arguments are taken as parsed, with latitude and longitude present. A missing one makes PHP raise a warning, which Laravel's handler turns into an `ErrorException`. The `catch` of `handleWeatherToolCall` handles it, and the turn stores the weather apology without a weather call. That case is not modelled.
- The `"Lat: {$latitude}, Lon: {$longitude}"` float formatting is kept as the coordinates themselves (`LatLon`). Coordinates and weather values are opaque reals.
- The system prompt is kept as a text constant (`SystemPromptText`). The prompt message is a constructor, so the verifier does not unfold the long text.
- Logging (`Log::error`, `console.error`).
- Eloquent details are abstracted: the table is a sequence and `DB::transaction` is not modelled. The only rollback that matters is on the not-found path, which has written nothing.
- Timestamps: message and conversation `created_at`/`updated_at` strings and `Date.now()` are inputs or are dropped. The backend stamp is a strictly increasing counter, so equal `created_at` values and concurrent turns on one conversation are not modelled.
- MessageRepository: `findById` and `update` are not modelled. `update` takes a generic attribute array and has no caller in the modelled core.
- ChatService: `createConversation` and `getConversation` are not modelled. The conversation table is given to the class as a map.
- chat store: `loadConversations` (JSON parse of local storage) and `exportConversations` (Blob and download link) are not modelled. The store starts with an empty list.
- Vue reactivity timing: the `watch` callbacks run right after the assignment that triggers them. Coalescing of several changes in one tick is not modelled.
- theme store: `window.matchMedia` and the DOM class list are an input and a field. The theme `watch`'s second `updateTheme` call yields the same state and is folded into the action.
- Validation rules (`SendMessageRequest`, `CreateConversationRequest`) are not modelled, except that the 255-character title limit is stated against the derived title.
- ChatService.DeriveTitle: `substr` cuts at byte 47 and may split a multi-byte UTF-8 character. The model keeps those bytes as they are and leaves the database's treatment of them unmodelled.
- ChatStore.ChatStore.SendMessage: after a successful `loadConversation`, `conversation.messages` and `messages` are one shared array, and so is the listed entry the watcher inserted. The optimistic `push` therefore also lands in `conversation.messages` and in that listed entry, which a later `saveConversations` persists. The model holds these as separate values. Its `conversation == Some(current)` names the conversation as it was before the push, and the growth of the shared array is not modelled.
