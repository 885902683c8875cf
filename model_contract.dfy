/** The language-model collaborator as the chat turn sees it
    (Back/app/Services/Contracts/OpenAIServiceInterface.php): the records the
    turn passes to it and what one call of it can produce. */
module ModelContract {
  import opened OpenAIResponseDto
  import WeatherService

  /** One element of the history array: `['content', 'sender_type']`. */
  datatype HistoryEntry = HistoryEntry(content: string, senderType: string)

  /** `['tool_call' => ..., 'result' => ...]` handed to the follow-up call. */
  datatype ToolResult = ToolResult(toolCall: ToolCall, result: WeatherService.WeatherRecord)

  /** The outcome of one call: an exception, or a reply DTO. */
  datatype ModelOutcome = ModelFailed | ModelReplied(response: ResponseDto)
}
