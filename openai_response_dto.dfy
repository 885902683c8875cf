/** The language-model reply as the backend sees it
    (Back/app/DTOs/OpenAIResponseDTO.php). The DTO's fields are readonly, so it
    is a datatype value: no query can change it. */
module OpenAIResponseDto {
  import opened Wrappers

  const WeatherToolName: string := "get_weather_for_location"

  /** The decoded `arguments` of a weather tool call. The JSON text itself is
      not modelled: latitude and longitude are taken as present. */
  datatype ToolArguments = ToolArguments(latitude: real, longitude: real, location: Option<string>)

  datatype ToolFunction = ToolFunction(name: string, arguments: ToolArguments)

  /** One formatted tool call: `['id', 'type', 'function' => ['name', 'arguments']]`. */
  datatype ToolCall = ToolCall(id: string, kind: string, call: ToolFunction)

  /** Token usage and model name reported with a completion. */
  datatype Metadata = Metadata(usage: map<string, int>, model: string)

  datatype ResponseDto = ResponseDto(
    content: string,
    toolCalls: Option<seq<ToolCall>>,
    finishReason: Option<string>,
    metadata: Option<Metadata>)

  predicate IsWeatherCall(c: ToolCall) {
    c.call.name == WeatherToolName
  }

  /** OpenAIResponseDTO::hasToolCalls: PHP `!empty($toolCalls)`. */
  function HasToolCalls(dto: ResponseDto): (r: bool)
    ensures !r <==> dto.toolCalls.None? || |dto.toolCalls.value| == 0
  {
    dto.toolCalls.Some? && dto.toolCalls.value != []
  }

  /** The `foreach` with early return: the first weather call of `calls`. */
  function FirstWeatherCall(calls: seq<ToolCall>): (r: Option<ToolCall>)
    ensures r.None? <==> forall i :: 0 <= i < |calls| ==> !IsWeatherCall(calls[i])
    ensures r.Some? ==> exists i :: 0 <= i < |calls| && calls[i] == r.value
                          && IsWeatherCall(calls[i])
                          && forall j :: 0 <= j < i ==> !IsWeatherCall(calls[j])
  {
    if calls == [] then None
    else if IsWeatherCall(calls[0]) then Some(calls[0])
    else
      var r := FirstWeatherCall(calls[1..]);
      assert r.Some? ==> exists i :: 0 <= i < |calls[1..]| && calls[1..][i] == r.value
                          && IsWeatherCall(calls[1..][i])
                          && forall j :: 0 <= j < i ==> !IsWeatherCall(calls[1..][j]);
      assert r.Some? ==> exists i :: 1 <= i < |calls| && calls[i] == r.value
                          && IsWeatherCall(calls[i])
                          && forall j :: 1 <= j < i ==> !IsWeatherCall(calls[j]);
      r
  }

  /** OpenAIResponseDTO::getWeatherToolCall: null without tool calls,
      otherwise the first call named `get_weather_for_location`, null if
      there is none. */
  function GetWeatherToolCall(dto: ResponseDto): (r: Option<ToolCall>)
    ensures !HasToolCalls(dto) ==> r.None?
    ensures r.None? <==>
              (!HasToolCalls(dto) ||
               forall i :: 0 <= i < |dto.toolCalls.value| ==> !IsWeatherCall(dto.toolCalls.value[i]))
    ensures r.Some? ==>
              (IsWeatherCall(r.value) &&
               exists i :: 0 <= i < |dto.toolCalls.value| && dto.toolCalls.value[i] == r.value
                 && forall j :: 0 <= j < i ==> !IsWeatherCall(dto.toolCalls.value[j]))
  {
    if !HasToolCalls(dto) then None else FirstWeatherCall(dto.toolCalls.value)
  }
}
