# php-openai-chatgpt-api, modelled in Dafny

This project models the conversation and tool-calling core of the PHP
library `dv-team/php-openai-chatgpt-api`, a client for the OpenAI Responses
API. The model covers four parts.

- The low-level client `ChatGPT`. It builds the request body of one round
  from the context and its options, posts it once, and reads the reply into
  a `ChatResponseChoice`. Reading the reply means three things:
  - checking the error envelope;
  - collecting text parts and tool calls in output order;
  - decoding and validating a structured answer, then answering the tool
    calls whose function has a callable.
- The orchestrator `GPTConversation`. It is a class whose methods update
  its context, its registered tools, its name-to-tool map and the function
  definitions it sends. It also has the serialised form that `serialize`
  writes and `fromSerialized` reads back.
- The message value objects and their wire items, the function and
  property descriptors with their JSON-Schema form, the response-format
  rewrite (`enforceResponsesJsonSchema`), and the web-search messages.
- The binding of a tool call's named arguments to a callable's positional
  parameters (`CallableInvoker`).

PHP values are `Php.Json`. There is one ordered field list for an
associative array and one for a `stdClass` object, because PHP tells them
apart. `JSON::stringify`, `JSON::parse`, the schema validator and the
scalar property classes' serialisation are fields of `Php.Host`: functions
the model does not look inside. The HTTP client is the class
`Client.Transport`. It logs every post, and it answers the n-th post with
the function it was built with. A PHP exception is an `Err` of `Php.Error`,
and it carries the message the source raises.

Modules, one per file:

- `Php` (php.dfy): values, lookups and the PHP built-ins the core uses.
- `Messages` (messages.dfy): messages and their wire items.
- `Functions` (functions.dfy): properties, functions, `GPTFunctions` and `JsonSchemaFormat`.
- `Invoker` (invoker.dfy): argument binding.
- `WebSearch` (websearch.dfy): web-search messages and `WebSearchResponse`.
- `Request` (request.dfy): the request body and the reasoning effort.
- `StrictSchema` (schema.dfy): the schema rewrite and the response-format mapping.
- `Response` (response.dfy): reading the reply.
- `Client` (client.dfy): the transport and `ChatGPT`.
- `ToolSpecs` (toolspecs.dfy): names and function definitions of callable tools.
- `ConversationCodec` (codec.dfy): the serialised context.
- `Conversation` (conversation.dfy): `GPTConversation` itself.

Where the documentation and the code disagree, the model follows the code, with three exceptions. In each of them the code as written cannot be what the authors meant, and the tests show the intended behaviour. Each is a row under "## Findings": one member models the code as written, and the rest of the model uses the corrected one.

- `chat` builds its `ChatEnquiry` with the named argument `context:` (src/ChatGPT.php:246-247). The constructor declares `inputs` instead (src/Common/ChatEnquiry.php:20), so PHP raises "Unknown named parameter $context" before anything is posted. `Client.ChatGPT.ChatAsWritten` models that. `Client.ChatGPT.Chat`, which the conversation calls, posts the enquiry and reads the reply.
- `chat` assigns the readonly `ChatResponseChoice::$enhancedContext` (src/ChatGPT.php:355) after the constructor has already set it (src/ChatGPT.php:337). So PHP raises there, after the tool callables have run. `Response.ParseReplyAsWritten` models that. `Response.ParseReply` answers the choice with its enhanced context.
- The conversation builds its tool definitions with the corrected description. `Conversation.RebuildAsWritten` states what the code as written builds instead.

- `ChatEnquiry` declares its message list as `inputs` (src/Common/ChatEnquiry.php:20), but `ChatGPT` reads and writes `context`. The corrected model has one field, `context`, as the tests use it.
- In the corrected model, `enhancedContext` is computed once, and the choice stored inside the context has an empty `enhancedContext`, as src/ChatGPT.php:337 constructs it.
- `step` reruns only when `$response->isToolCall` holds. `ChatResponseChoice` declares no such property, so it never reruns, and `Step` calls the client exactly once.
- When parts were collected but all are empty, the message is `""`, not null.
- The `WebSearchResult` branch of `encodeMessage` cannot be reached, because a `WebSearchResult` is a `ToolResult` and that branch comes first.
- `WebSearchResult`'s constructor passes `name:` to `ToolResult`, which declares no such parameter. So `WebSearch.NewWebSearchResult`, `FromText`, `FromTexts` and `GetWebSearchResult` always fail.
- `decodeMessage` passes `id:` to `WebSearchResult`, which fails the same way, so a `web_search_result` entry never decodes.
- `ChatImageUrl::toInputContentParts` sends `image_url` as the URL string itself. The docblock of `ChatInput::jsonSerialize` says it is a `{url}` object.
- The source files carry no `strict_types` declaration. So a decoded structured answer that is a number is coerced to a string when it is passed as the `string|object|null` result (`Response.TypedResult`), and a list raises a type error.

## Model

| member | source | states |
|---|---|---|
| Messages.NewToolCall | src/MessageTypes/ToolCall.php:19-25 | a tool call keeps id, name and arguments; type defaults to `function` and role to `assistant` |
| Messages.NewFuncCallResult | src/ChatGPT.php:587-595 | a resolved call carries id, name and arguments, and its `toolCallMessage` is the tool call with the same three |
| Messages.MkInput | src/MessageTypes/ChatInput.php:9-11 | `mk` builds the same input message as the constructor |
| Messages.UserInput | src/MessageTypes/ChatInput.php:13-17 | role defaults to `user` and there is no attachment |
| Messages.NewToolResult | src/MessageTypes/ToolResult.php:17-21 | a tool result keeps the call id and the content, with role `tool` |
| Messages.AddToContext | src/MessageTypes/ChatOutput.php:17-20 | the context grows by exactly this message at the end; earlier entries are unchanged |
| Messages.ImagePartsShape | src/Messages/ChatImageUrl.php:8-13 | one `input_image` part whose `image_url` is the stored URL string, as it is |
| Messages.TextPartFields | src/MessageTypes/ChatInput.php:25-28 | a text part answers `type` (`input_text` or `output_text`) and `text` |
| Messages.InputItemsShape | src/MessageTypes/ChatInput.php:24-40 | exactly one `{role, content}` item; the text part comes first and the attachment parts follow in order; without an attachment, content is that one part |
| Messages.CallItemFields | src/MessageTypes/ToolCall.php:37-44 | a `function_call` item with `call_id` = id, the name, and the JSON text of the arguments, keys in that order |
| Messages.ToolOutputText | src/MessageTypes/ToolResult.php:33-42 | arrays and objects become their JSON text; any other content takes PHP's string cast (null gives '', int 1 gives "1") |
| Messages.CallOutputItemFields | src/MessageTypes/ToolResult.php:43-47 | a `function_call_output` item with `call_id` and `output`, and no role |
| Messages.AssistantItemFields | src/MessageTypes/ChatOutput.php:41-46 | the assistant item has role `assistant` and the given content parts |
| Messages.ToolItemsElements | src/MessageTypes/ChatOutput.php:48-53 | one `function_call` item per tool, in tool order, each being its `toolCallMessage` item |
| Messages.ResultItemsShape | src/MessageTypes/ChatOutput.php:22-56 | the item count is (result non-null ? 1 : 0) plus one per tool; a string result gives one `output_text` part holding it; any other result gives its JSON text; the tool items follow in order |
| Messages.ResultItemsHead | src/MessageTypes/ChatOutput.php:24-46 | a non-null result gives a first item: the assistant item holding its string, or the JSON text of anything else |
| Messages.ResultItemsTools | src/MessageTypes/ChatOutput.php:48-53 | the tool items follow the assistant item, one per tool, in order |
| Messages.ResultItemsNull | src/MessageTypes/ChatOutput.php:26 | a null result contributes no assistant item: the items are the tool items alone |
| Messages.ResultItemsEmpty | src/MessageTypes/ChatOutput.php:26 | a null result with no tools serialises to nothing |
| Messages.SerializeResult | src/Response/ChatResponseChoice.php:34-68 | the loop of `jsonSerialize` produces exactly the items `ResultItemsShape` describes |
| Messages.ItemsSingle | src/MessageTypes/ToolCall.php:37-44 | every message kind except the two result carriers serialises to exactly one item |
| Messages.ToolResultItem | src/MessageTypes/ToolResult.php:33-48 | a tool result's item answers its call id; a string output is unchanged, null becomes '', an int becomes its decimal text, arrays and objects become JSON text |
| Messages.FuncCallResultItem | src/Response/ChatFuncCallResult.php:31-37 | one `function_call_output` item whose output is the JSON text of the arguments |
| Functions.DefaultJsonSchemaFormat | src/ResponseFormat/JsonSchemaFormat.php:14-18 | `strict` defaults to false and the schema is kept |
| Functions.FormatJsonFields | src/ResponseFormat/JsonSchemaFormat.php:22-30 | `type` is `json_schema`; `json_schema.name` is always `Response`; `schema` is the stored schema as it is; `strict` is as stored |
| Functions.Name | src/Functions/Function/Types/GPTCustomProperty.php:16-18 | a custom property's name is the definition's `name`; the other kinds return their own name |
| Functions.ObjectPropertyOf | src/Functions/Function/Types/GPTObjectProperty.php:9-14 | an object property is not required unless asked |
| Functions.RequiredNames | src/Functions/GPTFunction.php:45-50 | at most one name per property |
| Functions.RequiredNamesMembers | src/Functions/GPTFunction.php:45-50 | a name is listed exactly when some required property carries it |
| Functions.RequiredNamesPrefix | src/Functions/GPTFunction.php:45-50 | the list keeps the order of the properties: listing over a prefix gives a prefix of the list |
| Functions.CollectRequired | src/Functions/GPTFunction.php:45-50 | the `foreach` collects exactly the required names, in order |
| Functions.ObjectFieldsLookup | src/Functions/Function/Types/GPTObjectProperty.php:33-56 | the object property answers `type: object`, `name`, `description` when given, `properties`, and `required` only when non-empty |
| Functions.SerializeProperties | src/Functions/Function/GPTProperties.php:32-38 | the keyed-assignment loop builds the object the properties serialise to |
| Functions.Names | src/Functions/Function/GPTProperties.php:34-36 | one name per property, in order |
| Functions.PutPropertiesKeys | src/Functions/Function/GPTProperties.php:34-36 | the keys are the names in first-occurrence order |
| Functions.PutPropertiesLastWins | src/Functions/Function/GPTProperties.php:35 | a duplicated name takes the value of its last property |
| Functions.PutPropertiesUntouched | src/Functions/Function/GPTProperties.php:34-36 | a key that no property names keeps its earlier value |
| Functions.PropertiesJsonShape | src/Functions/Function/GPTProperties.php:32-38 | an object whose keys are the names in first-occurrence order, each holding the last property of that name serialised |
| Functions.PropertiesJsonEmpty | src/Functions/Function/GPTProperties.php:33-38 | no properties give an empty object |
| Functions.FirstOccurrencesDistinct | src/Functions/Function/GPTProperties.php:34-36 | with distinct names, the keys are exactly the names, in order |
| Functions.ObjectPropertyJson | src/Functions/Function/Types/GPTObjectProperty.php:33-56 | the object property serialises its children through `GPTProperties` and lists their required names |
| Functions.ObjectPropertyDescription | src/Functions/Function/Types/GPTObjectProperty.php:39-41 | `description` is present exactly when one was given |
| Functions.ObjectPropertyRequired | src/Functions/Function/Types/GPTObjectProperty.php:45-54 | `required` lists the required children in order, and is omitted when none is required |
| Functions.CustomPropertyJson | src/Functions/Function/Types/GPTCustomProperty.php:24-26 | a custom property serialises to its definition as it is |
| Functions.Returns | src/Functions/CallableGPTFunction.php:11-19 | a callable function passes no return schema upward |
| Functions.GetCallableOf | src/Functions/CallableGPTFunction.php:24-26 | exactly a callable function yields a callable, the one it was built with |
| Functions.ParametersFieldsLookup | src/Functions/GPTFunction.php:39-54 | `parameters` answers `type: object`, `properties`, `additionalProperties: false`, and `required` only when non-empty |
| Functions.ReturnsJson | src/Functions/GPTFunction.php:63-68 | `returns` is the return schema as an object, with `strict` set as stored |
| Functions.FunctionFieldsLookup | src/Functions/GPTFunction.php:56-70 | the definition answers `name`, `description`, `parameters`, and `returns` only when given |
| Functions.ParametersJsonFields | src/Functions/GPTFunction.php:39-43 | `parameters` is an object schema over the serialised properties that never admits extra properties |
| Functions.ParametersJsonRequired | src/Functions/GPTFunction.php:45-54 | `required` lists the required properties in order, and is omitted when none is |
| Functions.FunctionJsonFields | src/Functions/GPTFunction.php:56-61 | name and description are copied as they are, next to the parameters object |
| Functions.FunctionJsonReturns | src/Functions/GPTFunction.php:63-68 | `returns` is present exactly when a return schema was given, as that schema plus its strict flag; a callable function never has it |
| Functions.SerializeFunction | src/Functions/GPTFunction.php:38-70 | the loop-built definition is the one `FunctionJsonFields` and `FunctionJsonReturns` describe |
| Functions.CallableMapDomain | src/Functions/GPTFunctions.php:26-30 | a name has a callable exactly when some callable function carries it; plain functions never add one |
| Functions.CallableMapLastWins | src/Functions/GPTFunctions.php:28 | for a name registered more than once, the last callable wins |
| Functions.NewFunctions | src/Functions/GPTFunctions.php:21-31 | the constructor keeps the functions in order and its loop builds exactly that name-to-callable map |
| Functions.GetCallable | src/Functions/GPTFunctions.php:52-54 | present exactly when some callable function has the name |
| Functions.FunctionsJson | src/Functions/GPTFunctions.php:43-50 | one definition per function, in order, each being that function's definition |
| Functions.FunctionsJsonOfElements | src/Functions/GPTFunctions.php:45-47 | element i is the definition of function i |
| Functions.FunctionsJsonOf | src/Functions/GPTFunctions.php:45-47 | one entry per function; which entry is stated by `FunctionsJsonOfElements` |
| Functions.SerializeFunctions | src/Functions/GPTFunctions.php:43-50 | the loop gives the same list as `FunctionsJson` |
| Invoker.BindOne | src/Reflection/CallableInvoker.php:25-39 | a present field's value, even a null; else the default or null for an optional parameter; else `Missing required argument '<name>' for callable tool.` |
| Invoker.Bind | src/Reflection/CallableInvoker.php:22-40 | on success, one argument per declared parameter, in declaration order, each one `BindOne` of that parameter |
| Invoker.BindPrefixErr | src/Reflection/CallableInvoker.php:39 | a missing argument stops the loop: the error of a failing prefix is the error of the whole |
| Invoker.BindErrIff | src/Reflection/CallableInvoker.php:22-40 | the binding fails exactly when some required parameter has no field, and it reports the first such parameter |
| Invoker.BindPresent | src/Reflection/CallableInvoker.php:25-28 | a parameter whose name is a field takes that field's value, even a null |
| Invoker.BindMissingOptional | src/Reflection/CallableInvoker.php:30-37 | a missing optional parameter takes its default, or null when it has none |
| Invoker.BindIgnoresExtraFields | src/Reflection/CallableInvoker.php:22-28 | argument fields that match no parameter name do not change the binding |
| Invoker.BindArguments | src/Reflection/CallableInvoker.php:22-40 | the `foreach` with `continue` and `throw` computes `Bind` |
| Invoker.Invoke | src/Reflection/CallableInvoker.php:18-47 | a binding error means the callable is not called; otherwise its result on the bound arguments |
| Invoker.InvokeCallable | src/Reflection/CallableInvoker.php:18-47 | the loop, then the call, computes `Invoke` |
| WebSearch.WebSearchArgsSpelled | src/MessageTypes/WebSearchCall.php:47-56 | the conditional key assignments append fresh keys in the order written |
| WebSearch.WebSearchArgsFields | src/MessageTypes/WebSearchCall.php:47-56 | `query` is always there; `user_location`, `model` and `effort` are there exactly when given, with their values |
| WebSearch.WebSearchArgsOrder | src/MessageTypes/WebSearchCall.php:47-56 | the keys are `query`, then the given optional ones, in that order |
| WebSearch.WebSearchCall | src/MessageTypes/WebSearchCall.php:40-65 | a tool call named `web_search` with type `function`, role `assistant` and that argument map |
| WebSearch.MkWebSearchCall | src/MessageTypes/WebSearchCall.php:23-31 | `mk` equals the constructor with the same arguments |
| WebSearch.NewWebSearchResult | src/MessageTypes/WebSearchResult.php:17-19 | construction always fails on the undeclared `name:` argument |
| WebSearch.FromTextContentGet | src/MessageTypes/WebSearchResult.php:29-32 | the content is `text` merged with `extra`; every key of `extra`, `text` included, overrides |
| WebSearch.FromTextsContentGet | src/MessageTypes/WebSearchResult.php:42-45 | the content is `texts`, reindexed as a list, then the extra keys |
| WebSearch.FromText | src/MessageTypes/WebSearchResult.php:29-32 | `fromText` always fails, through the constructor |
| WebSearch.FromTexts | src/MessageTypes/WebSearchResult.php:42-45 | `fromTexts` always fails, through the constructor |
| WebSearch.TryGetFirstText | src/Response/WebSearchResponse.php:30-32 | `output.content[0].text` when the first content item has one; null when `content` is missing |
| WebSearch.GetFirstText | src/Response/WebSearchResponse.php:34-41 | the first text, or `No text found in response` when there is none |
| WebSearch.TextsOfConcat | src/Response/WebSearchResponse.php:51-55 | collecting over a concatenation keeps the order of both parts |
| WebSearch.TextsOfLength | src/Response/WebSearchResponse.php:51-55 | at most one text per item |
| WebSearch.TextsOfFrom | src/Response/WebSearchResponse.php:52-53 | every collected text is the string `text` of some item |
| WebSearch.TextsOfAll | src/Response/WebSearchResponse.php:51-55 | when every item has a string `text`, each one is collected, in item order |
| WebSearch.GetTexts | src/Response/WebSearchResponse.php:47-58 | nothing when `content` is missing or not an array; otherwise the string texts of the items, in order |
| WebSearch.CollectTexts | src/Response/WebSearchResponse.php:47-58 | the `foreach` computes `GetTexts` |
| WebSearch.GetWebSearchCall | src/Response/WebSearchResponse.php:63-72 | with an explicit id, the web-search call built from the stored query, location, model and effort |
| WebSearch.ResultContentFields | src/Response/WebSearchResponse.php:77-85 | the content handed to `fromText` is the first text, the texts, query, model, effort and location |
| WebSearch.GetWebSearchResult | src/Response/WebSearchResponse.php:77-86 | without a first text it throws `No text found in response`; otherwise it fails in the constructor |
| Request.ReasoningEffort | src/ChatGPT.php:694-710 | an effort exactly when the model name starts with `gpt-5` and the model carries one, and then that effort |
| Request.MediumReasoningEffort | src/ChatGPT.php:700-702 | `gpt-5.1` always reports its effort; `gpt-4.1-mini` never does |
| Request.FlattenConcat | src/ChatGPT.php:474-481 | flattening distributes over concatenation |
| Request.ItemLists | src/ChatGPT.php:478 | each message's `jsonSerialize` items, in context order |
| Request.ContextItemsConcat | src/ChatGPT.php:474-481 | the `input` of a concatenated context is the concatenation of the inputs |
| Request.FlattenSingle | src/ChatGPT.php:478-480 | one list flattens to itself |
| Request.ContextItemsSingle | src/ChatGPT.php:478-480 | a one-message context contributes exactly that message's items |
| Request.TaggedTools | src/ChatGPT.php:515-518 | one tool per function definition |
| Request.TaggedToolFields | src/ChatGPT.php:516 | each tool keeps its definition's keys and gains `type: function` |
| Request.GetToolFields | src/ChatGPT.php:520-521 | the tool keys hold the tagged list and `auto` |
| Request.GetBody | src/ChatGPT.php:485-522 | a lookup finds the fixed keys first, then the options, then the tool keys |
| Request.GetOptions | src/ChatGPT.php:490-510 | each optional key holds its value when given and is absent otherwise |
| Request.BodyInput | src/ChatGPT.php:485-488 | `model` is the model's name and `input` is the flattened context |
| Request.BodyTools | src/ChatGPT.php:512-522 | `tools` and `tool_choice: auto` are present exactly when there are function definitions; `tools` holds them tagged |
| Request.BodyOption | src/ChatGPT.php:490-510 | an optional key is found among the options alone |
| Request.BodyOptions | src/ChatGPT.php:490-510 | `reasoning.effort`, `text.format`, `max_output_tokens`, `temperature` and `top_p` are present only when given, with their values |
| Request.BodyReasoning | src/ChatGPT.php:491-494 | `reasoning` is sent exactly for a `gpt-5` model that carries an effort |
| Request.BodyKeys | src/ChatGPT.php:485-522 | the keys in the order they are assigned; none is sent twice |
| Request.FlattenContext | src/ChatGPT.php:474-481 | the nested `foreach` builds the flattened context |
| Request.AppendEach | src/ChatGPT.php:478-480 | the inner `foreach` appends every item, in order |
| Request.TagTools | src/ChatGPT.php:515-518 | the `foreach` over the functions builds `TaggedTools` |
| Request.PutFresh | src/ChatGPT.php:493 | assigning a key the array does not hold appends it |
| Request.PutIfGiven | src/ChatGPT.php:500-502 | a given value is appended under a fresh key; nothing is added otherwise |
| Request.PutOptions | src/ChatGPT.php:490-510 | the conditional assignments append the given options in source order |
| Request.AssembleBody | src/ChatGPT.php:485-522 | the body around an already flattened `input` |
| Request.BuildBody | src/ChatGPT.php:471-526 | the body `internalChatEnquiry` posts is `RequestBody`, whose content the `Body*` lemmas state |
| StrictSchema.GetSize | src/ChatGPT.php:666 | a looked-up value is no larger than the array holding it, so the recursion into it terminates |
| StrictSchema.Indices | src/ChatGPT.php:678 | `array_keys` of a list gives its indices in order |
| StrictSchema.Enforce | src/ChatGPT.php:654-661 | an object or array becomes an array; a value that is neither is returned as it is |
| StrictSchema.EnforceMap | src/ChatGPT.php:663-691 | the rewrite of an array schema is an array |
| StrictSchema.PropertiesOf | src/ChatGPT.php:666-669 | `properties ?? []` with an object cast to an array: never an object, and no larger than the schema |
| StrictSchema.EnforceValues | src/ChatGPT.php:672-674 | the `foreach` keeps the number of properties and the list-or-map shape |
| StrictSchema.EnforceFields | src/ChatGPT.php:672-674 | one rewritten field per property |
| StrictSchema.EnforceList | src/ChatGPT.php:672-674 | one rewritten element per list property |
| StrictSchema.EnforceFieldsShape | src/ChatGPT.php:672-674 | each property keeps its key and position, and its schema is rewritten |
| StrictSchema.EnforceValuesKeys | src/ChatGPT.php:675-679 | the keys `required` is filled with are the property keys, in order |
| StrictSchema.CloseObjectGet | src/ChatGPT.php:682-684 | `additionalProperties` is added as false only when the key is absent; nothing else changes |
| StrictSchema.FillRequiredGet | src/ChatGPT.php:677-679 | `required` is filled with the property keys only when unset or null; nothing else changes |
| StrictSchema.FillPropertiesGet | src/ChatGPT.php:666-680 | with array properties, `properties` is rewritten and `required` filled when unset; the other keys are kept |
| StrictSchema.ObjectRewriteGet | src/ChatGPT.php:665-685 | an object node: properties rewritten recursively, `required` set to all property keys only when unset or null, `additionalProperties: false` only when absent, every other key kept |
| StrictSchema.ArrayNode | src/ChatGPT.php:687-689 | an array node with `items` has its items rewritten and nothing else |
| StrictSchema.EnforceIdempotent | src/ChatGPT.php:654-692 | rewriting twice gives the same as rewriting once |
| StrictSchema.EnforceMapIdempotent | src/ChatGPT.php:663-691 | a second pass over a rewritten array schema changes nothing |
| StrictSchema.ObjectRewriteIdempotent | src/ChatGPT.php:665-685 | a second object pass finds the rewritten properties, a set `required` and a present `additionalProperties` |
| StrictSchema.EnforceValuesIdempotent | src/ChatGPT.php:672-674 | a second pass over the properties changes nothing |
| StrictSchema.EnforceFieldsIdempotent | src/ChatGPT.php:672-674 | a second pass over keyed properties changes nothing |
| StrictSchema.EnforceListIdempotent | src/ChatGPT.php:672-674 | a second pass over listed properties changes nothing |
| StrictSchema.MapResponseFormatFields | src/ChatGPT.php:630-645 | `type` is `json_schema`; `name` defaults to `Response` and `strict` to true only when unset; the schema is rewritten |
| StrictSchema.MapFormatJson | src/ChatGPT.php:625-649 | the library's own format maps to name `Response`, the rewritten schema and the stored strict flag |
| Response.NormalizeTextValue | src/ChatGPT.php:561-571 | a string as it is; the `value` of an object cast to a string; anything else null; a `value` that cannot be cast raises |
| Response.PartTexts | src/ChatGPT.php:541-555 | at most one text per part |
| Response.PartTextsStrings | src/ChatGPT.php:542-555 | parts whose `text` is a string contribute exactly those strings, in order |
| Response.PartTextsErr | src/ChatGPT.php:542-555 | the parts fail exactly when one part's text cannot be read |
| Response.NormalizeToolArguments | src/ChatGPT.php:599-615 | an object is kept; a string must decode to an object; null and scalars raise `Invalid or incomplete response`; the result is always an object |
| Response.MapToolCall | src/ChatGPT.php:576-597 | id, name and arguments come from `call_id ?? id`, `function.name ?? name`, `function.arguments ?? arguments`; a missing one raises; `toolCallMessage` carries the same three |
| Response.CallFieldsPreferred | src/ChatGPT.php:577-579 | the nested `function` object wins over the top-level fields, and `call_id` over `id` |
| Response.MapFunctionCallItem | src/ChatGPT.php:289-291 | a `function_call` item whose arguments decode to an object maps to that call |
| Response.MapToolCalls | src/ChatGPT.php:282-284 | one result per `tool_calls` entry, in order |
| Response.Outputs | src/ChatGPT.php:276-300 | one contribution per output item, in order |
| Response.FoldConcat | src/ChatGPT.php:276-300 | contributions are joined in order |
| Response.CollectConcat | src/ChatGPT.php:276-300 | the items of a concatenation contribute the first run's parts and calls, then the second's |
| Response.CollectSingle | src/ChatGPT.php:277-299 | one item contributes what its `type` gives |
| Response.FoldErr | src/ChatGPT.php:276-300 | the fold fails exactly when some contribution fails |
| Response.CollectErr | src/ChatGPT.php:276-300 | the loop fails exactly when one item fails |
| Response.FoldCalls | src/ChatGPT.php:289-291 | contributions of one call each give those calls in order |
| Response.CollectCalls | src/ChatGPT.php:289-291 | a reply made only of `function_call` items gives one tool call per item, in order, and no text |
| Response.FoldPrefixErr | src/ChatGPT.php:276-300 | a failing item stops the loop with its error |
| Response.CollectOutput | src/ChatGPT.php:276-300 | the `foreach` over the output items computes `CollectItems` |
| Response.CastAll | src/ChatGPT.php:305 | every root `output_text` element is cast to a string, in order, or the cast fails |
| Response.Fallback | src/ChatGPT.php:303-309 | the root `output_text` is used only when the items gave no text: a string is one part, an array gives every element cast |
| Response.MessageOf | src/ChatGPT.php:312 | no message exactly when no part was collected |
| Response.MessageOfSingle | src/ChatGPT.php:312 | a single part is the message, trimmed |
| Response.MessageOfBlank | src/ChatGPT.php:312 | parts that are all empty give the empty message, not none |
| Response.BlankParts | src/ChatGPT.php:312 | the filter drops every empty part |
| Response.StructuredResult | src/ChatGPT.php:314-323 | no message gives null; without a format the message is the result; with one, it is decoded and must pass the validator, else `Invalid response from OpenAI.` |
| Response.ValidatedSchema | src/ChatGPT.php:318-319 | the validator sees the format's inner schema, named `Response`, with its strict flag |
| Response.TypedResult | src/ChatGPT.php:332-335 | null, strings and objects pass; numbers and booleans are coerced to strings; arrays raise a type error |
| Response.CallTool | src/ChatGPT.php:344-351 | nothing exactly when no callable function carries the tool's name; otherwise the callable invoked on the tool's arguments |
| Response.ToolResults | src/ChatGPT.php:342-353 | at most one tool result per tool call |
| Response.ToolResultsNone | src/ChatGPT.php:345-347 | tools without a callable are skipped silently |
| Response.ToolResultsAll | src/ChatGPT.php:342-353 | when every tool has a callable that accepts its arguments, one `ToolResult(tool.id, value)` per tool, in order |
| Response.ToolResultsMissing | src/ChatGPT.php:349 | a callable that misses a required argument stops the loop with that error |
| Response.ToolResultsPrefixErr | src/ChatGPT.php:342-353 | once the loop has failed, later tools change nothing |
| Response.AnswerTools | src/ChatGPT.php:342-353 | the `foreach` over the tool calls computes `ToolResults` |
| Response.Envelope | src/ChatGPT.php:260-271 | a bare string raises InvalidResponse with that string; what passes has output items or a root `output_text` |
| Response.EnvelopeErrorMessage | src/ChatGPT.php:264-266 | an error envelope raises InvalidResponse with `error.message` |
| Response.EnvelopeErrorUnknown | src/ChatGPT.php:265 | an error without a message raises InvalidResponse `Unknown error` |
| Response.EnvelopeEmpty | src/ChatGPT.php:268-271 | no output and no root `output_text` raise NoResponseFromAPI |
| Response.ChoiceOf | src/ChatGPT.php:326-338 | the choice keeps the collected tool calls; a null result with no tool call raises NoResponseFromAPI |
| Response.ResultsOf | src/ChatGPT.php:342 | without functions nothing is invoked |
| Response.ReplyOf | src/ChatGPT.php:257-359 | the reply is the choice, with the context, the choice and the tool results as its `enhancedContext` |
| Response.ReplyShape | src/ChatGPT.php:330-355 | `enhancedContext` is the input context, then the choice, then the tool results, each answering a tool call |
| Response.ReplyResults | src/ChatGPT.php:332-336 | `textResult`, when set, is the result; `objResult`, when set, is the result and passed the validator; without a format there is no `objResult` |
| Response.CoercedResultHasNoText | src/ChatGPT.php:332-335 | `is_string` and `is_object` see the answer before it is coerced, so a number or boolean answer becomes a string result with no `textResult` and no `objResult` |
| Response.TextMessageOutput | src/ChatGPT.php:279-286 | a message item with one `output_text` part contributes its text and no tool call |
| Response.TextReplyEnvelope | src/ChatGPT.php:268-271 | a reply with that one item passes the envelope checks |
| Response.TextChoiceOf | src/ChatGPT.php:312-338 | the choice for a single text has the trimmed text as its result and its `textResult` |
| Response.ChoiceOfMessage | src/ChatGPT.php:332-338 | a string or object message is the choice's result as it is, with its text or object view and the collected tool calls |
| Response.NoFallback | src/ChatGPT.php:303 | collected parts make the root `output_text` irrelevant |
| Response.TextResult | src/ChatGPT.php:312-316 | without a format one text is the trimmed string result |
| Response.ReplyText | src/ChatGPT.php:257-359 | a one-text reply, without format or tools, answers that trimmed text, and the context gains only the choice |
| Response.ParseReplyAsWritten | src/ChatGPT.php:337-355 | as written, `chat` never answers: a reply that `ParseReply` would answer raises the readonly-property error at :355, and any other reply fails as `ParseReply` does |
| Response.ReplyTextAsWritten | src/ChatGPT.php:337-355 | the finding's input: a one-text reply answers under `ParseReply` and raises under the code as written |
| Client.Transport.constructor | src/Http/HttpPostInterface.php:1-13 | a new transport has sent nothing |
| Client.Transport.Send | src/Http/HttpPostInterface.php:1-13 | a post is logged at the end, and the reply is the answer to that n-th post |
| Client.Payload | src/ChatGPT.php:243 | no functions give no definitions; otherwise one definition per function, in order |
| Client.EnquiryTools | src/ChatGPT.php:240-255 | the round's tools reach the wire exactly when there are functions, and `max_output_tokens` is always sent |
| Client.ChatGPT.constructor | src/ChatGPT.php:201-220 | the client keeps its token, transport and collaborators |
| Client.ChatGPT.Chat | src/ChatGPT.php:231-360 | exactly one post of the body built from the context and options, to the Responses URI with the bearer token; the answer is that reply read by `ParseReply` |
| Client.ChatGPT.ChatAsWritten | src/ChatGPT.php:246-247 | as written, `chat` raises "Unknown named parameter $context" on every input, and nothing is posted |
| ToolSpecs.LastSeparator | src/GPTConversation.php:561 | the position of a `::` with none after it, or none when the name holds no `::` |
| ToolSpecs.LastSeparatorAt | src/GPTConversation.php:561 | an occurrence with none after it is the last one |
| ToolSpecs.BaseName | src/GPTConversation.php:560-562 | the text after the last `::`, or the whole name; it holds no `::` |
| ToolSpecs.Lower | src/GPTConversation.php:566 | `strtolower` maps A–Z to a–z and keeps every other character |
| ToolSpecs.NormalizeCallableName | src/GPTConversation.php:559-567 | the result has no capital letter |
| ToolSpecs.TailKeepsNoSeparator | src/GPTConversation.php:564 | inserting underscores creates no `::` |
| ToolSpecs.TailNoUpper | src/GPTConversation.php:564 | a text without capitals gets no underscore |
| ToolSpecs.TailConcat | src/GPTConversation.php:564 | the replacement works letter by letter |
| ToolSpecs.LowerNoUpper | src/GPTConversation.php:566 | lower-casing a text without capitals changes nothing |
| ToolSpecs.NormalizedShape | src/GPTConversation.php:559-567 | a normalised name has no capital letter and no `::` |
| ToolSpecs.NormalizeIdempotent | src/GPTConversation.php:559-567 | normalising twice gives the same as once |
| ToolSpecs.BaseNameWhole | src/GPTConversation.php:560-562 | a name without `::` is kept whole |
| ToolSpecs.UnderscoredSnake | src/GPTConversation.php:564 | an underscore goes before a capital that is not first |
| ToolSpecs.LowerSnake | src/GPTConversation.php:566 | lower-casing turns that capital into its small letter |
| ToolSpecs.SnakeCase | src/GPTConversation.php:559-567 | a camel-case name without `::` becomes snake case |
| ToolSpecs.NormalizePickWord | tests/Common/CallableTools.php:10 | `pickWord` becomes `pick_word` |
| ToolSpecs.NormalizeClassPrefix | src/GPTConversation.php:559-567 | `Tools::getNumber` becomes `get_number` |
| ToolSpecs.NormalizeBase | src/GPTConversation.php:560-562 | only the part after the last `::` matters |
| ToolSpecs.GetNumberBase | src/GPTConversation.php:561 | the base name of `Tools::getNumber` is `getNumber` |
| ToolSpecs.NormalizeGetNumber | src/GPTConversation.php:564-566 | `getNumber` becomes `get_number` |
| ToolSpecs.ValidateCallable | src/GPTConversation.php:486-492 | a tool passes exactly when it has a `GPTCallableDescriptor`; otherwise the descriptor error |
| ToolSpecs.InvokerCallable | src/GPTConversation.php:262 | the invoker sees the parameters under their declared names, with their optionality and defaults |
| ToolSpecs.ParamDescription | src/GPTConversation.php:513-515 | the parameter descriptor's `description`, exactly when it is a string |
| ToolSpecs.PropertyOf | src/GPTConversation.php:511-527 | `bool`, `int`, `float` and `string` become the matching scalar property, named in snake case and required unless optional; any other type raises `Unsupported parameter type` |
| ToolSpecs.PropertyResults | src/GPTConversation.php:510-528 | one property result per parameter, in order |
| ToolSpecs.AllOk | src/GPTConversation.php:510-528 | on success, every value in order |
| ToolSpecs.AllOkErr | src/GPTConversation.php:526 | the loop fails exactly when some parameter fails, with the first failure's error |
| ToolSpecs.AllOkStep | src/GPTConversation.php:510-528 | one step of the parameter loop |
| ToolSpecs.AllOkPrefixErr | src/GPTConversation.php:526 | a raised type error stops the loop |
| ToolSpecs.PropertiesOf | src/GPTConversation.php:509-528 | on success, one property per parameter, in order |
| ToolSpecs.PropertiesOfErr | src/GPTConversation.php:521-527 | the properties fail exactly when some parameter type is unsupported, and the error names the first one |
| ToolSpecs.BuildFunctionSpecAsWritten | src/GPTConversation.php:497-537 | as written: a tool with parameters is described by its last parameter's description, or by '' |
| ToolSpecs.BuildFunctionSpec | src/GPTConversation.php:497-537 | the spec is named by the descriptor, else the normalised reflected name; it keeps the descriptor's description, has no `returns`, and has one property per parameter |
| ToolSpecs.AsWrittenRedescribes | src/GPTConversation.php:507-532 | the as-written spec fails exactly as the corrected one does; on success it is the corrected spec with the as-written description put in |
| ToolSpecs.BuildFunctionSpecIff | src/GPTConversation.php:497-537 | a spec is built exactly when the tool has a descriptor and only supported parameter types; then one snake-case property per parameter, required unless optional |
| ToolSpecs.CollectProperties | src/GPTConversation.php:510-528 | the parameter loop computes `PropertiesOf` |
| ToolSpecs.MakeFunctionSpec | src/GPTConversation.php:497-537 | the method computes `BuildFunctionSpec` |
| ToolSpecs.AsWrittenDiffersOnlyInDescription | src/GPTConversation.php:507-532 | the as-written and corrected specs agree on success, name, properties and returns, and differ only in the description |
| ToolSpecs.DescriptionOverwritten | src/GPTConversation.php:507-532 | a documented tool with one undocumented parameter is sent with description '' |
| ToolSpecs.AdvertisedArguments | src/GPTConversation.php:519 | the arguments a call sends under the advertised snake-case names |
| ToolSpecs.AdvertisedNameNotBound | src/Reflection/CallableInvoker.php:22-39 | a required parameter with a capital in its name is missing from a call that sends exactly the advertised properties |
| ConversationCodec.EncodeToolCalls | src/GPTConversation.php:300 | one `{id, name, arguments}` entry per tool call, in order |
| ConversationCodec.Encode | src/GPTConversation.php:273-334 | every entry is tagged by `type`; exactly the choices and bare call results become `raw` entries |
| ConversationCodec.EncodeAll | src/GPTConversation.php:190-192 | one entry per message, in order |
| ConversationCodec.NormalizeContent | src/GPTConversation.php:439-445 | every JSON value is kept as it is |
| ConversationCodec.NormalizeArguments | src/GPTConversation.php:396-418 | an object is kept; an array or JSON string must decode to an object; anything else raises `Invalid serialized arguments.` |
| ConversationCodec.NormalizeResult | src/GPTConversation.php:420-434 | null, strings and objects are kept; arrays become JSON text; booleans and numbers their string form |
| ConversationCodec.DecodeToolCall | src/GPTConversation.php:383-394 | the call is rebuilt with a tool-call message of the same id, name and object arguments; a non-array entry is a type error |
| ConversationCodec.DecodeToolCalls | src/GPTConversation.php:360 | one call per entry, in order |
| ConversationCodec.Decode | src/GPTConversation.php:350-378 | an unknown tag, `raw` included, raises `Unknown message type…`; `web_search_result` fails on its `id:` argument; an input never has an attachment |
| ConversationCodec.DecodeAll | src/GPTConversation.php:210 | one message per entry, in order, or the first failure |
| ConversationCodec.DecodeEncodeToolCall | src/GPTConversation.php:339-345 | a tool call with object arguments round-trips |
| ConversationCodec.DecodeEncodeToolCalls | src/GPTConversation.php:360 | such a list of tool calls round-trips |
| ConversationCodec.DecodeEncodeInput | src/GPTConversation.php:274-289 | an input without attachment round-trips |
| ConversationCodec.DecodeEncodeAttachment | src/GPTConversation.php:281-286 | an attachment is written but not read back |
| ConversationCodec.DecodeEncodeOutput | src/GPTConversation.php:291-302 | an output with a string, object or null result and such tools round-trips |
| ConversationCodec.DecodeEncodeCall | src/GPTConversation.php:304-311 | a tool call comes back with the default type and role |
| ConversationCodec.DecodeEncodeResult | src/GPTConversation.php:313-320 | a tool result round-trips |
| ConversationCodec.DecodeEncodeRaw | src/GPTConversation.php:330-333 | a `raw` entry cannot be read back |
| ConversationCodec.DecodeEncode | src/GPTConversation.php:273-394 | every message the serialised form carries in full comes back as it was |
| ConversationCodec.DecodeAllEncodeAll | src/GPTConversation.php:190-222 | `fromSerialized(serialize())` restores a context of such messages |
| ConversationCodec.DecodeAllRaw | src/GPTConversation.php:330-376 | a context holding a choice or a bare call result cannot be restored |
| Conversation.Outcome | src/GPTConversation.php:256 | success exactly without an error; otherwise that error |
| Conversation.Builds | src/GPTConversation.php:477-478 | one spec result per tool, in order |
| Conversation.Gather | src/GPTConversation.php:477-481 | the specs of the longest prefix that builds, and the error of the first tool that does not |
| Conversation.GatherPrefixErr | src/GPTConversation.php:478 | once a tool has failed, later tools change nothing |
| Conversation.Rebuild | src/GPTConversation.php:477-481 | the loop builds each tool's spec in order up to the first failure, which it reports |
| Conversation.RebuildAsWritten | src/GPTConversation.php:477-481 | a rebuild that calls `buildFunctionSpec` as written stops at the same tool with the same error, and each of its specs is `Rebuild`'s spec with the description the code as written sends |
| Conversation.RebuildIff | src/GPTConversation.php:477-481 | rebuilding succeeds exactly when every tool builds; otherwise it stops at the first tool that does not |
| Conversation.GatherStep | src/GPTConversation.php:477-481 | one step of the rebuild loop |
| Conversation.SpecMapSnoc | src/GPTConversation.php:480 | one more spec maps its name to its tool |
| Conversation.SpecMapDomain | src/GPTConversation.php:480 | a name is mapped exactly when some spec carries it |
| Conversation.SpecMapLastWins | src/GPTConversation.php:480 | for a duplicated name the later tool wins |
| Conversation.Definitions | src/GPTConversation.php:479 | the definitions, in registration order |
| Conversation.SpecFunctions | src/GPTConversation.php:483 | none exactly when there are no specs; otherwise the definitions in order |
| Conversation.ClientRunsNoTool | src/GPTConversation.php:483 | the definitions sent carry no callable, so the client answers no tool call itself |
| Conversation.RebuildOf | src/GPTConversation.php:473-484 | the map is rebuilt from scratch; the definitions are replaced only when every tool builds |
| Conversation.AddToolOf | src/GPTConversation.php:156-161 | a tool without a descriptor is refused before it is registered; otherwise it is appended and the specs rebuilt |
| Conversation.SetToolsErrStays | src/GPTConversation.php:170-172 | once `setTools` has raised, one more tool changes nothing |
| Conversation.SetToolsErrSuffix | src/GPTConversation.php:170-172 | tools added after `setTools` has raised change nothing |
| Conversation.SetToolsPrefixErr | src/GPTConversation.php:170-172 | the first error stops `setTools` |
| Conversation.RebuildSnoc | src/GPTConversation.php:477-481 | rebuilding one more tool extends the rebuild of the others |
| Conversation.SpecMapPrefix | src/GPTConversation.php:480 | tools past the last spec do not reach the map |
| Conversation.AddToolStep | src/GPTConversation.php:156-161 | adding a tool after the others succeeded rebuilds from all of them |
| Conversation.SetToolsStep | src/GPTConversation.php:170-172 | one step of the `setTools` loop |
| Conversation.SetToolsOfRebuild | src/GPTConversation.php:168-175 | adding the tools one by one ends where one rebuild of all of them would; an empty list clears the tools but keeps the map and definitions until the next rebuild |
| Conversation.ScanIn | src/GPTConversation.php:246-252 | what the scan finds is one of the scanned tools, and its spec carries the name |
| Conversation.Scan | src/GPTConversation.php:246-252 | a found tool is a registered tool that builds a spec with that name |
| Conversation.ScanAfterRebuild | src/GPTConversation.php:245-252 | after a successful rebuild, the scan finds nothing the map lacks |
| Conversation.ScanNone | src/GPTConversation.php:246-252 | no spec carries the name, so the scan finds nothing |
| Conversation.Resolve | src/GPTConversation.php:245-253 | a mapped name leaves the map unchanged; otherwise the map can only gain that name |
| Conversation.InvokeFound | src/GPTConversation.php:255-267 | a name the map lacks raises `Missing executable for function …`; otherwise the tool is invoked and its `ToolResult` appended; an error leaves the context alone |
| Conversation.ExecuteOne | src/GPTConversation.php:244-268 | the map only grows; on success the context gains exactly the call's `ToolResult`; an unresolved name raises `Missing executable` |
| Conversation.RunTools | src/GPTConversation.php:237-239 | the context keeps its prefix and gains at most one entry per call; the map only grows |
| Conversation.AnswersCons | src/GPTConversation.php:237-239 | one answer, then the answers of the rest, are the answers of all |
| Conversation.RunToolsResults | src/GPTConversation.php:237-239 | without an error, each call has its `ToolResult`, in order, answering its id |
| Conversation.AbsorbedShape | src/GPTConversation.php:224-242 | the old context, then the output message, then one `ToolResult` per tool call |
| Conversation.MissingToolRaises | src/GPTConversation.php:255-257 | after a successful rebuild, a name no tool carries raises `Missing executable` and leaves the context as it was |
| Conversation.BuildSpecs | src/GPTConversation.php:477-481 | the loop computes `Rebuild` and its map |
| Conversation.Conversation.Init | src/GPTConversation.php:51-62 | the fields as the constructor assigns them |
| Conversation.Conversation.Create | src/GPTConversation.php:51-64 | the fields, then `setTools`; construction fails exactly when a tool cannot be installed |
| Conversation.Conversation.FromSerialized | src/GPTConversation.php:200-222 | the payload decoded into a new conversation with the given tools and options; it fails on a decoding error or a tool that does not build |
| Conversation.Conversation.Serialize | src/GPTConversation.php:190-192 | one entry per message |
| Conversation.Conversation.Split | src/GPTConversation.php:101-113 | a fresh conversation with the same client, context, tools and options, except `topP`, which is reset |
| Conversation.Conversation.AddMessage | src/GPTConversation.php:127-130 | the message is appended; nothing else changes |
| Conversation.Conversation.AddWebSearch | src/GPTConversation.php:141-151 | a web-search call with the given id and arguments is appended |
| Conversation.Conversation.SetResponseFormat | src/GPTConversation.php:180-183 | only the response format changes |
| Conversation.Conversation.RebuildFunctionsSpec | src/GPTConversation.php:473-484 | the tool state becomes `RebuildOf` of the old one |
| Conversation.Conversation.AddTool | src/GPTConversation.php:156-161 | the tool state becomes `AddToolOf` of the old one |
| Conversation.Conversation.SetTools | src/GPTConversation.php:168-175 | the tool state becomes `SetToolsOf` of the old one |
| Conversation.Conversation.FindTool | src/GPTConversation.php:246-252 | the specs are built one by one until one carries the name |
| Conversation.Conversation.ExecuteToolIfCallable | src/GPTConversation.php:244-268 | context and map become those of `ExecuteOne`; the tools and definitions are unchanged |
| Conversation.Conversation.ResolveTool | src/GPTConversation.php:245-257 | the map becomes `Resolve` of the old one |
| Conversation.Conversation.InvokeTool | src/GPTConversation.php:259-267 | the context becomes that of `InvokeFound` |
| Conversation.Conversation.AbsorbResponse | src/GPTConversation.php:224-242 | the output message is appended, then every tool call is executed in turn, up to the first error |
| Conversation.Conversation.Step | src/GPTConversation.php:74-96 | the specs are rebuilt, the client posts exactly once with the context and the rebuilt definitions, and the answer is absorbed; a failed rebuild posts nothing |
| Conversation.SerializeRoundTrip | src/GPTConversation.php:190-222 | decoding the serialised context restores it when every message is carried in full |

## Left out

- Conversation.Builds: every tool spec is built by `ToolSpecs.BuildFunctionSpec`, which keeps the descriptor's description (the corrected half of the finding). The code as written sends the last parameter's description, or '' (src/GPTConversation.php:518, 532). `Conversation.RebuildAsWritten` states that this description is the only difference.
- Conversation.Rebuild: its specs carry the corrected description, for the reason given for `Conversation.Builds`.
- Conversation.RebuildOf: the definitions it installs carry the corrected description, for the reason given for `Conversation.Builds`.
- Conversation.BuildSpecs: the loop builds through `ToolSpecs.MakeFunctionSpec`, so it stores the corrected description, for the reason given for `Conversation.Builds`.
- Conversation.Definitions: the definitions hold the corrected description, not the one the code as written sends.
- Conversation.SpecFunctions: the `GPTFunctions` sent hold the corrected description, not the one the code as written sends.
- Conversation.Conversation.RebuildFunctionsSpec: the new `functionsSpec` holds the corrected description, for the reason given for `Conversation.Builds`.
- Conversation.Conversation.Step: the one post carries definitions with the corrected description, for the reason given for `Conversation.Builds`. It goes through the corrected `Client.ChatGPT.Chat`. The code as written never posts, because `chat` raises at src/ChatGPT.php:246-247 (see `Client.ChatGPT.ChatAsWritten`). A reply would not be answered either, because of src/ChatGPT.php:355.
- Client.ChatGPT.Chat: this is the corrected half of a finding. As written, `chat` raises "Unknown named parameter $context" before it posts (src/ChatGPT.php:246-247), and past that it raises at the readonly `enhancedContext` (src/ChatGPT.php:355). `Client.ChatGPT.ChatAsWritten` and `Response.ParseReplyAsWritten` state what the code as written does.
- Response.ReplyOf: the `Ok` reply it states is the corrected half of a finding. As written, PHP raises "Cannot modify readonly property" at src/ChatGPT.php:355 on every such reply (`Response.ParseReplyAsWritten`).
- Response.ReplyShape: the `enhancedContext` it describes is never returned by the code as written, which raises at src/ChatGPT.php:355 (`Response.ParseReplyAsWritten`).
- Response.ReplyText: the code as written raises at src/ChatGPT.php:355 on this reply instead of answering (`Response.ReplyTextAsWritten`).

- HTTP transport: the PSR-18 and Guzzle clients, and `HttpResponse`, are network I/O. The transport is a class whose replies are a function of the post number and the post. `HttpPostInterface::post` is modelled as returning the body string, as `ChatGPT` uses it.
- `ChatGPT::webSearch`, `ChatGPT::textToSpeech` and `ChatGPT::buildWebSearchFunction` are wrappers around further remote calls and are not modelled.
- Reflection and attributes: a callable tool is data. It has its reflected name, its `GPTCallableDescriptor`, its parameters (name, declared type name, `GPTParameterDescriptor` definition, optionality, default) and a function from positional arguments to a value. `reflectCallable` and `GPTCallableFunctionFactory` are not modelled.
- `JSON::parse`, `JSON::stringify`, the Opis schema validator and the scalar property classes' `jsonSerialize` are functions of `Php.Host`, which the model does not look inside.
- Floats (`temperature`, `top_p`) are carried by their PHP string form and never computed with.
- Ids from `uniqid` (`addWebSearch`) and from sha1/microtime (`getWebSearchCall` without an id) are parameters.
- The message interceptor is the identity, as its default is.
- The predefined model classes are reduced to their name and effort (`Request.ChatModel`). The client's default model is a field of `Client.ChatGPT`.
- `JsonSchemaResponseFormat`, the type `chat` and `GPTConversation` accept as the response format, is not part of this model. The model uses `JsonSchemaFormat` in its place. So it assumes that `jsonSerialize()['json_schema']` is `{name: 'Response', schema, strict}`, as `JsonSchemaFormat` writes it. The validator (src/ChatGPT.php:317-318) and the request's `text.format` both see that shape.
- Exceptions raised inside a tool are not modelled. A tool's body is a total function from the bound positional arguments to a value. In PHP such an exception, or the TypeError or coercion when a bound argument meets a typed parameter, propagates out of `executeToolIfCallable`, `step` and `chat`.
- PHP turns a decimal-string key such as "1" into the int key 1, on an `(array)` cast and on a keyed assignment (src/ChatGPT.php:666-669, src/Functions/Function/GPTProperties.php:35). The model keeps every key a string. So a property named "1" puts the string "1" in `required`, where PHP puts the int 1. And properties named "0" to "n-1" serialise as an object, where `json_encode` writes a list.
- The iterators of `GPTFunctions` and `GPTProperties` yield their sequences in order, which is the sequence itself in the model.
- `getContext` returns the `context` field, which the model exposes directly.
- `normalizeWebSearchContent` is not modelled: it is only reached after the `WebSearchResult` constructor has already failed.
- The "Invalid result type." and "Invalid content type." errors of `normalizeResult` and `normalizeContent` cannot arise, because every JSON value is one of the accepted kinds.
- `ChatResponse` with its `firstChoice` is the single choice itself.
- `WebSearchResponse`'s constructor has no `id` parameter, yet `webSearch` passes one. That call is outside the model.
- Conversation.Conversation.Serialize: its own contract states only the length. Its content is `ConversationCodec.EncodeAll`, and `SerializeRoundTrip` states what decoding it gives back.
- Conversation.Scan: the fallback scan takes the first tool whose spec carries the name. `rebuildFunctionsSpec` lets the last one win. The model keeps both behaviours as written and states no lemma tying them together for duplicated names.
- ToolSpecs.AdvertisedNameNotBound: the definitions advertise snake-case parameter names, but `CallableInvoker` binds by the declared name. The model keeps this as written and exhibits the mismatch; it does not correct it.

## Findings

| source | as written | input that shows it | evidently intended | confidence | as-written member | corrected member |
|---|---|---|---|---|---|---|
| src/GPTConversation.php:507-532 | `$description` holds the descriptor's description, but the parameter loop reuses the same variable for each parameter's description, so the function is described by its last parameter's description or by '' | a tool `numberByLetter` described as "Returns a number for a letter." with one `string` parameter `letter` that has no parameter descriptor is sent with description '' | the function keeps the descriptor's description | not executed | ToolSpecs.BuildFunctionSpecAsWritten | ToolSpecs.BuildFunctionSpec |
| src/ChatGPT.php:246-247 | `new ChatEnquiry(context: …)`, but the constructor declares `inputs` (src/Common/ChatEnquiry.php:20), so PHP raises "Unknown named parameter $context" | any call of `chat`, for instance with the empty context and no options | the context is the enquiry's message list, posted and answered | not executed | Client.ChatGPT.ChatAsWritten | Client.ChatGPT.Chat |
| src/ChatGPT.php:355 | `$choice->enhancedContext = …` assigns a readonly property that the constructor at :337 already set, so PHP raises "Cannot modify readonly property" | a reply whose output is one message with one `output_text` part, with no format and no functions | the choice carries the context, itself and the tool results | not executed | Response.ReplyTextAsWritten | Response.ReplyShape |
