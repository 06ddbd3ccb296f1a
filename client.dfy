/** The low-level client (`ChatGPT`): one `chat` round is one POST of the
    request body to the Responses API, then the reading of the reply. The
    transport stands for `HttpPostInterface`; the server is the function
    that answers its n-th post. */
module Client {
  import opened Php
  import opened Functions
  import opened Messages
  import opened Request
  import opened Response

  const ResponsesUri := "https://api.openai.com/v1/responses"

  /** What `new ChatEnquiry(context: …)` raises: the constructor declares its
      message list as `inputs` and has no `context` parameter. */
  const UnknownContextParameter := PhpError("Unknown named parameter $context")

  /** One POST as the transport receives it. */
  datatype Post = Post(url: string, body: seq<Field>, headers: seq<Field>)

  /** `HttpPostInterface`: the posts are recorded in order, and the reply to
      the n-th post (the response body, or the failure the client raises)
      is whatever `respond` gives. */
  class Transport {
    var sent: seq<Post>
    const respond: (nat, Post) -> Result<string>

    constructor (respond: (nat, Post) -> Result<string>)
      ensures sent == [] && this.respond == respond
    {
      sent := [];
      this.respond := respond;
    }

    method Send(p: Post) returns (r: Result<string>)
      modifies this
      ensures sent == old(sent) + [p]
      ensures r == respond(|old(sent)|, p)
    {
      r := respond(|sent|, p);
      sent := sent + [p];
    }
  }

  /** The bearer token and the JSON content type. */
  function Headers(token: string): seq<Field> {
    [Field("Authorization", JStr("Bearer " + token)), Field("Content-Type", JStr("application/json"))]
  }

  /** `$functions?->jsonSerialize() ?? []`: the definition of each function,
      in order. */
  function Payload(h: Host, functions: Option<GPTFunctions>): (r: seq<seq<Field>>)
    ensures functions.None? ==> r == []
    ensures functions.Some? ==>
      (|r| == |functions.value.functions| &&
       forall i :: 0 <= i < |r| ==> JMap(r[i]) == FunctionJson(h, functions.value.functions[i]))
  {
    if functions.None? then []
    else
      var js := FunctionsJson(h, functions.value);
      seq(|js|, i requires 0 <= i < |js| => js[i].fields)
  }

  /** The `ChatEnquiry` that `chat` hands to `internalChatEnquiry`. */
  function EnquiryOf(h: Host, context: seq<Message>, functions: Option<GPTFunctions>, format: Option<JsonSchemaFormat>,
                     model: ChatModel, maxTokens: int, temperature: Option<Float>, topP: Option<Float>): Enquiry
  {
    Enquiry(context, model, Payload(h, functions), if format.Some? then Some(FormatJson(format.value)) else None,
            Some(maxTokens), temperature, topP)
  }

  /** The POST of one round. */
  function RequestPost(h: Host, token: string, e: Enquiry): Post {
    Post(ResponsesUri, RequestBody(h, e), Headers(token))
  }

  /** The reply read into a choice; a transport failure propagates. */
  function Answer(h: Host, reply: Result<string>, context: seq<Message>, functions: Option<GPTFunctions>,
                  format: Option<JsonSchemaFormat>): Result<Choice>
    requires functions.Some? ==> functions.value.callableMap == CallableMapOf(functions.value.functions)
  {
    var raw :- reply;
    ParseReply(h, raw, context, functions, format)
  }

  /** The tools of a round reach the wire exactly when there are any, each
      as its function definition tagged `type: function`. */
  lemma EnquiryTools(h: Host, context: seq<Message>, functions: Option<GPTFunctions>, format: Option<JsonSchemaFormat>,
                     model: ChatModel, maxTokens: int, temperature: Option<Float>, topP: Option<Float>)
    ensures var body := RequestBody(h, EnquiryOf(h, context, functions, format, model, maxTokens, temperature, topP));
      (Has(body, "tools") <==> functions.Some? && |functions.value.functions| > 0) &&
      Get(body, "max_output_tokens") == Some(JInt(maxTokens))
  {
    var e := EnquiryOf(h, context, functions, format, model, maxTokens, temperature, topP);
    BodyTools(h, e);
    BodyOptions(h, e);
  }

  /** `ChatGPT`: the token, the transport, the collaborators and the model
      used when a round names none. */
  class ChatGPT {
    const token: string
    const transport: Transport
    const host: Host
    const defaultModel: ChatModel

    constructor (token: string, transport: Transport, host: Host, defaultModel: ChatModel)
      ensures this.token == token && this.transport == transport && this.host == host
      ensures this.defaultModel == defaultModel
    {
      this.token := token;
      this.transport := transport;
      this.host := host;
      this.defaultModel := defaultModel;
    }

    /** `chat`: exactly one POST of the body built from the context and the
        options, then the reply read into a choice. */
    method Chat(context: seq<Message>, functions: Option<GPTFunctions>, format: Option<JsonSchemaFormat>,
                model: Option<ChatModel>, maxTokens: int, temperature: Option<Float>, topP: Option<Float>)
      returns (r: Result<Choice>)
      requires functions.Some? ==> functions.value.callableMap == CallableMapOf(functions.value.functions)
      modifies transport
      ensures var e := EnquiryOf(host, context, functions, format, model.GetOr(defaultModel), maxTokens, temperature, topP);
        transport.sent == old(transport.sent) + [RequestPost(host, token, e)] &&
        r == Answer(host, transport.respond(|old(transport.sent)|, RequestPost(host, token, e)), context, functions, format)
    {
      var e := EnquiryOf(host, context, functions, format, model.GetOr(defaultModel), maxTokens, temperature, topP);
      var body := BuildBody(host, e);
      var reply := transport.Send(Post(ResponsesUri, body, Headers(token)));
      if reply.Err? {
        return Err(reply.error);
      }
      var data := ParseJson(host, reply.value);
      if data.Err? {
        return Err(data.error);
      }
      var items := Envelope(data.value);
      if items.Err? {
        return Err(items.error);
      }
      var collected := CollectOutput(host, items.value);
      if collected.Err? {
        return Err(collected.error);
      }
      var choice := ChoiceOf(host, data.value, collected.value, format);
      if choice.Err? {
        return Err(choice.error);
      }
      var results: seq<Message> := [];
      if functions.Some? {
        var answered := AnswerTools(functions.value, collected.value.tools);
        if answered.Err? {
          return Err(answered.error);
        }
        results := answered.value;
      }
      var c := choice.value;
      return Ok(c.(enhancedContext := context + [ChoiceMessage(c)] + results));
    }

    /** `chat` as written: the enquiry is built with the named argument
        `context:`, which `ChatEnquiry` does not declare, so PHP raises
        before the transport sees anything. */
    method ChatAsWritten(context: seq<Message>, functions: Option<GPTFunctions>, format: Option<JsonSchemaFormat>,
                         model: Option<ChatModel>, maxTokens: int, temperature: Option<Float>, topP: Option<Float>)
      returns (r: Result<Choice>)
      ensures r == Err(UnknownContextParameter)
      ensures transport.sent == old(transport.sent)
    {
      r := Err(UnknownContextParameter);
    }
  }
}
