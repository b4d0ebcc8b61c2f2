/** The Browser superclient: a chat facade that owns the tool namespace,
    offers the model one `get_website` tool, and answers its calls with fetched
    pages in a single extra round. */
module BrowserClient {
  import opened Results
  import opened Schema
  import opened MainClient

  const GET_WEBSITE: string := "get_website"

  /** The one tool definition the browser injects. */
  function GetWebsiteTool(): Value
  {
    Obj(map["type" := Str("function"),
            "function" := Obj(map[
              "name" := Str(GET_WEBSITE),
              "description" := Str("Get the content of a website."),
              "parameters" := Obj(map[
                "type" := Str("object"),
                "properties" := Obj(map[
                  "url" := Obj(map["type" := Str("string"),
                                   "description" := Str("The URL of the website to get.")])])])])])
  }

  // ---------------------------------------------------------------------------
  // fetch_website

  /** What the HTTP GET of a URL comes to: a response (with `str` of its body
      and the repr of the request URL), a request error, or any other
      exception. */
  datatype HttpOutcome =
    | Response(status: nat, content: string, requestUrl: string)
    | RequestFailed(requestUrl: string, detail: string)
    | Failed(detail: string)

  function DigitChar(d: nat): char
    requires d < 10
  {
    "0123456789"[d]
  }

  function NatToString(n: nat): (r: string)
    ensures |r| > 0
  {
    if n < 10 then [DigitChar(n)] else NatToString(n / 10) + [DigitChar(n % 10)]
  }

  predicate IsSuccess(status: nat)
  {
    200 <= status < 300
  }

  /** `fetch_website`: total; every failure becomes a description string. */
  function FetchWebsite(url: Value, http: Value -> HttpOutcome): (r: string)
    ensures var o := http(url);
            (o.Response? && IsSuccess(o.status) ==> r == o.content) &&
            (o.Response? && !IsSuccess(o.status) ==>
               r == "Error response " + NatToString(o.status) + " while requesting " + o.requestUrl) &&
            (o.RequestFailed? ==> r == "An error occurred while requesting " + o.requestUrl + ": " + o.detail) &&
            (o.Failed? ==> r == "An unexpected error occurred: " + o.detail)
  {
    match http(url)
    case Response(status, content, requestUrl) =>
      if IsSuccess(status) then content
      else "Error response " + NatToString(status) + " while requesting " + requestUrl
    case RequestFailed(requestUrl, detail) => "An error occurred while requesting " + requestUrl + ": " + detail
    case Failed(detail) => "An unexpected error occurred: " + detail
  }

  /** A 404 becomes a description naming the status, not an exception. */
  lemma NotFoundIsDescribed(url: Value, http: Value -> HttpOutcome)
    requires http(url).Response? && http(url).status == 404
    ensures FetchWebsite(url, http) == "Error response " + "404" + " while requesting " + http(url).requestUrl
  {
    Decimal404();
  }

  lemma Decimal404()
    ensures NatToString(404) == "404"
  {
    assert NatToString(4) == ['4'];
    assert NatToString(40) == "40";
  }

  // ---------------------------------------------------------------------------
  // The tool round

  /** Binding `fetch_website(**arguments)`: the arguments must be a mapping
      holding exactly the parameter `url`. */
  function UrlArgument(arguments: Value): (r: Result<Value, PyError>)
    ensures r.Ok? <==> arguments.Obj? && arguments.fields.Keys == {"url"}
    ensures r.Ok? ==> r.value == arguments.fields["url"]
    ensures r.Err? ==> r.error == TypeError
  {
    if arguments.Obj? && arguments.fields.Keys == {"url"} then Ok(arguments.fields["url"]) else Err(TypeError)
  }

  /** The `tool` message that answers one call. */
  function ToolMessage(call: ChatToolCall, webPage: string): InputMessage
  {
    Mapping(map["role" := Str("tool"), "content" := Str(webPage),
                "tool_call_id" := Str(call.id), "tool_name" := Str(call.fn.name)])
  }

  /** What the loop over the tool calls has done: the messages appended, the
      URLs fetched, and the error that stopped it, if any. */
  datatype Round = Round(messages: seq<InputMessage>, fetched: seq<Value>, error: Option<PyError>)

  /** One pass of the loop over `tool_calls`: a call with another name adds
      nothing, and an argument-binding error ends the loop. */
  function Step(done: Round, call: ChatToolCall, http: Value -> HttpOutcome): Round
  {
    if done.error.Some? || call.fn.name != GET_WEBSITE then done
    else
      match UrlArgument(call.fn.arguments)
      case Err(e) => Round(done.messages, done.fetched, Some(e))
      case Ok(url) => Round(done.messages + [ToolMessage(call, FetchWebsite(url, http))], done.fetched + [url], None)
  }

  /** The loop over `tool_calls`, one call at a time. */
  function ToolRound(calls: seq<ChatToolCall>, http: Value -> HttpOutcome): Round
  {
    if calls == [] then Round([], [], None)
    else Step(ToolRound(calls[..|calls| - 1], http), calls[|calls| - 1], http)
  }

  lemma ToolRoundSnoc(init: seq<ChatToolCall>, last: ChatToolCall, http: Value -> HttpOutcome)
    ensures ToolRound(init + [last], http) == Step(ToolRound(init, http), last, http)
  {
    assert (init + [last])[..|init|] == init;
  }

  /** The calls named `get_website`, in order. */
  function GetWebsiteCalls(calls: seq<ChatToolCall>): seq<ChatToolCall>
  {
    if calls == [] then []
    else
      var last := calls[|calls| - 1];
      GetWebsiteCalls(calls[..|calls| - 1]) + (if last.fn.name == GET_WEBSITE then [last] else [])
  }

  /** Calls with other names do not matter: the round over all calls is the
      round over the `get_website` calls alone. */
  lemma {:induction false} OtherToolsAreIgnored(calls: seq<ChatToolCall>, http: Value -> HttpOutcome)
    ensures ToolRound(calls, http) == ToolRound(GetWebsiteCalls(calls), http)
  {
    if calls != [] {
      var init := calls[..|calls| - 1];
      var last := calls[|calls| - 1];
      OtherToolsAreIgnored(init, http);
      assert ToolRound(calls, http) == Step(ToolRound(init, http), last, http);
      if last.fn.name == GET_WEBSITE {
        assert GetWebsiteCalls(calls) == GetWebsiteCalls(init) + [last];
        ToolRoundSnoc(GetWebsiteCalls(init), last, http);
      } else {
        assert GetWebsiteCalls(calls) == GetWebsiteCalls(init) + [];
        assert GetWebsiteCalls(init) + [] == GetWebsiteCalls(init);
      }
    }
  }

  /** When every `get_website` call carries a `url` argument, the round ends
      without error and appends one tool message per such call, in call order,
      each with the page fetched for that call's URL. */
  lemma {:induction false} OneMessagePerGetWebsiteCall(calls: seq<ChatToolCall>, http: Value -> HttpOutcome)
    requires forall i :: 0 <= i < |calls| && calls[i].fn.name == GET_WEBSITE ==> UrlArgument(calls[i].fn.arguments).Ok?
    ensures var round := ToolRound(calls, http);
            var gw := GetWebsiteCalls(calls);
            round.error.None? && |round.messages| == |round.fetched| == |gw| &&
            forall i :: 0 <= i < |gw| ==>
              UrlArgument(gw[i].fn.arguments) == Ok(round.fetched[i]) &&
              round.messages[i] == ToolMessage(gw[i], FetchWebsite(round.fetched[i], http))
  {
    if calls != [] {
      var init := calls[..|calls| - 1];
      var last := calls[|calls| - 1];
      assert forall i :: 0 <= i < |init| ==> init[i] == calls[i];
      OneMessagePerGetWebsiteCall(init, http);
      if last.fn.name == GET_WEBSITE {
        assert GetWebsiteCalls(calls) == GetWebsiteCalls(init) + [last];
      }
    }
  }

  /** An error ends the round: later calls add nothing. */
  lemma {:induction false} RoundStopsAtError(calls: seq<ChatToolCall>, http: Value -> HttpOutcome, i: nat)
    requires i <= |calls|
    requires ToolRound(calls[..i], http).error.Some?
    ensures ToolRound(calls, http) == ToolRound(calls[..i], http)
    decreases |calls| - i
  {
    if i == |calls| {
      assert calls[..i] == calls;
    } else {
      var init := calls[..|calls| - 1];
      assert init[..i] == calls[..i];
      RoundStopsAtError(init, http, i);
    }
  }

  /** A `get_website` call whose arguments cannot be bound makes the round
      fail, whatever comes before or after it. */
  lemma {:induction false} BadArgumentsFailTheRound(calls: seq<ChatToolCall>, http: Value -> HttpOutcome, k: nat)
    requires k < |calls| && calls[k].fn.name == GET_WEBSITE && UrlArgument(calls[k].fn.arguments).Err?
    ensures ToolRound(calls, http).error.Some?
  {
    var init := calls[..|calls| - 1];
    if k < |calls| - 1 {
      assert init[k] == calls[k];
      BadArgumentsFailTheRound(init, http, k);
    }
  }

  /** A failed round has failed at a `get_website` call whose arguments could
      not be bound, after a prefix that ran without error; the messages are
      those of that prefix. */
  lemma {:induction false} FailedRoundKeepsEarlierMessages(calls: seq<ChatToolCall>, http: Value -> HttpOutcome)
    requires ToolRound(calls, http).error.Some?
    ensures exists j :: 0 <= j < |calls| && calls[j].fn.name == GET_WEBSITE && UrlArgument(calls[j].fn.arguments).Err? &&
                        ToolRound(calls[..j], http).error.None? &&
                        ToolRound(calls, http).messages == ToolRound(calls[..j], http).messages
  {
    var init := calls[..|calls| - 1];
    if ToolRound(init, http).error.Some? {
      FailedRoundKeepsEarlierMessages(init, http);
      var j :| 0 <= j < |init| && init[j].fn.name == GET_WEBSITE && UrlArgument(init[j].fn.arguments).Err? &&
               ToolRound(init[..j], http).error.None? &&
               ToolRound(init, http).messages == ToolRound(init[..j], http).messages;
      assert init[..j] == calls[..j];
      assert init[j] == calls[j];
    } else {
      assert calls[..|calls| - 1] == init;
    }
  }

  /** The only error a round can end with is the binding error. */
  lemma {:induction false} RoundFailsOnlyWithTypeError(calls: seq<ChatToolCall>, http: Value -> HttpOutcome)
    ensures ToolRound(calls, http).error.Some? ==> ToolRound(calls, http).error == Some(TypeError)
  {
    if calls != [] {
      RoundFailsOnlyWithTypeError(calls[..|calls| - 1], http);
    }
  }

  // ---------------------------------------------------------------------------
  // The protocol

  datatype BrowserError =
    | NotAChatModel
    | ToolsNotAllowed
    | IndexError                 // the first response has no choices
    | ToolArguments(error: PyError)

  /** Everything one `Browser.chat` call does: its result, the caller's message
      list afterwards, the adapter's requests afterwards (`log` before), and the
      URLs fetched. */
  datatype Outcome = Outcome(result: Result<ChatResponse, BrowserError>, messages: seq<InputMessage>,
                             requests: seq<Request>, fetched: seq<Value>)

  /** `if tool_calls:` is false for `None` and for an empty list. */
  predicate NoToolCalls(choice: ChatChoice)
  {
    choice.toolCalls.None? || |choice.toolCalls.value| == 0
  }

  function FirstRequest(messages: seq<InputMessage>, temperature: Option<real>, maxTokens: Option<int>,
                        n: Option<int>): Request
  {
    ChatRequest(messages, temperature, maxTokens, n, Some([GetWebsiteTool()]), false)
  }

  /** `Browser.chat`, with `stream` and `response_format` left out because they
      are never forwarded. */
  function BrowserChat(messages: seq<InputMessage>, temperature: Option<real>, maxTokens: Option<int>,
                       n: Option<int>, callerTools: Option<seq<Value>>, vendor: Vendor, log: seq<Request>,
                       http: Value -> HttpOutcome): (o: Outcome)
    // caller tools are refused before any call
    ensures o.result == Err(ToolsNotAllowed) <==> callerTools.Some? && |callerTools.value| > 0
    ensures o.result == Err(ToolsNotAllowed) ==> o.requests == log && o.messages == messages && o.fetched == []
    // at most two chat calls, each forwarding the parameters, never streaming
    ensures |log| <= |o.requests| <= |log| + 2 && o.requests[..|log|] == log
    ensures forall i :: |log| <= i < |o.requests| ==>
              o.requests[i].ChatRequest? && o.requests[i].temperature == temperature &&
              o.requests[i].maxTokens == maxTokens && o.requests[i].n == n && !o.requests[i].stream
  {
    if callerTools.Some? && |callerTools.value| > 0 then Outcome(Err(ToolsNotAllowed), messages, log, [])
    else
      var first := FirstRequest(messages, temperature, maxTokens, n);
      var response := vendor.chat(|log|, first);
      var log1 := log + [first];
      if |response.choices| == 0 then Outcome(Err(IndexError), messages, log1, [])
      else
        var choice := response.choices[0];
        if NoToolCalls(choice) then Outcome(Ok(response), messages, log1, [])
        else
          var round := ToolRound(choice.toolCalls.value, http);
          var extended := messages + [Turn(choice)] + round.messages;
          if round.error.Some? then Outcome(Err(ToolArguments(round.error.value)), extended, log1, round.fetched)
          else
            var second := ChatRequest(extended, temperature, maxTokens, n, None, false);
            Outcome(Ok(vendor.chat(|log1|, second)), extended, log1 + [second], round.fetched)
  }

  /** The first chat call forwards the caller's messages unchanged and offers
      exactly the `get_website` tool; when the first response has no choice or
      its first choice calls no tool, that call is the only one and the
      message list is left as it was. */
  lemma FirstRoundOutcomes(messages: seq<InputMessage>, temperature: Option<real>, maxTokens: Option<int>,
                           n: Option<int>, callerTools: Option<seq<Value>>, vendor: Vendor, log: seq<Request>,
                           http: Value -> HttpOutcome)
    requires callerTools.None? || callerTools.value == []
    ensures var o := BrowserChat(messages, temperature, maxTokens, n, callerTools, vendor, log, http);
            var response := vendor.chat(|log|, o.requests[|log|]);
            o.requests[|log|].messages == messages && o.requests[|log|].tools == Some([GetWebsiteTool()]) &&
            (|response.choices| == 0 ==> o == Outcome(Err(IndexError), messages, log + [o.requests[|log|]], [])) &&
            (|response.choices| > 0 && NoToolCalls(response.choices[0]) ==>
               o.result == Ok(response) && o.messages == messages && |o.requests| == |log| + 1 && o.fetched == [])
  {
  }

  /** The two-round protocol: when the model calls tools and every
      `get_website` call names just a `url`, the second (and last) chat call
      sends the caller's messages, the assistant turn, and one `tool` message
      per `get_website` call in call order, offers no tools, and its response
      is the result. */
  lemma SecondRoundAnswersEveryCall(messages: seq<InputMessage>, temperature: Option<real>, maxTokens: Option<int>,
                                    n: Option<int>, callerTools: Option<seq<Value>>, vendor: Vendor,
                                    log: seq<Request>, http: Value -> HttpOutcome)
    requires callerTools.None? || callerTools.value == []
    requires var response := vendor.chat(|log|, FirstRequest(messages, temperature, maxTokens, n));
             |response.choices| > 0 && !NoToolCalls(response.choices[0]) &&
             var calls := response.choices[0].toolCalls.value;
             forall i :: 0 <= i < |calls| && calls[i].fn.name == GET_WEBSITE ==> UrlArgument(calls[i].fn.arguments).Ok?
    ensures var o := BrowserChat(messages, temperature, maxTokens, n, callerTools, vendor, log, http);
            var choice := vendor.chat(|log|, FirstRequest(messages, temperature, maxTokens, n)).choices[0];
            var gw := GetWebsiteCalls(choice.toolCalls.value);
            |o.requests| == |log| + 2 &&
            var second := o.requests[|log| + 1];
            second.tools.None? && o.result == Ok(vendor.chat(|log| + 1, second)) &&
            second.messages == o.messages &&
            |o.messages| == |messages| + 1 + |gw| &&
            o.messages[..|messages| + 1] == messages + [Turn(choice)] &&
            |o.fetched| == |gw| &&
            forall i :: 0 <= i < |gw| ==>
              UrlArgument(gw[i].fn.arguments) == Ok(o.fetched[i]) &&
              o.messages[|messages| + 1 + i] == ToolMessage(gw[i], FetchWebsite(o.fetched[i], http))
  {
    var first := FirstRequest(messages, temperature, maxTokens, n);
    var choice := vendor.chat(|log|, first).choices[0];
    var round := ToolRound(choice.toolCalls.value, http);
    OneMessagePerGetWebsiteCall(choice.toolCalls.value, http);
    ToolCallBranch(messages, temperature, maxTokens, n, callerTools, vendor, log, http);
    var extended := messages + [Turn(choice)] + round.messages;
    assert extended[..|messages| + 1] == messages + [Turn(choice)];
    forall i | 0 <= i < |round.messages|
      ensures extended[|messages| + 1 + i] == round.messages[i]
    {
    }
  }

  /** The tool-call branch of `BrowserChat` when the round succeeds. */
  lemma ToolCallBranch(messages: seq<InputMessage>, temperature: Option<real>, maxTokens: Option<int>,
                       n: Option<int>, callerTools: Option<seq<Value>>, vendor: Vendor,
                       log: seq<Request>, http: Value -> HttpOutcome)
    requires callerTools.None? || callerTools.value == []
    requires var response := vendor.chat(|log|, FirstRequest(messages, temperature, maxTokens, n));
             |response.choices| > 0 && !NoToolCalls(response.choices[0]) &&
             ToolRound(response.choices[0].toolCalls.value, http).error.None?
    ensures var first := FirstRequest(messages, temperature, maxTokens, n);
            var choice := vendor.chat(|log|, first).choices[0];
            var round := ToolRound(choice.toolCalls.value, http);
            var extended := messages + [Turn(choice)] + round.messages;
            var second := ChatRequest(extended, temperature, maxTokens, n, None, false);
            BrowserChat(messages, temperature, maxTokens, n, callerTools, vendor, log, http) ==
              Outcome(Ok(vendor.chat(|log| + 1, second)), extended, log + [first] + [second], round.fetched)
  {
  }

  /** A `get_website` call with unusable arguments ends `chat` with that
      error after one chat call; the assistant turn and the tool messages of
      the calls before it stay appended. */
  lemma BadArgumentsEndTheChat(messages: seq<InputMessage>, temperature: Option<real>, maxTokens: Option<int>,
                               n: Option<int>, callerTools: Option<seq<Value>>, vendor: Vendor,
                               log: seq<Request>, http: Value -> HttpOutcome, k: nat)
    requires callerTools.None? || callerTools.value == []
    requires var response := vendor.chat(|log|, FirstRequest(messages, temperature, maxTokens, n));
             |response.choices| > 0 && !NoToolCalls(response.choices[0]) &&
             var calls := response.choices[0].toolCalls.value;
             k < |calls| && calls[k].fn.name == GET_WEBSITE && UrlArgument(calls[k].fn.arguments).Err?
    ensures var o := BrowserChat(messages, temperature, maxTokens, n, callerTools, vendor, log, http);
            var choice := vendor.chat(|log|, FirstRequest(messages, temperature, maxTokens, n)).choices[0];
            var calls := choice.toolCalls.value;
            o.result == Err(ToolArguments(TypeError)) && |o.requests| == |log| + 1 &&
            exists j :: 0 <= j <= k && calls[j].fn.name == GET_WEBSITE && UrlArgument(calls[j].fn.arguments).Err? &&
                        ToolRound(calls[..j], http).error.None? &&
                        o.messages == messages + [Turn(choice)] + ToolRound(calls[..j], http).messages
  {
    var choice := vendor.chat(|log|, FirstRequest(messages, temperature, maxTokens, n)).choices[0];
    var calls := choice.toolCalls.value;
    BadArgumentsFailTheRound(calls, http, k);
    RoundFailsOnlyWithTypeError(calls, http);
    FailedRoundKeepsEarlierMessages(calls, http);
    var j :| 0 <= j < |calls| && calls[j].fn.name == GET_WEBSITE && UrlArgument(calls[j].fn.arguments).Err? &&
             ToolRound(calls[..j], http).error.None? &&
             ToolRound(calls, http).messages == ToolRound(calls[..j], http).messages;
    if k < j {
      assert calls[..j][k] == calls[k];
      BadArgumentsFailTheRound(calls[..j], http, k);
    }
  }

  /** The superclient. Its one field is fixed; the wrapped facade serves a
      chat model. */
  class Browser {
    const client: SwitchAI

    predicate Valid()
    {
      Permits(client.modelCategory, ChatOp)
    }

    constructor (client: SwitchAI)
      requires Permits(client.modelCategory, ChatOp)
      ensures this.client == client && Valid()
    {
      this.client := client;
    }

    /** `Browser(client)`: refused unless the client serves a chat model. */
    static method New(client: SwitchAI) returns (r: Result<Browser, BrowserError>)
      ensures r.Ok? <==> client.modelCategory == "chat"
      ensures r.Ok? ==> fresh(r.value) && r.value.client == client && r.value.Valid()
      ensures r.Err? ==> r.error == NotAChatModel
    {
      if client.modelCategory != "chat" {
        return Err(NotAChatModel);
      }
      var browser := new Browser(client);
      return Ok(browser);
    }

    /** `Browser.chat`. The caller's message list is extended in place; a
        caller's empty tools list receives the injected tool. */
    method Chat(messages: PyList<InputMessage>, temperature: Option<real>, maxTokens: Option<int>,
                n: Option<int>, tools: PyList?<Value>, responseFormat: Option<Value>, stream: bool,
                http: Value -> HttpOutcome)
      returns (r: Result<ChatResponse, BrowserError>, ghost fetched: seq<Value>)
      requires Valid()
      modifies messages, tools, client.client
      ensures var o := BrowserChat(old(messages.items), temperature, maxTokens, n,
                                   if tools == null then None else Some(old(tools.items)),
                                   client.client.vendor, old(client.client.requests), http);
              r == o.result && messages.items == o.messages && client.client.requests == o.requests &&
              fetched == o.fetched
      ensures tools != null ==>
                tools.items == if r == Err(ToolsNotAllowed) then old(tools.items) else [GetWebsiteTool()]
    {
      ghost var callerMessages := messages.items;
      ghost var log := client.client.requests;
      ghost var callerTools := if tools == null then None else Some(tools.items);
      ghost var o := BrowserChat(callerMessages, temperature, maxTokens, n, callerTools, client.client.vendor, log, http);
      fetched := [];
      var toolList: seq<Value> := if tools == null then [] else tools.items;
      if |toolList| > 0 {
        return Err(ToolsNotAllowed), fetched;
      }
      if tools != null {
        tools.Append(GetWebsiteTool());
      }
      toolList := toolList + [GetWebsiteTool()];
      assert toolList == [GetWebsiteTool()];
      var firstResult := client.Chat(messages.items, temperature, maxTokens, n, Some(toolList), false);
      var firstResponse := firstResult.value;
      assert firstResponse == client.client.vendor.chat(|log|, FirstRequest(callerMessages, temperature, maxTokens, n));
      if |firstResponse.choices| == 0 {
        return Err(IndexError), fetched;
      }
      var choice := firstResponse.choices[0];
      if NoToolCalls(choice) {
        return Ok(firstResponse), fetched;
      }
      messages.Append(Turn(choice));
      var error;
      error, fetched := AnswerToolCalls(messages, choice.toolCalls.value, http);
      assert messages.items == o.messages && fetched == o.fetched;
      if error.Some? {
        return Err(ToolArguments(error.value)), fetched;
      }
      var secondResult := client.Chat(messages.items, temperature, maxTokens, n, None, false);
      return Ok(secondResult.value), fetched;
    }

    /** The loop over the first choice's tool calls: one `tool` message per
        `get_website` call, appended to the caller's list. */
    static method AnswerToolCalls(messages: PyList<InputMessage>, calls: seq<ChatToolCall>, http: Value -> HttpOutcome)
      returns (error: Option<PyError>, ghost fetched: seq<Value>)
      modifies messages
      ensures var round := ToolRound(calls, http);
              messages.items == old(messages.items) + round.messages && fetched == round.fetched &&
              error == round.error
    {
      fetched := [];
      var i := 0;
      while i < |calls|
        invariant 0 <= i <= |calls|
        invariant ToolRound(calls[..i], http).error.None?
        invariant messages.items == old(messages.items) + ToolRound(calls[..i], http).messages
        invariant fetched == ToolRound(calls[..i], http).fetched
      {
        assert calls[..i + 1][..i] == calls[..i];
        var call := calls[i];
        if call.fn.name == GET_WEBSITE {
          var url := UrlArgument(call.fn.arguments);
          if url.Err? {
            RoundStopsAtError(calls, http, i + 1);
            return Some(url.error), fetched;
          }
          var webPage := FetchWebsite(url.value, http);
          messages.Append(ToolMessage(call, webPage));
          fetched := fetched + [url.value];
        }
        i := i + 1;
      }
      assert calls[..i] == calls;
      return None, fetched;
    }
  }
}
