/**
 * The conversation loop of `main`: per user turn, ask the model, record its
 * candidates, run every function call it asks for and record the responses,
 * until it asks for none or the per-turn budget of tool calls is used up; then
 * read the next prompt, until `/q`.
 *
 * The loop is stated for any handler of function calls; the program's handler is
 * `call_function`, `Handle(ops)` below, and the lemmas at the end instantiate it.
 */
module Agent {
  import opened Wrappers
  import opened Dispatch
  import PyText

  /** `max_tool_calls`: the per-turn budget, tested only before asking the model. */
  const MaxToolCalls: nat := 20

  /** The prompt that ends the session, compared after stripping whitespace. */
  const QuitCommand: string := "/q"

  /** One answer of the language-model service: its candidates' parts and the function calls it asks for. */
  datatype Response = Response(candidates: seq<seq<Part>>, functionCalls: Option<seq<FunctionCall>>)

  /** The language-model service, given the whole conversation so far. */
  type Service = seq<Content> -> Response

  /** What answers one function call: a message, or an exception that propagates. */
  type Handler = FunctionCall -> Result<Content, Fault>

  /** The program's handler: `call_function` over the given operations. */
  function Handle(ops: Operations): Handler {
    call => CallFunction(ops, call)
  }

  /** `response.function_calls`, with `None` read as no calls. */
  function Calls(r: Response): (calls: seq<FunctionCall>)
    ensures r.functionCalls.Some? ==> calls == r.functionCalls.value
    ensures r.functionCalls.None? ==> calls == []
  {
    if r.functionCalls.Some? then r.functionCalls.value else []
  }

  /** The model messages one response adds: one per candidate, in order. */
  function ModelMessages(r: Response): (ms: seq<Content>)
    ensures |ms| == |r.candidates|
    ensures forall i :: 0 <= i < |ms| ==> ms[i] == Content(Model, r.candidates[i])
  {
    seq(|r.candidates|, i requires 0 <= i < |r.candidates| => Content(Model, r.candidates[i]))
  }

  /**
   * The test `function_response.parts[0].function_response.response is None`.  A message
   * without a function-response first part, which `call_function` never builds, counts as
   * missing its response too.
   */
  predicate NoResponse(m: Content) {
    !(|m.parts| > 0 && m.parts[0].FunctionResponse? && m.parts[0].response.Some?)
  }

  /** Why the program stops inside a turn: an exception, or `sys.exit(1)` on a missing response. */
  datatype Halt = Uncaught(fault: Fault) | MissingResponse(name: string)

  /** Whether handling one call stops the program, and how. */
  function HaltOf(answer: Result<Content, Fault>, name: string): (h: Option<Halt>)
    ensures h.None? <==> answer.Ok? && !NoResponse(answer.value)
    ensures answer.Err? ==> h == Some(Uncaught(answer.error))
  {
    if answer.Err? then Some(Uncaught(answer.error))
    else if NoResponse(answer.value) then Some(MissingResponse(name))
    else None
  }

  /** The tool messages for one response's calls, and what stopped the program, if anything did. */
  datatype Dispatched = Dispatched(messages: seq<Content>, halt: Option<Halt>)

  /**
   * The calls of one response handled in order: one message per call, each the
   * handler's answer to that call, until a call stops the program.
   */
  function DispatchAll(handler: Handler, calls: seq<FunctionCall>): (d: Dispatched)
    ensures |d.messages| <= |calls|
    ensures d.halt.None? ==> |d.messages| == |calls|
    ensures d.halt.Some? ==>
      |d.messages| < |calls| && d.halt == HaltOf(handler(calls[|d.messages|]), calls[|d.messages|].name)
    ensures forall i :: 0 <= i < |d.messages| ==>
      handler(calls[i]) == Ok(d.messages[i]) && !NoResponse(d.messages[i])
    decreases |calls|
  {
    if calls == [] then Dispatched([], None)
    else
      var h := HaltOf(handler(calls[0]), calls[0].name);
      if h.Some? then Dispatched([], h)
      else
        var rest := DispatchAll(handler, calls[1..]);
        Dispatched([handler(calls[0]).value] + rest.messages, rest.halt)
  }

  /** How a turn ended: a final answer, the budget, or the program stopping. */
  datatype Ending = Answered | BudgetReached | Halted(halt: Halt)

  /**
   * Where a turn leaves the conversation: its messages, `tool_call_count`, how many
   * requests went to the model, how many calls the last response asked for, and why it ended.
   */
  datatype TurnResult = TurnResult(
    messages: seq<Content>, toolCallCount: nat, requests: nat, lastCalls: nat, ending: Ending)

  /** The rest of a turn, from the head of the inner loop with the given state. */
  function Turn(service: Service, handler: Handler, messages: seq<Content>, count: nat, requests: nat, lastCalls: nat)
    : TurnResult
    decreases MaxToolCalls - count
  {
    if count >= MaxToolCalls then TurnResult(messages, count, requests, lastCalls, BudgetReached)
    else
      var response := service(messages);
      var withModel := messages + ModelMessages(response);
      var calls := Calls(response);
      if calls == [] then TurnResult(withModel, count, requests + 1, 0, Answered)
      else
        var d := DispatchAll(handler, calls);
        if d.halt.Some? then
          TurnResult(withModel + d.messages, count + |d.messages| + 1, requests + 1, |calls|, Halted(d.halt.value))
        else Turn(service, handler, withModel + d.messages, count + |calls|, requests + 1, |calls|)
  }

  /** A whole user turn: the inner loop entered with the counter reset to 0. */
  function UserTurn(service: Service, handler: Handler, history: seq<Content>): TurnResult {
    Turn(service, handler, history, 0, 0, 0)
  }

  // ---------------------------------------------------------------------
  // One pass of the inner loop, unfolded
  // ---------------------------------------------------------------------

  /** A response without calls ends the turn with an answer. */
  lemma {:induction false} TurnAnswers(service: Service, handler: Handler, messages: seq<Content>, count: nat, requests: nat, lastCalls: nat)
    requires count < MaxToolCalls && Calls(service(messages)) == []
    ensures Turn(service, handler, messages, count, requests, lastCalls) ==
      TurnResult(messages + ModelMessages(service(messages)), count, requests + 1, 0, Answered)
  {
  }

  /** A response whose calls are all answered goes back to the head of the loop. */
  lemma {:induction false} TurnContinues(service: Service, handler: Handler, messages: seq<Content>, count: nat, requests: nat, lastCalls: nat)
    requires count < MaxToolCalls
    requires var calls := Calls(service(messages)); calls != [] && DispatchAll(handler, calls).halt.None?
    ensures var calls := Calls(service(messages));
      Turn(service, handler, messages, count, requests, lastCalls) ==
      Turn(service, handler, messages + ModelMessages(service(messages)) + DispatchAll(handler, calls).messages,
           count + |calls|, requests + 1, |calls|)
  {
  }

  /** A response with a call that stops the program ends the turn right there. */
  lemma {:induction false} TurnHalts(service: Service, handler: Handler, messages: seq<Content>, count: nat, requests: nat, lastCalls: nat)
    requires count < MaxToolCalls
    requires var calls := Calls(service(messages)); calls != [] && DispatchAll(handler, calls).halt.Some?
    ensures var calls := Calls(service(messages));
      var d := DispatchAll(handler, calls);
      Turn(service, handler, messages, count, requests, lastCalls) ==
      TurnResult(messages + ModelMessages(service(messages)) + d.messages, count + |d.messages| + 1,
                 requests + 1, |calls|, Halted(d.halt.value))
  {
  }

  /** The `j`-th call was answered: its message extends the first `j` of the dispatch. */
  lemma {:induction false} DispatchAnswered(handler: Handler, calls: seq<FunctionCall>, j: nat)
    requires j < |calls| && j <= |DispatchAll(handler, calls).messages|
    requires HaltOf(handler(calls[j]), calls[j].name).None?
    ensures j < |DispatchAll(handler, calls).messages|
    ensures DispatchAll(handler, calls).messages[..j + 1] ==
      DispatchAll(handler, calls).messages[..j] + [handler(calls[j]).value]
  {
    var d := DispatchAll(handler, calls);
    assert d.messages[..j + 1] == d.messages[..j] + [d.messages[j]];
  }

  /** All calls were answered: nothing stopped the program, and the messages are the ones collected. */
  lemma {:induction false} DispatchFinished(handler: Handler, calls: seq<FunctionCall>, j: nat)
    requires j == |calls| && j <= |DispatchAll(handler, calls).messages|
    ensures DispatchAll(handler, calls).halt.None?
    ensures DispatchAll(handler, calls).messages[..j] == DispatchAll(handler, calls).messages
  {
  }

  /** The `j`-th call stopped the program: the dispatch ends after `j` messages, for that reason. */
  lemma {:induction false} DispatchStopped(handler: Handler, calls: seq<FunctionCall>, j: nat)
    requires j < |calls| && j <= |DispatchAll(handler, calls).messages|
    requires HaltOf(handler(calls[j]), calls[j].name).Some?
    ensures DispatchAll(handler, calls).messages[..j] == DispatchAll(handler, calls).messages
    ensures DispatchAll(handler, calls).halt == HaltOf(handler(calls[j]), calls[j].name)
  {
  }

  // ---------------------------------------------------------------------
  // The loops of `main`
  // ---------------------------------------------------------------------

  /** The `for candidate in response.candidates` loop: one model message per candidate. */
  method AppendCandidates(messages: seq<Content>, response: Response) returns (withModel: seq<Content>)
    ensures withModel == messages + ModelMessages(response)
  {
    withModel := messages;
    var i := 0;
    while i < |response.candidates|
      invariant 0 <= i <= |response.candidates|
      invariant withModel == messages + ModelMessages(response)[..i]
    {
      withModel := withModel + [Content(Model, response.candidates[i])];
      i := i + 1;
    }
    assert ModelMessages(response)[..i] == ModelMessages(response);
  }

  /**
   * The `for call in response.function_calls` loop: count each call before handling it,
   * stop the program on an exception or a missing response, append each message.
   */
  method DispatchCalls(handler: Handler, calls: seq<FunctionCall>, messages: seq<Content>, count: nat)
    returns (withTools: seq<Content>, newCount: nat, halt: Option<Halt>)
    ensures withTools == messages + DispatchAll(handler, calls).messages
    ensures halt == DispatchAll(handler, calls).halt
    ensures newCount == count + |DispatchAll(handler, calls).messages| + (if halt.Some? then 1 else 0)
  {
    ghost var d := DispatchAll(handler, calls);
    withTools, newCount := messages, count;
    var j := 0;
    while j < |calls|
      invariant j <= |d.messages| && withTools == messages + d.messages[..j]
      invariant newCount == count + j
    {
      newCount := newCount + 1;
      var functionResponse := handler(calls[j]);
      if functionResponse.Err? {
        DispatchStopped(handler, calls, j);
        return withTools, newCount, Some(Uncaught(functionResponse.error));
      }
      if NoResponse(functionResponse.value) {
        DispatchStopped(handler, calls, j);
        return withTools, newCount, Some(MissingResponse(calls[j].name));
      }
      DispatchAnswered(handler, calls, j);
      withTools := withTools + [functionResponse.value];
      j := j + 1;
    }
    DispatchFinished(handler, calls, j);
    halt := None;
  }

  /**
   * One pass of the inner `while` loop, entered with the counter under the budget: ask the
   * model, record its candidates, and handle its calls.  Either the turn ends here (`ending`
   * is set) with the result the rest of the turn has, or the loop goes round again from a
   * state with the same rest of the turn and a larger counter.
   */
  method Step(service: Service, handler: Handler, messages: seq<Content>, count: nat,
              ghost requests: nat, ghost lastCalls: nat)
    returns (messages': seq<Content>, count': nat, ending: Option<Ending>, ghost requests': nat, ghost lastCalls': nat)
    requires count < MaxToolCalls
    ensures ending.Some? ==>
      TurnResult(messages', count', requests', lastCalls', ending.value) ==
      Turn(service, handler, messages, count, requests, lastCalls)
    ensures ending.None? ==> count < count'
    ensures ending.None? ==>
      Turn(service, handler, messages', count', requests', lastCalls') ==
      Turn(service, handler, messages, count, requests, lastCalls)
  {
    var response := service(messages);
    messages' := AppendCandidates(messages, response);
    requests' := requests + 1;
    if response.functionCalls.Some? && |response.functionCalls.value| != 0 {
      var calls := response.functionCalls.value;
      var halt;
      messages', count', halt := DispatchCalls(handler, calls, messages', count);
      lastCalls' := |calls|;
      if halt.Some? {
        TurnHalts(service, handler, messages, count, requests, lastCalls);
        ending := Some(Halted(halt.value));
      } else {
        TurnContinues(service, handler, messages, count, requests, lastCalls);
        ending := None;
      }
    } else {
      TurnAnswers(service, handler, messages, count, requests, lastCalls);
      count', ending, lastCalls' := count, Some(Answered), 0;
    }
  }

  /** The inner `while` loop of `main`, from the reset of the counter to the end of the turn. */
  method RunTurn(service: Service, handler: Handler, history: seq<Content>)
    returns (messages: seq<Content>, toolCallCount: nat, ending: Ending, ghost requests: nat, ghost lastCalls: nat)
    ensures messages == UserTurn(service, handler, history).messages
    ensures toolCallCount == UserTurn(service, handler, history).toolCallCount
    ensures ending == UserTurn(service, handler, history).ending
    ensures TurnResult(messages, toolCallCount, requests, lastCalls, ending) == UserTurn(service, handler, history)
  {
    messages, toolCallCount := history, 0;
    requests, lastCalls := 0, 0;
    while toolCallCount < MaxToolCalls
      invariant Turn(service, handler, messages, toolCallCount, requests, lastCalls) == UserTurn(service, handler, history)
      decreases MaxToolCalls - toolCallCount
    {
      var stop;
      messages, toolCallCount, stop, requests, lastCalls := Step(service, handler, messages, toolCallCount, requests, lastCalls);
      if stop.Some? {
        ending := stop.value;
        return;
      }
    }
    ending := BudgetReached;
  }

  // ---------------------------------------------------------------------
  // What a turn guarantees
  // ---------------------------------------------------------------------

  /** At or over the budget the loop is not entered again. */
  lemma {:induction false} TurnAtBudget(service: Service, handler: Handler, messages: seq<Content>,
                                         count: nat, requests: nat, lastCalls: nat)
    requires count >= MaxToolCalls
    ensures Turn(service, handler, messages, count, requests, lastCalls) ==
      TurnResult(messages, count, requests, lastCalls, BudgetReached)
  {
  }

  /** A turn only appends: the conversation before it is kept as it was. */
  lemma {:induction false} TurnExtends(service: Service, handler: Handler, messages: seq<Content>,
                                        count: nat, requests: nat, lastCalls: nat)
    ensures messages <= Turn(service, handler, messages, count, requests, lastCalls).messages
    decreases MaxToolCalls - count
  {
    if count >= MaxToolCalls {
      TurnAtBudget(service, handler, messages, count, requests, lastCalls);
    } else {
      var response := service(messages);
      var calls := Calls(response);
      var d := DispatchAll(handler, calls);
      var next := messages + ModelMessages(response) + d.messages;
      assert messages <= next;
      if calls == [] {
        TurnAnswers(service, handler, messages, count, requests, lastCalls);
      } else if d.halt.Some? {
        TurnHalts(service, handler, messages, count, requests, lastCalls);
      } else {
        TurnContinues(service, handler, messages, count, requests, lastCalls);
        TurnExtends(service, handler, next, count + |calls|, requests + 1, |calls|);
      }
    }
  }

  /**
   * A turn entered under the budget asks the model at least once, and at most once for
   * each tool call the budget had left.
   */
  lemma {:induction false} TurnRequests(service: Service, handler: Handler, messages: seq<Content>,
                                         count: nat, requests: nat, lastCalls: nat)
    requires count < MaxToolCalls
    ensures var r := Turn(service, handler, messages, count, requests, lastCalls);
      requests < r.requests <= requests + (MaxToolCalls - count)
    decreases MaxToolCalls - count
  {
    var response := service(messages);
    var calls := Calls(response);
    var d := DispatchAll(handler, calls);
    var next := messages + ModelMessages(response) + d.messages;
    if calls == [] {
      TurnAnswers(service, handler, messages, count, requests, lastCalls);
    } else if d.halt.Some? {
      TurnHalts(service, handler, messages, count, requests, lastCalls);
    } else {
      TurnContinues(service, handler, messages, count, requests, lastCalls);
      if count + |calls| < MaxToolCalls {
        TurnRequests(service, handler, next, count + |calls|, requests + 1, |calls|);
      } else {
        TurnAtBudget(service, handler, next, count + |calls|, requests + 1, |calls|);
      }
    }
  }

  /**
   * The notice condition after the inner loop: a turn ends on the budget exactly when
   * the counter reached it, and an answered turn stayed under it.
   */
  lemma {:induction false} TurnEnding(service: Service, handler: Handler, messages: seq<Content>,
                                       count: nat, requests: nat, lastCalls: nat)
    ensures var r := Turn(service, handler, messages, count, requests, lastCalls);
      count <= r.toolCallCount &&
      (r.ending == BudgetReached <==> !r.ending.Halted? && r.toolCallCount >= MaxToolCalls)
    decreases MaxToolCalls - count
  {
    if count >= MaxToolCalls {
      TurnAtBudget(service, handler, messages, count, requests, lastCalls);
    } else {
      var response := service(messages);
      var calls := Calls(response);
      var d := DispatchAll(handler, calls);
      var next := messages + ModelMessages(response) + d.messages;
      if calls == [] {
        TurnAnswers(service, handler, messages, count, requests, lastCalls);
      } else if d.halt.Some? {
        TurnHalts(service, handler, messages, count, requests, lastCalls);
      } else {
        TurnContinues(service, handler, messages, count, requests, lastCalls);
        TurnEnding(service, handler, next, count + |calls|, requests + 1, |calls|);
      }
    }
  }

  /**
   * The budget is tested only before asking the model, so a turn entered under it overshoots
   * by less than the calls of its last response: the counter was under the budget when that
   * response came.
   */
  lemma {:induction false} TurnOvershoot(service: Service, handler: Handler, messages: seq<Content>,
                                          count: nat, requests: nat, lastCalls: nat)
    requires count < MaxToolCalls
    ensures var r := Turn(service, handler, messages, count, requests, lastCalls);
      r.ending == BudgetReached ==> 0 < r.lastCalls && r.toolCallCount < MaxToolCalls + r.lastCalls
    decreases MaxToolCalls - count
  {
    var response := service(messages);
    var calls := Calls(response);
    var d := DispatchAll(handler, calls);
    var next := messages + ModelMessages(response) + d.messages;
    if calls == [] {
      TurnAnswers(service, handler, messages, count, requests, lastCalls);
    } else if d.halt.Some? {
      TurnHalts(service, handler, messages, count, requests, lastCalls);
    } else {
      TurnContinues(service, handler, messages, count, requests, lastCalls);
      if count + |calls| < MaxToolCalls {
        TurnOvershoot(service, handler, next, count + |calls|, requests + 1, |calls|);
      } else {
        TurnAtBudget(service, handler, next, count + |calls|, requests + 1, |calls|);
      }
    }
  }

  /** A handler that, like `call_function`, answers every call it returns from with a tool message. */
  ghost predicate Replies(handler: Handler) {
    forall c :: handler(c).Ok? ==> IsToolMessage(handler(c).value, c.name)
  }

  /** `call_function` answers with tool messages that carry a response. */
  lemma {:induction false} HandleReplies(ops: Operations)
    ensures Replies(Handle(ops))
  {
    forall c | Handle(ops)(c).Ok?
      ensures IsToolMessage(Handle(ops)(c).value, c.name)
    {
      assert Handle(ops)(c) == CallFunction(ops, c);
    }
  }

  /** With such a handler, the only thing that can stop a dispatch is an exception. */
  lemma {:induction false} DispatchOnlyRaises(handler: Handler, calls: seq<FunctionCall>)
    requires Replies(handler)
    ensures DispatchAll(handler, calls).halt.Some? ==> DispatchAll(handler, calls).halt.value.Uncaught?
  {
    var d := DispatchAll(handler, calls);
    if d.halt.Some? {
      var c := calls[|d.messages|];
      assert handler(c).Ok? ==> IsToolMessage(handler(c).value, c.name);
    }
  }

  /** With such a handler, the `None` check in the loop never stops the program. */
  lemma {:induction false} TurnNeverMissing(service: Service, handler: Handler, messages: seq<Content>,
                                             count: nat, requests: nat, lastCalls: nat)
    requires Replies(handler)
    ensures var r := Turn(service, handler, messages, count, requests, lastCalls);
      r.ending.Halted? ==> r.ending.halt.Uncaught?
    decreases MaxToolCalls - count
  {
    if count < MaxToolCalls {
      var response := service(messages);
      var calls := Calls(response);
      DispatchOnlyRaises(handler, calls);
      var d := DispatchAll(handler, calls);
      var next := messages + ModelMessages(response) + d.messages;
      if calls != [] && d.halt.None? {
        TurnNeverMissing(service, handler, next, count + |calls|, requests + 1, |calls|);
      }
    }
  }

  /** So `sys.exit(1)` in the turn loop is unreachable: a turn of `main` ends on an exception or not at all early. */
  lemma {:induction false} NoResponseCheckNeverFires(service: Service, ops: Operations, history: seq<Content>)
    ensures UserTurn(service, Handle(ops), history).ending.Halted? ==>
      UserTurn(service, Handle(ops), history).ending.halt.Uncaught?
  {
    HandleReplies(ops);
    TurnNeverMissing(service, Handle(ops), history, 0, 0, 0);
  }

  /** The number of tool messages in a conversation. */
  function ToolCount(ms: seq<Content>): (n: nat)
    ensures n <= |ms|
  {
    if ms == [] then 0 else (if ms[0].role == Tool then 1 else 0) + ToolCount(ms[1..])
  }

  lemma {:induction false} ToolCountAppend(xs: seq<Content>, ys: seq<Content>)
    ensures ToolCount(xs + ys) == ToolCount(xs) + ToolCount(ys)
    decreases |xs|
  {
    if xs == [] {
      assert xs + ys == ys;
    } else {
      ToolCountAppend(xs[1..], ys);
      assert (xs + ys)[1..] == xs[1..] + ys;
    }
  }

  /** Model messages are not tool messages. */
  lemma {:induction false} ToolCountModel(ms: seq<Content>)
    requires forall i :: 0 <= i < |ms| ==> ms[i].role == Model
    ensures ToolCount(ms) == 0
    decreases |ms|
  {
    if ms != [] {
      ToolCountModel(ms[1..]);
    }
  }

  /** Every message a dispatch of such a handler collects is a tool message. */
  lemma {:induction false} ToolCountDispatched(handler: Handler, calls: seq<FunctionCall>)
    requires Replies(handler)
    ensures ToolCount(DispatchAll(handler, calls).messages) == |DispatchAll(handler, calls).messages|
  {
    var ms := DispatchAll(handler, calls).messages;
    forall i | 0 <= i < |ms|
      ensures ms[i].role == Tool
    {
      assert IsToolMessage(handler(calls[i]).value, calls[i].name);
    }
    ToolCountAll(ms);
  }

  lemma {:induction false} ToolCountAll(ms: seq<Content>)
    requires forall i :: 0 <= i < |ms| ==> ms[i].role == Tool
    ensures ToolCount(ms) == |ms|
    decreases |ms|
  {
    if ms != [] {
      ToolCountAll(ms[1..]);
    }
  }

  /** The tool messages one pass of the loop adds: as many as the calls answered. */
  lemma {:induction false} ToolCountPass(handler: Handler, response: Response, calls: seq<FunctionCall>)
    requires Replies(handler)
    ensures ToolCount(ModelMessages(response) + DispatchAll(handler, calls).messages) ==
      |DispatchAll(handler, calls).messages|
  {
    ToolCountAppend(ModelMessages(response), DispatchAll(handler, calls).messages);
    ToolCountModel(ModelMessages(response));
    ToolCountDispatched(handler, calls);
  }

  /**
   * The counter of a turn that started from `messages` with `count` went up by the number
   * of tool messages the turn added, plus one for the call that stopped the program, if one did.
   */
  predicate Counted(messages: seq<Content>, r: TurnResult, count: nat) {
    r.toolCallCount + ToolCount(messages) == count + ToolCount(r.messages) + (if r.ending.Halted? then 1 else 0)
  }

  lemma {:induction false} CountedPass(messages: seq<Content>, pass: seq<Content>, r: TurnResult, count: nat)
    requires r.messages == messages + pass
    requires r.toolCallCount == count + ToolCount(pass) + (if r.ending.Halted? then 1 else 0)
    ensures Counted(messages, r, count)
  {
    ToolCountAppend(messages, pass);
  }

  lemma {:induction false} CountedLater(messages: seq<Content>, pass: seq<Content>, r: TurnResult, count: nat)
    requires Counted(messages + pass, r, count + ToolCount(pass))
    ensures Counted(messages, r, count)
  {
    ToolCountAppend(messages, pass);
  }

  /** A turn that ends with an answer adds no tool message and leaves the counter as it was. */
  lemma {:induction false} CountedAnswered(service: Service, handler: Handler, messages: seq<Content>,
                                            count: nat, requests: nat, lastCalls: nat)
    requires count < MaxToolCalls && Calls(service(messages)) == []
    ensures Counted(messages, Turn(service, handler, messages, count, requests, lastCalls), count)
  {
    var response := service(messages);
    TurnAnswers(service, handler, messages, count, requests, lastCalls);
    ToolCountModel(ModelMessages(response));
    CountedPass(messages, ModelMessages(response), Turn(service, handler, messages, count, requests, lastCalls), count);
  }

  /** A turn that stops the program counted the answered calls and the one that stopped it. */
  lemma {:induction false} CountedHalted(service: Service, handler: Handler, messages: seq<Content>,
                                          count: nat, requests: nat, lastCalls: nat)
    requires Replies(handler) && count < MaxToolCalls
    requires var calls := Calls(service(messages)); calls != [] && DispatchAll(handler, calls).halt.Some?
    ensures Counted(messages, Turn(service, handler, messages, count, requests, lastCalls), count)
  {
    var response := service(messages);
    var calls := Calls(response);
    var d := DispatchAll(handler, calls);
    var pass := ModelMessages(response) + d.messages;
    ToolCountPass(handler, response, calls);
    TurnHalts(service, handler, messages, count, requests, lastCalls);
    assert messages + ModelMessages(response) + d.messages == messages + pass;
    CountedPass(messages, pass, Turn(service, handler, messages, count, requests, lastCalls), count);
  }

  /**
   * `tool_call_count` counts the tool messages the turn appends, plus the call that stopped
   * the program, if one did.
   */
  lemma {:induction false} TurnCountsToolMessages(service: Service, handler: Handler, messages: seq<Content>,
                                                   count: nat, requests: nat, lastCalls: nat)
    requires Replies(handler)
    ensures Counted(messages, Turn(service, handler, messages, count, requests, lastCalls), count)
    decreases MaxToolCalls - count
  {
    if count >= MaxToolCalls {
      TurnAtBudget(service, handler, messages, count, requests, lastCalls);
    } else {
      var response := service(messages);
      var calls := Calls(response);
      var d := DispatchAll(handler, calls);
      if calls == [] {
        CountedAnswered(service, handler, messages, count, requests, lastCalls);
      } else if d.halt.Some? {
        CountedHalted(service, handler, messages, count, requests, lastCalls);
      } else {
        var pass := ModelMessages(response) + d.messages;
        ToolCountPass(handler, response, calls);
        TurnContinues(service, handler, messages, count, requests, lastCalls);
        assert messages + ModelMessages(response) + d.messages == messages + pass;
        TurnCountsToolMessages(service, handler, messages + pass, count + |calls|, requests + 1, |calls|);
        CountedLater(messages, pass, Turn(service, handler, messages + pass, count + |calls|, requests + 1, |calls|), count);
      }
    }
  }

  /** `after` extends `before` with messages none of which is from the user. */
  ghost predicate AddsNoUser(before: seq<Content>, after: seq<Content>) {
    before <= after && forall k :: |before| <= k < |after| ==> after[k].role != User
  }

  lemma {:induction false} AddsNoUserTrans(a: seq<Content>, b: seq<Content>, c: seq<Content>)
    requires AddsNoUser(a, b) && AddsNoUser(b, c)
    ensures AddsNoUser(a, c)
  {
    assert c[..|b|] == b;
  }

  /** One pass of the loop adds model and tool messages only. */
  lemma {:induction false} PassAddsNoUser(handler: Handler, messages: seq<Content>, response: Response,
                                           calls: seq<FunctionCall>)
    requires Replies(handler)
    ensures AddsNoUser(messages, messages + ModelMessages(response) + DispatchAll(handler, calls).messages)
  {
    var mm := ModelMessages(response);
    var ms := DispatchAll(handler, calls).messages;
    var after := messages + mm + ms;
    forall k | |messages| <= k < |after|
      ensures after[k].role != User
    {
      if k < |messages| + |mm| {
        assert after[k] == mm[k - |messages|];
      } else {
        var i := k - |messages| - |mm|;
        assert after[k] == ms[i];
        assert IsToolMessage(handler(calls[i]).value, calls[i].name);
      }
    }
  }

  /** With a handler like `call_function`, a turn adds no user message to the conversation. */
  lemma {:induction false} TurnAddsNoUser(service: Service, handler: Handler, messages: seq<Content>,
                                           count: nat, requests: nat, lastCalls: nat)
    requires Replies(handler)
    ensures AddsNoUser(messages, Turn(service, handler, messages, count, requests, lastCalls).messages)
    decreases MaxToolCalls - count
  {
    if count >= MaxToolCalls {
      TurnAtBudget(service, handler, messages, count, requests, lastCalls);
    } else {
      var response := service(messages);
      var calls := Calls(response);
      var d := DispatchAll(handler, calls);
      var next := messages + ModelMessages(response) + d.messages;
      PassAddsNoUser(handler, messages, response, calls);
      if calls == [] {
        TurnAnswers(service, handler, messages, count, requests, lastCalls);
        assert d.messages == [] && next == messages + ModelMessages(response);
      } else if d.halt.Some? {
        TurnHalts(service, handler, messages, count, requests, lastCalls);
      } else {
        TurnContinues(service, handler, messages, count, requests, lastCalls);
        TurnAddsNoUser(service, handler, next, count + |calls|, requests + 1, |calls|);
        AddsNoUserTrans(messages, next, Turn(service, handler, next, count + |calls|, requests + 1, |calls|).messages);
      }
    }
  }

  /** How the session ended: `/q`, no more input, or the program stopping inside a turn. */
  datatype SessionEnd = Quit | InputExhausted | Stopped(halt: Halt)

  /**
   * Where a session leaves the conversation: its messages, for each turn that finished
   * whether the budget notice was printed, and how it ended.
   */
  datatype SessionResult = SessionResult(messages: seq<Content>, notices: seq<bool>, end: SessionEnd)

  /** The message a prompt is recorded as. */
  function UserMessage(prompt: string): (m: Content)
    ensures m.role == User && m.parts == [Text(prompt)]
  {
    Content(User, [Text(prompt)])
  }

  /**
   * The outer `while True` loop: one turn, the notice if the counter reached the budget,
   * then the next prompt, which ends the session when it strips to `/q` and is recorded
   * otherwise.  `prompts` are the lines the user types, in order.
   */
  function Session(service: Service, handler: Handler, messages: seq<Content>, prompts: seq<string>): SessionResult
    decreases |prompts|
  {
    var turn := UserTurn(service, handler, messages);
    if turn.ending.Halted? then SessionResult(turn.messages, [], Stopped(turn.ending.halt))
    else
      var notice := turn.toolCallCount >= MaxToolCalls;
      if prompts == [] then SessionResult(turn.messages, [notice], InputExhausted)
      else if PyText.Strip(PyText.Str, prompts[0]) == QuitCommand then SessionResult(turn.messages, [notice], Quit)
      else
        var rest := Session(service, handler, turn.messages + [UserMessage(prompts[0])], prompts[1..]);
        SessionResult(rest.messages, [notice] + rest.notices, rest.end)
  }

  /** A turn that stops the program ends the session with it. */
  lemma {:induction false} SessionStops(service: Service, handler: Handler, messages: seq<Content>, prompts: seq<string>)
    requires UserTurn(service, handler, messages).ending.Halted?
    ensures var turn := UserTurn(service, handler, messages);
      Session(service, handler, messages, prompts) == SessionResult(turn.messages, [], Stopped(turn.ending.halt))
  {
  }

  /** After a turn that finished, no prompt left or `/q` ends the session with that turn's notice. */
  lemma {:induction false} SessionEnds(service: Service, handler: Handler, messages: seq<Content>, prompts: seq<string>)
    requires !UserTurn(service, handler, messages).ending.Halted?
    requires prompts == [] || PyText.Strip(PyText.Str, prompts[0]) == QuitCommand
    ensures var turn := UserTurn(service, handler, messages);
      Session(service, handler, messages, prompts) ==
      SessionResult(turn.messages, [turn.toolCallCount >= MaxToolCalls], if prompts == [] then InputExhausted else Quit)
  {
  }

  /** After a turn that finished, any other prompt is recorded and the next turn begins. */
  lemma {:induction false} SessionGoesOn(service: Service, handler: Handler, messages: seq<Content>, prompts: seq<string>)
    requires !UserTurn(service, handler, messages).ending.Halted?
    requires prompts != [] && PyText.Strip(PyText.Str, prompts[0]) != QuitCommand
    ensures var turn := UserTurn(service, handler, messages);
      var rest := Session(service, handler, turn.messages + [UserMessage(prompts[0])], prompts[1..]);
      Session(service, handler, messages, prompts) ==
      SessionResult(rest.messages, [turn.toolCallCount >= MaxToolCalls] + rest.notices, rest.end)
  {
  }

  /**
   * `after` extends `before`, and every user message it adds is a single text part that
   * does not strip to the quit command.
   */
  ghost predicate NoQuitAdded(before: seq<Content>, after: seq<Content>) {
    before <= after &&
    forall k :: |before| <= k < |after| && after[k].role == User ==>
      |after[k].parts| == 1 && after[k].parts[0].Text? &&
      PyText.Strip(PyText.Str, after[k].parts[0].text) != QuitCommand
  }

  lemma {:induction false} NoQuitAddedTrans(a: seq<Content>, b: seq<Content>, c: seq<Content>)
    requires NoQuitAdded(a, b) && NoQuitAdded(b, c)
    ensures NoQuitAdded(a, c)
  {
    assert c[..|b|] == b;
  }

  /** Recording a prompt other than the quit command. */
  lemma {:induction false} NoQuitAddedPrompt(turnEnd: seq<Content>, prompt: string)
    requires PyText.Strip(PyText.Str, prompt) != QuitCommand
    ensures NoQuitAdded(turnEnd, turnEnd + [UserMessage(prompt)])
  {
  }

  /** With a handler like `call_function`, a session only appends, and `/q` is never recorded. */
  lemma {:induction false} SessionNeverRecordsQuit(service: Service, handler: Handler, messages: seq<Content>,
                                                    prompts: seq<string>)
    requires Replies(handler)
    ensures NoQuitAdded(messages, Session(service, handler, messages, prompts).messages)
    decreases |prompts|
  {
    var turn := UserTurn(service, handler, messages);
    TurnAddsNoUser(service, handler, messages, 0, 0, 0);
    assert NoQuitAdded(messages, turn.messages);
    if turn.ending.Halted? {
      SessionStops(service, handler, messages, prompts);
    } else if prompts == [] || PyText.Strip(PyText.Str, prompts[0]) == QuitCommand {
      SessionEnds(service, handler, messages, prompts);
    } else {
      SessionGoesOn(service, handler, messages, prompts);
      var mid := turn.messages + [UserMessage(prompts[0])];
      NoQuitAddedPrompt(turn.messages, prompts[0]);
      NoQuitAddedTrans(messages, turn.messages, mid);
      SessionNeverRecordsQuit(service, handler, mid, prompts[1..]);
      NoQuitAddedTrans(messages, mid, Session(service, handler, mid, prompts[1..]).messages);
    }
  }

  /**
   * One pass of the outer loop: a turn, its notice, and the next prompt.  Either the session
   * ends here (`end` is set) or the prompt is recorded and the session goes on from the
   * remaining prompts.
   */
  method TurnThenPrompt(service: Service, handler: Handler, messages: seq<Content>, prompts: seq<string>)
    returns (messages': seq<Content>, notes: seq<bool>, end: Option<SessionEnd>)
    ensures end.Some? ==>
      Session(service, handler, messages, prompts) == SessionResult(messages', notes, end.value)
    ensures end.None? ==> prompts != []
    ensures end.None? && prompts != [] ==>
      messages' == UserTurn(service, handler, messages).messages + [UserMessage(prompts[0])]
    ensures end.None? && prompts != [] ==>
      var r := Session(service, handler, messages', prompts[1..]);
      Session(service, handler, messages, prompts) == SessionResult(r.messages, notes + r.notices, r.end)
  {
    var toolCallCount, ending;
    ghost var requests, lastCalls;
    messages', toolCallCount, ending, requests, lastCalls := RunTurn(service, handler, messages);
    if ending.Halted? {
      SessionStops(service, handler, messages, prompts);
      return messages', [], Some(Stopped(ending.halt));
    }
    notes := [toolCallCount >= MaxToolCalls];
    if prompts == [] {
      SessionEnds(service, handler, messages, prompts);
      return messages', notes, Some(InputExhausted);
    }
    var prompt := prompts[0];
    if PyText.Strip(PyText.Str, prompt) == QuitCommand {
      SessionEnds(service, handler, messages, prompts);
      return messages', notes, Some(Quit);
    }
    SessionGoesOn(service, handler, messages, prompts);
    messages' := messages' + [UserMessage(prompt)];
    end := None;
  }

  /** `main`'s conversation, from the first prompt already in `history`. */
  method Converse(service: Service, handler: Handler, history: seq<Content>, prompts: seq<string>)
    returns (messages: seq<Content>, notices: seq<bool>, end: SessionEnd)
    ensures SessionResult(messages, notices, end) == Session(service, handler, history, prompts)
  {
    messages, notices := history, [];
    var rest := prompts;
    while true
      invariant |rest| <= |prompts|
      invariant Session(service, handler, history, prompts) ==
        var r := Session(service, handler, messages, rest); SessionResult(r.messages, notices + r.notices, r.end)
      decreases |rest|
    {
      ghost var notesBefore := notices;
      var notes, stop;
      messages, notes, stop := TurnThenPrompt(service, handler, messages, rest);
      notices := notices + notes;
      if stop.Some? {
        return messages, notices, stop.value;
      }
      rest := rest[1..];
      assert notesBefore + (notes + Session(service, handler, messages, rest).notices) ==
        notices + Session(service, handler, messages, rest).notices;
    }
  }
}
