/**
 * The orchestration side of app.py: the tool registry, the dispatch of one
 * function call, the tool-calling loop `_run_tools_if_any`, `ask` with its
 * fallback text, `reset_chat`, and the knowledge truncation step.
 *
 * The remote model is a scripted oracle: a `Chat` holds the replies it will
 * give, in order, and records every message it is sent.  The loop is
 * specified by the functions `Round` and `Loop`; the methods are proved to
 * change the chat and the logs exactly as those functions say.
 */
module App {
  import opened Base
  import opened Text
  import opened Tools

  // ---------------------------------------------------------------------------
  // Knowledge truncation (load_business_knowledge)

  const MaxChars: nat := 60000
  const TruncationMarker: string := "\n[...truncated...]"

  /**
   * Text of at most `MaxChars` characters is kept whole; longer text keeps
   * its first `MaxChars` characters and is marked as cut.
   */
  function TruncateKnowledge(text: string): (r: string)
    ensures |text| <= MaxChars ==> r == text
    ensures |text| > MaxChars ==>
      && |r| == MaxChars + |TruncationMarker|
      && r[..MaxChars] == text[..MaxChars]
      && r[MaxChars..] == TruncationMarker
  {
    if |text| > MaxChars then text[..MaxChars] + TruncationMarker else text
  }

  /** Truncating already truncated knowledge changes nothing. */
  lemma TruncateIdempotent(text: string)
    ensures TruncateKnowledge(TruncateKnowledge(text)) == TruncateKnowledge(text)
  {
    var r := TruncateKnowledge(text);
    if |text| > MaxChars {
      assert r[..MaxChars] + r[MaxChars..] == r;
    }
  }

  // ---------------------------------------------------------------------------
  // The registry and the dispatch of one call

  /**
   * `TOOLS_MAP`: exactly the two handler names, each mapped to the handler
   * that bears it.
   */
  function ToolsMap(): (m: map<string, Handler>)
    ensures m.Keys == {"record_customer_interest", "record_feedback"}
    ensures forall n :: n in m ==> m[n].Name() == n
  {
    map["record_customer_interest" := RecordCustomerInterest, "record_feedback" := RecordFeedback]
  }

  /**
   * The registry, the handlers' signatures and the schemas declared to the
   * model agree: the declared names are exactly the registry's keys, each
   * key names its own handler, and each declaration's required list, its
   * property names and the handler's parameters are the same list of
   * string-typed parameters.
   */
  lemma DeclarationsMatchRegistry()
    ensures var ds := FunctionDeclarations();
      && |ds| == |ToolsMap()|
      && (forall j, j' :: 0 <= j < j' < |ds| ==> ds[j].name != ds[j'].name)
      && (forall j :: 0 <= j < |ds| ==>
            && ds[j].name in ToolsMap()
            && ToolsMap()[ds[j].name].Name() == ds[j].name
            && ds[j].parameters.typ == "OBJECT"
            && ds[j].parameters.required == PropertyNames(ds[j].parameters.properties) == ToolsMap()[ds[j].name].Parameters()
            && (forall i :: 0 <= i < |ds[j].parameters.properties| ==> ds[j].parameters.properties[i].schema.typ == "STRING"))
  {
    var ds := FunctionDeclarations();
    assert PropertyNames(ds[0].parameters.properties) == ["email", "name", "message"];
    assert PropertyNames(ds[1].parameters.properties) == ["question"];
  }

  /** Every registered name is declared to the model. */
  lemma RegistryIsDeclared(name: string)
    requires name in ToolsMap()
    ensures exists j :: 0 <= j < |FunctionDeclarations()| && FunctionDeclarations()[j].name == name
  {
    var ds := FunctionDeclarations();
    if name == "record_customer_interest" {
      assert ds[0].name == name;
    } else {
      assert ds[1].name == name;
    }
  }

  /**
   * The keyword binding of `fn(**args)`: Python raises `TypeError` on an
   * argument the handler does not take, then on a parameter left unbound.
   */
  function BindError(h: Handler, args: map<string, string>): (e: Option<Exception>)
    ensures e.None? <==> args.Keys == set p | p in h.Parameters()
    ensures e.Some? ==> e.value.kind == "TypeError"
  {
    var params := set p | p in h.Parameters();
    if !(args.Keys <= params) then Some(Exception("TypeError", h.Name() + "() got an unexpected keyword argument"))
    else if args.Keys != params then Some(Exception("TypeError", h.Name() + "() missing a required argument"))
    else None
  }

  /**
   * `fn(**args)`: binding, then the handler.  An exception comes either from
   * the binding or from the log write, and nothing is written when one is
   * raised; at most one record is written in all.
   */
  function Invoke(h: Handler, args: map<string, string>, stamp: Stamp, fault: Option<Exception>): (o: Handled)
    ensures BindError(h, args).Some? ==> o == Handled(Failure(BindError(h, args).value), [], [])
    ensures o.result.Failure? ==> o.leads == [] && o.feedback == [] && (Some(o.result.error) == BindError(h, args) || Some(o.result.error) == fault)
    ensures |o.leads| + |o.feedback| <= 1
    ensures h == RecordFeedback ==> o.leads == []
    ensures h == RecordCustomerInterest ==> o.feedback == []
  {
    match BindError(h, args)
    case Some(e) => Handled(Failure(e), [], [])
    case None =>
      match h
      case RecordCustomerInterest =>
        CustomerInterest(Some(args["email"]), Some(args["name"]), Some(args["message"]), stamp.id, stamp.ts, fault)
      case RecordFeedback =>
        Feedback(Some(args["question"]), stamp.id, stamp.ts, fault)
  }

  function UnknownTool(name: string, args: map<string, string>): ToolResult
  {
    map["ok" := JBool(false), "error" := JStr("unknown_tool:" + name), "received_args" := JObj(args)]
  }

  function BadArguments(e: Exception, args: map<string, string>): ToolResult
  {
    map["ok" := JBool(false), "error" := JStr("bad_arguments:" + e.message), "received_args" := JObj(args)]
  }

  function RuntimeError(e: Exception): ToolResult
  {
    map["ok" := JBool(false), "error" := JStr("runtime:" + e.kind + ":" + e.message)]
  }

  /** The result of one dispatched call and the records it appended to each log. */
  datatype Dispatched = Dispatched(result: ToolResult, leads: seq<Record>, feedback: seq<Record>)

  /**
   * One call, as lines 112-123 of the loop handle it.  Every call yields a
   * result dict with an `ok` flag, whatever happens: an unknown name runs no
   * handler; a `TypeError` becomes `bad_arguments` and echoes the arguments;
   * any other exception becomes `runtime` and does not.  A record is
   * appended only by a handler that ran to completion.
   */
  function Dispatch(fc: FunctionCall, stamp: Stamp, fault: Option<Exception>): (d: Dispatched)
    ensures "ok" in d.result && d.result["ok"].JBool?
    ensures |d.leads| + |d.feedback| <= 1
    ensures d.leads != [] || d.feedback != [] ==> fc.name in ToolsMap() && d.result["ok"] == JBool(true)
    ensures "received_args" in d.result ==> d.result["received_args"] == JObj(fc.args)
  {
    if fc.name !in ToolsMap() then
      Dispatched(UnknownTool(fc.name, fc.args), [], [])
    else
      var h := Invoke(ToolsMap()[fc.name], fc.args, stamp, fault);
      match h.result
      case Success(r) =>
        assert r == InterestAccepted(stamp.id, stamp.ts) || r == InvalidEmail(stamp.id, stamp.ts)
            || r == FeedbackAccepted(stamp.id, stamp.ts);
        Dispatched(r, h.leads, h.feedback)
      case Failure(e) =>
        if e.kind == "TypeError" then Dispatched(BadArguments(e, fc.args), [], [])
        else Dispatched(RuntimeError(e), [], [])
  }

  // ---------------------------------------------------------------------------
  // The conversation with the remote model

  datatype FunctionCall = FunctionCall(name: string, args: map<string, string>)

  /** A content part: text, a function call, or neither. */
  datatype Part = Part(text: Option<string>, functionCall: Option<FunctionCall>)

  datatype Candidate = Candidate(parts: seq<Part>)

  /** A model response; `text` is the SDK's `.text` accessor, `None` where it raises. */
  datatype Response = Response(candidates: seq<Candidate>, text: Option<string>)

  /** A message sent to the model: the user's turn, or one `tool` message with a function response. */
  datatype Message = UserMessage(text: string) | ToolMessage(name: string, response: ToolResult)

  /** What the scripted model does with the next message: answer it, or fail in transport. */
  datatype Reply = Answer(response: Response) | Outage(reason: string)

  /** What `ask` lets propagate: a transport error, or the `IndexError` of a response without candidates. */
  datatype AskError = TransportError(reason: string) | NoCandidate

  /** The function calls among `parts`, in order (see `CallsOfMembers`). */
  function CallsOf(parts: seq<Part>): seq<FunctionCall>
  {
    if parts == [] then []
    else
      match parts[0].functionCall
      case Some(fc) => [fc] + CallsOf(parts[1..])
      case None => CallsOf(parts[1..])
  }

  /** A call is listed exactly when some part carries it. */
  lemma {:induction false} CallsOfMembers(parts: seq<Part>)
    ensures forall fc :: fc in CallsOf(parts) <==> exists i :: 0 <= i < |parts| && parts[i].functionCall == Some(fc)
  {
    if parts != [] {
      CallsOfMembers(parts[1..]);
      forall fc | (exists i :: 0 <= i < |parts| && parts[i].functionCall == Some(fc))
        ensures fc in CallsOf(parts)
      {
        var i :| 0 <= i < |parts| && parts[i].functionCall == Some(fc);
        if i > 0 {
          assert parts[1..][i - 1] == parts[i];
        }
      }
      forall fc | fc in CallsOf(parts)
        ensures exists i :: 0 <= i < |parts| && parts[i].functionCall == Some(fc)
      {
        if parts[0].functionCall != Some(fc) {
          var i :| 0 <= i < |parts[1..]| && parts[1..][i].functionCall == Some(fc);
          assert parts[i + 1] == parts[1..][i];
        }
      }
    }
  }

  /** The response's first candidate asks for at least one tool. */
  predicate Requests(resp: Response)
  {
    |resp.candidates| > 0 && CallsOf(resp.candidates[0].parts) != []
  }

  /**
   * The answer the model gives to the next send: the next scripted response,
   * or a transport failure when the script is exhausted or the next entry
   * is an outage.
   */
  function NextReply(script: seq<Reply>): (r: Result<Response, AskError>)
    ensures r.Success? <==> script != [] && script[0].Answer?
    ensures r.Success? ==> script[0] == Answer(r.value)
    ensures r.Failure? ==> r.error.TransportError?
  {
    if script == [] then Failure(TransportError("no reply"))
    else match script[0]
      case Answer(r) => Success(r)
      case Outage(reason) => Failure(TransportError(reason))
  }

  function Remaining(script: seq<Reply>): (rest: seq<Reply>)
    ensures script != [] ==> rest == script[1..]
    ensures script == [] ==> rest == []
  {
    if script == [] then [] else script[1..]
  }

  /** The state a turn works on: the model's remaining replies, what it was sent, and the two logs. */
  datatype World = World(script: seq<Reply>, sent: seq<Message>, leads: seq<Record>, feedback: seq<Record>)

  /** `w'` only grows the history and the logs of `w` and consumes its script. */
  predicate Extends(w': World, w: World)
  {
    w.sent <= w'.sent && w.leads <= w'.leads && w.feedback <= w'.feedback && |w'.script| <= |w.script|
  }

  /**
   * `chat.send_message(m)`: the message joins the history whatever the
   * answer, one scripted reply is consumed, and the logs are untouched.
   */
  function Send(w: World, m: Message): (out: (Result<Response, AskError>, World))
    ensures out.0 == NextReply(w.script)
    ensures out.1.sent == w.sent + [m] && out.1.leads == w.leads && out.1.feedback == w.feedback
    ensures |out.1.script| == if w.script == [] then 0 else |w.script| - 1
  {
    (NextReply(w.script), w.(script := Remaining(w.script), sent := w.sent + [m]))
  }

  /** How a turn executes its k-th call: `Dispatch` with the k-th drawn id and timestamp. */
  function Dispatcher(stamps: nat -> Stamp, fault: Option<Exception>): (nat, FunctionCall) -> Dispatched
  {
    (k: nat, fc: FunctionCall) => Dispatch(fc, stamps(k), fault)
  }

  /** The `tool` messages that answer `calls`, the first of them being call number `k` of the turn. */
  function ToolMessages(calls: seq<FunctionCall>, k: nat, run: (nat, FunctionCall) -> Dispatched): (ms: seq<Message>)
    ensures |ms| == |calls|
    ensures forall j :: 0 <= j < |calls| ==> ms[j].ToolMessage? && ms[j].name == calls[j].name
    decreases |calls|
  {
    if calls == [] then []
    else [ToolMessage(calls[0].name, run(k, calls[0]).result)] + ToolMessages(calls[1..], k + 1, run)
  }

  /** The lead records `calls` append, in call order. */
  function LeadsOf(calls: seq<FunctionCall>, k: nat, run: (nat, FunctionCall) -> Dispatched): seq<Record>
    decreases |calls|
  {
    if calls == [] then [] else run(k, calls[0]).leads + LeadsOf(calls[1..], k + 1, run)
  }

  /** The feedback records `calls` append, in call order. */
  function FeedbackOf(calls: seq<FunctionCall>, k: nat, run: (nat, FunctionCall) -> Dispatched): seq<Record>
    decreases |calls|
  {
    if calls == [] then [] else run(k, calls[0]).feedback + FeedbackOf(calls[1..], k + 1, run)
  }

  /**
   * Each `tool` message answers its own call: the j-th message carries the
   * j-th call's name and the result of executing that call.
   */
  lemma {:induction false} ToolMessagesAt(calls: seq<FunctionCall>, k: nat, run: (nat, FunctionCall) -> Dispatched, j: nat)
    requires j < |calls|
    ensures ToolMessages(calls, k, run)[j] == ToolMessage(calls[j].name, run(k + j, calls[j]).result)
    decreases j
  {
    if j > 0 {
      ToolMessagesAt(calls[1..], k + 1, run, j - 1);
    }
  }

  /** Where one round of the loop has got to. */
  datatype Progress = Progress(calledAny: bool, resp: Response, w: World, k: nat)

  /**
   * The `for part in parts` pass of one round, over the parts captured at its
   * start.  It only grows the history and the logs; a round without calls
   * changes nothing, and a round with calls consumes scripted replies.
   */
  function Round(parts: seq<Part>, p: Progress, run: (nat, FunctionCall) -> Dispatched): (out: Result<Progress, (AskError, World)>)
    ensures out.Failure? ==> Extends(out.error.1, p.w)
    ensures CallsOf(parts) == [] ==> out == Success(p)
    ensures out.Success? ==>
      && Extends(out.value.w, p.w)
      && out.value.calledAny == (p.calledAny || CallsOf(parts) != [])
      && (CallsOf(parts) != [] ==> |out.value.w.script| < |p.w.script|)
    decreases |parts|
  {
    if parts == [] then Success(p)
    else
      match parts[0].functionCall
      case None => Round(parts[1..], p, run)
      case Some(fc) =>
        var d := run(p.k, fc);
        var w1 := p.w.(leads := p.w.leads + d.leads, feedback := p.w.feedback + d.feedback);
        var w2 := w1.(script := Remaining(w1.script), sent := w1.sent + [ToolMessage(fc.name, d.result)]);
        match NextReply(w1.script)
        case Failure(err) => Failure((err, w2))
        case Success(r) => Round(parts[1..], Progress(true, r, w2, p.k + 1), run)
  }

  /**
   * A round that gets through its parts has consumed one scripted reply per
   * call and advanced the call counter by the number of calls.  The current
   * response is then the reply to the round's last send: the replies to the
   * earlier sends of the round are consumed but never looked at.
   */
  lemma {:induction false} RoundReplies(parts: seq<Part>, p: Progress, run: (nat, FunctionCall) -> Dispatched)
    requires Round(parts, p, run).Success?
    ensures
      var calls := CallsOf(parts);
      var q := Round(parts, p, run).value;
      && |calls| <= |p.w.script|
      && q.w.script == p.w.script[|calls|..]
      && q.k == p.k + |calls|
      && (calls == [] ==> q.resp == p.resp)
      && (calls != [] ==> p.w.script[|calls| - 1] == Answer(q.resp))
    decreases |parts|
  {
    if parts != [] {
      match parts[0].functionCall
      case None =>
        RoundReplies(parts[1..], p, run);
      case Some(fc) =>
        var d := run(p.k, fc);
        var w1 := p.w.(leads := p.w.leads + d.leads, feedback := p.w.feedback + d.feedback);
        var w2 := w1.(script := Remaining(w1.script), sent := w1.sent + [ToolMessage(fc.name, d.result)]);
        var p' := Progress(true, NextReply(w1.script).value, w2, p.k + 1);
        RoundReplies(parts[1..], p', run);
        var rest := CallsOf(parts[1..]);
        assert CallsOf(parts) == [fc] + rest;
        assert p.w.script[1..][|rest|..] == p.w.script[|rest| + 1..];
        if rest != [] {
          assert p.w.script[1..][|rest| - 1] == p.w.script[|rest|];
        }
    }
  }

  /** Peeling the first call off `parts`: its message and records come first. */
  lemma CallsOfCons(parts: seq<Part>, k: nat, run: (nat, FunctionCall) -> Dispatched)
    requires parts != [] && parts[0].functionCall.Some?
    ensures var fc := parts[0].functionCall.value;
      var rest := CallsOf(parts[1..]);
      && ToolMessages(CallsOf(parts), k, run) == [ToolMessage(fc.name, run(k, fc).result)] + ToolMessages(rest, k + 1, run)
      && LeadsOf(CallsOf(parts), k, run) == run(k, fc).leads + LeadsOf(rest, k + 1, run)
      && FeedbackOf(CallsOf(parts), k, run) == run(k, fc).feedback + FeedbackOf(rest, k + 1, run)
  {
    var calls := CallsOf(parts);
    assert calls[1..] == CallsOf(parts[1..]);
  }

  /**
   * A round that gets through its parts has sent, in call order, exactly one
   * `tool` message per call (see `ToolMessagesAt`).
   */
  lemma {:induction false} RoundMessages(parts: seq<Part>, p: Progress, run: (nat, FunctionCall) -> Dispatched)
    requires Round(parts, p, run).Success?
    ensures Round(parts, p, run).value.w.sent == p.w.sent + ToolMessages(CallsOf(parts), p.k, run)
    decreases |parts|
  {
    if parts != [] {
      match parts[0].functionCall
      case None =>
        RoundMessages(parts[1..], p, run);
      case Some(fc) =>
        var d := run(p.k, fc);
        var w1 := p.w.(leads := p.w.leads + d.leads, feedback := p.w.feedback + d.feedback);
        var w2 := w1.(script := Remaining(w1.script), sent := w1.sent + [ToolMessage(fc.name, d.result)]);
        RoundMessages(parts[1..], Progress(true, NextReply(w1.script).value, w2, p.k + 1), run);
        CallsOfCons(parts, p.k, run);
        AppendAssoc(p.w.sent, [ToolMessage(fc.name, d.result)], ToolMessages(CallsOf(parts[1..]), p.k + 1, run));
    }
  }

  /** A round that gets through its parts has appended the handlers' lead records in call order. */
  lemma {:induction false} RoundLeads(parts: seq<Part>, p: Progress, run: (nat, FunctionCall) -> Dispatched)
    requires Round(parts, p, run).Success?
    ensures Round(parts, p, run).value.w.leads == p.w.leads + LeadsOf(CallsOf(parts), p.k, run)
    decreases |parts|
  {
    if parts != [] {
      match parts[0].functionCall
      case None =>
        RoundLeads(parts[1..], p, run);
      case Some(fc) =>
        var d := run(p.k, fc);
        var w1 := p.w.(leads := p.w.leads + d.leads, feedback := p.w.feedback + d.feedback);
        var w2 := w1.(script := Remaining(w1.script), sent := w1.sent + [ToolMessage(fc.name, d.result)]);
        RoundLeads(parts[1..], Progress(true, NextReply(w1.script).value, w2, p.k + 1), run);
        CallsOfCons(parts, p.k, run);
        AppendAssoc(p.w.leads, d.leads, LeadsOf(CallsOf(parts[1..]), p.k + 1, run));
    }
  }

  /** A round that gets through its parts has appended the handlers' feedback records in call order. */
  lemma {:induction false} RoundFeedback(parts: seq<Part>, p: Progress, run: (nat, FunctionCall) -> Dispatched)
    requires Round(parts, p, run).Success?
    ensures Round(parts, p, run).value.w.feedback == p.w.feedback + FeedbackOf(CallsOf(parts), p.k, run)
    decreases |parts|
  {
    if parts != [] {
      match parts[0].functionCall
      case None =>
        RoundFeedback(parts[1..], p, run);
      case Some(fc) =>
        var d := run(p.k, fc);
        var w1 := p.w.(leads := p.w.leads + d.leads, feedback := p.w.feedback + d.feedback);
        var w2 := w1.(script := Remaining(w1.script), sent := w1.sent + [ToolMessage(fc.name, d.result)]);
        RoundFeedback(parts[1..], Progress(true, NextReply(w1.script).value, w2, p.k + 1), run);
        CallsOfCons(parts, p.k, run);
        AppendAssoc(p.w.feedback, d.feedback, FeedbackOf(CallsOf(parts[1..]), p.k + 1, run));
    }
  }

  /**
   * `_run_tools_if_any`: rounds repeat while the current response asks for
   * tools.  A successful outcome is a response whose first candidate asks
   * for none; the history and the logs only grow.  There is no round limit:
   * each round that continues has consumed at least one scripted reply.
   */
  function Loop(resp: Response, w: World, k: nat, run: (nat, FunctionCall) -> Dispatched): (out: (Result<Response, AskError>, World))
    ensures out.0.Success? ==> |out.0.value.candidates| > 0 && !Requests(out.0.value)
    ensures Extends(out.1, w)
    decreases |w.script|
  {
    if |resp.candidates| == 0 then (Failure(NoCandidate), w)
    else
      match Round(resp.candidates[0].parts, Progress(false, resp, w, k), run)
      case Failure((err, w')) => (Failure(err), w')
      case Success(q) =>
        if !q.calledAny then (Success(q.resp), q.w)
        else Loop(q.resp, q.w, q.k, run)
  }

  /** A response that asks for no tool is returned as it is, and nothing is sent or logged. */
  lemma LoopWithoutCalls(resp: Response, w: World, k: nat, run: (nat, FunctionCall) -> Dispatched)
    requires |resp.candidates| > 0 && !Requests(resp)
    ensures Loop(resp, w, k, run) == (Success(resp), w)
  {
  }

  /** The texts of the parts that carry text, in order: a text is listed exactly when some part carries it. */
  function PartTexts(parts: seq<Part>): (ts: seq<string>)
    ensures forall t :: t in ts <==> exists i :: 0 <= i < |parts| && parts[i].text == Some(t)
  {
    if parts == [] then []
    else
      match parts[0].text
      case Some(t) => [t] + PartTexts(parts[1..])
      case None => PartTexts(parts[1..])
  }

  /** `final.text`, or else the newline-join of the first candidate's text parts. */
  function FinalText(resp: Response): string
    requires |resp.candidates| > 0
  {
    match resp.text
    case Some(t) => t
    case None => JoinLines(PartTexts(resp.candidates[0].parts))
  }

  /**
   * The fallback text keeps every text part, in order: when some part of
   * the first candidate carries text and no part's text holds a newline,
   * splitting the answer at newlines gives the parts' texts back.
   */
  lemma FallbackKeepsParts(resp: Response)
    requires |resp.candidates| > 0 && resp.text.None?
    requires exists i :: 0 <= i < |resp.candidates[0].parts| && resp.candidates[0].parts[i].text.Some?
    requires forall i :: 0 <= i < |resp.candidates[0].parts| && resp.candidates[0].parts[i].text.Some? ==>
      '\n' !in resp.candidates[0].parts[i].text.value
    ensures SplitLines(FinalText(resp)) == PartTexts(resp.candidates[0].parts)
  {
    var parts := resp.candidates[0].parts;
    var i :| 0 <= i < |parts| && parts[i].text.Some?;
    var ts := PartTexts(parts);
    assert parts[i].text.value in ts;
    forall j | 0 <= j < |ts|
      ensures '\n' !in ts[j]
    {
      assert ts[j] in ts;
    }
    SplitJoin(ts);
  }

  /**
   * `ask(chat, user_text)`: send the user's turn, run the loop, extract the
   * final text.  Transport errors and a response without candidates
   * propagate; handler errors never do.
   */
  function AskOutcome(userText: string, w: World, stamps: nat -> Stamp, fault: Option<Exception>): (out: (Result<string, AskError>, World))
    ensures Extends(out.1, w)
    ensures |w.sent| < |out.1.sent| && out.1.sent[|w.sent|] == UserMessage(userText)
  {
    var (first, w1) := Send(w, UserMessage(userText));
    match first
    case Failure(err) => (Failure(err), w1)
    case Success(resp) =>
      var (fin, w2) := Loop(resp, w1, 0, Dispatcher(stamps, fault));
      assert w1.sent <= w2.sent;
      match fin
      case Failure(err) => (Failure(err), w2)
      case Success(r) => (Success(FinalText(r)), w2)
  }

  // ---------------------------------------------------------------------------
  // The imperative side

  /** The chat session: the scripted model's pending replies and the history it was sent. */
  class Chat {
    var script: seq<Reply>
    var sent: seq<Message>

    /** `model.start_chat(history=[])`. */
    constructor(script: seq<Reply>)
      ensures this.script == script && sent == []
    {
      this.script, sent := script, [];
    }

    /** `send_message(m)`: the message joins the history; the next scripted reply is consumed. */
    method SendMessage(m: Message) returns (r: Result<Response, AskError>)
      modifies this
      ensures sent == old(sent) + [m]
      ensures r == NextReply(old(script)) && script == Remaining(old(script))
    {
      sent := sent + [m];
      if script == [] {
        r := Failure(TransportError("no reply"));
      } else {
        var next := script[0];
        script := script[1..];
        match next
        case Answer(resp) => r := Success(resp);
        case Outage(reason) => r := Failure(TransportError(reason));
      }
    }
  }

  function WorldOf(chat: Chat, logs: Logs): World
    reads chat, logs
  {
    World(chat.script, chat.sent, logs.leads, logs.feedback)
  }

  /** `reset_chat(model)`: a new, empty session; the old one is left as it was. */
  method ResetChat(script: seq<Reply>) returns (c: Chat)
    ensures fresh(c) && c.sent == [] && c.script == script
  {
    c := new Chat(script);
  }

  /** `fn(**args)` on the log directory. */
  method CallHandler(logs: Logs, h: Handler, args: map<string, string>, stamp: Stamp) returns (r: Result<ToolResult, Exception>)
    requires logs.Valid()
    modifies logs
    ensures logs.Valid() && logs.fault == old(logs.fault)
    ensures var o := Invoke(h, args, stamp, old(logs.fault));
      r == o.result && logs.leads == old(logs.leads) + o.leads && logs.feedback == old(logs.feedback) + o.feedback
  {
    var bind := BindError(h, args);
    if bind.Some? {
      return Failure(bind.value);
    }
    match h
    case RecordCustomerInterest =>
      r := logs.RecordCustomerInterest(Some(args["email"]), Some(args["name"]), Some(args["message"]), stamp.id, stamp.ts);
    case RecordFeedback =>
      r := logs.RecordFeedback(Some(args["question"]), stamp.id, stamp.ts);
  }

  /** Lines 112-123 of the loop: look the name up, run the handler, turn every exception into a result. */
  method DispatchCall(logs: Logs, fc: FunctionCall, stamp: Stamp) returns (result: ToolResult)
    requires logs.Valid()
    modifies logs
    ensures logs.Valid() && logs.fault == old(logs.fault)
    ensures var d := Dispatch(fc, stamp, old(logs.fault));
      result == d.result && logs.leads == old(logs.leads) + d.leads && logs.feedback == old(logs.feedback) + d.feedback
  {
    if fc.name !in ToolsMap() {
      return UnknownTool(fc.name, fc.args);
    }
    var raised := CallHandler(logs, ToolsMap()[fc.name], fc.args, stamp);
    match raised
    case Success(r) => result := r;
    case Failure(e) =>
      if e.kind == "TypeError" {
        result := BadArguments(e, fc.args);
      } else {
        result := RuntimeError(e);
      }
  }

  /**
   * One pass of the `for part in parts` loop of `_run_tools_if_any`: the
   * chat and the logs end as `Round` says; `err` is the transport error
   * that ended the pass early, if any.
   */
  method RunRound(chat: Chat, logs: Logs, parts: seq<Part>, resp0: Response, k0: nat, stamps: nat -> Stamp)
    returns (err: Option<AskError>, calledAny: bool, resp: Response, k: nat)
    requires logs.Valid()
    modifies chat, logs
    ensures logs.Valid() && logs.fault == old(logs.fault)
    ensures Round(parts, Progress(false, resp0, old(WorldOf(chat, logs)), k0), Dispatcher(stamps, old(logs.fault)))
      == if err.Some? then Failure((err.value, WorldOf(chat, logs)))
         else Success(Progress(calledAny, resp, WorldOf(chat, logs), k))
  {
    ghost var run := Dispatcher(stamps, logs.fault);
    ghost var start := Progress(false, resp0, WorldOf(chat, logs), k0);
    resp, k, calledAny := resp0, k0, false;
    var i := 0;
    while i < |parts|
      invariant 0 <= i <= |parts|
      invariant logs.Valid() && logs.fault == old(logs.fault)
      invariant Round(parts, start, run) == Round(parts[i..], Progress(calledAny, resp, WorldOf(chat, logs), k), run)
    {
      assert parts[i..][1..] == parts[i + 1..];
      var part := parts[i];
      if part.functionCall.Some? {
        calledAny := true;
        var fc := part.functionCall.value;
        var toolResult := DispatchCall(logs, fc, stamps(k));
        assert run(k, fc) == Dispatch(fc, stamps(k), logs.fault);
        var sendResult := chat.SendMessage(ToolMessage(fc.name, toolResult));
        if sendResult.Failure? {
          return Some(sendResult.error), calledAny, resp, k;
        }
        resp := sendResult.value;
        k := k + 1;
      }
      i := i + 1;
    }
    err := None;
  }

  /**
   * `_run_tools_if_any(chat, resp)`: the chat and the logs end as `Loop`
   * says, and the outcome is `Loop`'s.
   */
  method RunToolsIfAny(chat: Chat, logs: Logs, resp0: Response, stamps: nat -> Stamp) returns (r: Result<Response, AskError>)
    requires logs.Valid()
    modifies chat, logs
    ensures logs.Valid() && logs.fault == old(logs.fault)
    ensures (r, WorldOf(chat, logs)) == Loop(resp0, old(WorldOf(chat, logs)), 0, Dispatcher(stamps, old(logs.fault)))
  {
    ghost var run := Dispatcher(stamps, logs.fault);
    var resp := resp0;
    var k: nat := 0;  // position of the next call in this turn; selects its id and timestamp
    while true
      invariant logs.Valid() && logs.fault == old(logs.fault)
      invariant Loop(resp, WorldOf(chat, logs), k, run) == Loop(resp0, old(WorldOf(chat, logs)), 0, run)
      decreases |chat.script|
    {
      if |resp.candidates| == 0 {
        return Failure(NoCandidate);
      }
      var err, calledAny, next, k' := RunRound(chat, logs, resp.candidates[0].parts, resp, k, stamps);
      if err.Some? {
        return Failure(err.value);
      }
      if !calledAny {
        return Success(next);
      }
      resp, k := next, k';
    }
  }

  /** `ask(chat, user_text)`: the chat and the logs end as `AskOutcome` says. */
  method Ask(chat: Chat, logs: Logs, userText: string, stamps: nat -> Stamp) returns (r: Result<string, AskError>)
    requires logs.Valid()
    modifies chat, logs
    ensures logs.Valid() && logs.fault == old(logs.fault)
    ensures (r, WorldOf(chat, logs)) == AskOutcome(userText, old(WorldOf(chat, logs)), stamps, old(logs.fault))
  {
    var first := chat.SendMessage(UserMessage(userText));
    if first.Failure? {
      return Failure(first.error);
    }
    var fin := RunToolsIfAny(chat, logs, first.value, stamps);
    if fin.Failure? {
      return Failure(fin.error);
    }
    var resp := fin.value;
    if resp.text.Some? {
      return Success(resp.text.value);
    }
    return Success(JoinLines(PartTexts(resp.candidates[0].parts)));
  }
}
