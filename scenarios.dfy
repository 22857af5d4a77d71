/**
 * Whole turns and single dispatches worked out on concrete shapes of
 * script and call: the outcomes a reader of app.py and tools.py would
 * predict, proved from the model's definitions.
 */
module Scenarios {
  import opened Base
  import opened Text
  import opened Tools
  import opened App
  import Email

  // ---------------------------------------------------------------------------
  // One dispatched call, case by case

  /** An unknown name runs no handler and echoes the arguments. */
  lemma DispatchUnknown(fc: FunctionCall, stamp: Stamp, fault: Option<Exception>)
    requires fc.name !in ToolsMap()
    ensures var d := Dispatch(fc, stamp, fault);
      && d.leads == [] && d.feedback == []
      && d.result.Keys == {"ok", "error", "received_args"}
      && d.result["ok"] == JBool(false)
      && d.result["error"] == JStr("unknown_tool:" + fc.name)
      && d.result["received_args"] == JObj(fc.args)
  {
  }

  /** Arguments that do not fit the handler's parameters become `bad_arguments`, with the arguments echoed. */
  lemma DispatchBadArguments(fc: FunctionCall, stamp: Stamp, fault: Option<Exception>)
    requires fc.name in ToolsMap() && fc.args.Keys != set p | p in ToolsMap()[fc.name].Parameters()
    ensures var d := Dispatch(fc, stamp, fault);
      var e := BindError(ToolsMap()[fc.name], fc.args).value;
      && d.leads == [] && d.feedback == []
      && d.result.Keys == {"ok", "error", "received_args"}
      && d.result["ok"] == JBool(false)
      && d.result["error"] == JStr("bad_arguments:" + e.message)
      && d.result["received_args"] == JObj(fc.args)
  {
  }

  /**
   * Any exception other than a `TypeError` that a registered handler raises
   * after binding is a `runtime` error naming the exception's class and
   * message; it does not echo the arguments, and nothing is logged.
   */
  lemma DispatchRuntime(fc: FunctionCall, stamp: Stamp, x: Exception)
    requires fc.name in ToolsMap() && BindError(ToolsMap()[fc.name], fc.args).None?
    requires Invoke(ToolsMap()[fc.name], fc.args, stamp, Some(x)).result.Failure?
    requires x.kind != "TypeError"
    ensures var d := Dispatch(fc, stamp, Some(x));
      && d.leads == [] && d.feedback == []
      && d.result.Keys == {"ok", "error"}
      && d.result["ok"] == JBool(false)
      && d.result["error"] == JStr("runtime:" + x.kind + ":" + x.message)
  {
  }

  /**
   * Both handlers reach that branch when the log directory fails: a
   * feedback call always writes, and a lead call writes once its address
   * is accepted.
   */
  lemma WriteFailureIsRuntime(fc: FunctionCall, stamp: Stamp, x: Exception)
    requires FeedbackCall(fc) || AcceptedLeadCall(fc)
    requires x.kind != "TypeError"
    ensures Dispatch(fc, stamp, Some(x)) == Dispatched(RuntimeError(x), [], [])
  {
    if FeedbackCall(fc) {
      FeedbackBinds(fc.args);
    } else {
      LeadBinds(fc.args);
    }
    DispatchRuntime(fc, stamp, x);
  }

  lemma FeedbackBinds(args: map<string, string>)
    requires args.Keys == {"question"}
    ensures BindError(RecordFeedback, args).None?
  {
    assert (set p | p in RecordFeedback.Parameters()) == {"question"};
  }

  lemma LeadBinds(args: map<string, string>)
    requires args.Keys == {"email", "name", "message"}
    ensures BindError(RecordCustomerInterest, args).None?
  {
    assert (set p | p in RecordCustomerInterest.Parameters()) == {"email", "name", "message"};
  }

  /** A well-formed `record_feedback` call. */
  predicate FeedbackCall(fc: FunctionCall)
  {
    fc.name == "record_feedback" && "question" in fc.args && fc.args.Keys == {"question"}
  }

  /** A well-formed `record_customer_interest` call whose address the pattern rejects. */
  predicate InvalidLeadCall(fc: FunctionCall)
  {
    fc.name == "record_customer_interest" && fc.args.Keys == {"email", "name", "message"}
    && !Email.Matches(fc.args["email"])
  }

  /** A well-formed `record_customer_interest` call whose address the pattern accepts. */
  predicate AcceptedLeadCall(fc: FunctionCall)
  {
    fc.name == "record_customer_interest" && "email" in fc.args && fc.args.Keys == {"email", "name", "message"}
    && Email.Matches(fc.args["email"])
  }

  /** The record a feedback call writes with the given id and timestamp. */
  function FeedbackRecordOf(fc: FunctionCall, stamp: Stamp): Record
    requires FeedbackCall(fc)
  {
    FeedbackRecorded(stamp.ts, stamp.id, Strip(fc.args["question"]))
  }

  /** With a working log directory, a feedback call writes its one record and reports it. */
  lemma FeedbackDispatch(fc: FunctionCall, stamp: Stamp)
    requires FeedbackCall(fc)
    ensures Dispatch(fc, stamp, None) == Dispatched(FeedbackAccepted(stamp.id, stamp.ts), [], [FeedbackRecordOf(fc, stamp)])
  {
    FeedbackBinds(fc.args);
  }

  /** A rejected address writes nothing, whether or not the directory works. */
  lemma InvalidLeadDispatch(fc: FunctionCall, stamp: Stamp, fault: Option<Exception>)
    requires InvalidLeadCall(fc)
    ensures Dispatch(fc, stamp, fault) == Dispatched(InvalidEmail(stamp.id, stamp.ts), [], [])
  {
    LeadBinds(fc.args);
  }

  // ---------------------------------------------------------------------------
  // Many calls

  /**
   * Calls that each write exactly one feedback record and no lead write
   * them all, one per call, in call order.
   */
  lemma {:induction false} OneFeedbackEach(calls: seq<FunctionCall>, k: nat, run: (nat, FunctionCall) -> Dispatched)
    requires forall j :: 0 <= j < |calls| ==> run(k + j, calls[j]).leads == [] && |run(k + j, calls[j]).feedback| == 1
    ensures LeadsOf(calls, k, run) == []
    ensures |FeedbackOf(calls, k, run)| == |calls|
    ensures forall j :: 0 <= j < |calls| ==> FeedbackOf(calls, k, run)[j] == run(k + j, calls[j]).feedback[0]
    decreases |calls|
  {
    if calls != [] {
      var r0 := run(k, calls[0]);
      assert r0 == run(k + 0, calls[0]);
      OneFeedbackEachShift(calls, k, run);
      OneFeedbackEach(calls[1..], k + 1, run);
      var rest := FeedbackOf(calls[1..], k + 1, run);
      assert LeadsOf(calls, k, run) == r0.leads + LeadsOf(calls[1..], k + 1, run);
      assert FeedbackOf(calls, k, run) == r0.feedback + rest;
      assert r0.feedback == [r0.feedback[0]];
      forall j | 0 < j < |calls|
        ensures FeedbackOf(calls, k, run)[j] == run(k + j, calls[j]).feedback[0]
      {
        assert FeedbackOf(calls, k, run)[j] == rest[j - 1];
        assert k + j == k + 1 + (j - 1) && calls[j] == calls[1..][j - 1];
      }
    }
  }

  /** The precondition of `OneFeedbackEach` carries over to the remaining calls. */
  lemma OneFeedbackEachShift(calls: seq<FunctionCall>, k: nat, run: (nat, FunctionCall) -> Dispatched)
    requires calls != []
    requires forall j :: 0 <= j < |calls| ==> run(k + j, calls[j]).leads == [] && |run(k + j, calls[j]).feedback| == 1
    ensures forall j :: 0 <= j < |calls| - 1 ==>
      run(k + 1 + j, calls[1..][j]).leads == [] && |run(k + 1 + j, calls[1..][j]).feedback| == 1
  {
    forall j | 0 <= j < |calls| - 1
      ensures run(k + 1 + j, calls[1..][j]).leads == [] && |run(k + 1 + j, calls[1..][j]).feedback| == 1
    {
      assert k + 1 + j == k + (j + 1) && calls[1..][j] == calls[j + 1];
    }
  }

  /**
   * No deduplication: n feedback calls write n records, one per call in
   * call order, each with its own drawn id and timestamp, even when the
   * questions are the same.
   */
  lemma FeedbackCallsAllLogged(calls: seq<FunctionCall>, k: nat, stamps: nat -> Stamp)
    requires forall j :: 0 <= j < |calls| ==> FeedbackCall(calls[j])
    ensures LeadsOf(calls, k, Dispatcher(stamps, None)) == []
    ensures |FeedbackOf(calls, k, Dispatcher(stamps, None))| == |calls|
    ensures forall j :: 0 <= j < |calls| ==>
      FeedbackOf(calls, k, Dispatcher(stamps, None))[j]
        == FeedbackRecordOf(calls[j], stamps(k + j))
  {
    var run := Dispatcher(stamps, None);
    forall j | 0 <= j < |calls|
      ensures run(k + j, calls[j]).leads == []
      ensures run(k + j, calls[j]).feedback == [FeedbackRecordOf(calls[j], stamps(k + j))]
    {
      FeedbackDispatch(calls[j], stamps(k + j));
    }
    OneFeedbackEach(calls, k, run);
  }

  /** Repeated calls with a rejected address leave both logs as they were. */
  lemma {:induction false} InvalidLeadsNotLogged(calls: seq<FunctionCall>, k: nat, stamps: nat -> Stamp, fault: Option<Exception>)
    requires forall j :: 0 <= j < |calls| ==> InvalidLeadCall(calls[j])
    ensures LeadsOf(calls, k, Dispatcher(stamps, fault)) == []
    ensures FeedbackOf(calls, k, Dispatcher(stamps, fault)) == []
    decreases |calls|
  {
    if calls != [] {
      InvalidLeadDispatch(calls[0], stamps(k), fault);
      assert Dispatcher(stamps, fault)(k, calls[0]) == Dispatch(calls[0], stamps(k), fault);
      InvalidLeadsNotLogged(calls[1..], k + 1, stamps, fault);
    }
  }

  // ---------------------------------------------------------------------------
  // Whole turns

  /** A response whose only part is a call to `fc`. */
  function OneCall(fc: FunctionCall): Response
  {
    Response([Candidate([Part(None, Some(fc))])], None)
  }

  /** A response whose parts are calls to `fc1` and then `fc2`. */
  function TwoCalls(fc1: FunctionCall, fc2: FunctionCall): Response
  {
    Response([Candidate([Part(None, Some(fc1)), Part(None, Some(fc2))])], None)
  }

  /**
   * The script "call `fc`, then answer in plain text": one tool round trip,
   * the user's turn and one `tool` message are sent, the call's records are
   * logged, and the plain answer's text is returned.
   */
  lemma OneToolRoundTrip(userText: string, fc: FunctionCall, plain: Response, leads: seq<Record>,
                         feedback: seq<Record>, stamps: nat -> Stamp, fault: Option<Exception>)
    requires |plain.candidates| > 0 && !Requests(plain)
    ensures var d := Dispatch(fc, stamps(0), fault);
      AskOutcome(userText, World([Answer(OneCall(fc)), Answer(plain)], [], leads, feedback), stamps, fault)
      == (Success(FinalText(plain)),
          World([], [UserMessage(userText), ToolMessage(fc.name, d.result)], leads + d.leads, feedback + d.feedback))
  {
    var run := Dispatcher(stamps, fault);
    var d := run(0, fc);
    var w1 := World([Answer(plain)], [UserMessage(userText)], leads, feedback);
    var w2 := World([], [UserMessage(userText), ToolMessage(fc.name, d.result)], leads + d.leads, feedback + d.feedback);
    var parts := OneCall(fc).candidates[0].parts;
    assert parts[0].functionCall == Some(fc) && parts[1..] == [];
    assert NextReply(w1.script) == Success(plain);
    assert Round(parts[1..], Progress(true, plain, w2, 1), run) == Success(Progress(true, plain, w2, 1));
    var w1a := w1.(leads := w1.leads + d.leads, feedback := w1.feedback + d.feedback);
    var w1b := w1a.(script := Remaining(w1a.script), sent := w1a.sent + [ToolMessage(fc.name, d.result)]);
    assert Remaining(w1a.script) == [];
    assert w1a.sent + [ToolMessage(fc.name, d.result)] == [UserMessage(userText), ToolMessage(fc.name, d.result)];
    assert w1b == w2;
    assert Round(parts, Progress(false, OneCall(fc), w1, 0), run) == Round(parts[1..], Progress(true, plain, w1b, 1), run);
    assert Round(parts, Progress(false, OneCall(fc), w1, 0), run) == Success(Progress(true, plain, w2, 1));
    assert Loop(plain, w2, 1, run) == (Success(plain), w2);
    assert Loop(OneCall(fc), w1, 0, run) == (Success(plain), w2);
    var w0 := World([Answer(OneCall(fc)), Answer(plain)], [], leads, feedback);
    assert Remaining(w0.script) == [Answer(plain)];
    assert NextReply(w0.script) == Success(OneCall(fc));
    assert w0.sent + [UserMessage(userText)] == [UserMessage(userText)];
    assert Send(w0, UserMessage(userText)) == (Success(OneCall(fc)), w1);
  }

  /** `n` scripted replies that each call `fc` again. */
  function CallAgain(fc: FunctionCall, n: nat): (rs: seq<Reply>)
    ensures |rs| == n
    ensures forall j :: 0 <= j < n ==> rs[j] == Answer(OneCall(fc))
  {
    if n == 0 then [] else [Answer(OneCall(fc))] + CallAgain(fc, n - 1)
  }

  /** A round over the single call of `OneCall(fc)` sends one `tool` message and takes the next reply. */
  lemma OneCallRound(fc: FunctionCall, r: Response, w: World, k: nat, run: (nat, FunctionCall) -> Dispatched)
    requires w.script != [] && w.script[0] == Answer(r)
    ensures var q := Round(OneCall(fc).candidates[0].parts, Progress(false, OneCall(fc), w, k), run);
      && q.Success? && q.value.calledAny && q.value.resp == r && q.value.k == k + 1
      && q.value.w.script == w.script[1..]
      && q.value.w.sent == w.sent + [ToolMessage(fc.name, run(k, fc).result)]
  {
    var parts := OneCall(fc).candidates[0].parts;
    var p := Progress(false, OneCall(fc), w, k);
    assert CallsOf(parts[1..]) == [] && CallsOf(parts) == [fc];
    RoundReplies(parts, p, run);
    RoundMessages(parts, p, run);
  }

  /**
   * There is no round limit: a model that asks for the tool `n` times in a
   * row and then answers in plain text gets `n + 1` `tool` messages, and its
   * plain answer ends the turn, for every `n`.
   */
  lemma {:induction false} RepeatedRounds(fc: FunctionCall, n: nat, plain: Response, w: World, k: nat,
                                          run: (nat, FunctionCall) -> Dispatched)
    requires |plain.candidates| > 0 && !Requests(plain)
    requires w.script == CallAgain(fc, n) + [Answer(plain)]
    ensures var out := Loop(OneCall(fc), w, k, run);
      && out.0 == Success(plain)
      && out.1.script == []
      && |out.1.sent| == |w.sent| + n + 1
    decreases n
  {
    var q := Round(OneCall(fc).candidates[0].parts, Progress(false, OneCall(fc), w, k), run);
    if n == 0 {
      OneCallRound(fc, plain, w, k, run);
      assert Loop(plain, q.value.w, q.value.k, run) == (Success(plain), q.value.w);
    } else {
      OneCallRound(fc, OneCall(fc), w, k, run);
      assert w.script[1..] == CallAgain(fc, n - 1) + [Answer(plain)];
      RepeatedRounds(fc, n - 1, plain, q.value.w, q.value.k, run);
    }
  }

  /**
   * The parts are captured once per round: with two calls in one response,
   * the reply to the first `tool` message is consumed but never looked at,
   * even when it asks for more tools; the reply to the second one ends the
   * turn.
   */
  lemma LaterReplyWins(fc1: FunctionCall, fc2: FunctionCall, ignored: Response, plain: Response,
                       w: World, run: (nat, FunctionCall) -> Dispatched)
    requires |plain.candidates| > 0 && !Requests(plain)
    requires w.script == [Answer(ignored), Answer(plain)]
    ensures var out := Loop(TwoCalls(fc1, fc2), w, 0, run);
      && out.0 == Success(plain)
      && out.1.script == []
      && out.1.sent == w.sent + [ToolMessage(fc1.name, run(0, fc1).result), ToolMessage(fc2.name, run(1, fc2).result)]
  {
    var parts := TwoCalls(fc1, fc2).candidates[0].parts;
    var p := Progress(false, TwoCalls(fc1, fc2), w, 0);
    assert parts[1..] == [Part(None, Some(fc2))] && parts[1..][1..] == [];
    assert CallsOf(parts[1..][1..]) == [];
    assert CallsOf(parts[1..]) == [fc2];
    assert CallsOf(parts) == [fc1, fc2];
    RoundReplies(parts, p, run);
    RoundMessages(parts, p, run);
    var q := Round(parts, p, run).value;
    assert q.resp == plain && q.calledAny;
    assert Loop(plain, q.w, q.k, run) == (Success(plain), q.w);
  }

  /**
   * A transport failure on the `tool` message is not caught: `ask` fails
   * with it, after the handler has already written its records.
   */
  lemma OutageAfterCall(userText: string, fc: FunctionCall, reason: string, leads: seq<Record>,
                        feedback: seq<Record>, stamps: nat -> Stamp, fault: Option<Exception>)
    ensures var d := Dispatch(fc, stamps(0), fault);
      var out := AskOutcome(userText, World([Answer(OneCall(fc)), Outage(reason)], [], leads, feedback), stamps, fault);
      && out.0 == Failure(TransportError(reason))
      && out.1.leads == leads + d.leads && out.1.feedback == feedback + d.feedback
  {
    var run := Dispatcher(stamps, fault);
    var w1 := World([Outage(reason)], [UserMessage(userText)], leads, feedback);
    assert Round(OneCall(fc).candidates[0].parts, Progress(false, OneCall(fc), w1, 0), run).Failure?;
  }

  /** A response without candidates makes `ask` fail with the `IndexError` after the one send. */
  lemma NoCandidateFails(userText: string, w: World, rest: seq<Reply>, stamps: nat -> Stamp, fault: Option<Exception>)
    requires w.script == [Answer(Response([], None))] + rest
    ensures AskOutcome(userText, w, stamps, fault)
      == (Failure(NoCandidate), w.(script := rest, sent := w.sent + [UserMessage(userText)]))
  {
    assert w.script[1..] == rest;
  }
}
