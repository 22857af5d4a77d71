/**
 * The side-effecting tool handlers of tools.py: lead capture and
 * unanswered-question logging.  The two JSONL files are the two sequences of
 * a `Logs` object; `uuid.uuid4()` and the UTC clock are supplied by the
 * caller as an id and a timestamp; a failing write is the object's `fault`.
 */
module Tools {
  import opened Base
  import opened Text
  import Email

  /** The JSON values a tool result holds. */
  datatype Json = JBool(b: bool) | JStr(s: string) | JObj(fields: map<string, string>)

  /** The dict a handler returns, and the payload sent back to the model. */
  type ToolResult = map<string, Json>

  /** A raised Python exception: its class name and its message. */
  datatype Exception = Exception(kind: string, message: string)

  /** The id and the timestamp one handler call draws (`uuid4()`, `_now_iso()`). */
  datatype Stamp = Stamp(id: string, ts: string)

  /** One line of a JSONL log. */
  datatype Record =
    | LeadRecorded(ts: string, leadId: string, email: string, name: string, message: string)
    | FeedbackRecorded(ts: string, feedbackId: string, question: string)
  {
    /** The record's `event` field. */
    function Event(): string
    {
      if LeadRecorded? then "lead_recorded" else "feedback_recorded"
    }
  }

  /** `leads.jsonl` or `feedback.jsonl`. */
  datatype LogFile = LeadsLog | FeedbackLog

  /** What the lead log may hold: a well-formed address and trimmed fields. */
  predicate ValidLead(r: Record)
  {
    r.LeadRecorded? && Email.FullMatch(r.email) && Trimmed(r.email) && Trimmed(r.name) && Trimmed(r.message)
  }

  /** What the feedback log may hold: a trimmed question (possibly empty). */
  predicate ValidFeedback(r: Record)
  {
    r.FeedbackRecorded? && Trimmed(r.question)
  }

  /** Every record of `s` may be held by the lead log. */
  predicate ValidLeads(s: seq<Record>)
  {
    forall j :: 0 <= j < |s| ==> ValidLead(s[j])
  }

  /** Every record of `s` may be held by the feedback log. */
  predicate ValidFeedbacks(s: seq<Record>)
  {
    forall j :: 0 <= j < |s| ==> ValidFeedback(s[j])
  }

  lemma AppendValidLeads(s: seq<Record>, t: seq<Record>)
    requires ValidLeads(s) && ValidLeads(t)
    ensures ValidLeads(s + t)
  {
    forall j | 0 <= j < |s + t|
      ensures ValidLead((s + t)[j])
    {
      if j >= |s| {
        assert (s + t)[j] == t[j - |s|];
      }
    }
  }

  lemma AppendValidFeedbacks(s: seq<Record>, t: seq<Record>)
    requires ValidFeedbacks(s) && ValidFeedbacks(t)
    ensures ValidFeedbacks(s + t)
  {
    forall j | 0 <= j < |s + t|
      ensures ValidFeedback((s + t)[j])
    {
      if j >= |s| {
        assert (s + t)[j] == t[j - |s|];
      }
    }
  }

  function InterestAccepted(leadId: string, ts: string): ToolResult
  {
    map["ok" := JBool(true), "lead_id" := JStr(leadId), "ts" := JStr(ts)]
  }

  function InvalidEmail(leadId: string, ts: string): ToolResult
  {
    map["ok" := JBool(false), "error" := JStr("invalid_email"), "lead_id" := JStr(leadId), "ts" := JStr(ts)]
  }

  function FeedbackAccepted(feedbackId: string, ts: string): ToolResult
  {
    map["ok" := JBool(true), "feedback_id" := JStr(feedbackId), "ts" := JStr(ts)]
  }

  /** What one handler call does: its return value or exception, and the records it appended to each log. */
  datatype Handled = Handled(result: Result<ToolResult, Exception>, leads: seq<Record>, feedback: seq<Record>)

  /**
   * `record_customer_interest`.  An address the pattern rejects (`None`
   * counts as `""`) is answered with `invalid_email` and logged nowhere; an
   * accepted one becomes exactly one `lead_recorded` record with stripped
   * fields, unless the write raises.  The feedback log is never touched.
   */
  function CustomerInterest(email: Option<string>, name: Option<string>, message: Option<string>,
                            leadId: string, ts: string, fault: Option<Exception>): (h: Handled)
    ensures h.feedback == []
    ensures |h.leads| == if Email.Matches(OrEmpty(email)) && fault.None? then 1 else 0
    ensures !Email.Matches(OrEmpty(email)) ==> h.result == Success(InvalidEmail(leadId, ts))
    ensures Email.Matches(OrEmpty(email)) && fault.None? ==> h.result == Success(InterestAccepted(leadId, ts))
    ensures h.result.Failure? <==> Email.Matches(OrEmpty(email)) && fault.Some?
    ensures h.result.Failure? ==> Some(h.result.error) == fault
    ensures h.result.Success? ==>
      && "ok" in h.result.value && h.result.value["ok"] == JBool(h.leads != [])
      && "lead_id" in h.result.value && h.result.value["lead_id"] == JStr(leadId)
      && "ts" in h.result.value && h.result.value["ts"] == JStr(ts)
    ensures h.leads != [] ==>
      h.leads[0] == LeadRecorded(ts, leadId, Strip(OrEmpty(email)), Strip(OrEmpty(name)), Strip(OrEmpty(message)))
  {
    var e := OrEmpty(email);
    if !Email.Matches(e) then
      Handled(Success(InvalidEmail(leadId, ts)), [], [])
    else
      var event := LeadRecorded(ts, leadId, Strip(e), Strip(OrEmpty(name)), Strip(OrEmpty(message)));
      match fault
      case Some(x) => Handled(Failure(x), [], [])
      case None => Handled(Success(InterestAccepted(leadId, ts)), [event], [])
  }

  /**
   * The record an accepted lead writes is a valid lead: the stored address is
   * a full match of the pattern (the newline `$` lets through is stripped)
   * and every stored field is trimmed.
   */
  lemma RecordedLeadIsValid(email: Option<string>, name: Option<string>, message: Option<string>,
                            leadId: string, ts: string, fault: Option<Exception>)
    ensures var h := CustomerInterest(email, name, message, leadId, ts, fault);
      h.leads != [] ==> h.leads[0].Event() == "lead_recorded" && ValidLead(h.leads[0])
  {
    if Email.Matches(OrEmpty(email)) {
      Email.StrippedMatch(OrEmpty(email));
    }
  }

  /**
   * `record_feedback`: no validation; exactly one `feedback_recorded`
   * record with the stripped question, even an empty one, unless the write
   * raises.  The lead log is never touched.
   */
  function Feedback(question: Option<string>, feedbackId: string, ts: string, fault: Option<Exception>): (h: Handled)
    ensures h.leads == []
    ensures |h.feedback| == if fault.None? then 1 else 0
    ensures fault.Some? ==> h.result == Failure(fault.value)
    ensures fault.None? ==>
      && h.result == Success(FeedbackAccepted(feedbackId, ts))
      && h.feedback[0] == FeedbackRecorded(ts, feedbackId, Strip(OrEmpty(question)))
      && ValidFeedback(h.feedback[0])
  {
    var q := Strip(OrEmpty(question));
    match fault
    case Some(x) => Handled(Failure(x), [], [])
    case None => Handled(Success(FeedbackAccepted(feedbackId, ts)), [], [FeedbackRecorded(ts, feedbackId, q)])
  }

  /** The log directory: the contents of `leads.jsonl` and `feedback.jsonl`. */
  class Logs {
    var leads: seq<Record>
    var feedback: seq<Record>
    /** When present, every write to the directory raises this exception. */
    var fault: Option<Exception>

    ghost predicate Valid()
      reads this
    {
      ValidLeads(leads) && ValidFeedbacks(feedback)
    }

    /**
     * The directory as a run finds it: the files are opened for appending,
     * so they may already hold the records of earlier runs.
     */
    constructor(leads0: seq<Record>, feedback0: seq<Record>, fault: Option<Exception>)
      requires ValidLeads(leads0) && ValidFeedbacks(feedback0)
      ensures Valid()
      ensures leads == leads0 && feedback == feedback0 && this.fault == fault
    {
      leads, feedback, this.fault := leads0, feedback0, fault;
    }

    /** `_append_jsonl`: one record at the end of one file, or the write's exception and no change. */
    method AppendJsonl(file: LogFile, rec: Record) returns (raised: Option<Exception>)
      modifies this
      ensures raised == old(fault) && fault == old(fault)
      ensures leads == if file == LeadsLog && raised.None? then old(leads) + [rec] else old(leads)
      ensures feedback == if file == FeedbackLog && raised.None? then old(feedback) + [rec] else old(feedback)
    {
      raised := fault;
      if raised.None? {
        match file
        case LeadsLog => leads := leads + [rec];
        case FeedbackLog => feedback := feedback + [rec];
      }
    }

    /** `record_customer_interest(email, name, message)` with the drawn id and timestamp. */
    method RecordCustomerInterest(email: Option<string>, name: Option<string>, message: Option<string>,
                                  leadId: string, ts: string) returns (r: Result<ToolResult, Exception>)
      requires Valid()
      modifies this
      ensures Valid() && fault == old(fault)
      ensures var h := CustomerInterest(email, name, message, leadId, ts, old(fault));
        r == h.result && leads == old(leads) + h.leads && feedback == old(feedback)
    {
      ghost var h := CustomerInterest(email, name, message, leadId, ts, fault);
      var e := OrEmpty(email);
      if !Email.Matches(e) {
        return Success(InvalidEmail(leadId, ts));
      }
      var event := LeadRecorded(ts, leadId, Strip(e), Strip(OrEmpty(name)), Strip(OrEmpty(message)));
      var raised := AppendJsonl(LeadsLog, event);
      if raised.Some? {
        return Failure(raised.value);
      }
      assert h.leads == [event];
      RecordedLeadIsValid(email, name, message, leadId, ts, old(fault));
      AppendValidLeads(old(leads), h.leads);
      return Success(InterestAccepted(leadId, ts));
    }

    /** `record_feedback(question)` with the drawn id and timestamp. */
    method RecordFeedback(question: Option<string>, feedbackId: string, ts: string) returns (r: Result<ToolResult, Exception>)
      requires Valid()
      modifies this
      ensures Valid() && fault == old(fault)
      ensures var h := Feedback(question, feedbackId, ts, old(fault));
        r == h.result && feedback == old(feedback) + h.feedback && leads == old(leads)
    {
      ghost var h := Feedback(question, feedbackId, ts, fault);
      var q := Strip(OrEmpty(question));
      var event := FeedbackRecorded(ts, feedbackId, q);
      var raised := AppendJsonl(FeedbackLog, event);
      if raised.Some? {
        return Failure(raised.value);
      }
      assert h.feedback == [event];
      AppendValidFeedbacks(old(feedback), h.feedback);
      return Success(FeedbackAccepted(feedbackId, ts));
    }
  }

  // ---------------------------------------------------------------------------
  // The handlers' signatures and the schemas declared to the model

  /** The two handler functions. */
  datatype Handler = RecordCustomerInterest | RecordFeedback
  {
    /** The function's `__name__`. */
    function Name(): string
    {
      match this
      case RecordCustomerInterest => "record_customer_interest"
      case RecordFeedback => "record_feedback"
    }

    /** The function's parameter names, in order. */
    function Parameters(): seq<string>
    {
      match this
      case RecordCustomerInterest => ["email", "name", "message"]
      case RecordFeedback => ["question"]
    }
  }

  datatype PropertySchema = PropertySchema(typ: string, description: string)
  datatype Property = Property(name: string, schema: PropertySchema)
  datatype ParametersSchema = ParametersSchema(typ: string, properties: seq<Property>, required: seq<string>)
  datatype FunctionDeclaration = FunctionDeclaration(name: string, description: string, parameters: ParametersSchema)

  /** The names of a schema's properties, in declaration order. */
  function PropertyNames(props: seq<Property>): (names: seq<string>)
    ensures |names| == |props|
    ensures forall j :: 0 <= j < |props| ==> names[j] == props[j].name
  {
    if props == [] then [] else [props[0].name] + PropertyNames(props[1..])
  }

  // The declarations' description texts, kept as constants.
  const RecordInterestDescription: string := "Use when the user wants services or follow-up. Ask for missing fields first. Do NOT call if email/name/message are unknown."
  const MessageDescription: string := "Short note on project/needs/context."
  const RecordFeedbackDescription: string := "Use when the question is not answered by the provided SUMMARY/PDF or confidence is low. Do NOT guess. Pass the user's exact question."
  const QuestionDescription: string := "The user question the bot failed to answer."

  /** `get_function_declarations()`: the tool schemas in Gemini's format. */
  function FunctionDeclarations(): seq<FunctionDeclaration>
  {
    [ FunctionDeclaration(
        "record_customer_interest",
        RecordInterestDescription,
        ParametersSchema(
          "OBJECT",
          [ Property("email", PropertySchema("STRING", "Customer email address.")),
            Property("name", PropertySchema("STRING", "Customer full name.")),
            Property("message", PropertySchema("STRING", MessageDescription)) ],
          ["email", "name", "message"])),
      FunctionDeclaration(
        "record_feedback",
        RecordFeedbackDescription,
        ParametersSchema(
          "OBJECT",
          [ Property("question", PropertySchema("STRING", QuestionDescription)) ],
          ["question"])) ]
  }
}
