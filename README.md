# Tool-calling chat agent: orchestration loop and log handlers

This project models the core of a small business chat agent written in Python.
The agent has two parts.

- **The orchestration loop** (`app.py`). `ask` sends the user's turn to a Gemini chat. `_run_tools_if_any` then dispatches every `function_call` part of the reply's first candidate to a handler in `TOOLS_MAP`. It sends one `tool` message back per call, and repeats while the model keeps asking for tools. Unknown tools, bad arguments and handler exceptions all become `{ok: false, error: ...}` results, so no handler failure escapes the loop. When the SDK's `.text` accessor fails, the final text is the newline-join of the text parts. `reset_chat` starts a fresh session. The text extracted from the business PDF is cut to its first 60000 characters, followed by a truncation marker; the summary file is never cut.
- **The handlers** (`tools.py`).
  - `record_customer_interest` validates the address against `^[^@\s]+@[^@\s]+\.[^@\s]+$`. It then either answers `invalid_email` and logs nothing, or appends one `lead_recorded` record with stripped fields to `leads.jsonl`.
  - `record_feedback` always appends one `feedback_recorded` record to `feedback.jsonl`.
  - `get_function_declarations` gives the schemas the model is told about.

The Dafny modules are:

- `Base`: option and result wrappers.
- `Text`:
  - Python whitespace, using the exact `str.isspace` set;
  - `strip`;
  - the log preview;
  - `"\n".join` and its inverse.
- `Email`: the address pattern, written as a deterministic automaton. It is proved equal to a declarative description of an address. Python's `$` also accepts one trailing newline.
- `Tools`:
  - records;
  - the `Logs` class, whose two sequence fields are the two JSONL files;
  - the handlers, both as functions and as methods on `Logs`;
  - the declarations.
- `App`:
  - the registry;
  - the dispatch of one call;
  - the scripted chat oracle, a `Chat` class holding its pending replies and the history it was sent;
  - the specification functions `Round`, `Loop` and `AskOutcome`;
  - the imperative `RunRound`, `RunToolsIfAny` and `Ask`, proved to change the chat and the logs exactly as those functions say.
- `Scenarios`: concrete turns and calls, worked out from the definitions.

The remote model, `uuid.uuid4()` and the clock are parameters.

- The chat is a script of replies. Each `send_message` consumes one reply, and an empty script or an `Outage` is a transport failure.
- The id and timestamp of the k-th call of a turn are `stamps(k)`.
- A log directory whose writes fail is `Logs.fault`. It is the exception every write raises.

## Model

| member | source | states |
|---|---|---|
| Base.OrEmpty | tools.py:44 | `x or ""` on an optional string, as used for `email` here and for `name`, `message` and `question` at tools.py:48 and 60: `None` becomes `""` and any string is kept (an empty one is `""` either way). No contract of its own; `Tools.CustomerInterest` and `Tools.Feedback` state its effect |
| Text.IsSpace | tools.py:26 | the characters `str.isspace` accepts: the `\s` class of `EMAIL_RE` and what `strip` removes (tools.py:48, 60). No contract of its own; `Text.StripIsSlice` and `Email.FullMatchNoSpace` state what it means for strip and for the pattern |
| Text.TrimStart | tools.py:48 | `lstrip`: the result is no longer than the input and does not start with whitespace |
| Text.TrimStartDrops | tools.py:48 | `lstrip` removes a whitespace prefix and nothing else: the result is a suffix of the input and the removed part is all whitespace |
| Text.TrimEnd | tools.py:48 | `rstrip`: the result is a prefix of the input that does not end with whitespace |
| Text.TrimEndDrops | tools.py:48 | `rstrip` removes only whitespace: the part it cuts off is all whitespace |
| Text.Strip | tools.py:60 | `strip()`: neither end of the result is whitespace |
| Text.StripIsSlice | tools.py:60 | the stripped string is a contiguous slice of the input, and everything cut off on each side is whitespace |
| Text.StripFixedPoint | tools.py:48 | `strip` leaves a string unchanged if and only if neither end is whitespace |
| Text.StripIdempotent | tools.py:60 | stripping twice gives the same result as stripping once |
| Text.StripNoSpace | tools.py:48 | a string with no whitespace is its own strip |
| Text.Preview | tools.py:49 | the preview is the text itself when it has at most `limit` characters; otherwise it is the first `limit` characters followed by `…`; it never exceeds `limit + 1` characters. The lead handler uses limit 120, the feedback handler 140 (tools.py:63) |
| Text.JoinLines | app.py:147 | `"\n".join`: two or more pieces are always separated by a newline; that the join keeps the pieces in order and loses nothing is `Text.SplitJoin` |
| Text.SplitLines | app.py:147 | splitting at newlines gives at least one piece, and no piece holds a newline |
| Text.SplitAfterLine | app.py:147 | splitting `x + "\n" + y`, where `x` has no newline, yields `x` followed by the pieces of `y` |
| Text.SplitSingleLine | app.py:147 | a text without a newline splits into itself |
| Text.SplitJoin | app.py:147 | `"\n".join` loses nothing: when no piece holds a newline, splitting the joined text gives the pieces back, in order |
| Email.Step | tools.py:26 | the pattern's automaton, one character at a time; it has no contract of its own, and what it accepts is stated by `Email.RunClassify` and `Email.FullMatchIff` |
| Email.Run | tools.py:26 | the automaton's state after a whole string; no contract of its own, and `Email.RunClassify` proves it equal to the state read off the string declaratively |
| Email.FullMatch | tools.py:26 | the pattern matches the whole string; no contract of its own, and `Email.FullMatchIff` proves it equivalent to the address shape |
| Email.Matches | tools.py:44 | `EMAIL_RE.match(email or "")`; no contract of its own, and `Email.MatchesIff` proves it equivalent to an address optionally followed by one final newline |
| Email.DomainStep | tools.py:26 | after the `@`, reading one character moves the declarative domain state exactly as the automaton's step does |
| Email.ClassifyStepLocal | tools.py:26 | before the first `@`, one more character moves the declarative classification as the automaton's step does |
| Email.AllPlainSnoc | tools.py:26 | a string extended by one character is all `[^@\s]` if and only if the string and the character are |
| Email.ClassifyStepDomain | tools.py:26 | after the first `@`, one more character moves the declarative classification as the automaton's step does |
| Email.RunClassify | tools.py:26 | the automaton's state after any input is the state read off the input declaratively |
| Email.FirstAtIs | tools.py:26 | an `@` preceded only by `[^@\s]` characters is the first `@` |
| Email.FullMatchIff | tools.py:26 | the pattern matches the whole string if and only if it is a non-empty `[^@\s]` local part, one `@`, and a `[^@\s]` domain with a dot that has a character on each side |
| Email.MatchesIff | tools.py:44 | `EMAIL_RE.match` succeeds if and only if the string is such an address, or such an address followed by a single final newline |
| Email.AddressParts | tools.py:26 | `l + "@" + d` is an address if and only if `l` is a non-empty run of `[^@\s]` and `d` is a domain |
| Email.FullMatchNoSpace | tools.py:26 | a full match contains no whitespace |
| Email.StrippedMatch | tools.py:44-48 | stripping an accepted address removes at most the one trailing newline `$` lets through, and leaves a full match |
| Email.StripTrailingNewline | tools.py:48 | stripping a whitespace-free string followed by a newline gives the string back |
| Tools.AppendValidLeads | tools.py:51 | appending valid lead records to a valid lead log keeps it valid |
| Tools.AppendValidFeedbacks | tools.py:65 | appending valid feedback records to a valid feedback log keeps it valid |
| Tools.CustomerInterest | tools.py:36-52 | a rejected address, where `None` counts as `""`, is answered with `invalid_email` and the same id and timestamp, and nothing is logged. An accepted address appends exactly one `lead_recorded` record with stripped fields and, when the write succeeds, answers exactly `{ok: true, lead_id, ts}` with the same id and timestamp; unless the write raises, in which case the exception propagates. The feedback log is never touched |
| Tools.RecordedLeadIsValid | tools.py:44-51 | every lead record written holds a full match of the pattern and trimmed email, name and message |
| Tools.Feedback | tools.py:54-66 | no validation: exactly one `feedback_recorded` record with the stripped question, even an empty one, and `ok: true` with the record's id and timestamp, unless the write raises. The lead log is never touched |
| Tools.Logs.constructor | tools.py:31-34 | the directory as a run finds it: the files are opened in append mode, so each log may already hold valid records from earlier runs, which the constructor keeps as given, together with the given write behaviour |
| Tools.Logs.AppendJsonl | tools.py:31-34 | one record is appended at the end of the named file only, or the write's exception is returned and nothing changes |
| Tools.Logs.RecordCustomerInterest | tools.py:36-52 | the method returns what `CustomerInterest` says and appends exactly its records to the lead log. The feedback log is unchanged, and both logs stay valid |
| Tools.Logs.RecordFeedback | tools.py:54-66 | the method returns what `Feedback` says and appends exactly its record to the feedback log. The lead log is unchanged, and both logs stay valid |
| Tools.Handler.Name | tools.py:36 | the function name each handler is registered and declared under; no contract of its own, `App.ToolsMap` and `App.DeclarationsMatchRegistry` state that the names agree |
| Tools.Handler.Parameters | tools.py:36 | the parameter list of each handler in signature order (`email, name, message` here, `question` for `record_feedback` at tools.py:54); no contract of its own, `App.BindError` uses it to decide when a call raises `TypeError` |
| Tools.PropertyNames | tools.py:82-87 | the property names of a schema, one per property, in declaration order |
| Tools.FunctionDeclarations | tools.py:69-104 | `get_function_declarations()` as static data; no contract of its own, and `App.DeclarationsMatchRegistry` proves it agrees with the registry and the handlers' parameters |
| App.TruncateKnowledge | app.py:57-59 | text of at most 60000 characters is kept whole; longer text keeps exactly its first 60000 characters followed by `"\n[...truncated...]"` |
| App.TruncateIdempotent | app.py:57-59 | truncating truncated knowledge changes nothing |
| App.DeclarationsMatchRegistry | tools.py:73-103 | the declared tool names are distinct and are exactly the keys of `TOOLS_MAP`. Each key names its own handler. Each declaration's `required` list equals its property names, which equal the handler's parameter names, all of type `STRING` |
| App.ToolsMap | app.py:96 | `TOOLS_MAP` holds exactly the two handler names, each mapped to the handler that bears that name |
| App.RegistryIsDeclared | app.py:96 | every registered tool is declared to the model |
| App.BindError | app.py:119-120 | `fn(**args)` raises `TypeError` if and only if the argument names differ from the handler's parameter names |
| App.Invoke | app.py:118-123 | a binding error runs nothing. In the model an exception comes from the binding or from the log write (a failing `print` is not modelled), and nothing is written when one is raised. At most one record is written, and only to the handler's own log |
| App.Dispatch | app.py:112-123 | every call yields a result with a boolean `ok`, whatever happens. At most one record is written, and only by a registered handler that succeeded. An echoed `received_args` is the call's own arguments |
| App.CallsOf | app.py:107-110 | the `if not fc: continue` filter, keeping the calls in part order; no contract of its own, and `App.CallsOfMembers` states which calls it lists |
| App.CallsOfMembers | app.py:107-110 | a call is listed exactly when some part carries it |
| App.ToolMessages | app.py:125-133 | one `tool` message per call, in order, each named after its call |
| App.ToolMessagesAt | app.py:107-133 | the j-th `tool` message carries the j-th call's name and the result of executing that call as the (k+j)-th call of the turn |
| App.Round | app.py:104-133 | a pass over the captured parts only grows the history and the logs. It sets `called_any` exactly when some part is a call. A pass without calls changes nothing, and a pass with calls consumes scripted replies |
| App.RoundReplies | app.py:106-125 | a pass that completes consumes exactly one reply per call and advances the call counter by the number of calls. The response it leaves is the reply to its last send, so earlier replies of the pass are never inspected |
| App.CallsOfCons | app.py:107-111 | the first call's message and records come before those of the remaining parts |
| App.RoundMessages | app.py:107-133 | a pass that completes appends, in call order, exactly the `tool` messages answering its calls |
| App.RoundLeads | app.py:119 | a pass that completes appends the handlers' lead records in call order |
| App.RoundFeedback | app.py:119 | a pass that completes appends the handlers' feedback records in call order |
| App.NextReply | app.py:125 | the reply to a send is a response exactly when the next scripted entry is an answer, and it is that answer; otherwise it is a transport failure |
| App.Remaining | app.py:125 | a send consumes the first scripted reply; an exhausted script stays empty |
| App.Send | app.py:141 | `send_message`: the message joins the history whatever the answer, the answer is the next scripted reply, one reply is consumed, and the logs are untouched |
| App.Loop | app.py:103-135 | a successful outcome is a response with a first candidate that asks for no tool. The history and the logs only grow. That there is no round limit is `Scenarios.RepeatedRounds` |
| App.LoopWithoutCalls | app.py:134-135 | a response that asks for no tool is returned unchanged after zero sends, and nothing is logged |
| App.PartTexts | app.py:147 | the `if hasattr(p, "text")` filter: a text is listed exactly when some part carries it |
| App.FinalText | app.py:143-147 | `final.text`, or else the newline-join of the text parts; no contract of its own, and `App.FallbackKeepsParts` states what the join keeps |
| App.FallbackKeepsParts | app.py:143-147 | when `.text` fails and some part carries text, none of it holding a newline, splitting the fallback answer at newlines gives every part's text back, in order |
| App.AskOutcome | app.py:137-147 | the user's turn is the first message sent. The history and the logs only grow |
| App.Chat.constructor | app.py:93 | a new session has an empty history |
| App.Chat.SendMessage | app.py:125-133 | the message joins the history, and the next scripted reply, or a transport failure, is returned and consumed |
| App.ResetChat | app.py:149-150 | a fresh session with an empty history; the old one is not touched |
| App.CallHandler | app.py:119 | the handler runs on the log directory exactly as `Invoke` says, and the logs stay valid |
| App.DispatchCall | app.py:112-123 | one call updates the logs and returns the result exactly as `Dispatch` says |
| App.RunRound | app.py:104-133 | the `for part in parts` loop leaves the chat and the logs, the flag, the current response and the call counter exactly as `Round` says |
| App.RunToolsIfAny | app.py:98-135 | the `while True` loop returns `Loop`'s outcome and leaves the chat and the logs as `Loop` says |
| App.Ask | app.py:137-147 | `ask` returns `AskOutcome`'s result and leaves the chat and the logs as it says. Transport errors propagate, and handler errors never do |
| Scenarios.DispatchUnknown | app.py:114-116 | an unknown tool runs no handler. Its result is exactly `ok`, `error` and `received_args`: `ok` is false, `error` is `unknown_tool:<name>`, and `received_args` echoes the arguments |
| Scenarios.DispatchBadArguments | app.py:120-121 | arguments that do not fit the handler give exactly `ok: false`, `bad_arguments:<message>` and the echoed arguments, and nothing is logged |
| Scenarios.DispatchRuntime | app.py:122-123 | any exception other than a `TypeError` that a registered handler raises after binding gives exactly `ok: false` and `runtime:<class>:<message>`, with no `received_args`, and nothing is logged |
| Scenarios.WriteFailureIsRuntime | tools.py:51 | a failing log write reaches that branch from both handlers: a well-formed feedback call, or a lead call whose address is accepted, yields `runtime:<class>:<message>` and logs nothing |
| Scenarios.FeedbackBinds | tools.py:54 | the single argument `question` binds to `record_feedback` |
| Scenarios.LeadBinds | tools.py:36 | the arguments `email`, `name` and `message` bind to `record_customer_interest` |
| Scenarios.FeedbackDispatch | tools.py:54-66 | a well-formed feedback call on a working directory writes its one record and answers `ok: true` with the record's id and timestamp |
| Scenarios.InvalidLeadDispatch | tools.py:44-46 | a rejected address writes nothing, whether or not the directory works, and answers `invalid_email` |
| Scenarios.OneFeedbackEach | app.py:107-119 | calls that each write one feedback record write all of them, one per call, in call order |
| Scenarios.FeedbackCallsAllLogged | tools.py:65 | no deduplication: n feedback calls append n records, each with its own id, timestamp and stripped question, in call order |
| Scenarios.InvalidLeadsNotLogged | tools.py:44-46 | repeated calls with a rejected address leave both logs unchanged |
| Scenarios.OneToolRoundTrip | app.py:137-147 | for the script "call X, then plain text", exactly one tool round trip happens. The history is the user's turn and one `tool` message, the call's records are logged, and the plain answer's text is returned |
| Scenarios.RepeatedRounds | app.py:103-135 | the loop has no round limit: for every `n`, a script of `n` replies that call the same tool followed by a plain answer ends with that plain answer, an empty script and exactly `n + 1` more messages in the history |
| Scenarios.OneCallRound | app.py:106-125 | a round over a response with one call sends one `tool` message carrying that call's result and takes the next scripted reply |
| Scenarios.CallAgain | app.py:103-135 | a script of `n` replies, each calling the same tool |
| Scenarios.LaterReplyWins | app.py:106-125 | with two calls in one response, the reply to the first `tool` message is discarded even when it asks for tools, and the reply to the second ends the turn |
| Scenarios.OutageAfterCall | app.py:125 | a transport failure on the `tool` message propagates out of `ask`, after the handler's records were written |
| Scenarios.NoCandidateFails | app.py:105 | a response without candidates makes `ask` fail with the `IndexError` after the one send |

## Left out

- Log-directory resolution, environment lookup and `mkdir` (tools.py:11-24, 32) are not modelled. The logs are in-memory sequences.
- JSON serialisation and `ensure_ascii` are not modelled. A record is a datatype, and its `event` field is `Record.Event`.
- `uuid.uuid4()` and `datetime.now` are parameters: `stamps(k)` is the id and timestamp drawn for the k-th call of a turn. Which values they take, and that ids are unique, is not modelled.
- The `print` diagnostics (tools.py:45, 50, 64) are not modelled, apart from the preview computation (`Text.Preview`). The handler functions do not carry the preview, because it is only printed. A `print` that raises (for example `UnicodeEncodeError` on a stdout that cannot encode the text) is not modelled either: in the source it would end the handler with a `runtime:` result and nothing logged, and for a rejected address it would replace the `invalid_email` answer.
- The Gemini SDK is a scripted oracle: `configure_model`, `start_chat` and `send_message` (app.py:89-94, 141). Every send consumes one scripted reply, and what the real model would answer is not modelled. The `.text` accessor is an optional field of the response: `None` where it raises.
- `hasattr(p, "text")` is modelled by an optional `text` on each part. A part that has the attribute with an empty value is `Some("")`.
- PDF reading, `.env` loading and `build_system_prompt` (app.py:21-55, 62-87) are I/O and templating, and are not modelled.
- The Gradio UI and the command-line loop (app.py:153-226) are not modelled.
- Cross-process atomicity of the log appends is not modelled: the model is sequential.
- App.BindError: tool arguments are strings only, and the `TypeError` text is simplified to one fixed message per case. Python's wording, which names the offending argument, is not reproduced. The error text is otherwise passed through unchanged.
- Tools.Logs.AppendJsonl: a failing directory is all or nothing (`Logs.fault` makes every write raise). A write that fails part-way, or fails only sometimes, is not modelled.
- Exceptions are identified by class name only. `except TypeError` catches exactly the exceptions whose kind is `"TypeError"`; subclasses are not modelled.
- App.CallsOf: `functionCall == Some(fc)` stands for a truthy `fc`. The source's `if not fc` (app.py:109) would also skip a falsy function call (empty name and no arguments), which the model dispatches and answers with `unknown_tool:`.
- Text.IsSpace is the exact `str.isspace` set. Unicode normalisation and other Unicode properties are not used anywhere.
