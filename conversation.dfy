/** The multi-turn protocol with a live model (`Harness.run_llm` in
    src/harness.py): extracting the JSON payload from a reply, the bounded
    reformat retry, the branch on `final_answer` / `tool_call`, and the
    step loop that dispatches tool calls into the environment.

    The chat-completion endpoint is a function `chat` of the whole message
    history, `json.loads` a partial function `decode`, and the wall clock a
    function `clock` of the step number. */
module Conversation {
  import opened Prelude
  import opened Tools
  import opened Trace
  import opened Harness

  // ---------------------------------------------------------------------
  // Messages

  datatype Role = System | User | Assistant

  /** A message's content: plain text, or the encoding of
      `{"tool_result": res}`. */
  datatype Content = Text(text: string) | ToolResultContent(result: ToolResult)

  datatype Message = Message(role: Role, content: Content)

  /** What one request to the chat endpoint gives: the reply text, or a
      failure (an HTTP error, a timeout, an unexpected response body). */
  datatype ChatReply = Reply(text: string) | ChatFailed(detail: string)

  const NotJsonNotice: string := "Your last response was not valid JSON. Reply with JSON only as specified."
  const NoCallNotice: string := "You must respond with either a tool_call or a final_answer in JSON."
  const MalformedNotice: string := "Malformed tool_call. Provide name (string) and arguments (object)."

  /** The conversation before the first turn: the tool schema, the prompt
      variant and the scenario's request. */
  function InitialMessages(schema: string, variantPrompt: string, userPrompt: string): seq<Message> {
    [Message(System, Text(schema)), Message(System, Text(variantPrompt)), Message(User, Text(userPrompt))]
  }

  // ---------------------------------------------------------------------
  // parse_response

  /** `t` has a `{` with a `}` at the same or a later index. */
  predicate HasBraces(t: string) {
    exists i, j :: 0 <= i <= j < |t| && t[i] == '{' && t[j] == '}'
  }

  /** `r` is the infix of `t` at `a` that runs from the first `{` of `t` to
      its last `}`. */
  predicate BraceSpan(t: string, r: string, a: int) {
    && 0 <= a && a + |r| <= |t| && r == t[a..a + |r|]
    && |r| > 0 && r[0] == '{' && r[|r| - 1] == '}'
    && (forall k :: 0 <= k < a ==> t[k] != '{')
    && (forall k :: a + |r| <= k < |t| ==> t[k] != '}')
  }

  /** The span from the first `{` of `t` to its last `}` when there is
      such a span, and otherwise `t` itself. */
  function ExtractObject(t: string): (r: string)
    ensures HasBraces(t) ==> exists a :: BraceSpan(t, r, a)
    ensures !HasBraces(t) ==> r == t
  {
    var start := Find(t, '{');
    var end := FindLast(t, '}');
    if start >= 0 && end >= start then
      BracesSpan(t, start, end);
      t[start..end + 1]
    else
      NoBraces(t, start, end);
      t
  }

  lemma BracesSpan(t: string, start: int, end: int)
    requires start == Find(t, '{') && end == FindLast(t, '}') && 0 <= start <= end
    ensures HasBraces(t) && BraceSpan(t, t[start..end + 1], start)
  {
  }

  lemma NoBraces(t: string, start: int, end: int)
    requires start == Find(t, '{') && end == FindLast(t, '}') && !(0 <= start <= end)
    ensures !HasBraces(t)
  {
    forall i, j | 0 <= i <= j < |t| && t[i] == '{'
      ensures t[j] != '}'
    {
      assert 0 <= start <= i;
      assert end < start;
    }
  }

  /** The text `parse_response` hands to `json.loads`: the stripped reply,
      extracted. */
  function ParseResponse(raw: string): string {
    ExtractObject(Strip(raw))
  }

  /** Reading a reply: `json.loads(parse_response(raw))`, where `decode`
      is `json.loads` and gives `None` for text that is not JSON. The turns
      below take the reading as a parameter `read`; the conversation uses
      `Reader(decode)`. */
  function Reader(decode: string -> Option<Json>): string -> Option<Json> {
    raw => decode(ParseResponse(raw))
  }

  /** The stripped reply, narrowed to the span from its first `{` to its
      last `}` when there is such a span, and otherwise the stripped reply
      itself. */
  lemma ParseResponseSpan(raw: string)
    ensures HasBraces(Strip(raw)) ==> exists a :: BraceSpan(Strip(raw), ParseResponse(raw), a)
    ensures !HasBraces(Strip(raw)) ==> ParseResponse(raw) == Strip(raw)
  {
    var t := Strip(raw);
    var r := ExtractObject(t);
    assert ParseResponse(raw) == r;
    if HasBraces(t) {
      var a :| BraceSpan(t, r, a);
    }
  }

  /** Stripping text that neither starts nor ends with white space changes
      nothing. */
  lemma StripUnchanged(t: string)
    requires t == [] || (!IsSpace(t[0]) && !IsSpace(t[|t| - 1]))
    ensures Strip(t) == t
  {
    assert TrimLeft(t) == t;
    assert TrimRight(t) == t;
  }

  /** A span from a `{` to a `}` is its own extraction. */
  lemma ExtractSpan(r: string)
    requires |r| > 0 && r[0] == '{' && r[|r| - 1] == '}'
    ensures Strip(r) == r && ExtractObject(r) == r
  {
    StripUnchanged(r);
    assert Find(r, '{') == 0;
    assert FindLast(r, '}') == |r| - 1;
    assert r[0..|r|] == r;
  }

  /** Extraction is idempotent: the text handed to `json.loads` is its own
      extraction. */
  lemma ParseResponseIdempotent(raw: string)
    ensures ParseResponse(ParseResponse(raw)) == ParseResponse(raw)
  {
    var t := Strip(raw);
    var r := ParseResponse(raw);
    if HasBraces(t) {
      var a :| BraceSpan(t, r, a);
      ExtractSpan(r);
    } else {
      StripUnchanged(t);
      assert ExtractObject(t) == t;
    }
  }

  // ---------------------------------------------------------------------
  // The branch on the decoded reply

  /** What the loop does with a decoded reply. `Crash` is an exception that
      escapes the loop: `"final_answer" in parsed` on a number, a boolean or
      `null`, or `parsed.get` on a list or a string. */
  datatype Decision =
    | Final
    | Invoke(call: ToolCall)
    | NoToolCall
    | MalformedCall
    | Crash

  /** Python's `"final_answer" in parsed`, where it is defined. */
  predicate MentionsFinalAnswer(p: Json) {
    || (p.JObj? && "final_answer" in p.fields)
    || (p.JArr? && JStr("final_answer") in p.items)
    || (p.JStr? && Contains(p.s, "final_answer"))
  }

  /** `call.get("arguments") or {}`. */
  function ArgumentsOf(call: map<string, Json>): Json {
    if "arguments" in call && Truthy(call["arguments"]) then call["arguments"] else JObj(map[])
  }

  /** The decision for a decoded reply. A `final_answer` wins even beside a
      `tool_call`. An object without a non-empty `tool_call` object asks for
      one; a call whose name is not a string or whose arguments are not an
      object (after an absent or empty value became `{}`) is malformed;
      otherwise the call is invoked with exactly that name and those
      arguments. */
  function Classify(p: Json): (d: Decision)
    ensures d.Final? <==> MentionsFinalAnswer(p)
    ensures d.Crash? <==> !MentionsFinalAnswer(p) && !p.JObj?
    ensures d.NoToolCall? <==> p.JObj? && !MentionsFinalAnswer(p) &&
                               !("tool_call" in p.fields && Truthy(p.fields["tool_call"]) && p.fields["tool_call"].JObj?)
    ensures d.Invoke? <==>
              && p.JObj? && !MentionsFinalAnswer(p)
              && "tool_call" in p.fields && p.fields["tool_call"].JObj? && Truthy(p.fields["tool_call"])
              && "name" in p.fields["tool_call"].fields && p.fields["tool_call"].fields["name"].JStr?
              && ArgumentsOf(p.fields["tool_call"].fields).JObj?
    ensures d.Invoke? ==>
              && d.call.name == p.fields["tool_call"].fields["name"].s
              && d.call.arguments == ArgumentsOf(p.fields["tool_call"].fields).fields
  {
    match p
    case JObj(fields) =>
      if "final_answer" in fields then Final
      else if !("tool_call" in fields && Truthy(fields["tool_call"]) && fields["tool_call"].JObj?) then NoToolCall
      else
        var call := fields["tool_call"].fields;
        var args := ArgumentsOf(call);
        if !("name" in call && call["name"].JStr?) || !args.JObj? then MalformedCall
        else Invoke(ToolCall(call["name"].s, args.fields))
    case JArr(items) => if JStr("final_answer") in items then Final else Crash
    case JStr(s) => if Contains(s, "final_answer") then Final else Crash
    case _ => Crash
  }

  // ---------------------------------------------------------------------
  // The reformat retry

  /** The outcome of the parse attempts of one turn. `ChatRaised` is a
      failed request for a reformatted reply, which nothing catches. */
  datatype Attempt =
    | Parsed(p: Json, messages: seq<Message>, retries: nat)
    | GaveUp(messages: seq<Message>)
    | ChatRaised

  const ParseAttempts: nat := 2

  /** `n` reformat notices. */
  function Notices(n: nat): seq<Message>
    decreases n
  {
    if n == 0 then [] else [Message(User, Text(NotJsonNotice))] + Notices(n - 1)
  }

  lemma NoticesAfter(messages: seq<Message>, n: nat)
    ensures messages + [Message(User, Text(NotJsonNotice))] + Notices(n) == messages + Notices(n + 1)
  {
  }

  /** The inner `for attempt in range(2)` loop after `done` attempts have
      failed: each failed attempt appends the reformat notice and requests a
      new reply, including after the last attempt, whose reply is then
      unused. A parse that succeeds reports how many attempts failed before
      it. */
  function Attempts(raw: string, messages: seq<Message>, done: nat,
                    chat: seq<Message> -> ChatReply, read: string -> Option<Json>): Attempt
    requires done <= ParseAttempts
    decreases ParseAttempts - done
  {
    if done == ParseAttempts then GaveUp(messages)
    else
      match read(raw)
      case Some(p) => Parsed(p, messages, done)
      case None =>
        var m := messages + [Message(User, Text(NotJsonNotice))];
        match chat(m)
        case ChatFailed(_) => ChatRaised
        case Reply(again) => Attempts(again, m, done + 1, chat, read)
  }

  /** A parse succeeds within the two attempts, after one reformat notice
      per failed attempt; giving up leaves one notice per attempt. */
  lemma {:induction false} AttemptsNotices(raw: string, messages: seq<Message>, done: nat,
                                           chat: seq<Message> -> ChatReply, read: string -> Option<Json>)
    requires done <= ParseAttempts
    ensures var r := Attempts(raw, messages, done, chat, read);
            && (r.Parsed? ==> done <= r.retries < ParseAttempts && r.messages == messages + Notices(r.retries - done))
            && (r.GaveUp? ==> r.messages == messages + Notices(ParseAttempts - done))
    decreases ParseAttempts - done
  {
    var r := Attempts(raw, messages, done, chat, read);
    if done == ParseAttempts {
      assert messages + [] == messages;
    } else if read(raw).Some? {
      assert messages + [] == messages;
    } else {
      var m := messages + [Message(User, Text(NotJsonNotice))];
      if chat(m).Reply? {
        AttemptsNotices(chat(m).text, m, done + 1, chat, read);
        if r.Parsed? {
          NoticesAfter(messages, r.retries - done - 1);
        } else if r.GaveUp? {
          NoticesAfter(messages, ParseAttempts - done - 1);
        }
      }
    }
  }

  /** A reply that decodes on the first attempt needs no retry and adds no
      message. */
  lemma FirstAttemptParses(raw: string, messages: seq<Message>,
                           chat: seq<Message> -> ChatReply, read: string -> Option<Json>)
    requires read(raw).Some?
    ensures Attempts(raw, messages, 0, chat, read) == Parsed(read(raw).value, messages, 0)
  {
  }

  // ---------------------------------------------------------------------
  // The step loop

  /** How one iteration of the step loop ends: the run stops (normally or
      with an exception), or it goes on with a new environment, new
      messages and possibly one new trace entry. */
  datatype TurnOutcome =
    | Stop(raised: bool)
    | Next(env: EnvState, messages: seq<Message>, entry: Option<TraceEntry>)

  /** Iteration `step` of the loop. A failed chat request at the start of
      the turn, two failed parse attempts and a final answer end the run
      normally; a failed reformat request and a reply the branch cannot
      inspect raise. A corrective turn appends its notice and leaves the
      environment alone, adding no trace entry; a tool call is dispatched
      at the step's clock reading and recorded under the step's number. */
  function Turn(s: EnvState, messages: seq<Message>, step: nat,
                chat: seq<Message> -> ChatReply, read: string -> Option<Json>,
                clock: nat -> Timestamp): (o: TurnOutcome)
    ensures o.Next? && o.entry.None? ==> o.env == s
    ensures o.Next? && o.entry.Some? ==>
              && o.entry.value.step == step
              && Dispatch(s, o.entry.value.call, clock(step)) == Effect(o.env, o.entry.value.result)
  {
    match chat(messages)
    case ChatFailed(_) => Stop(false)
    case Reply(raw) =>
      match Attempts(raw, messages, 0, chat, read)
      case ChatRaised => Stop(true)
      case GaveUp(_) => Stop(false)
      case Parsed(p, m, _) =>
        match Classify(p)
        case Crash => Stop(true)
        case Final => Stop(false)
        case NoToolCall => Next(s, m + [Message(User, Text(NoCallNotice))], None)
        case MalformedCall => Next(s, m + [Message(User, Text(MalformedNotice))], None)
        case Invoke(call) =>
          var e := Dispatch(s, call, clock(step));
          Next(e.env, m + [Message(Assistant, ToolResultContent(e.result))], Some(TraceEntry(step, call, e.result)))
  }

  /** Every branch of a turn, in terms of the parse attempts and the
      decision on the decoded reply: which replies stop the run and how,
      which go on with a corrective notice and no trace entry, and that a
      tool call is dispatched and recorded exactly as `Classify` extracts
      it, its result sent back to the model. */
  lemma TurnBranches(s: EnvState, messages: seq<Message>, step: nat,
                     chat: seq<Message> -> ChatReply, read: string -> Option<Json>, clock: nat -> Timestamp)
    ensures var o := Turn(s, messages, step, chat, read, clock);
            && (chat(messages).ChatFailed? ==> o == Stop(false))
            && (chat(messages).Reply? ==>
                  var a := Attempts(chat(messages).text, messages, 0, chat, read);
                  && (a.ChatRaised? ==> o == Stop(true))
                  && (a.GaveUp? ==> o == Stop(false))
                  && (a.Parsed? && Classify(a.p).Crash? ==> o == Stop(true))
                  && (a.Parsed? && Classify(a.p).Final? ==> o == Stop(false))
                  && (a.Parsed? && Classify(a.p).NoToolCall? ==>
                        o == Next(s, a.messages + [Message(User, Text(NoCallNotice))], None))
                  && (a.Parsed? && Classify(a.p).MalformedCall? ==>
                        o == Next(s, a.messages + [Message(User, Text(MalformedNotice))], None))
                  && (a.Parsed? && Classify(a.p).Invoke? ==>
                        var call := Classify(a.p).call;
                        var e := Dispatch(s, call, clock(step));
                        o == Next(e.env, a.messages + [Message(Assistant, ToolResultContent(e.result))],
                                  Some(TraceEntry(step, call, e.result)))))
  {
  }

  /** A turn stops the run exactly when the first request fails, the parse
      attempts raise or give up, or the decoded reply is a final answer or
      cannot be inspected; an exception escapes exactly in the two raising
      cases. */
  lemma TurnStops(s: EnvState, messages: seq<Message>, step: nat,
                  chat: seq<Message> -> ChatReply, read: string -> Option<Json>, clock: nat -> Timestamp)
    ensures chat(messages).ChatFailed? ==> Turn(s, messages, step, chat, read, clock) == Stop(false)
    ensures chat(messages).Reply? ==>
              var o := Turn(s, messages, step, chat, read, clock);
              var a := Attempts(chat(messages).text, messages, 0, chat, read);
              && (o.Stop? <==> !a.Parsed? || Classify(a.p).Final? || Classify(a.p).Crash?)
              && (o == Stop(true) <==> a.ChatRaised? || (a.Parsed? && Classify(a.p).Crash?))
  {
    TurnBranches(s, messages, step, chat, read, clock);
  }

  function EntryList(entry: Option<TraceEntry>): seq<TraceEntry> {
    match entry
    case None => []
    case Some(x) => [x]
  }

  /** How the loop ends: the environment, the trace and whether an
      exception escaped. */
  datatype Run = Run(env: EnvState, trace: seq<TraceEntry>, raised: bool)

  /** One iteration of the loop, from the environment, the messages and the
      step number. */
  type TurnFn = (EnvState, seq<Message>, nat) -> TurnOutcome

  /** What every iteration guarantees: a turn that adds no trace entry
      leaves the environment alone, and one that adds an entry records the
      step's number and the dispatch of its call at the step's clock
      reading. */
  ghost predicate TurnContract(turn: TurnFn, clock: nat -> Timestamp) {
    forall s, m, k ::
      && (turn(s, m, k).Next? && turn(s, m, k).entry.None? ==> turn(s, m, k).env == s)
      && (turn(s, m, k).Next? && turn(s, m, k).entry.Some? ==>
            && turn(s, m, k).entry.value.step == k
            && Dispatch(s, turn(s, m, k).entry.value.call, clock(k))
               == Effect(turn(s, m, k).env, turn(s, m, k).entry.value.result))
  }

  /** The `for step in range(1, max_steps + 1)` loop from iteration `step`
      on, for any turn function. */
  function Loop(s: EnvState, messages: seq<Message>, trace: seq<TraceEntry>, step: int, maxSteps: int,
                turn: TurnFn): Run
    decreases maxSteps + 1 - step
  {
    if step > maxSteps || step < 1 then Run(s, trace, false)
    else
      match turn(s, messages, step)
      case Stop(raised) => Run(s, trace, raised)
      case Next(s', m', entry) => Loop(s', m', trace + EntryList(entry), step + 1, maxSteps, turn)
  }

  /** The turns of a conversation with `chat`. */
  function TurnOf(chat: seq<Message> -> ChatReply, read: string -> Option<Json>, clock: nat -> Timestamp): TurnFn {
    (s: EnvState, m: seq<Message>, k: nat) => Turn(s, m, k, chat, read, clock)
  }

  lemma TurnOfContract(chat: seq<Message> -> ChatReply, read: string -> Option<Json>, clock: nat -> Timestamp)
    ensures TurnContract(TurnOf(chat, read, clock), clock)
  {
    var turn := TurnOf(chat, read, clock);
    forall s, m, k
      ensures && (turn(s, m, k).Next? && turn(s, m, k).entry.None? ==> turn(s, m, k).env == s)
              && (turn(s, m, k).Next? && turn(s, m, k).entry.Some? ==>
                    && turn(s, m, k).entry.value.step == k
                    && Dispatch(s, turn(s, m, k).entry.value.call, clock(k))
                       == Effect(turn(s, m, k).env, turn(s, m, k).entry.value.result))
    {
      assert turn(s, m, k) == Turn(s, m, k, chat, read, clock);
    }
  }

  /** The loop of `run_llm` from iteration `step` on, as a function of the
      environment's value, the messages so far and the trace so far. */
  function Converse(s: EnvState, messages: seq<Message>, trace: seq<TraceEntry>, step: int, maxSteps: int,
                    chat: seq<Message> -> ChatReply, decode: string -> Option<Json>,
                    clock: nat -> Timestamp): Run
  {
    Loop(s, messages, trace, step, maxSteps, TurnOf(chat, Reader(decode), clock))
  }

  /** Step numbers strictly increase along the trace. */
  predicate StepsIncreasing(t: seq<TraceEntry>) {
    forall i, j :: 0 <= i < j < |t| ==> t[i].step < t[j].step
  }

  /** Every step number lies in `lo..hi`. */
  predicate StepsWithin(t: seq<TraceEntry>, lo: int, hi: int) {
    forall i :: 0 <= i < |t| ==> lo <= t[i].step <= hi
  }

  /** Appending the entry of iteration `step` keeps the step numbers
      increasing and within `1..step`. */
  lemma StepsExtend(trace: seq<TraceEntry>, entry: Option<TraceEntry>, step: int)
    requires StepsIncreasing(trace) && StepsWithin(trace, 1, step - 1)
    requires 1 <= step && (entry.Some? ==> entry.value.step == step)
    ensures StepsIncreasing(trace + EntryList(entry)) && StepsWithin(trace + EntryList(entry), 1, step)
  {
  }

  lemma PrefixThrough(a: seq<TraceEntry>, b: seq<TraceEntry>, c: seq<TraceEntry>)
    requires |a| <= |b| <= |c| && b[..|a|] == a && c[..|b|] == b
    ensures c[..|a|] == a
  {
    assert c[..|a|] == c[..|b|][..|a|];
  }

  /** From iteration `step` on, the loop only appends to the trace, at most
      one entry per remaining iteration, with increasing step numbers that
      stay within the budget. */
  lemma {:induction false} LoopSteps(s: EnvState, messages: seq<Message>, trace: seq<TraceEntry>, step: int,
                                     maxSteps: int, turn: TurnFn, clock: nat -> Timestamp)
    requires TurnContract(turn, clock)
    requires 1 <= step
    requires StepsIncreasing(trace) && StepsWithin(trace, 1, step - 1)
    ensures var r := Loop(s, messages, trace, step, maxSteps, turn);
            && |trace| <= |r.trace| && r.trace[..|trace|] == trace
            && |r.trace| <= |trace| + (if maxSteps + 1 - step < 0 then 0 else maxSteps + 1 - step)
            && StepsIncreasing(r.trace)
            && StepsWithin(r.trace, 1, if step - 1 < maxSteps then maxSteps else step - 1)
    decreases maxSteps + 1 - step
  {
    if step <= maxSteps {
      var o := turn(s, messages, step);
      if o.Next? {
        var trace' := trace + EntryList(o.entry);
        StepsExtend(trace, o.entry, step);
        assert trace'[..|trace|] == trace;
        LoopSteps(o.env, o.messages, trace', step + 1, maxSteps, turn, clock);
        var r := Loop(o.env, o.messages, trace', step + 1, maxSteps, turn);
        PrefixThrough(trace, trace', r.trace);
      }
    }
  }

  /** A turn that goes on extends a trace that replays to the current
      state into one that replays to the turn's new state. */
  lemma ReplayTurn(s0: EnvState, s: EnvState, messages: seq<Message>, trace: seq<TraceEntry>, step: nat,
                   turn: TurnFn, clock: nat -> Timestamp)
    requires TurnContract(turn, clock)
    requires Replay(s0, trace, clock) == Some(s) && turn(s, messages, step).Next?
    ensures Replay(s0, trace + EntryList(turn(s, messages, step).entry), clock) == Some(turn(s, messages, step).env)
  {
    var o := turn(s, messages, step);
    if o.entry.Some? {
      ReplayAppend(s0, trace, o.entry.value, clock, s);
    } else {
      assert trace + EntryList(o.entry) == trace;
    }
  }

  /** `inv` relates a trace to an environment, and every turn that goes on
      carries it over to the extended trace and the new environment. */
  ghost predicate TurnsKeep(turn: TurnFn, inv: (seq<TraceEntry>, EnvState) -> bool) {
    forall t, s, m, k :: inv(t, s) && turn(s, m, k).Next? ==>
                           inv(t + EntryList(turn(s, m, k).entry), turn(s, m, k).env)
  }

  /** A relation that every turn keeps holds of the loop's final trace and
      environment. */
  lemma {:induction false} LoopKeeps(s: EnvState, messages: seq<Message>, trace: seq<TraceEntry>,
                                     step: int, maxSteps: int, turn: TurnFn,
                                     inv: (seq<TraceEntry>, EnvState) -> bool)
    requires TurnsKeep(turn, inv) && inv(trace, s)
    ensures inv(Loop(s, messages, trace, step, maxSteps, turn).trace, Loop(s, messages, trace, step, maxSteps, turn).env)
    decreases maxSteps + 1 - step
  {
    if 1 <= step <= maxSteps {
      var o := turn(s, messages, step);
      if o.Next? {
        LoopKeeps(o.env, o.messages, trace + EntryList(o.entry), step + 1, maxSteps, turn, inv);
      }
    }
  }

  /** The loop changes the environment only through the calls it records:
      if the trace so far replays to the current state, the final trace
      replays to the final state. */
  lemma LoopReplays(s0: EnvState, s: EnvState, messages: seq<Message>, trace: seq<TraceEntry>,
                    step: int, maxSteps: int, turn: TurnFn, clock: nat -> Timestamp)
    requires TurnContract(turn, clock)
    requires Replay(s0, trace, clock) == Some(s)
    ensures var r := Loop(s, messages, trace, step, maxSteps, turn);
            Replay(s0, r.trace, clock) == Some(r.env)
  {
    var inv := (t: seq<TraceEntry>, e: EnvState) => Replay(s0, t, clock) == Some(e);
    forall t, x, m, k | inv(t, x) && turn(x, m, k).Next?
      ensures inv(t + EntryList(turn(x, m, k).entry), turn(x, m, k).env)
    {
      ReplayTurn(s0, x, m, t, k, turn, clock);
    }
    LoopKeeps(s, messages, trace, step, maxSteps, turn, inv);
  }

  /** A whole run from the start: at most `maxSteps` trace entries, numbered
      strictly increasingly within `1..maxSteps` (a corrective turn leaves a
      gap), and the trace replays from the initial environment to the final
      one, which therefore stays well formed. */
  lemma RunProperties(s0: EnvState, messages: seq<Message>, maxSteps: int, chat: seq<Message> -> ChatReply,
                      decode: string -> Option<Json>, clock: nat -> Timestamp)
    ensures var r := Converse(s0, messages, [], 1, maxSteps, chat, decode, clock);
            && |r.trace| <= (if maxSteps < 0 then 0 else maxSteps)
            && StepsIncreasing(r.trace) && StepsWithin(r.trace, 1, maxSteps)
            && Replay(s0, r.trace, clock) == Some(r.env)
            && (WellFormed(s0) ==> WellFormed(r.env))
  {
    var turn := TurnOf(chat, Reader(decode), clock);
    TurnOfContract(chat, Reader(decode), clock);
    LoopSteps(s0, messages, [], 1, maxSteps, turn, clock);
    LoopReplays(s0, s0, messages, [], 1, maxSteps, turn, clock);
    var r := Converse(s0, messages, [], 1, maxSteps, chat, decode, clock);
    if WellFormed(s0) {
      ReplayWellFormed(s0, r.trace, clock);
    }
  }

  /** At any step within the budget, a reply that decodes (at once or
      after a reformat) to a final answer, whether an object with that key,
      a list holding that string or a string containing it, ends the run
      there, normally, with the trace and the environment as they are, even
      if it also carries a tool call. */
  lemma FinalAnswerStops(s: EnvState, messages: seq<Message>, trace: seq<TraceEntry>, step: int, maxSteps: int,
                         chat: seq<Message> -> ChatReply, decode: string -> Option<Json>, clock: nat -> Timestamp)
    requires 1 <= step <= maxSteps && chat(messages).Reply?
    requires var a := Attempts(chat(messages).text, messages, 0, chat, Reader(decode));
             a.Parsed? && MentionsFinalAnswer(a.p)
    ensures Converse(s, messages, trace, step, maxSteps, chat, decode, clock) == Run(s, trace, false)
  {
    var turn := TurnOf(chat, Reader(decode), clock);
    TurnBranches(s, messages, step, chat, Reader(decode), clock);
    assert turn(s, messages, step) == Stop(false);
    LoopNext(s, messages, trace, step, maxSteps, turn, turn(s, messages, step));
  }

  /** A first reply that decodes at once to a final answer ends the run at
      once with an empty trace and an untouched environment. */
  lemma FinalAnswerStopsAtOnce(s0: EnvState, messages: seq<Message>, maxSteps: int,
                               chat: seq<Message> -> ChatReply, decode: string -> Option<Json>,
                               clock: nat -> Timestamp)
    requires maxSteps >= 1 && chat(messages).Reply?
    requires var p := decode(ParseResponse(chat(messages).text));
             p.Some? && MentionsFinalAnswer(p.value)
    ensures Converse(s0, messages, [], 1, maxSteps, chat, decode, clock) == Run(s0, [], false)
  {
    FirstAttemptParses(chat(messages).text, messages, chat, Reader(decode));
    FinalAnswerStops(s0, messages, [], 1, maxSteps, chat, decode, clock);
  }

  /** The inner loop of one turn: at most two parse attempts, each failure
      followed by the reformat notice and a new request. */
  method ParseWithRetry(raw0: string, messages0: seq<Message>,
                        chat: seq<Message> -> ChatReply, read: string -> Option<Json>)
    returns (a: Attempt)
    ensures a == Attempts(raw0, messages0, 0, chat, read)
  {
    var raw := raw0;
    var messages := messages0;
    var attempt := 0;
    while attempt < ParseAttempts
      invariant 0 <= attempt <= ParseAttempts
      invariant Attempts(raw, messages, attempt, chat, read) == Attempts(raw0, messages0, 0, chat, read)
    {
      var candidate := read(raw);
      if candidate.Some? {
        return Parsed(candidate.value, messages, attempt);
      }
      messages := messages + [Message(User, Text(NotJsonNotice))];
      var again := chat(messages);
      if again.ChatFailed? {
        return ChatRaised;
      }
      raw := again.text;
      attempt := attempt + 1;
    }
    a := GaveUp(messages);
  }

  /** One iteration of the step loop on the mutable environment. */
  method PlayTurn(env: Env, messages: seq<Message>, step: nat,
                  chat: seq<Message> -> ChatReply, read: string -> Option<Json>, clock: nat -> Timestamp)
    returns (o: TurnOutcome)
    modifies env
    ensures o == TurnOf(chat, read, clock)(old(env.State()), messages, step)
    ensures env.State() == (if o.Next? then o.env else old(env.State()))
  {
    var reply := chat(messages);
    if reply.ChatFailed? {
      return Stop(false);
    }
    var attempt := ParseWithRetry(reply.text, messages, chat, read);
    if attempt.ChatRaised? {
      return Stop(true);
    }
    if attempt.GaveUp? {
      return Stop(false);
    }
    var m := attempt.messages;
    var decision := Classify(attempt.p);
    match decision
    case Crash => o := Stop(true);
    case Final => o := Stop(false);
    case NoToolCall => o := Next(env.State(), m + [Message(User, Text(NoCallNotice))], None);
    case MalformedCall => o := Next(env.State(), m + [Message(User, Text(MalformedNotice))], None);
    case Invoke(call) =>
      var result := ExecTool(env, call, clock(step));
      o := Next(env.State(), m + [Message(Assistant, ToolResultContent(result))],
                Some(TraceEntry(step, call, result)));
  }

  /** One iteration of the loop, unfolded. */
  lemma LoopNext(s: EnvState, messages: seq<Message>, trace: seq<TraceEntry>, step: int, maxSteps: int,
                 turn: TurnFn, o: TurnOutcome)
    requires 1 <= step <= maxSteps && o == turn(s, messages, step)
    ensures o.Stop? ==> Loop(s, messages, trace, step, maxSteps, turn) == Run(s, trace, o.raised)
    ensures o.Next? ==> Loop(s, messages, trace, step, maxSteps, turn)
                        == Loop(o.env, o.messages, trace + EntryList(o.entry), step + 1, maxSteps, turn)
  {
  }

  /** The result of `run_llm`: the trace and its snapshot, or an exception. */
  datatype LlmOutcome = Returned(trace: ExecutionTrace) | Raised

  /** `Harness.run_llm` on the mutable environment. */
  method RunLlm(env: Env, schema: string, variantPrompt: string, userPrompt: string, maxSteps: int,
                chat: seq<Message> -> ChatReply, decode: string -> Option<Json>, clock: nat -> Timestamp)
    returns (o: LlmOutcome)
    modifies env
    ensures var r := Converse(old(env.State()), InitialMessages(schema, variantPrompt, userPrompt), [], 1,
                              maxSteps, chat, decode, clock);
            && env.State() == r.env
            && o == (if r.raised then Raised else Returned(ExecutionTrace(r.trace, FinalOf(r.env))))
  {
    var messages := InitialMessages(schema, variantPrompt, userPrompt);
    var trace: seq<TraceEntry> := [];
    var read := Reader(decode);
    ghost var f := TurnOf(chat, read, clock);
    ghost var run := Loop(env.State(), messages, trace, 1, maxSteps, f);
    var step := 1;
    while step <= maxSteps
      invariant 1 <= step
      invariant Loop(env.State(), messages, trace, step, maxSteps, f) == run
      decreases maxSteps + 1 - step
    {
      ghost var s := env.State();
      var turn := PlayTurn(env, messages, step, chat, read, clock);
      LoopNext(s, messages, trace, step, maxSteps, f, turn);
      if turn.Stop? {
        if turn.raised {
          return Raised;
        }
        break;
      }
      messages := turn.messages;
      trace := trace + EntryList(turn.entry);
      step := step + 1;
    }
    var final := Snapshot(env);
    o := Returned(ExecutionTrace(trace, final));
  }
}
