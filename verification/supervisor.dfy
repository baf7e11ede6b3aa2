/** `response_generator` behind `/api/process_input_api_using_model`: a
    planning model breaks the user's input into a prompt, the sampling loop
    runs on it, the planner is asked whether more is needed, and its answer
    either closes the conversation (it contains "FINAL RESPONSE", in any case)
    or becomes the next prompt.

    Both models are scripts, bundled with the two Python operations the loop
    applies to agent values in a `Script`: `planner(0)` answers the initial
    request and `planner(t + 1)` the follow-up request after agent turn `t`;
    `agent(t)` is what the sampling loop yields and raises in turn `t`. The
    source loop has no bound; `fuel` caps the number of agent turns and running out is the
    model-only end `Exhausted`.

    The outer exception handler (app.py lines 548-555) formats a timestamp
    with `datetime.datetime.now()`, but `datetime` names the class there, so
    the handler itself raises before its error chunk is yielded: any exception
    outside the agent turn ends the stream abruptly, with no final chunk. That
    end is `Crashed`. */
module Supervisor {
  import opened Wrappers
  import opened Text
  import Session
  import Relay

  /** One reply of the planning model: the message content, or the text of
      the exception the request (or reading its content) raised. */
  datatype PlannerReply = Answer(content: string) | Raises(error: string)

  /** The outside world of one conversation: the planning model's replies
      and the sampling loop's runs, by call number, Python's `str` on an
      agent value, and whether `json.dumps` succeeds on a log holding the
      given agent values. */
  datatype Script<!T> = Script(
    planner: nat -> PlannerReply,
    agent: nat -> Relay.Run<T>,
    show: T -> string,
    jsonable: seq<T> -> bool)

  /** What raised outside the agent turn. */
  datatype Cause =
    | SetupFailed(fault: Session.Fault)   // `setup_state` on the fresh state
    | PlannerFailed(error: string)        // a request to the planning model
    | MessageUnbound                      // no agent message was ever yielded
    | LogNotSerializable                  // `json.dumps` of the conversation log

  datatype End =
    | Closed                      // the planner said FINAL RESPONSE
    | AgentFailed(error: string)  // the sampling loop raised
    | Crashed(cause: Cause)       // the stream was cut off by an exception
    | Exhausted                   // the fuel ran out (not in the source)

  /** Everything the loop does that can be observed: the chunks streamed, the
      prompts handed to the sampling loop (each appended to the session's
      messages as a user message), the stripped follow-up answers of the
      planner, and the user content of every request sent to the planner. */
  datatype Transcript = Transcript(
    chunks: seq<string>,
    prompts: seq<string>,
    followUps: seq<string>,
    requests: seq<string>,
    end: End)

  const Sentinel := "FINAL RESPONSE"

  const ClosingChunk := Relay.Frame("Conversation closed by OpenAI.")

  function PlanChunk(plan: string): string {
    Relay.Frame("OpenAI Processed Input:\n" + plan)
  }

  function AgentChunk(shown: string): string {
    Relay.Frame("Anthropic Response: " + shown)
  }

  function AgentErrorChunk(error: string): string {
    Relay.Frame("Error from Anthropic: " + error)
  }

  function FollowUpChunk(followUp: string): string {
    Relay.Frame("OpenAI Follow-Up:\n" + followUp)
  }

  function FollowUpRequest(shown: string): string {
    "Anthropic response:\n" + shown
  }

  /** The planner's answer closes the conversation. */
  predicate SaysFinal(answer: string) {
    Contains(Upper(answer), Sentinel)
  }

  /** A chunk that the generic `except` at app.py line 458 or 555 would emit. */
  predicate IsErrorFrame(chunk: string) {
    "data: Error: " <= chunk
  }

  /** One chunk per value relayed in a turn. */
  function AgentChunks<T>(relayed: seq<T>, show: T -> string): (r: seq<string>)
    ensures |r| == |relayed|
  {
    if relayed == [] then []
    else AgentChunks(relayed[..|relayed| - 1], show) + [AgentChunk(show(relayed[|relayed| - 1]))]
  }

  /** The ends after which the last prompt received a follow-up answer. */
  predicate AnsweredLast(end: End) {
    end.Closed? || end.Exhausted? || end == Crashed(LogNotSerializable)
  }

  /** The outcome of one agent turn: the conversation stops with the turn's
      part of the transcript, or it goes on with the chunks streamed so far,
      the planner's answer as the next prompt, the request that produced it,
      and the updated loop variable and log. */
  datatype Step<T> =
    | Stop(part: Transcript)
    | Next(chunks: seq<string>, followUp: string, request: string, last: T, log: seq<T>)

  /** One pass of the `while True` body (app.py lines 493-546): append the
      prompt, relay the sampling loop's values, ask the planner, then close,
      crash or continue. `last` is what the loop variable `message` still holds
      from earlier turns and `log` the agent values already logged. */
  function Turn<T(==)>(turn: nat, prompt: string, last: Option<T>, log: seq<T>,
                       sc: Script<T>): (s: Step<T>)
    ensures s.Next? ==> !SaysFinal(s.followUp)
    ensures s.Stop? ==> s.part.prompts == [prompt] && !s.part.end.Exhausted?
    ensures s.Stop? ==> |s.part.followUps| == (if AnsweredLast(s.part.end) then 1 else 0)
    ensures s.Stop? ==> |s.part.requests| == |s.part.followUps|
                                             + (if s.part.end.Crashed? && s.part.end.cause.PlannerFailed? then 1 else 0)
    ensures s.Stop? && s.part.end.Closed? ==> SaysFinal(s.part.followUps[0])
    ensures s.Stop? && s.part.end.Closed? ==> |s.part.chunks| > 0 && s.part.chunks[|s.part.chunks| - 1] == ClosingChunk
    ensures s.Stop? && s.part.end.AgentFailed? ==>
              |s.part.chunks| > 0 && s.part.chunks[|s.part.chunks| - 1] == AgentErrorChunk(s.part.end.error)
  {
    var run := sc.agent(turn);
    var relayed := Relay.Dedup(run.items);
    var shown := AgentChunks(relayed, sc.show);
    var log' := log + relayed;
    var last' := if |relayed| > 0 then Some(relayed[|relayed| - 1]) else last;
    if run.raised.Some? then
      Stop(Transcript(shown + [AgentErrorChunk(run.raised.value)], [prompt], [], [], AgentFailed(run.raised.value)))
    else if last'.None? then
      Stop(Transcript(shown, [prompt], [], [], Crashed(MessageUnbound)))
    else
      var request := FollowUpRequest(sc.show(last'.value));
      match sc.planner(turn + 1)
      case Raises(e) => Stop(Transcript(shown, [prompt], [], [request], Crashed(PlannerFailed(e))))
      case Answer(content) =>
        var followUp := Strip(content);
        var chunks := shown + [FollowUpChunk(followUp)];
        if !sc.jsonable(log') then
          Stop(Transcript(chunks, [prompt], [followUp], [request], Crashed(LogNotSerializable)))
        else if SaysFinal(followUp) then
          Stop(Transcript(chunks + [ClosingChunk], [prompt], [followUp], [request], Closed))
        else
          Next(chunks, followUp, request, last'.value, log')
  }

  /** The `while True` loop (app.py lines 491-546) from agent turn `turn` on. */
  function Loop<T(==)>(turn: nat, prompt: string, last: Option<T>, log: seq<T>,
                       sc: Script<T>, fuel: nat): (r: Transcript)
    decreases fuel
    ensures |r.prompts| <= fuel
    ensures fuel > 0 ==> |r.prompts| > 0 && r.prompts[0] == prompt
    ensures r.end.Exhausted? ==> |r.prompts| == fuel
    ensures |r.followUps| == |r.prompts| - (if AnsweredLast(r.end) then 0 else 1)
    ensures |r.requests| == |r.followUps| + (if r.end.Crashed? && r.end.cause.PlannerFailed? then 1 else 0)
  {
    if fuel == 0 then Transcript([], [], [], [], Exhausted)
    else
      match Turn(turn, prompt, last, log, sc)
      case Stop(part) => part
      case Next(chunks, followUp, request, last', log') =>
        var f: nat := fuel - 1;
        var rest := Loop(turn + 1, followUp, Some(last'), log', sc, f);
        Transcript(chunks + rest.chunks, [prompt] + rest.prompts, [followUp] + rest.followUps,
                   [request] + rest.requests, rest.end)
  }

  /** The loop after a turn that goes on: that turn's part followed by the
      rest of the loop. */
  lemma LoopUnfold<T>(turn: nat, prompt: string, last: Option<T>, log: seq<T>,
                          sc: Script<T>, fuel: nat, f: nat)
    requires Turn(turn, prompt, last, log, sc).Next?
    requires fuel == f + 1
    ensures var step := Turn(turn, prompt, last, log, sc);
      var rest := Loop(turn + 1, step.followUp, Some(step.last), step.log, sc, f);
      var r := Loop(turn, prompt, last, log, sc, fuel);
      && r.chunks == step.chunks + rest.chunks
      && r.prompts == [prompt] + rest.prompts
      && r.followUps == [step.followUp] + rest.followUps
      && r.requests == [step.request] + rest.requests
      && r.end == rest.end
  {
  }

  /** The loop after a turn that stops: that turn's part alone. */
  lemma LoopStops<T>(turn: nat, prompt: string, last: Option<T>, log: seq<T>,
                         sc: Script<T>, fuel: nat)
    requires Turn(turn, prompt, last, log, sc).Stop? && fuel > 0
    ensures Loop(turn, prompt, last, log, sc, fuel)
            == Turn(turn, prompt, last, log, sc).part
  {
  }

  /** Every follow-up answer but the last failed to say FINAL RESPONSE and
      became the next prompt. */
  ghost predicate Chained(t: Transcript) {
    forall i :: 0 <= i < |t.prompts| - 1 ==>
      i < |t.followUps| && t.prompts[i + 1] == t.followUps[i] && !SaysFinal(t.followUps[i])
  }

  /** A turn that goes on, put in front of a chained rest, keeps it chained. */
  lemma ChainedCons(r: Transcript, rest: Transcript, prompt: string, followUp: string)
    requires Chained(rest) && !SaysFinal(followUp)
    requires |rest.followUps| >= |rest.prompts| - 1
    requires r.prompts == [prompt] + rest.prompts && r.followUps == [followUp] + rest.followUps
    requires |rest.prompts| > 0 ==> rest.prompts[0] == followUp
    ensures Chained(r)
  {
    forall i | 0 <= i < |r.prompts| - 1
      ensures i < |r.followUps| && r.prompts[i + 1] == r.followUps[i] && !SaysFinal(r.followUps[i])
    {
      if i > 0 {
        assert r.prompts[i + 1] == rest.prompts[i];
        assert r.followUps[i] == rest.followUps[i - 1];
      }
    }
  }

  /** Within the loop, every follow-up answer but the last failed to say
      FINAL RESPONSE and became the next prompt. */
  lemma {:induction false} LoopFollowUps<T>(turn: nat, prompt: string, last: Option<T>, log: seq<T>,
                                                sc: Script<T>, fuel: nat)
    decreases fuel
    ensures Chained(Loop(turn, prompt, last, log, sc, fuel))
  {
    if fuel > 0 {
      var step := Turn(turn, prompt, last, log, sc);
      if step.Next? {
        var f: nat := fuel - 1;
        var rest := Loop(turn + 1, step.followUp, Some(step.last), step.log, sc, f);
        LoopFollowUps(turn + 1, step.followUp, Some(step.last), step.log, sc, f);
        LoopUnfold(turn, prompt, last, log, sc, fuel, f);
        ChainedCons(Loop(turn, prompt, last, log, sc, fuel), rest, prompt, step.followUp);
      }
    }
  }

  /** The stream ends with the closing chunk, after a follow-up answer that
      says FINAL RESPONSE, when the planner closed the conversation, and with
      the agent's error chunk when the sampling loop raised. */
  ghost predicate EndsAsItEnds(t: Transcript) {
    && (t.end.Closed? ==> |t.chunks| > 0 && t.chunks[|t.chunks| - 1] == ClosingChunk
                          && |t.followUps| > 0 && SaysFinal(t.followUps[|t.followUps| - 1]))
    && (t.end.AgentFailed? ==> |t.chunks| > 0 && t.chunks[|t.chunks| - 1] == AgentErrorChunk(t.end.error))
  }

  lemma EndsAsItEndsAppend(r: Transcript, chunks: seq<string>, followUp: string, rest: Transcript)
    requires EndsAsItEnds(rest)
    requires r.chunks == chunks + rest.chunks && r.followUps == [followUp] + rest.followUps
    requires r.end == rest.end
    ensures EndsAsItEnds(r)
  {
    if r.end.Closed? || r.end.AgentFailed? {
      assert r.chunks[|r.chunks| - 1] == rest.chunks[|rest.chunks| - 1];
    }
    if r.end.Closed? {
      assert r.followUps[|r.followUps| - 1] == rest.followUps[|rest.followUps| - 1];
    }
  }

  /** A turn that stops has already streamed the chunk its end calls for. */
  lemma TurnStopEnds<T>(turn: nat, prompt: string, last: Option<T>, log: seq<T>,
                        sc: Script<T>)
    requires Turn(turn, prompt, last, log, sc).Stop?
    ensures EndsAsItEnds(Turn(turn, prompt, last, log, sc).part)
  {
  }

  lemma {:induction false} LoopLastChunk<T>(turn: nat, prompt: string, last: Option<T>, log: seq<T>,
                                                sc: Script<T>, fuel: nat)
    decreases fuel
    ensures EndsAsItEnds(Loop(turn, prompt, last, log, sc, fuel))
  {
    if fuel > 0 {
      var step := Turn(turn, prompt, last, log, sc);
      var f: nat := fuel - 1;
      if step.Next? {
        var rest := Loop(turn + 1, step.followUp, Some(step.last), step.log, sc, f);
        LoopLastChunk(turn + 1, step.followUp, Some(step.last), step.log, sc, f);
        LoopUnfold(turn, prompt, last, log, sc, fuel, f);
        EndsAsItEndsAppend(Loop(turn, prompt, last, log, sc, fuel),
                           step.chunks, step.followUp, rest);
      } else {
        LoopStops(turn, prompt, last, log, sc, fuel);
        TurnStopEnds(turn, prompt, last, log, sc);
      }
    }
  }

  /** No chunk of the stream is one a generic exception handler emits. */
  ghost predicate NoErrorFrames(chunks: seq<string>) {
    forall k :: 0 <= k < |chunks| ==> !IsErrorFrame(chunks[k])
  }

  /** A payload that differs from "Error: " at position `k` is not framed as
      a generic error. */
  lemma FrameNotError(payload: string, k: nat)
    requires k < 7 && k < |payload| && payload[k] != "Error: "[k]
    ensures !IsErrorFrame(Relay.Frame(payload))
  {
    var c := Relay.Frame(payload);
    assert c[6 + k] == payload[k];
    assert "data: Error: "[6 + k] == "Error: "[k];
  }

  /** None of the chunk kinds the loop itself streams is a generic error. */
  lemma ChunkKindsNotErrors(text: string)
    ensures !IsErrorFrame(PlanChunk(text))
    ensures !IsErrorFrame(AgentChunk(text))
    ensures !IsErrorFrame(AgentErrorChunk(text))
    ensures !IsErrorFrame(FollowUpChunk(text))
    ensures !IsErrorFrame(ClosingChunk)
  {
    FrameNotError("OpenAI Processed Input:\n" + text, 0);
    FrameNotError("Anthropic Response: " + text, 0);
    FrameNotError("Error from Anthropic: " + text, 5);
    FrameNotError("OpenAI Follow-Up:\n" + text, 0);
    FrameNotError("Conversation closed by OpenAI.", 0);
  }

  lemma NoErrorFramesAppend(a: seq<string>, b: seq<string>)
    requires NoErrorFrames(a) && NoErrorFrames(b)
    ensures NoErrorFrames(a + b)
  {
    forall k | 0 <= k < |a + b|
      ensures !IsErrorFrame((a + b)[k])
    {
      if k >= |a| {
        assert (a + b)[k] == b[k - |a|];
      }
    }
  }

  /** The chunks of one agent turn. */
  function TurnChunks<T>(s: Step<T>): seq<string> {
    if s.Stop? then s.part.chunks else s.chunks
  }

  lemma {:induction false} AgentChunksNotErrors<T>(relayed: seq<T>, show: T -> string)
    ensures NoErrorFrames(AgentChunks(relayed, show))
  {
    if relayed != [] {
      var init := relayed[..|relayed| - 1];
      AgentChunksNotErrors(init, show);
      ChunkKindsNotErrors(show(relayed[|relayed| - 1]));
      NoErrorFramesAppend(AgentChunks(init, show), [AgentChunk(show(relayed[|relayed| - 1]))]);
    }
  }

  /** The chunks of a turn in which the sampling loop raised. */
  lemma TurnRaisedChunks<T>(turn: nat, prompt: string, last: Option<T>, log: seq<T>,
                            sc: Script<T>)
    requires sc.agent(turn).raised.Some?
    ensures TurnChunks(Turn(turn, prompt, last, log, sc))
            == AgentChunks(Relay.Dedup(sc.agent(turn).items), sc.show) + [AgentErrorChunk(sc.agent(turn).raised.value)]
  {
  }

  /** The chunks of a turn that ends before the planner answers. */
  lemma TurnUnansweredChunks<T>(turn: nat, prompt: string, last: Option<T>, log: seq<T>,
                                sc: Script<T>)
    requires sc.agent(turn).raised.None?
    requires (Relay.Dedup(sc.agent(turn).items) == [] && last.None?) || sc.planner(turn + 1).Raises?
    ensures TurnChunks(Turn(turn, prompt, last, log, sc))
            == AgentChunks(Relay.Dedup(sc.agent(turn).items), sc.show)
  {
  }

  /** The chunks of a turn in which the planner answered. */
  lemma TurnAnsweredChunks<T>(turn: nat, prompt: string, last: Option<T>, log: seq<T>,
                              sc: Script<T>)
    requires sc.agent(turn).raised.None?
    requires Relay.Dedup(sc.agent(turn).items) != [] || last.Some?
    requires sc.planner(turn + 1).Answer?
    ensures var chunks := AgentChunks(Relay.Dedup(sc.agent(turn).items), sc.show)
                          + [FollowUpChunk(Strip(sc.planner(turn + 1).content))];
      var c := TurnChunks(Turn(turn, prompt, last, log, sc));
      c == chunks || c == chunks + [ClosingChunk]
  {
  }

  lemma TurnNoErrorFrames<T>(turn: nat, prompt: string, last: Option<T>, log: seq<T>,
                             sc: Script<T>)
    ensures NoErrorFrames(TurnChunks(Turn(turn, prompt, last, log, sc)))
  {
    var run := sc.agent(turn);
    var relayed := Relay.Dedup(run.items);
    var shown := AgentChunks(relayed, sc.show);
    AgentChunksNotErrors(relayed, sc.show);
    if run.raised.Some? {
      TurnRaisedChunks(turn, prompt, last, log, sc);
      ChunkKindsNotErrors(run.raised.value);
      NoErrorFramesAppend(shown, [AgentErrorChunk(run.raised.value)]);
    } else if (relayed == [] && last.None?) || sc.planner(turn + 1).Raises? {
      TurnUnansweredChunks(turn, prompt, last, log, sc);
    } else {
      TurnAnsweredChunks(turn, prompt, last, log, sc);
      var followUp := Strip(sc.planner(turn + 1).content);
      var chunks := shown + [FollowUpChunk(followUp)];
      ChunkKindsNotErrors(followUp);
      NoErrorFramesAppend(shown, [FollowUpChunk(followUp)]);
      NoErrorFramesAppend(chunks, [ClosingChunk]);
    }
  }

  lemma {:induction false} LoopNoErrorFrames<T>(turn: nat, prompt: string, last: Option<T>, log: seq<T>,
                                                    sc: Script<T>, fuel: nat)
    decreases fuel
    ensures NoErrorFrames(Loop(turn, prompt, last, log, sc, fuel).chunks)
  {
    if fuel > 0 {
      var step := Turn(turn, prompt, last, log, sc);
      var f: nat := fuel - 1;
      TurnNoErrorFrames(turn, prompt, last, log, sc);
      if step.Next? {
        var rest := Loop(turn + 1, step.followUp, Some(step.last), step.log, sc, f);
        LoopNoErrorFrames(turn + 1, step.followUp, Some(step.last), step.log, sc, f);
        LoopUnfold(turn, prompt, last, log, sc, fuel, f);
        NoErrorFramesAppend(step.chunks, rest.chunks);
      } else {
        LoopStops(turn, prompt, last, log, sc, fuel);
      }
    }
  }

  /** Once the loop ends other than by running out of fuel, more fuel changes
      nothing: the model's bound does not cut a conversation it lets finish. */
  lemma {:induction false} LoopFuelIndependent<T>(turn: nat, prompt: string, last: Option<T>, log: seq<T>,
                                                      sc: Script<T>, fuel: nat, more: nat)
    requires fuel <= more
    requires !Loop(turn, prompt, last, log, sc, fuel).end.Exhausted?
    decreases fuel
    ensures Loop(turn, prompt, last, log, sc, more)
            == Loop(turn, prompt, last, log, sc, fuel)
  {
    var step := Turn(turn, prompt, last, log, sc);
    var f: nat := fuel - 1;
    var g: nat := more - 1;
    if step.Next? {
      LoopUnfold(turn, prompt, last, log, sc, fuel, f);
      LoopUnfold(turn, prompt, last, log, sc, more, g);
      LoopFuelIndependent(turn + 1, step.followUp, Some(step.last), step.log, sc, f, g);
    } else {
      LoopStops(turn, prompt, last, log, sc, fuel);
      LoopStops(turn, prompt, last, log, sc, more);
    }
  }

  /** A turn that goes on ran the sampling loop without an exception, and
      the next prompt is the planner's stripped answer to its follow-up
      request. */
  lemma TurnNextFollowsScript<T>(turn: nat, prompt: string, last: Option<T>, log: seq<T>, sc: Script<T>)
    requires Turn(turn, prompt, last, log, sc).Next?
    ensures sc.agent(turn).raised.None? && sc.planner(turn + 1).Answer?
    ensures Turn(turn, prompt, last, log, sc).followUp == Strip(sc.planner(turn + 1).content)
  {
  }

  /** A turn that stops ends `AgentFailed` exactly when its run raised, with
      that exception's text, and a follow-up answer it records is the
      planner's stripped answer. */
  lemma TurnStopFollowsScript<T>(turn: nat, prompt: string, last: Option<T>, log: seq<T>, sc: Script<T>)
    requires Turn(turn, prompt, last, log, sc).Stop?
    ensures var part := Turn(turn, prompt, last, log, sc).part;
      && (part.end.AgentFailed? <==> sc.agent(turn).raised.Some?)
      && (part.end.AgentFailed? ==> part.end.error == sc.agent(turn).raised.value)
      && (|part.followUps| > 0 ==> sc.planner(turn + 1).Answer?
                                   && part.followUps[0] == Strip(sc.planner(turn + 1).content))
  {
  }

  /** Answer `n` of the planner was an answer whose stripped text is `s`. */
  ghost predicate PlannerSaid<T>(sc: Script<T>, n: nat, s: string) {
    sc.planner(n).Answer? && s == Strip(sc.planner(n).content)
  }

  /** The i-th follow-up of agent turns `turn`, `turn + 1`, ... is the
      planner's stripped answer after turn `turn + i`. */
  ghost predicate FollowUpsFromPlanner<T>(t: Transcript, turn: nat, sc: Script<T>) {
    forall i :: 0 <= i < |t.followUps| ==> PlannerSaid(sc, turn + i + 1, t.followUps[i])
  }

  /** The agent run of the last turn raised exactly when the transcript
      ended `AgentFailed`, and then with that exception's text; no earlier
      turn raised. */
  ghost predicate RaisedOnlyLast<T>(t: Transcript, turn: nat, sc: Script<T>) {
    && (forall k :: turn <= k < turn + |t.prompts| - 1 ==> sc.agent(k).raised.None?)
    && (t.end.AgentFailed? ==> |t.prompts| > 0 && sc.agent(turn + |t.prompts| - 1).raised == Some(t.end.error))
    && (|t.prompts| > 0 && sc.agent(turn + |t.prompts| - 1).raised.Some? ==> t.end.AgentFailed?)
  }

  /** The transcript of agent turns `turn`, `turn + 1`, ... is what the
      scripts say. */
  ghost predicate FollowsScript<T>(t: Transcript, turn: nat, sc: Script<T>) {
    FollowUpsFromPlanner(t, turn, sc) && RaisedOnlyLast(t, turn, sc)
  }

  lemma FollowUpsCons<T>(r: Transcript, rest: Transcript, turn: nat, sc: Script<T>, followUp: string)
    requires FollowUpsFromPlanner(rest, turn + 1, sc)
    requires PlannerSaid(sc, turn + 1, followUp)
    requires r.followUps == [followUp] + rest.followUps
    ensures FollowUpsFromPlanner(r, turn, sc)
  {
    forall i | 0 <= i < |r.followUps|
      ensures PlannerSaid(sc, turn + i + 1, r.followUps[i])
    {
      if i > 0 {
        var j := i - 1;
        assert (turn + 1) + j + 1 == turn + i + 1;
        assert r.followUps[i] == rest.followUps[j];
      }
    }
  }

  lemma RaisedCons<T>(r: Transcript, rest: Transcript, turn: nat, sc: Script<T>, prompt: string)
    requires RaisedOnlyLast(rest, turn + 1, sc)
    requires sc.agent(turn).raised.None?
    requires r.prompts == [prompt] + rest.prompts
    requires r.end == rest.end
    ensures RaisedOnlyLast(r, turn, sc)
  {
    var n := |rest.prompts|;
    assert |r.prompts| == n + 1;
    if n > 0 {
      assert turn + |r.prompts| - 1 == (turn + 1) + n - 1;
    } else {
      assert !rest.end.AgentFailed?;
    }
  }

  lemma {:induction false} LoopFollowsScript<T>(turn: nat, prompt: string, last: Option<T>, log: seq<T>,
                                                    sc: Script<T>, fuel: nat)
    decreases fuel
    ensures FollowsScript(Loop(turn, prompt, last, log, sc, fuel), turn, sc)
  {
    if fuel > 0 {
      var step := Turn(turn, prompt, last, log, sc);
      var f: nat := fuel - 1;
      if step.Next? {
        var rest := Loop(turn + 1, step.followUp, Some(step.last), step.log, sc, f);
        LoopFollowsScript(turn + 1, step.followUp, Some(step.last), step.log, sc, f);
        LoopUnfold(turn, prompt, last, log, sc, fuel, f);
        TurnNextFollowsScript(turn, prompt, last, log, sc);
        var r := Loop(turn, prompt, last, log, sc, fuel);
        FollowUpsCons(r, rest, turn, sc, step.followUp);
        RaisedCons(r, rest, turn, sc, prompt);
      } else {
        LoopStops(turn, prompt, last, log, sc, fuel);
        TurnStopFollowsScript(turn, prompt, last, log, sc);
      }
    }
  }

  /** A last follow-up answer that says FINAL RESPONSE ended the conversation
      by closing it, or by the `json.dumps` of app.py line 536, which runs
      before the test of line 541, raising. */
  ghost predicate FinalCloses(t: Transcript) {
    |t.followUps| > 0 && SaysFinal(t.followUps[|t.followUps| - 1]) ==>
      t.end.Closed? || t.end == Crashed(LogNotSerializable)
  }

  lemma TurnStopFinalCloses<T>(turn: nat, prompt: string, last: Option<T>, log: seq<T>, sc: Script<T>)
    requires Turn(turn, prompt, last, log, sc).Stop?
    ensures FinalCloses(Turn(turn, prompt, last, log, sc).part)
  {
  }

  lemma {:induction false} LoopFinalCloses<T>(turn: nat, prompt: string, last: Option<T>, log: seq<T>,
                                                  sc: Script<T>, fuel: nat)
    decreases fuel
    ensures FinalCloses(Loop(turn, prompt, last, log, sc, fuel))
  {
    if fuel > 0 {
      var step := Turn(turn, prompt, last, log, sc);
      var f: nat := fuel - 1;
      if step.Next? {
        var rest := Loop(turn + 1, step.followUp, Some(step.last), step.log, sc, f);
        var r := Loop(turn, prompt, last, log, sc, fuel);
        LoopFinalCloses(turn + 1, step.followUp, Some(step.last), step.log, sc, f);
        LoopUnfold(turn, prompt, last, log, sc, fuel, f);
        if |rest.followUps| > 0 {
          assert r.followUps[|r.followUps| - 1] == rest.followUps[|rest.followUps| - 1];
        } else {
          assert r.followUps == [step.followUp];
        }
      } else {
        LoopStops(turn, prompt, last, log, sc, fuel);
        TurnStopFinalCloses(turn, prompt, last, log, sc);
      }
    }
  }

  /** A follow-up answer that did not say FINAL RESPONSE became the next
      prompt, unless the loop ran out of fuel or the log dump of app.py line
      536 raised first. */
  ghost predicate NonFinalContinues(t: Transcript) {
    forall i :: 0 <= i < |t.followUps| && !SaysFinal(t.followUps[i]) ==>
      || (i + 1 < |t.prompts| && t.prompts[i + 1] == t.followUps[i])
      || t.end.Exhausted?
      || t.end == Crashed(LogNotSerializable)
  }

  /** In a chained transcript with at most one follow-up per prompt, a
      follow-up that says FINAL RESPONSE is the last one, and it closed the
      conversation unless the log dump raised. */
  lemma FinalIsLast(t: Transcript)
    requires Chained(t) && FinalCloses(t)
    requires |t.followUps| <= |t.prompts|
    ensures forall i :: 0 <= i < |t.followUps| && SaysFinal(t.followUps[i]) ==>
              i == |t.followUps| - 1 && (t.end.Closed? || t.end == Crashed(LogNotSerializable))
  {
  }

  /** In a chained transcript where the last prompt got an answer exactly
      after the answering ends, every follow-up that does not say FINAL
      RESPONSE was passed on unless fuel or the log dump stopped it. */
  lemma NonFinalGoesOn(t: Transcript)
    requires Chained(t) && EndsAsItEnds(t)
    requires |t.followUps| == |t.prompts| - (if AnsweredLast(t.end) then 0 else 1)
    ensures NonFinalContinues(t)
  {
    forall i | 0 <= i < |t.followUps| && !SaysFinal(t.followUps[i]) && i + 1 >= |t.prompts|
      ensures t.end.Exhausted? || t.end == Crashed(LogNotSerializable)
    {
      assert i == |t.followUps| - 1;
    }
  }

  /** `response_generator`: the initial planning request, the fresh session
      state, then the loop. When the initial request raises, the stream is
      empty: the handler that was to report it raises itself. */
  function Converse<T(==)>(userInput: string, env: Session.Env,
                           sc: Script<T>, fuel: nat): (r: Transcript)
    ensures |r.requests| > 0 && r.requests[0] == userInput
    ensures sc.planner(0).Raises? ==> r.chunks == [] && r.prompts == [] && r.end == Crashed(PlannerFailed(sc.planner(0).error))
    ensures sc.planner(0).Answer? ==> |r.chunks| > 0 && r.chunks[0] == PlanChunk(Strip(sc.planner(0).content))
    ensures sc.planner(0).Answer? && |r.prompts| > 0 ==> r.prompts[0] == Strip(sc.planner(0).content)
    ensures sc.planner(0).Answer? && Session.SetupState(Session.Empty, env).Failure? ==>
              r.prompts == [] && r.end == Crashed(SetupFailed(Session.SetupState(Session.Empty, env).error.fault))
    ensures |r.prompts| <= fuel
  {
    match sc.planner(0)
    case Raises(e) => Transcript([], [], [], [userInput], Crashed(PlannerFailed(e)))
    case Answer(content) =>
      var plan := Strip(content);
      match Session.SetupState(Session.Empty, env)
      case Failure(interrupted) =>
        Transcript([PlanChunk(plan)], [], [], [userInput], Crashed(SetupFailed(interrupted.fault)))
      case Success(_) =>
        var t := Loop(0, plan, None, [], sc, fuel);
        Transcript([PlanChunk(plan)] + t.chunks, t.prompts, t.followUps, [userInput] + t.requests, t.end)
  }

  /** Once the plan is in and the state is set up, the conversation is the
      loop, after the plan chunk and the initial request. */
  lemma ConverseRunsLoop<T>(userInput: string, env: Session.Env,
                            sc: Script<T>, fuel: nat)
    requires sc.planner(0).Answer? && Session.SetupState(Session.Empty, env).Success?
    ensures var plan := Strip(sc.planner(0).content);
      var t := Loop(0, plan, None, [], sc, fuel);
      var r := Converse(userInput, env, sc, fuel);
      && r.chunks == [PlanChunk(plan)] + t.chunks
      && r.prompts == t.prompts && r.followUps == t.followUps
      && r.requests == [userInput] + t.requests
      && r.end == t.end
  {
  }

  lemma EndsAfterPlanChunk(r: Transcript, chunk: string, t: Transcript)
    requires EndsAsItEnds(t)
    requires r.chunks == [chunk] + t.chunks && r.followUps == t.followUps && r.end == t.end
    ensures EndsAsItEnds(r)
  {
    if r.end.Closed? || r.end.AgentFailed? {
      assert r.chunks[|r.chunks| - 1] == t.chunks[|t.chunks| - 1];
    }
  }

  /** The conversation's two normal exits: it closes right after a follow-up
      answer that says FINAL RESPONSE, with the closing chunk last, or the
      sampling loop raises, with the agent's error chunk last. */
  lemma ConverseEnds<T>(userInput: string, env: Session.Env,
                        sc: Script<T>, fuel: nat)
    ensures EndsAsItEnds(Converse(userInput, env, sc, fuel))
  {
    if sc.planner(0).Answer? && Session.SetupState(Session.Empty, env).Success? {
      var plan := Strip(sc.planner(0).content);
      var t := Loop(0, plan, None, [], sc, fuel);
      ConverseRunsLoop(userInput, env, sc, fuel);
      LoopLastChunk(0, plan, None, [], sc, fuel);
      EndsAfterPlanChunk(Converse(userInput, env, sc, fuel), PlanChunk(plan), t);
    }
  }

  /** Every follow-up answer but the last did not say FINAL RESPONSE and
      became the next prompt. */
  lemma ConverseFollowUps<T>(userInput: string, env: Session.Env,
                             sc: Script<T>, fuel: nat)
    ensures Chained(Converse(userInput, env, sc, fuel))
  {
    if sc.planner(0).Answer? && Session.SetupState(Session.Empty, env).Success? {
      var plan := Strip(sc.planner(0).content);
      ConverseRunsLoop(userInput, env, sc, fuel);
      LoopFollowUps(0, plan, None, [], sc, fuel);
    }
  }

  /** When the sampling loop raises, the planner is not asked about that
      prompt: there is one planner request per earlier prompt plus the
      initial one. */
  lemma AgentFailureAsksNoPlanner<T>(userInput: string, env: Session.Env,
                                     sc: Script<T>, fuel: nat)
    ensures var r := Converse(userInput, env, sc, fuel);
      r.end.AgentFailed? ==> |r.requests| == |r.prompts|
  {
    if sc.planner(0).Answer? && Session.SetupState(Session.Empty, env).Success? {
      var plan := Strip(sc.planner(0).content);
      var t := Loop(0, plan, None, [], sc, fuel);
      ConverseRunsLoop(userInput, env, sc, fuel);
      if t.end.AgentFailed? {
        assert !AnsweredLast(t.end);
      }
    }
  }

  /** A conversation that ends within the fuel bound is the whole
      conversation: any larger bound gives the same transcript. */
  lemma ConverseFuelIndependent<T>(userInput: string, env: Session.Env,
                                   sc: Script<T>, fuel: nat, more: nat)
    requires fuel <= more
    requires !Converse(userInput, env, sc, fuel).end.Exhausted?
    ensures Converse(userInput, env, sc, more)
            == Converse(userInput, env, sc, fuel)
  {
    if sc.planner(0).Answer? && Session.SetupState(Session.Empty, env).Success? {
      var plan := Strip(sc.planner(0).content);
      ConverseRunsLoop(userInput, env, sc, fuel);
      ConverseRunsLoop(userInput, env, sc, more);
      LoopFuelIndependent(0, plan, None, [], sc, fuel, more);
    }
  }

  /** As written, no chunk of the stream reports an error from outside the
      agent turn, even when such an error ended it. */
  lemma ConverseNeverReportsCrash<T>(userInput: string, env: Session.Env,
                                         sc: Script<T>, fuel: nat)
    ensures NoErrorFrames(Converse(userInput, env, sc, fuel).chunks)
  {
    if sc.planner(0).Answer? {
      var plan := Strip(sc.planner(0).content);
      ChunkKindsNotErrors(plan);
      if Session.SetupState(Session.Empty, env).Success? {
        var t := Loop(0, plan, None, [], sc, fuel);
        LoopNoErrorFrames(0, plan, None, [], sc, fuel);
        NoErrorFramesAppend([PlanChunk(plan)], t.chunks);
      }
    }
  }

  /** `str(e)` for the exception that ended the conversation. A planner
      request that raised gives its own text; the text of the other causes
      (a `KeyError`'s repr of the key, the interpreter's wording for an
      unbound local or an unserialisable value) is `describe`'s. */
  function CrashText(cause: Cause, describe: Cause -> string): (text: string)
    ensures cause.PlannerFailed? ==> text == cause.error
  {
    match cause
    case PlannerFailed(e) => e
    case _ => describe(cause)
  }

  /** `response_generator` as its outer handler evidently intends: an
      exception outside the agent turn ends the stream with one generic
      error chunk carrying the exception's text. The repair is
      twofold: the timestamp is `datetime.now()` (line 552), and the log
      dump of lines 551-554 cannot raise (say, `default=str`), since the
      log may hold a value `json.dumps` rejects. */
  function ConverseReported<T(==)>(userInput: string, env: Session.Env,
                                   sc: Script<T>, fuel: nat,
                                   describe: Cause -> string): (s: seq<string>)
    ensures var r := Converse(userInput, env, sc, fuel);
      |s| >= |r.chunks| && s[..|r.chunks|] == r.chunks
    ensures sc.planner(0).Raises? ==> s == [Relay.ErrorFrame(sc.planner(0).error)]
  {
    var r := Converse(userInput, env, sc, fuel);
    if r.end.Crashed? then r.chunks + [Relay.ErrorFrame(CrashText(r.end.cause, describe))] else r.chunks
  }

  /** With the handler repaired as above, the stream ends in a generic error chunk
      exactly when an exception outside the agent turn ended the
      conversation, that chunk carries the exception's text, and it is the
      only such chunk. */
  lemma ReportedCrashIsLastChunk<T>(userInput: string, env: Session.Env,
                                        sc: Script<T>, fuel: nat,
                                        describe: Cause -> string)
    ensures var r := Converse(userInput, env, sc, fuel);
      var s := ConverseReported(userInput, env, sc, fuel, describe);
      && (r.end.Crashed? <==> |s| > 0 && IsErrorFrame(s[|s| - 1]))
      && (r.end.Crashed? ==> s[|s| - 1] == Relay.ErrorFrame(CrashText(r.end.cause, describe)))
      && (r.end.Crashed? && r.end.cause.PlannerFailed? ==> s[|s| - 1] == Relay.ErrorFrame(r.end.cause.error))
      && NoErrorFrames(s[..|s| - (if r.end.Crashed? then 1 else 0)])
  {
    var r := Converse(userInput, env, sc, fuel);
    var s := ConverseReported(userInput, env, sc, fuel, describe);
    ConverseNeverReportsCrash(userInput, env, sc, fuel);
    if r.end.Crashed? {
      assert s[..|s| - 1] == r.chunks;
      assert "data: Error: " <= s[|s| - 1];
    } else {
      assert s[..|s|] == r.chunks;
    }
  }

  /** A turn whose sampling loop yields nothing and raises nothing keeps the
      loop variable `message` of an earlier turn: the planner is asked about
      that stale value, and on the first turn, where there is none, line 526
      raises `UnboundLocalError`. */
  lemma EmptyTurnReusesLast<T>(turn: nat, prompt: string, last: Option<T>, log: seq<T>, sc: Script<T>)
    requires sc.agent(turn) == Relay.Run([], None)
    ensures var s := Turn(turn, prompt, last, log, sc);
      && (last.None? ==> s == Stop(Transcript([], [prompt], [], [], Crashed(MessageUnbound))))
      && (last.Some? && s.Next? ==> s.request == FollowUpRequest(sc.show(last.value)) && s.last == last.value)
      && (last.Some? && s.Stop? ==> s.part.requests == [FollowUpRequest(sc.show(last.value))])
  {
  }

  /** When the first agent turn yields nothing and raises nothing, the
      conversation stops after the plan chunk on that `UnboundLocalError`,
      and, as written, the client is told nothing about it. */
  lemma EmptyFirstTurnCrashes<T>(userInput: string, env: Session.Env,
                                 sc: Script<T>, fuel: nat)
    requires sc.planner(0).Answer? && Session.SetupState(Session.Empty, env).Success?
    requires fuel > 0 && sc.agent(0) == Relay.Run([], None)
    ensures var r := Converse(userInput, env, sc, fuel);
      var plan := Strip(sc.planner(0).content);
      && r.chunks == [PlanChunk(plan)]
      && r.prompts == [plan]
      && r.end == Crashed(MessageUnbound)
  {
    var plan := Strip(sc.planner(0).content);
    ConverseRunsLoop(userInput, env, sc, fuel);
    EmptyTurnReusesLast(0, plan, None, [], sc);
    LoopStops(0, plan, None, [], sc, fuel);
  }

  /** `word` spells FINAL RESPONSE with each letter in either case. */
  predicate SpellsSentinel(word: string) {
    && |word| == |Sentinel|
    && forall k :: 0 <= k < |word| ==>
         word[k] == Sentinel[k] || ('A' <= Sentinel[k] <= 'Z' && word[k] as int == Sentinel[k] as int + 32)
  }

  /** An answer that writes FINAL RESPONSE anywhere, in any mix of upper and
      lower case ("final response", "Final Response", ...), closes the
      conversation. */
  lemma SaysFinalWhenWritten(before: string, word: string, after: string)
    requires SpellsSentinel(word)
    ensures SaysFinal(before + word + after)
  {
    UpperAscii(word);
    assert Upper(word) == Sentinel;
    UpperContainsWord(before, word, after);
  }

  /** The conversation does what the scripts say: the i-th follow-up answer
      is the planner's stripped answer to request i + 1, only the last agent
      turn can have raised, and the conversation ended `AgentFailed` exactly
      when it did, with that exception's text. */
  lemma ConverseFollowsScript<T>(userInput: string, env: Session.Env,
                                 sc: Script<T>, fuel: nat)
    ensures FollowsScript(Converse(userInput, env, sc, fuel), 0, sc)
  {
    if sc.planner(0).Answer? && Session.SetupState(Session.Empty, env).Success? {
      var plan := Strip(sc.planner(0).content);
      ConverseRunsLoop(userInput, env, sc, fuel);
      LoopFollowsScript(0, plan, None, [], sc, fuel);
    }
  }

  /** A follow-up answer that says FINAL RESPONSE is the last one: the
      conversation closed right after it, or the log dump of app.py line 536,
      which runs before the test of line 541, raised. */
  lemma ConverseFinalCloses<T>(userInput: string, env: Session.Env,
                               sc: Script<T>, fuel: nat)
    ensures var r := Converse(userInput, env, sc, fuel);
      forall i :: 0 <= i < |r.followUps| && SaysFinal(r.followUps[i]) ==>
        i == |r.followUps| - 1 && (r.end.Closed? || r.end == Crashed(LogNotSerializable))
  {
    if sc.planner(0).Answer? && Session.SetupState(Session.Empty, env).Success? {
      var plan := Strip(sc.planner(0).content);
      var t := Loop(0, plan, None, [], sc, fuel);
      ConverseRunsLoop(userInput, env, sc, fuel);
      LoopFollowUps(0, plan, None, [], sc, fuel);
      LoopFinalCloses(0, plan, None, [], sc, fuel);
      FinalIsLast(t);
    }
  }

  /** A follow-up answer that does not say FINAL RESPONSE became the next
      prompt, unless the fuel ran out or the log dump raised. */
  lemma ConverseNonFinalContinues<T>(userInput: string, env: Session.Env,
                                     sc: Script<T>, fuel: nat)
    ensures NonFinalContinues(Converse(userInput, env, sc, fuel))
  {
    if sc.planner(0).Answer? && Session.SetupState(Session.Empty, env).Success? {
      var plan := Strip(sc.planner(0).content);
      var t := Loop(0, plan, None, [], sc, fuel);
      ConverseRunsLoop(userInput, env, sc, fuel);
      LoopFollowUps(0, plan, None, [], sc, fuel);
      LoopLastChunk(0, plan, None, [], sc, fuel);
      NonFinalGoesOn(t);
    }
  }

  /** A planner answer that writes FINAL RESPONSE anywhere, in any mix of
      cases, ends the conversation if it is ever received as a follow-up:
      nothing follows it, and the conversation closed unless the log dump
      raised. */
  lemma WrittenFinalCloses<T>(userInput: string, env: Session.Env,
                              sc: Script<T>, fuel: nat, i: nat,
                              before: string, word: string, after: string)
    requires SpellsSentinel(word)
    requires sc.planner(i + 1).Answer? && Strip(sc.planner(i + 1).content) == before + word + after
    ensures var r := Converse(userInput, env, sc, fuel);
      i < |r.followUps| ==>
        i == |r.followUps| - 1 && (r.end.Closed? || r.end == Crashed(LogNotSerializable))
  {
    var r := Converse(userInput, env, sc, fuel);
    if i < |r.followUps| {
      ConverseFollowsScript(userInput, env, sc, fuel);
      assert PlannerSaid(sc, 0 + i + 1, r.followUps[i]);
      SaysFinalWhenWritten(before, word, after);
      ConverseFinalCloses(userInput, env, sc, fuel);
    }
  }
}
