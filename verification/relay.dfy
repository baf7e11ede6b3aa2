/** The streaming relay: `accumulate_messages`, which forwards what the
    sampling loop yields but drops any value it has already forwarded, and
    `message_generator`, which frames each forwarded value as one
    Server-Sent-Events chunk and turns an exception into one final error
    chunk. The sampling loop itself is not part of this model; one call of it
    is a `Run`: the values it yields, then either a normal end or the text of
    the exception it raises. */
module Relay {
  import opened Wrappers
  import Session

  /** No value occurs twice. */
  ghost predicate NoDup<T>(s: seq<T>) {
    forall i, j :: 0 <= i < j < |s| ==> s[i] != s[j]
  }

  /** What `accumulate_messages` yields for the input `xs`: each value the
      first time it appears, in order. */
  function Dedup<T(==)>(xs: seq<T>): (r: seq<T>)
    ensures |r| <= |xs|
  {
    if xs == [] then []
    else
      var init := xs[..|xs| - 1];
      var x := xs[|xs| - 1];
      assert xs == init + [x];
      var d := Dedup(init);
      if x in d then d else d + [x]
  }

  /** The relay yields only values it was given, every value it was given,
      and none twice. */
  lemma {:induction false} DedupContents<T>(xs: seq<T>)
    ensures forall k :: 0 <= k < |Dedup(xs)| ==> Dedup(xs)[k] in xs
    ensures forall i :: 0 <= i < |xs| ==> xs[i] in Dedup(xs)
    ensures NoDup(Dedup(xs))
  {
    if xs != [] {
      var init := xs[..|xs| - 1];
      var x := xs[|xs| - 1];
      assert xs == init + [x];
      DedupContents(init);
    }
  }

  /** The positions in `xs` that hold the first occurrence of their value. */
  function FirstPositions<T(==)>(xs: seq<T>): seq<nat> {
    if xs == [] then []
    else
      var n := |xs| - 1;
      if xs[n] in xs[..n] then FirstPositions(xs[..n]) else FirstPositions(xs[..n]) + [n]
  }

  lemma {:induction false} FirstPositionsIncrease<T>(xs: seq<T>)
    ensures forall k :: 0 <= k < |FirstPositions(xs)| ==> FirstPositions(xs)[k] < |xs|
    ensures forall k, l :: 0 <= k < l < |FirstPositions(xs)| ==>
              FirstPositions(xs)[k] < FirstPositions(xs)[l]
  {
    if xs != [] {
      FirstPositionsIncrease(xs[..|xs| - 1]);
    }
  }

  lemma {:induction false} FirstPositionsComplete<T>(xs: seq<T>)
    ensures forall i :: 0 <= i < |xs| && xs[i] !in xs[..i] ==> i in FirstPositions(xs)
  {
    if xs != [] {
      var n := |xs| - 1;
      var init := xs[..n];
      FirstPositionsComplete(init);
      forall i | 0 <= i < |xs| && xs[i] !in xs[..i]
        ensures i in FirstPositions(xs)
      {
        if i < n {
          assert xs[..i] == init[..i];
          assert xs[i] == init[i];
        }
      }
    }
  }

  lemma {:induction false} FirstPositionsHoldDedup<T>(xs: seq<T>)
    ensures |FirstPositions(xs)| == |Dedup(xs)|
    ensures forall k :: 0 <= k < |FirstPositions(xs)| ==>
              var i := FirstPositions(xs)[k];
              i < |xs| && xs[i] == Dedup(xs)[k] && xs[i] !in xs[..i]
  {
    if xs != [] {
      var n := |xs| - 1;
      var init := xs[..n];
      var x := xs[n];
      FirstPositionsHoldDedup(init);
      FirstPositionsIncrease(init);
      DedupContents(init);
      var p := FirstPositions(init);
      var d := Dedup(init);
      assert xs == init + [x];
      assert x in d <==> x in init;
      forall k | 0 <= k < |p|
        ensures xs[p[k]] == init[p[k]] && xs[..p[k]] == init[..p[k]]
      {
      }
    }
  }

  /** The relay keeps exactly the first occurrences, in input order: the k-th
      value it yields sits at the k-th first-occurrence position, those
      positions increase, and no first occurrence is skipped. */
  lemma DedupKeepsFirstOccurrences<T>(xs: seq<T>)
    ensures |FirstPositions(xs)| == |Dedup(xs)|
    ensures forall k :: 0 <= k < |FirstPositions(xs)| ==>
              var i := FirstPositions(xs)[k];
              i < |xs| && xs[i] == Dedup(xs)[k] && xs[i] !in xs[..i]
    ensures forall k, l :: 0 <= k < l < |FirstPositions(xs)| ==>
              FirstPositions(xs)[k] < FirstPositions(xs)[l]
    ensures forall i :: 0 <= i < |xs| && xs[i] !in xs[..i] ==> i in FirstPositions(xs)
  {
    FirstPositionsHoldDedup(xs);
    FirstPositionsIncrease(xs);
    FirstPositionsComplete(xs);
  }

  /** A sequence without repeats passes through unchanged. */
  lemma {:induction false} DedupOfDistinct<T>(xs: seq<T>)
    requires NoDup(xs)
    ensures Dedup(xs) == xs
  {
    if xs != [] {
      var init := xs[..|xs| - 1];
      assert NoDup(init);
      DedupOfDistinct(init);
      assert xs[|xs| - 1] !in init;
      assert xs == init + [xs[|xs| - 1]];
    }
  }

  /** Relaying a relayed sequence again changes nothing. */
  lemma DedupIdempotent<T>(xs: seq<T>)
    ensures Dedup(Dedup(xs)) == Dedup(xs)
  {
    DedupContents(xs);
    DedupOfDistinct(Dedup(xs));
  }

  /** `accumulate_messages`: the loop over the sampling loop's output with its
      list of values already yielded. */
  method AccumulateMessages<T(==)>(messages: seq<T>) returns (yielded: seq<T>)
    ensures yielded == Dedup(messages)
    ensures NoDup(yielded)
    ensures forall k :: 0 <= k < |yielded| ==> yielded[k] in messages
    ensures forall i :: 0 <= i < |messages| ==> messages[i] in yielded
  {
    yielded := [];
    for i := 0 to |messages|
      invariant yielded == Dedup(messages[..i])
    {
      var message := messages[i];
      assert messages[..i + 1][..i] == messages[..i];
      if message !in yielded {
        yielded := yielded + [message];
      }
    }
    assert messages[..|messages|] == messages;
    DedupContents(messages);
  }

  /** One call of the sampling loop: the values it yields, then the text of
      the exception it raises, if it raises. */
  datatype Run<T> = Run(items: seq<T>, raised: Option<string>)

  /** One Server-Sent-Events chunk, `f"data: {payload}\n\n"`. */
  function Frame(payload: string): string {
    "data: " + payload + "\n\n"
  }

  /** The chunk an exception becomes, `f"data: Error: {str(e)}\n\n"`. */
  function ErrorFrame(error: string): string {
    Frame("Error: " + error)
  }

  /** The payload of one chunk: what is left once the "data: " prefix and
      the blank-line suffix are stripped. An SSE client also splits that
      payload at each line break; that split is not modelled. */
  function Unframe(chunk: string): (r: Option<string>)
    ensures r.Some? ==> |r.value| + 8 == |chunk|
  {
    if |chunk| >= 8 && chunk[..6] == "data: " && chunk[|chunk| - 2..] == "\n\n"
    then Some(chunk[6..|chunk| - 2])
    else None
  }

  /** Stripping the prefix and suffix of a chunk recovers the payload it
      was made from. */
  lemma UnframeFrame(payload: string)
    ensures Unframe(Frame(payload)) == Some(payload)
  {
    var c := Frame(payload);
    assert c[..6] == "data: ";
    assert c[|c| - 2..] == "\n\n";
    assert c[6..|c| - 2] == payload;
  }

  /** Every chunk with the prefix and suffix is the frame of what lies
      between them. */
  lemma FrameUnframe(chunk: string)
    requires Unframe(chunk).Some?
    ensures Frame(Unframe(chunk).value) == chunk
  {
    var p := Unframe(chunk).value;
    assert chunk == chunk[..6] + chunk[6..|chunk| - 2] + chunk[|chunk| - 2..];
  }

  /** The chunks `message_generator` streams for one run, `show` being
      Python's `str` on a yielded value: one frame per relayed value, then one
      error frame if the run raised. */
  function RelayChunks<T(==)>(run: Run<T>, show: T -> string): seq<string> {
    var relayed := Dedup(run.items);
    seq(|relayed|, k requires 0 <= k < |relayed| => Frame(show(relayed[k])))
      + (if run.raised.Some? then [ErrorFrame(run.raised.value)] else [])
  }

  /** `message_generator`: relays one run, framing each value as it is
      yielded; an exception ends the stream with exactly one error chunk. */
  method MessageGenerator<T(==)>(run: Run<T>, show: T -> string) returns (chunks: seq<string>)
    ensures chunks == RelayChunks(run, show)
    ensures |chunks| == |Dedup(run.items)| + (if run.raised.Some? then 1 else 0)
    ensures forall k :: 0 <= k < |Dedup(run.items)| ==> chunks[k] == Frame(show(Dedup(run.items)[k]))
    ensures run.raised.Some? ==> chunks[|chunks| - 1] == ErrorFrame(run.raised.value)
    ensures forall k :: 0 <= k < |chunks| ==> Unframe(chunks[k]).Some?
  {
    var accumulated: seq<T> := [];
    chunks := [];
    for i := 0 to |run.items|
      invariant accumulated == Dedup(run.items[..i])
      invariant |chunks| == |accumulated|
      invariant forall k :: 0 <= k < |chunks| ==> chunks[k] == Frame(show(accumulated[k]))
    {
      var message := run.items[i];
      assert run.items[..i + 1][..i] == run.items[..i];
      if message !in accumulated {
        accumulated := accumulated + [message];
        chunks := chunks + [Frame(show(message))];
      }
    }
    assert run.items[..|run.items|] == run.items;
    if run.raised.Some? {
      chunks := chunks + [ErrorFrame(run.raised.value)];
    }
    forall k | 0 <= k < |chunks|
      ensures Unframe(chunks[k]).Some?
    {
      if k < |accumulated| {
        UnframeFrame(show(accumulated[k]));
      } else {
        UnframeFrame("Error: " + run.raised.value);
      }
    }
  }

  /** Why `/api/process-input` answers without streaming: HTTP 401 for a
      missing key header, or an internal server error for the exception
      `setup_state` raised or for the `TextBlock` that rejects a user input
      which is not a string. */
  datatype HttpFailure =
    | Unauthorized
    | InternalError(fault: Session.Fault)
    | InvalidUserInput(userInput: Option<Session.Value>)

  /** `data.get("user_input")` is a string, which is what the `text` field
      of a `TextBlock` accepts; `None` stands for a missing key or JSON
      `null`. */
  predicate IsTextInput(userInput: Option<Session.Value>) {
    userInput.Some? && userInput.value.Str?
  }

  /** `process_input_api`: rejects a request without an `anthropic-api-key`
      header, initialises a fresh state, wraps the user input in a text
      block, and streams the relay's chunks. */
  function ProcessInputApi<T(==)>(apiKeyHeader: Option<string>, userInput: Option<Session.Value>,
                                  env: Session.Env, run: Run<T>, show: T -> string)
    : (r: Result<seq<string>, HttpFailure>)
    ensures r == Failure(Unauthorized) <==> apiKeyHeader.None? || apiKeyHeader.value == ""
    ensures r.Success? <==> apiKeyHeader.Some? && apiKeyHeader.value != ""
                            && Session.SetupState(Session.Empty, env).Success?
                            && IsTextInput(userInput)
    ensures r == Failure(InvalidUserInput(userInput)) <==>
              apiKeyHeader.Some? && apiKeyHeader.value != ""
              && Session.SetupState(Session.Empty, env).Success?
              && !IsTextInput(userInput)
    ensures r.Success? ==> r.value == RelayChunks(run, show)
  {
    if apiKeyHeader.None? || apiKeyHeader.value == "" then Failure(Unauthorized)
    else
      match Session.SetupState(Session.Empty, env)
      case Failure(interrupted) => Failure(InternalError(interrupted.fault))
      case Success(_) =>
        if !IsTextInput(userInput) then Failure(InvalidUserInput(userInput))
        else Success(RelayChunks(run, show))
  }

  /** With a key header, `process_input_api` streams the relay's chunks
      exactly when the environment's default provider has a default model
      and the user input is a string; a missing model makes `setup_state`
      raise `KeyError` on that provider first. */
  lemma ProcessInputApiOutcome<T>(apiKeyHeader: Option<string>, userInput: Option<Session.Value>,
                                  env: Session.Env, run: Run<T>, show: T -> string)
    requires apiKeyHeader.Some? && apiKeyHeader.value != ""
    ensures var p := Session.DefaultProvider(env.apiProvider);
      var r := ProcessInputApi(apiKeyHeader, userInput, env, run, show);
      && (p in env.defaultModels && IsTextInput(userInput) ==> r == Success(RelayChunks(run, show)))
      && (p in env.defaultModels && !IsTextInput(userInput) ==> r == Failure(InvalidUserInput(userInput)))
      && (p !in env.defaultModels ==> r == Failure(InternalError(Session.KeyError(Session.Str(p)))))
  {
    Session.SetupFresh(env);
  }
}
