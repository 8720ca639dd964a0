/** One run of the agent script as a state transition: load the saved state,
    fetch the messages newer than the watermark, pack the newest of them into
    the budget, ask the model, and write the state back.  The requests, the
    model reply and the state file are values here; `Run` says what one run
    does and the class `Agent` does it step by step on the script's two
    module-level variables. */
module Sync {
  import opened Packer
  import opened Dialog
  import opened Prompt

  datatype Option<T> = None | Some(value: T)

  /** The contents of `state.json`. */
  datatype SavedState = SavedState(summary: string, lastModifiedDateTime: string)

  /** What reading and parsing `state.json` gives: its contents, the ENOENT
      error, or any other read or parse error. */
  datatype StateFile = Stored(saved: SavedState) | NotFound | Unreadable(reason: string)

  /** The parsed body of the Graph response: an `error` member, or the page of
      messages in `value`, newest first. */
  datatype GraphResponse = ErrorPayload(error: string) | Page(value: seq<Message>)

  /** The awaited completion call: a reply, or a rejected promise. */
  datatype Completion = Replied(content: string) | CallRejected

  /** Why a run ends early. */
  datatype Failure =
    | StateReadError(reason: string)  // any error but ENOENT while loading the state
    | UndefinedWatermark              // `.length` read on an undefined watermark
    | FetchError(error: string)       // the Graph response carries an error
    | EmptyPage                       // `value[0]` read on an empty page
    | CompletionRejected              // the completion call failed

  datatype Exit = Done | Aborted(failure: Failure)

  /** What can be observed of a run: how it ends, the query string of the
      Graph request if one was made, the prompt sent to the model if one was,
      and the state written if any. */
  datatype Outcome = Outcome(exit: Exit, parameters: Option<string>, prompt: Option<string>, written: Option<SavedState>)

  /** The script's module-level `summary` and `lastModifiedDateTime`;
      `None` stands for a variable that is still undefined. */
  datatype Globals = Globals(summary: string, lastModifiedDateTime: Option<string>)

  /** The variables before the state is loaded.  The summary is in fact
      undefined too, but every path that reads it assigns it first. */
  const Initial: Globals := Globals("", None)

  datatype Loaded = Loaded(globals: Globals) | LoadFailed(failure: Failure)

  /** Loading `state.json` into the variables: it fails exactly on an
      unreadable file; a stored state sets both variables, and ENOENT sets
      only the summary, to empty, leaving the watermark as it was. */
  function Load(file: StateFile, before: Globals): (loaded: Loaded)
    ensures loaded.LoadFailed? <==> file.Unreadable?
    ensures file.Stored? ==> loaded.globals == Globals(file.saved.summary, Some(file.saved.lastModifiedDateTime))
    ensures file.NotFound? ==> loaded.globals.summary == "" && loaded.globals.lastModifiedDateTime == before.lastModifiedDateTime
  {
    match file
    case Stored(saved) => Loaded(Globals(saved.summary, Some(saved.lastModifiedDateTime)))
    case NotFound => Loaded(Globals("", before.lastModifiedDateTime))
    case Unreadable(reason) => LoadFailed(StateReadError(reason))
  }

  /** The fixed part of the query string, before the watermark. */
  const FilterPrefix: string := "$orderby=" + "lastModifiedDateTime%20desc&$filter=lastModifiedDateTime%20gt%20"

  /** The query string of the Graph request: newest first and strictly newer
      than the watermark when there is one, nothing at all otherwise. */
  function FetchParameters(watermark: string): (parameters: string)
    ensures parameters == "" <==> watermark == ""
    ensures |parameters| >= |watermark|
    ensures watermark != "" ==> parameters[|parameters| - |watermark|..] == watermark
  {
    if |watermark| > 0 then FilterPrefix + watermark else ""
  }

  /** The messages of `batch` that go into the prompt built with `summary`. */
  function Packed(summary: string, batch: seq<Message>, tokens: string -> nat): seq<Message>
  {
    KeepNewest(batch, DialogBudget(summary, tokens), tokens)
  }

  /** Everything after loading: fetch, budget, pack, prompt, completion, write.
      A request is made exactly when the watermark is defined, a prompt is
      sent only after a request, and the step completes, writing the loaded
      summary with the newest fetched timestamp, exactly when a non-empty
      page and a reply came in. */
  function Step(g: Globals, response: GraphResponse, tokens: string -> nat, reply: Completion): (o: Outcome)
    ensures o.parameters.Some? <==> g.lastModifiedDateTime.Some?
    ensures o.prompt.Some? ==> o.parameters.Some? && response.Page? && response.value != []
    ensures o.exit == Done <==> g.lastModifiedDateTime.Some? && response.Page? && response.value != [] && reply.Replied?
    ensures o.written.Some? <==> o.exit == Done
    ensures o.written.Some? ==> o.written.value == SavedState(g.summary, response.value[0].lastModifiedDateTime)
  {
    match g.lastModifiedDateTime
    case None => Outcome(Aborted(UndefinedWatermark), None, None, None)
    case Some(watermark) =>
      var parameters := Some(FetchParameters(watermark));
      match response
      case ErrorPayload(error) => Outcome(Aborted(FetchError(error)), parameters, None, None)
      case Page(batch) =>
        if batch == [] then Outcome(Aborted(EmptyPage), parameters, None, None)
        else
          var prompt := FormUserPrompt(g.summary, RenderDialog(Reversed(Packed(g.summary, batch, tokens))));
          match reply
          case CallRejected => Outcome(Aborted(CompletionRejected), parameters, Some(prompt), None)
          case Replied(_) =>
            Outcome(Done, parameters, Some(prompt), Some(SavedState(g.summary, batch[0].lastModifiedDateTime)))
  }

  /** The variables once `Step` is over: the summary never changes; the
      watermark moves, to the newest fetched message, exactly when it was
      defined and a non-empty page came in, and otherwise nothing moves. */
  function AfterStep(g: Globals, response: GraphResponse): (after: Globals)
    ensures after.summary == g.summary
    ensures after.lastModifiedDateTime.None? <==> g.lastModifiedDateTime.None?
    ensures after != g ==> response.Page? && response.value != []
                           && after.lastModifiedDateTime == Some(response.value[0].lastModifiedDateTime)
    ensures !(response.Page? && response.value != []) ==> after == g
    ensures g.lastModifiedDateTime.Some? && response.Page? && response.value != [] ==>
              after.lastModifiedDateTime == Some(response.value[0].lastModifiedDateTime)
  {
    if g.lastModifiedDateTime.Some? && response.Page? && response.value != [] then
      g.(lastModifiedDateTime := Some(response.value[0].lastModifiedDateTime))
    else g
  }

  /** One whole run of the script: an unreadable state file ends it before
      any request, and a request is made only with a stored state file. */
  function Run(file: StateFile, response: GraphResponse, tokens: string -> nat, reply: Completion): (o: Outcome)
    ensures file.Unreadable? ==> o.exit == Aborted(StateReadError(file.reason)) && o.parameters == None
    ensures o.parameters.Some? <==> file.Stored?
    ensures o.written.Some? ==> file.Stored? && o.written.value.summary == file.saved.summary
  {
    match Load(file, Initial)
    case LoadFailed(failure) => Outcome(Aborted(failure), None, None, None)
    case Loaded(g) => Step(g, response, tokens, reply)
  }

  /** The script's top level, with its two module-level variables as fields. */
  class Agent {
    var summary: string
    var lastModifiedDateTime: Option<string>

    function State(): Globals
      reads this
    {
      Globals(summary, lastModifiedDateTime)
    }

    constructor ()
      ensures State() == Initial
    {
      summary, lastModifiedDateTime := "", None;
    }

    /** Lines 29-41: read `state.json` into the variables. */
    method LoadState(file: StateFile) returns (failure: Option<Failure>)
      modifies this
      ensures Load(file, old(State())).Loaded? ==> failure == None && State() == Load(file, old(State())).globals
      ensures Load(file, old(State())).LoadFailed? ==> failure == Some(Load(file, old(State())).failure) && State() == old(State())
    {
      match file
      case Stored(saved) =>
        summary := saved.summary;
        lastModifiedDateTime := Some(saved.lastModifiedDateTime);
        failure := None;
      case NotFound =>
        summary := "";
        failure := None;
      case Unreadable(reason) =>
        failure := Some(StateReadError(reason));
    }

    /** Lines 65-121: fetch, compute the budget, check the response, move
      the watermark, pack, build the prompt, await the completion and
      produce the state to write. */
    method Sync(response: GraphResponse, tokens: string -> nat, reply: Completion) returns (o: Outcome)
      modifies this
      ensures o == Step(old(State()), response, tokens, reply)
      ensures State() == AfterStep(old(State()), response)
    {
      if lastModifiedDateTime.None? {
        return Outcome(Aborted(UndefinedWatermark), None, None, None);
      }
      var parameters := FetchParameters(lastModifiedDateTime.value);
      var promptSizeWithoutDialog := tokens(FormUserPrompt(summary, ""));
      var remainingContextSz := MAX_CONTEXT_SZ - promptSizeWithoutDialog;
      if response.ErrorPayload? {
        return Outcome(Aborted(FetchError(response.error)), Some(parameters), None, None);
      }
      var value := response.value;
      if |value| == 0 {
        return Outcome(Aborted(EmptyPage), Some(parameters), None, None);
      }
      lastModifiedDateTime := Some(value[0].lastModifiedDateTime);
      var messageText, used := PackDialog(value, remainingContextSz, tokens);
      assert remainingContextSz == DialogBudget(summary, tokens);
      var userPrompt := FormUserPrompt(summary, messageText);
      assert userPrompt == FormUserPrompt(summary, RenderDialog(Reversed(Packed(summary, value, tokens))));
      if reply.CallRejected? {
        return Outcome(Aborted(CompletionRejected), Some(parameters), Some(userPrompt), None);
      }
      o := Outcome(Done, Some(parameters), Some(userPrompt), Some(SavedState(summary, lastModifiedDateTime.value)));
    }
  }

  /** The whole script, run on a fresh set of variables, does what `Run` says. */
  method RunScript(file: StateFile, response: GraphResponse, tokens: string -> nat, reply: Completion)
    returns (o: Outcome)
    ensures o == Run(file, response, tokens, reply)
  {
    var agent := new Agent();
    var failure := agent.LoadState(file);
    if failure.Some? {
      return Outcome(Aborted(failure.value), None, None, None);
    }
    o := agent.Sync(response, tokens, reply);
  }

  /** A state is written exactly when the run completes, which takes a
      readable state file, a non-empty page and a reply; the state written
      pairs the newest fetched message's timestamp with the summary as it
      was loaded. */
  lemma WrittenOnlyOnCompletion(file: StateFile, response: GraphResponse, tokens: string -> nat, reply: Completion)
    ensures var o := Run(file, response, tokens, reply);
            && (o.written.Some? <==> o.exit == Done)
            && (o.exit == Done <==> file.Stored? && response.Page? && response.value != [] && reply.Replied?)
            && (o.written.Some? ==>
                  o.written.value == SavedState(file.saved.summary, response.value[0].lastModifiedDateTime))
  {
  }

  /** The watermark written does not depend on how many messages fitted, nor
      on what the model replied: two runs on the same file and page that both
      get a reply write the same state, whatever the tokenizer. */
  lemma WrittenStateIgnoresPacking(file: StateFile, response: GraphResponse,
                                   tokens1: string -> nat, tokens2: string -> nat,
                                   reply1: Completion, reply2: Completion)
    requires reply1.Replied? && reply2.Replied?
    ensures Run(file, response, tokens1, reply1).written == Run(file, response, tokens2, reply2).written
  {
  }

  /** An error payload ends the run before any prompt is built or any state
      written, and so does a state file that cannot be read, before any
      request. */
  lemma FailuresWriteNothing(file: StateFile, response: GraphResponse, tokens: string -> nat, reply: Completion)
    ensures file.Unreadable? ==> Run(file, response, tokens, reply) == Outcome(Aborted(StateReadError(file.reason)), None, None, None)
    ensures file.Stored? && response.ErrorPayload? ==>
              Run(file, response, tokens, reply)
              == Outcome(Aborted(FetchError(response.error)), Some(FetchParameters(file.saved.lastModifiedDateTime)), None, None)
  {
  }

  /** The Graph request filters on the watermark exactly when the saved
      watermark is non-empty. */
  lemma FilterOnlyWithWatermark(saved: SavedState, response: GraphResponse, tokens: string -> nat, reply: Completion)
    ensures var parameters := Run(Stored(saved), response, tokens, reply).parameters;
            && parameters.Some?
            && (parameters.value == "" <==> saved.lastModifiedDateTime == "")
  {
  }

  /** What is packed fits the budget: when anything is packed, the token
      lengths of the message bodies and of the skeleton built with the same
      summary add up to strictly less than the context window, and a skeleton
      that fills the window leaves no room for any message.  The rendered
      dialog also holds display names and separators, which are not
      measured, and token counts need not add up over concatenation, so this
      does not bound the token length of the prompt actually sent. */
  lemma PackedBodiesFitBudget(summary: string, batch: seq<Message>, tokens: string -> nat)
    ensures var kept := Packed(summary, batch, tokens);
            && (kept != [] ==> SumTokens(kept, tokens) + tokens(FormUserPrompt(summary, "")) < MAX_CONTEXT_SZ)
            && (tokens(FormUserPrompt(summary, "")) >= MAX_CONTEXT_SZ ==> kept == [])
  {
  }

  /** A run that reaches the model sends the prompt built with the loaded
      summary around the packed dialog. */
  lemma PromptOfRun(saved: SavedState, batch: seq<Message>, tokens: string -> nat, reply: Completion)
    requires batch != []
    ensures Run(Stored(saved), Page(batch), tokens, reply).prompt
            == Some(FormUserPrompt(saved.summary, RenderDialog(Reversed(Packed(saved.summary, batch, tokens)))))
  {
  }

  /** The prompt sent is the very skeleton whose size set the budget, built
      with the loaded summary, with the packed dialog inserted into it,
      oldest message first. */
  lemma PromptIsMeasuredSkeletonPlusDialog(saved: SavedState, batch: seq<Message>, tokens: string -> nat, reply: Completion)
    requires batch != []
    ensures var o := Run(Stored(saved), Page(batch), tokens, reply);
            var skeleton := FormUserPrompt(saved.summary, "");
            var kept := KeepNewest(batch, MAX_CONTEXT_SZ - tokens(skeleton), tokens);
            var slot := DialogSlot(saved.summary);
            && slot <= |skeleton|
            && o.prompt == Some(skeleton[..slot] + RenderDialog(Reversed(kept)) + skeleton[slot..])
  {
    var skeleton := FormUserPrompt(saved.summary, "");
    var kept := KeepNewest(batch, MAX_CONTEXT_SZ - tokens(skeleton), tokens);
    var dialog := RenderDialog(Reversed(kept));
    PromptOfRun(saved, batch, tokens, reply);
    DialogInsertedInSkeleton(saved.summary, dialog);
  }

  /** As written, a run without `state.json` never gets past the Graph
      request: the ENOENT branch leaves the watermark undefined and reading
      its length throws. */
  lemma MissingStateAborts(response: GraphResponse, tokens: string -> nat, reply: Completion)
    ensures Run(NotFound, response, tokens, reply) == Outcome(Aborted(UndefinedWatermark), None, None, None)
  {
  }

  /** As written, an empty page is not a quiet no-op: after logging
      "Nothing to do" the script reads `value[0]` and throws, so the run
      fails, though it writes nothing. */
  lemma EmptyPageAbortsAsWritten(saved: SavedState, tokens: string -> nat, reply: Completion)
    ensures Run(Stored(saved), Page([]), tokens, reply).exit == Aborted(EmptyPage)
    ensures Run(Stored(saved), Page([]), tokens, reply).written == None
  {
  }

  /** Loading as evidently intended: a missing state file is an empty state,
      with an empty watermark as well as an empty summary. */
  function LoadCorrected(file: StateFile): Loaded
  {
    if file.NotFound? then Loaded(Globals("", Some(""))) else Load(file, Initial)
  }

  /** A run as evidently intended: a missing file starts from the empty
      state, and an empty page ends the run successfully without writing. */
  function RunCorrected(file: StateFile, response: GraphResponse, tokens: string -> nat, reply: Completion): Outcome
  {
    match LoadCorrected(file)
    case LoadFailed(failure) => Outcome(Aborted(failure), None, None, None)
    case Loaded(g) =>
      if g.lastModifiedDateTime.Some? && response == Page([]) then
        Outcome(Done, Some(FetchParameters(g.lastModifiedDateTime.value)), None, None)
      else Step(g, response, tokens, reply)
  }

  /** With the correction, a first run without `state.json` fetches the whole
      history (no filter) and, given a reply, writes the newest timestamp. */
  lemma CorrectedFirstRunFetchesAll(batch: seq<Message>, tokens: string -> nat, content: string)
    requires batch != []
    ensures var o := RunCorrected(NotFound, Page(batch), tokens, Replied(content));
            && o.parameters == Some("")
            && o.exit == Done
            && o.written == Some(SavedState("", batch[0].lastModifiedDateTime))
  {
  }

  /** With the correction, an empty page leaves the state exactly as it was
      and the run succeeds. */
  lemma CorrectedEmptyPageIsNoop(file: StateFile, tokens: string -> nat, reply: Completion)
    requires !file.Unreadable?
    ensures RunCorrected(file, Page([]), tokens, reply).exit == Done
    ensures RunCorrected(file, Page([]), tokens, reply).written == None
  {
  }

  /** The correction changes nothing else: with a state file present and a
      non-empty page or an error payload, both runs agree. */
  lemma CorrectionIsConservative(file: StateFile, response: GraphResponse, tokens: string -> nat, reply: Completion)
    requires !file.NotFound? && response != Page([])
    ensures RunCorrected(file, response, tokens, reply) == Run(file, response, tokens, reply)
  {
  }
}
