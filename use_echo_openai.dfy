/** src/hooks/useEchoOpenAi.ts: a hook that loads an OpenAI client for the
    signed-in user. The effect aborts the previous load and, when enabled and
    signed in, starts a new one; the load's asynchronous steps (the token
    arriving, then the package import and the client construction settling)
    are separate events here, each reading its own controller's `aborted` flag
    at the moment it runs. */
module UseEchoOpenAi {
  import opened Wrappers
  import opened Text

  const NoTokenError: string := "No authentication token available"
  const PackageMissingError: string := "OpenAI package not found. " + "Please install it with: pnpm add openai"
  const InitFailedPrefix: string := "Failed to initialize OpenAI client: "
  const NonErrorMessage: string := "Failed to load OpenAI"

  /** The client built from the token and the base URL. */
  datatype OpenAiClient = OpenAiClient(apiKey: string, baseUrl: string)

  /** What a `catch` receives: an `Error` with its message, or any other value. */
  datatype Thrown = ErrorThrown(message: string) | ValueThrown

  function ThrownMessage(t: Thrown): string {
    match t
    case ErrorThrown(m) => m
    case ValueThrown => NonErrorMessage
  }

  /** A message naming a missing module, or mentioning `openai` in lower case. */
  predicate LooksLikeMissingPackage(m: string) {
    Contains(m, "Cannot resolve module") || Contains(m, "Module not found") || Contains(m, "openai")
  }

  /** The error recorded when the load throws. */
  function Classify(t: Thrown): (r: string)
    ensures LooksLikeMissingPackage(ThrownMessage(t)) ==> r == PackageMissingError
    ensures !LooksLikeMissingPackage(ThrownMessage(t)) ==> r == InitFailedPrefix + ThrownMessage(t)
  {
    var m := ThrownMessage(t);
    if LooksLikeMissingPackage(m) then PackageMissingError else InitFailedPrefix + m
  }

  /** The hook's visible state: `openai`, `error`, `isLoading`. */
  datatype HookState = HookState(openai: Option<OpenAiClient>, error: Option<string>, isLoading: bool)

  const Idle: HookState := HookState(None, None, false)

  /** `isReady`. */
  predicate IsReady(s: HookState) {
    s.openai.Some? && !s.isLoading
  }

  /** The effect body's state updates: disabled or signed out resets the hook;
      otherwise a load starts, clearing the error. A client from an earlier
      load is kept meanwhile. */
  function AfterEffect(s: HookState, enabled: bool, isAuthenticated: bool): (r: HookState)
    ensures !enabled || !isAuthenticated ==> r == Idle
    ensures enabled && isAuthenticated ==> r == HookState(s.openai, None, true) && !IsReady(r)
  {
    if !enabled || !isAuthenticated then Idle
    else s.(isLoading := true, error := None)
  }

  /** A JavaScript-falsy token: missing or empty. */
  predicate TokenMissing(token: Option<string>) {
    token.None? || token.value == ""
  }

  /** The state after `getToken` settles, and whether the load goes on to the
      import. A missing token is recorded whether or not the load was aborted;
      an aborted load with a token stops without a trace. */
  function AfterToken(s: HookState, aborted: bool, token: Option<string>): (r: (HookState, bool))
    ensures r.1 <==> !TokenMissing(token) && !aborted
    ensures TokenMissing(token) ==> r.0 == HookState(s.openai, Some(NoTokenError), false)
    ensures !TokenMissing(token) ==> r.0 == s
  {
    if TokenMissing(token) then (s.(error := Some(NoTokenError), isLoading := false), false)
    else if aborted then (s, false)
    else (s, true)
  }

  /** How the import and the client construction go. */
  datatype LoadOutcome = Loaded | LoadThrew(thrown: Thrown)

  /** The state after the import settles. An aborted load changes nothing; a
      live one either sets the client or records the classified error and drops
      the client, and loading is over. */
  function AfterImport(s: HookState, aborted: bool, token: string, baseUrl: string, outcome: LoadOutcome): (r: HookState)
    ensures aborted ==> r == s
    ensures !aborted ==> !r.isLoading
    ensures !aborted && outcome.Loaded? ==> r == s.(openai := Some(OpenAiClient(token, baseUrl)), isLoading := false)
    ensures !aborted && outcome.LoadThrew? ==> r == HookState(None, Some(Classify(outcome.thrown)), false)
  {
    if aborted then s
    else match outcome
      case Loaded => s.(openai := Some(OpenAiClient(token, baseUrl)), isLoading := false)
      case LoadThrew(t) => s.(error := Some(Classify(t)), openai := None, isLoading := false)
  }

  /** `AbortController`, reduced to its signal's flag. */
  class AbortController {
    var aborted: bool

    constructor ()
      ensures !aborted
    {
      aborted := false;
    }

    method Abort()
      modifies this
      ensures aborted
    {
      aborted := true;
    }
  }

  /** The hook instance: its three state cells and `abortControllerRef`. */
  class Hook {
    var openai: Option<OpenAiClient>
    var error: Option<string>
    var isLoading: bool
    var current: AbortController?

    function State(): HookState
      reads this
    {
      HookState(openai, error, isLoading)
    }

    constructor ()
      ensures State() == Idle && current == null
    {
      openai, error, isLoading := None, None, false;
      current := null;
    }

    /** The effect, run on mount and whenever a dependency changes. The
        previous controller is aborted first; a started load gets a fresh
        controller, which is returned for the load's later steps. */
    method RunEffect(enabled: bool, isAuthenticated: bool) returns (load: AbortController?)
      modifies this, current
      ensures State() == AfterEffect(old(State()), enabled, isAuthenticated)
      ensures old(current) != null ==> old(current).aborted
      ensures !enabled || !isAuthenticated ==> load == null && current == old(current)
      ensures enabled && isAuthenticated ==> load != null && fresh(load) && !load.aborted && current == load
    {
      if current != null {
        current.Abort();
      }
      if !enabled || !isAuthenticated {
        openai := None;
        error := None;
        isLoading := false;
        return null;
      }
      load := new AbortController();
      current := load;
      isLoading := true;
      error := None;
    }

    /** The effect's cleanup: abort the current load. */
    method Cleanup()
      modifies current
      ensures current != null ==> current.aborted
    {
      if current != null {
        current.Abort();
      }
    }

    /** `getToken` settled for the load controlled by `load`. */
    method OnToken(load: AbortController, token: Option<string>) returns (proceed: bool)
      modifies this
      ensures (State(), proceed) == AfterToken(old(State()), load.aborted, token)
      ensures current == old(current)
    {
      proceed := false;
      if token.None? || token.value == "" {
        error := Some(NoTokenError);
        isLoading := false;
        return;
      }
      if load.aborted {
        return;
      }
      proceed := true;
    }

    /** The import and the client construction settled for the load controlled
        by `load`; `token` and `baseUrl` are the ones that load started with.
        No `await` separates the abort checks that follow the import, so they
        all see the same flag. */
    method OnImport(load: AbortController, token: string, baseUrl: string, outcome: LoadOutcome)
      modifies this
      ensures State() == AfterImport(old(State()), load.aborted, token, baseUrl, outcome)
      ensures current == old(current)
    {
      if load.aborted {
        return;
      }
      match outcome {
        case Loaded =>
          openai := Some(OpenAiClient(token, baseUrl));
        case LoadThrew(t) =>
          var message := Classify(t);
          error := Some(message);
          openai := None;
      }
      isLoading := false;
    }
  }
}

/** What the loader guarantees across its steps. */
module UseEchoOpenAiProofs {
  import opened Wrappers
  import opened Text
  import opened UseEchoOpenAi

  /** Disabled or signed out, the hook is idle and not ready. */
  lemma DisabledIsIdle(s: HookState, enabled: bool, isAuthenticated: bool)
    requires !enabled || !isAuthenticated
    ensures var r := AfterEffect(s, enabled, isAuthenticated);
      !IsReady(r) && r.openai == None && r.error == None && !r.isLoading
  {
  }

  /** A live load that gets a token and loads the package ends ready with a
      client for that token and no error. */
  lemma LiveLoadSucceeds(s: HookState, token: string, baseUrl: string)
    requires token != ""
    ensures var started := AfterEffect(s, true, true);
      var t := AfterToken(started, false, Some(token));
      var r := AfterImport(t.0, false, token, baseUrl, Loaded);
      && t.1 && IsReady(r) && r.openai == Some(OpenAiClient(token, baseUrl)) && r.error == None
  {
  }

  /** A live load that throws ends not ready, with no client and the
      classified error. */
  lemma LiveLoadFails(s: HookState, token: string, baseUrl: string, thrown: Thrown)
    requires token != ""
    ensures var started := AfterEffect(s, true, true);
      var t := AfterToken(started, false, Some(token));
      var r := AfterImport(t.0, false, token, baseUrl, LoadThrew(thrown));
      && !IsReady(r) && r.openai == None && r.error == Some(Classify(thrown)) && !r.isLoading
  {
  }

  /** Once aborted, a load with a token never sets the client, records no
      error and leaves the loading flag as it is. */
  lemma AbortedLoadLeavesNoTrace(s: HookState, token: string, baseUrl: string, outcome: LoadOutcome)
    requires token != ""
    ensures AfterToken(s, true, Some(token)) == (s, false)
    ensures AfterImport(s, true, token, baseUrl, outcome) == s
  {
  }

  /** The missing-token branch precedes the abort check: a stale load whose
      token is missing still overwrites the error and the loading flag. After
      a second effect has aborted the first load, the first load's missing
      token ends the second load's loading state, and the error it records
      survives the second load's success: the hook is ready and reports an error. */
  lemma StaleMissingTokenOutlivesNewerLoad(token: string, baseUrl: string)
    requires token != ""
    ensures var first := AfterEffect(Idle, true, true);
      var second := AfterEffect(first, true, true);
      var stale := AfterToken(second, true, None).0;
      var t := AfterToken(stale, false, Some(token));
      var r := AfterImport(t.0, false, token, baseUrl, Loaded);
      && !stale.isLoading
      && IsReady(r) && r.error == Some(NoTokenError)
  {
  }

  lemma SliceStart(s: string, p: string, k: nat)
    requires |p| >= 2 && k + |p| <= |s| && s[k..k + |p|] == p
    ensures s[k] == p[0] && s[k + 1] == p[1]
  {
    assert s[k..k + |p|][0] == s[k] && s[k..k + |p|][1] == s[k + 1];
  }

  /** No substring occurs in `s` when, at every start, its first two
      characters already differ. */
  lemma {:induction false} NotContainedByPrefix(s: string, p: string)
    requires |p| >= 2
    requires forall k :: 0 <= k && k + |p| <= |s| ==> s[k] != p[0] || s[k + 1] != p[1]
    ensures !Contains(s, p)
  {
    if Contains(s, p) {
      var k := ContainsOnlyAt(s, p);
      SliceStart(s, p, k);
    }
  }

  /** The two classes of message are told apart by their first characters. */
  lemma ClassesDiffer(m: string)
    ensures PackageMissingError != InitFailedPrefix + m
  {
    assert PackageMissingError[0] == 'O';
    assert (InitFailedPrefix + m)[0] == 'F';
  }

  /** The classifier reports a missing package exactly for the messages that
      look like one, and the generic prefix with the message otherwise. */
  lemma ClassifyExactly(t: Thrown)
    ensures Classify(t) == PackageMissingError <==> LooksLikeMissingPackage(ThrownMessage(t))
    ensures Classify(t) == InitFailedPrefix + ThrownMessage(t) <==> !LooksLikeMissingPackage(ThrownMessage(t))
  {
    ClassesDiffer(ThrownMessage(t));
  }

  /** A thrown non-`Error` value is reported through the generic prefix: its
      stand-in message says "OpenAI", which the lower-case test misses. */
  lemma NonErrorValueMessage()
    ensures Classify(ValueThrown) == InitFailedPrefix + "Failed to load OpenAI"
  {
    NonErrorNotResolve();
    NonErrorNotFound();
    NonErrorNotLower();
  }

  lemma NonErrorNotResolve()
    ensures !Contains(NonErrorMessage, "Cannot resolve module")
  {
    NotContainedByPrefix(NonErrorMessage, "Cannot resolve module");
  }

  lemma NonErrorNotFound()
    ensures !Contains(NonErrorMessage, "Module not found")
  {
    NotContainedByPrefix(NonErrorMessage, "Module not found");
  }

  lemma NonErrorNotLower()
    ensures !Contains(NonErrorMessage, "openai")
  {
    NotContainedByPrefix(NonErrorMessage, "openai");
  }

  /** Any message that mentions the package in lower case is reported as a
      missing package, wherever the mention occurs. */
  lemma MentionMeansMissingPackage(before: string, after: string)
    ensures Classify(ErrorThrown(before + "openai" + after)) == PackageMissingError
  {
    var m := before + "openai" + after;
    assert m[|before|..|before| + 6] == "openai";
    ContainsAt(m, "openai", |before|);
  }
}
