/** The prompt on the screen is that of the request which the answer will go to. */
module Prompts {
  import opened Base
  import opened Sessions
  import opened Environments
  import opened ProviderRegistries
  import opened AgentCore
  import opened CoreInvariants
  import opened KeyringManagers
  import opened PinentryManagers
  import opened PolkitListeners
  import opened Daemons
  import opened TableAgreement
  import opened Bulletins
  import opened Announcements
  import opened ManagerTables
  import opened PolkitSteps
  import opened StepOutcome
  import opened Composition
  import opened Failures

  /** Every pending pinentry request is what its session prompts for, without echo. */
  ghost predicate PinentryPrompts(d: Daemon) {
    forall id :: id in d.pinentry.pending && IsPinentry(d.core.store, id) ==>
      d.core.store[id].prompt == d.pinentry.pending[id].prompt && !d.core.store[id].echo
  }

  /** So is every pending keyring request. */
  ghost predicate KeyringPrompts(d: Daemon) {
    forall id :: id in d.keyring && id in d.core.store ==>
      d.core.store[id].prompt == d.keyring[id].message && !d.core.store[id].echo
  }

  /** If there is still a session `id`, it is the same one and prompts for the same. */
  predicate SamePrompt(store: map<Id, SessionData>, store': map<Id, SessionData>, id: Id) {
    id in store' ==>
      id in store && store'[id].source == store[id].source && store'[id].prompt == store[id].prompt && store'[id].echo == store[id].echo
  }

  lemma ComplainKeeps(b: Board, i: Id, error: string, id: Id)
    requires StoreInv(b.store)
    ensures SamePrompt(b.store, b.Complain(i, error).store, id) && SamePrompt(b.store, b.Inform(i, error).store, id)
    ensures StoreInv(b.Complain(i, error).store)
  {
  }

  lemma EndKeeps(b: Board, i: Id, result: Result, id: Id)
    requires StoreInv(b.store)
    ensures SamePrompt(b.store, b.End(i, result).store, id) && StoreInv(b.End(i, result).store)
  {
  }

  lemma {:induction false} EndEachKeeps(b: Board, ids: seq<Id>, id: Id)
    requires StoreInv(b.store)
    ensures SamePrompt(b.store, EndEach(b, ids).store, id) && StoreInv(EndEach(b, ids).store)
    decreases |ids|
  {
    if ids != [] {
      EndKeeps(b, ids[0], Cancelled, id);
      EndEachKeeps(b.End(ids[0], Cancelled), ids[1..], id);
    }
  }

  lemma {:induction false} AbandonEachKeeps(b: Board, ids: seq<Id>, id: Id)
    requires StoreInv(b.store)
    ensures SamePrompt(b.store, AbandonEach(b, ids).store, id)
    decreases |ids|
  {
    hide Board.Complain, Board.End, StoreInv;
    if ids != [] {
      ComplainKeeps(b, ids[0], "Pinentry disconnected", id);
      var b1 := b.Complain(ids[0], "Pinentry disconnected");
      EndKeeps(b1, ids[0], Cancelled, id);
      AbandonEachKeeps(if IsPinentry(b.store, ids[0]) then b1.End(ids[0], Cancelled) else b, ids[1..], id);
    }
  }

  lemma ComplainThenEnd(b: Board, i: Id, error: string, result: Result, id: Id)
    requires StoreInv(b.store)
    ensures SamePrompt(b.store, b.Complain(i, error).End(i, result).store, id)
  {
    hide Board.Complain, Board.End, StoreInv;
    ComplainKeeps(b, i, error, id);
    EndKeeps(b.Complain(i, error), i, result, id);
  }

  lemma ConcludedKeeps(b: Board, q: PolkitTables, attempt: Attempting, gained: bool, id: Id)
    requires StoreInv(b.store) && Heard(q, attempt)
    ensures SamePrompt(b.store, Concluded(b, q, attempt, gained).store, id)
  {
    hide Board.Complain, Board.End, StoreInv;
    var i := q.attempts[attempt];
    EndKeeps(b, i, Success, id);
    ComplainKeeps(b, i, "Authentication failed", id);
    ComplainThenEnd(b.Complain(i, "Authentication failed"), i, "Too many failed attempts", Cancelled, id);
  }

  lemma ResultedKeeps(d: Daemon, pid: Pid, i: Id, word: ResultWord, error: string, id: Id)
    requires StoreInv(d.core.store)
    ensures SamePrompt(d.core.store, Resulted(d, pid, i, word, error).store, id)
  {
    hide Board.Complain, Board.End, StoreInv;
    var b := BoardOf(d.core);
    var failure := if error == "" then "Authentication failed" else error;
    EndKeeps(b, i, Success, id);
    EndKeeps(b, i, Cancelled, id);
    ComplainKeeps(b, i, failure, id);
    ComplainThenEnd(b, i, failure, Error, id);
  }

  lemma DisconnectKeeps(d: Daemon, s: Socket, id: Id, env: Env)
    requires StoreInv(d.core.store)
    ensures SamePrompt(d.core.store, BoardNext(d, DisconnectInput(s), env).store, id)
  {
    hide EndEach, AbandonEach, StoreInv;
    var k := Only(env.idOrder(d.keyring.Keys), KeyringOwned(d.keyring, s));
    EndEachKeeps(BoardOf(d.core), k, id);
    AbandonEachKeeps(EndEach(BoardOf(d.core), k), Only(env.idOrder(d.pinentry.pending.Keys), PinentryOwned(d.pinentry, s)), id);
  }

  /** Inputs that put up a prompt. */
  predicate Prompting(input: Input) {
    input.KeyringInput? || input.PinentryInput? || input.PolkitInitiate? || input.PolkitRequest?
  }

  lemma SignalsKeepPrompts(d: Daemon, input: Input, id: Id, env: Env)
    requires StoreInv(d.core.store) && (input.PolkitCompleted? || input.PolkitError? || input.PolkitInfo?)
    ensures SamePrompt(d.core.store, BoardNext(d, input, env).store, id)
  {
    hide StoreInv, Board.Complain, Board.End, Board.Inform, Concluded;
    if Heard(d.polkit, input.attempt) {
      var b := BoardOf(d.core);
      match input
      case PolkitCompleted(attempt, gained) => ConcludedKeeps(b, d.polkit, attempt, gained, id);
      case PolkitError(attempt, text) => ComplainKeeps(b, d.polkit.attempts[attempt], text, id);
      case PolkitInfo(attempt, text) => ComplainKeeps(b, d.polkit.attempts[attempt], text, id);
    }
  }

  lemma OthersKeepPrompts(d: Daemon, input: Input, id: Id, env: Env)
    requires StoreInv(d.core.store) && !Prompting(input) && !input.PolkitCompleted? && !input.PolkitError? && !input.PolkitInfo?
    ensures SamePrompt(d.core.store, BoardNext(d, input, env).store, id)
  {
    hide StoreInv, Board.Complain, Board.End, Board.Inform, Concluded, Resulted, EndEach;
    var b := BoardOf(d.core);
    match input
    case ResultInput(_, pid, i, word, error) => ResultedKeeps(d, pid, i, word, error, id);
    case RespondInput(_, i, _) => EndKeeps(b, i, Success, id);
    case CancelInput(_, i) => EndKeeps(b, i, Cancelled, id);
    case DisconnectInput(s) => DisconnectKeeps(d, s, id, env);
    case OutcomeTimer(timer) =>
      if timer in d.pinentry.timers {
        ComplainThenEnd(b, d.pinentry.timers[timer], "Pinentry did not report terminal result", Error, id);
      }
    case PolkitCancelAll => EndEachKeeps(b, env.idOrder(d.polkit.states.Keys), id);
    case _ =>
  }

  lemma PinentryKeeps(d: Daemon, s: Socket, pid: Pid, msg: PinentryMessage, id: Id, env: Env)
    requires env.Valid() && DaemonInv(d) && CookieOf(msg, env) != id
    ensures SamePrompt(d.core.store, Handle(d, PinentryInput(s, pid, msg), env).core.store, id)
  {
    hide Handle, DaemonInv, Counts, Renewed, Sight;
    if !Admits(d, pid, msg, env) {
      RefusedRequestShowsNothing(d, s, pid, msg, env);
    } else if CookieOf(msg, env) in d.core.store {
      LaterRequestPrompts(d, s, pid, msg, env);
    } else {
      OpeningRequestPrompts(d, s, pid, msg, env);
    }
  }

  lemma PolkitRequestKeeps(d: Daemon, attempt: Attempting, prompt: string, echo: bool, id: Id, env: Env)
    requires DaemonInv(d) && id in d.core.store && d.core.store[id].source != Polkit
    ensures SamePrompt(d.core.store, BoardNext(d, PolkitRequest(attempt, prompt, echo), env).store, id)
  {
    assert StoreInv(d.core.store);
    if Heard(d.polkit, attempt) {
      PolkitsOwn(d, d.polkit.attempts[attempt]);
    }
    hide DaemonInv;
  }

  lemma OpeningKeeps(d: Daemon, input: Input, id: Id, env: Env)
    requires (input.KeyringInput? || input.PolkitInitiate?) && id in d.core.store
    ensures SamePrompt(d.core.store, BoardNext(d, input, env).store, id)
  {
  }

  /** A session that was there keeps its prompt unless a pinentry request names it or polkit asks for another. */
  lemma PromptStays(d: Daemon, input: Input, id: Id, env: Env)
    requires env.Valid() && DaemonInv(d) && (input.PinentryInput? ==> CookieOf(input.pinentryMsg, env) != id)
    requires id in d.core.store && d.core.store[id].source != Polkit
    ensures SamePrompt(d.core.store, Handle(d, input, env).core.store, id)
  {
    assert StoreInv(d.core.store);
    hide DaemonInv, BoardNext, SamePrompt, Handle, Env.Valid;
    StepShows(d, input, env);
    if input.PinentryInput? {
      PinentryKeeps(d, input.s, input.pid, input.pinentryMsg, id, env);
    } else if input.PolkitRequest? {
      PolkitRequestKeeps(d, input.attempt, input.prompt, input.echo, id, env);
    } else if input.KeyringInput? || input.PolkitInitiate? {
      OpeningKeeps(d, input, id, env);
    } else if input.PolkitCompleted? || input.PolkitError? || input.PolkitInfo? {
      SignalsKeepPrompts(d, input, id, env);
    } else {
      OthersKeepPrompts(d, input, id, env);
    }
  }

  // ---- pinentry requests

  /** The session of a pinentry request other than the one just made was there before. */
  lemma StillPinentry(d: Daemon, input: Input, id: Id, env: Env)
    requires env.Valid() && DaemonInv(d) && IsPinentry(Handle(d, input, env).core.store, id)
    requires input.PinentryInput? ==> CookieOf(input.pinentryMsg, env) != id
    ensures IsPinentry(d.core.store, id)
  {
    hide DaemonInv, Handle, Env.Valid;
    StoreOf(d, input, id, env);
    StepOpensAndCloses(d, input, env);
  }

  lemma RequestedPrompt(d: Daemon, s: Socket, pid: Pid, msg: PinentryMessage, env: Env)
    requires env.Valid() && DaemonInv(d) && Admits(d, pid, msg, env)
    ensures var d', id := Handle(d, PinentryInput(s, pid, msg), env), CookieOf(msg, env);
            && id in d'.core.store && id in d'.pinentry.pending
            && d'.core.store[id].prompt == d'.pinentry.pending[id].prompt && !d'.core.store[id].echo
  {
    hide Handle, DaemonInv, Counts, Sight;
    StepFlows(d, PinentryInput(s, pid, msg), env);
    if CookieOf(msg, env) in d.core.store {
      LaterRequestPrompts(d, s, pid, msg, env);
    } else {
      OpeningRequestPrompts(d, s, pid, msg, env);
    }
  }

  /** Requests that are pending afterwards and were not just made were pending before. */
  lemma PendingBefore(d: Daemon, input: Input, id: Id, env: Env)
    requires env.Valid() && id in Handle(d, input, env).pinentry.pending
    requires input.PinentryInput? ==> CookieOf(input.pinentryMsg, env) != id || !Admits(d, input.pid, input.pinentryMsg, env)
    ensures id in d.pinentry.pending && Handle(d, input, env).pinentry.pending[id] == d.pinentry.pending[id]
  {
    hide Handle, FlowsOf, FlowsNext;
    StepFlows(d, input, env);
    PendingOf(d.pinentry);
    PendingOf(Handle(d, input, env).pinentry);
    PendingShrinks(d, input, id, env);
  }

  lemma PendingShrinks(d: Daemon, input: Input, id: Id, env: Env)
    requires id in FlowsNext(d, input, env).pending
    requires input.PinentryInput? ==> CookieOf(input.pinentryMsg, env) != id || !Admits(d, input.pid, input.pinentryMsg, env)
    ensures id in d.pinentry.pending && FlowsNext(d, input, env).pending[id] == d.pinentry.pending[id]
  {
  }

  lemma PinentryPromptStep(d: Daemon, input: Input, env: Env)
    requires env.Valid() && DaemonInv(d) && PinentryPrompts(d)
    ensures PinentryPrompts(Handle(d, input, env))
  {
    hide Handle, DaemonInv, Admits, CookieOf, Env.Valid;
    var d' := Handle(d, input, env);
    forall id | id in d'.pinentry.pending && IsPinentry(d'.core.store, id)
      ensures d'.core.store[id].prompt == d'.pinentry.pending[id].prompt && !d'.core.store[id].echo
    {
      if input.PinentryInput? && CookieOf(input.pinentryMsg, env) == id {
        if Admits(d, input.pid, input.pinentryMsg, env) {
          RequestedPrompt(d, input.s, input.pid, input.pinentryMsg, env);
        } else {
          RefusedRequestShowsNothing(d, input.s, input.pid, input.pinentryMsg, env);
          PendingBefore(d, input, id, env);
        }
      } else {
        StillPinentry(d, input, id, env);
        PromptStays(d, input, id, env);
        PendingBefore(d, input, id, env);
      }
    }
  }

  /** In every reachable state: whoever answers a pinentry request looks at the prompt of that very request. */
  lemma {:induction false} PendingPromptIsShown(steps: seq<Step>)
    requires ValidSteps(steps)
    ensures PinentryPrompts(Run(INITIAL, steps))
  {
    hide Handle, DaemonInv, Env.Valid;
    if steps != [] {
      var n := |steps| - 1;
      PendingPromptIsShown(steps[..n]);
      RunKeeps(steps[..n]);
      PinentryPromptStep(Run(INITIAL, steps[..n]), steps[n].input, steps[n].env);
    }
  }

  // ---- keyring requests

  lemma KeyringBefore(d: Daemon, input: Input, id: Id, env: Env)
    requires id in Handle(d, input, env).keyring
    ensures if input.KeyringInput? && KeyringCookie(input.keyringMsg, env) == id then id !in d.core.store
            else id in d.keyring && Handle(d, input, env).keyring[id] == d.keyring[id]
  {
    hide Handle;
    StepKeyring(d, input, env);
  }

  lemma KeyringPrompted(d: Daemon, s: Socket, pid: Pid, msg: KeyringMessage, env: Env)
    requires env.Valid() && DaemonInv(d) && KeyringCookie(msg, env) !in d.core.store
    ensures var d', id := Handle(d, KeyringInput(s, pid, msg), env), KeyringCookie(msg, env);
            && id in d'.core.store && id in d'.keyring
            && d'.core.store[id].prompt == d'.keyring[id].message && !d'.core.store[id].echo
  {
    hide Handle, DaemonInv;
    StepShows(d, KeyringInput(s, pid, msg), env);
    StepKeyring(d, KeyringInput(s, pid, msg), env);
  }

  /** A pinentry request goes by the cookie of a pending keyring request and puts up another prompt. */
  predicate Overwrites(d: Daemon, input: Input, env: Env) {
    input.PinentryInput? &&
    var id := CookieOf(input.pinentryMsg, env);
    && Admits(d, input.pid, input.pinentryMsg, env) && id in d.keyring
    && d.keyring[id].message != if input.pinentryMsg.prompt == "" then "Enter passphrase:" else input.pinentryMsg.prompt
  }

  lemma OverwrittenPrompt(d: Daemon, s: Socket, pid: Pid, msg: PinentryMessage, env: Env)
    requires env.Valid() && DaemonInv(d) && CookieOf(msg, env) in d.keyring && KeyringPrompts(d)
    ensures var d', id := Handle(d, PinentryInput(s, pid, msg), env), CookieOf(msg, env);
            && id in d'.core.store && d'.keyring == d.keyring && !d'.core.store[id].echo
            && (d'.core.store[id].prompt == d.keyring[id].message <==> !Overwrites(d, PinentryInput(s, pid, msg), env))
  {
    assert KeyringInv(d.keyring, LiveSessions(d.core.store));
    StepKeyring(d, PinentryInput(s, pid, msg), env);
    hide Handle, DaemonInv, Counts, Sight;
    if Admits(d, pid, msg, env) {
      LaterRequestPrompts(d, s, pid, msg, env);
    } else {
      RefusedRequestShowsNothing(d, s, pid, msg, env);
    }
  }

  lemma OverwritingBreaks(d: Daemon, input: Input, env: Env)
    requires env.Valid() && DaemonInv(d) && KeyringPrompts(d) && Overwrites(d, input, env)
    ensures !KeyringPrompts(Handle(d, input, env))
  {
    hide Handle, DaemonInv, Env.Valid, Admits;
    OverwrittenPrompt(d, input.s, input.pid, input.pinentryMsg, env);
  }

  /** A step keeps the agreement of keyring requests with their prompts exactly if it overwrites none. */
  lemma KeyringPromptStep(d: Daemon, input: Input, env: Env)
    requires env.Valid() && DaemonInv(d) && KeyringPrompts(d)
    ensures KeyringPrompts(Handle(d, input, env)) <==> !Overwrites(d, input, env)
  {
    hide Handle, DaemonInv, Env.Valid, Overwrites;
    if Overwrites(d, input, env) {
      OverwritingBreaks(d, input, env);
    } else {
      var d' := Handle(d, input, env);
      forall id | id in d'.keyring && id in d'.core.store
        ensures d'.core.store[id].prompt == d'.keyring[id].message && !d'.core.store[id].echo
      {
        KeyringStays(d, input, id, env);
      }
    }
  }

  lemma KeyringStays(d: Daemon, input: Input, id: Id, env: Env)
    requires env.Valid() && DaemonInv(d) && KeyringPrompts(d) && !Overwrites(d, input, env)
    requires id in Handle(d, input, env).keyring && id in Handle(d, input, env).core.store
    ensures var d' := Handle(d, input, env); d'.core.store[id].prompt == d'.keyring[id].message && !d'.core.store[id].echo
  {
    assert KeyringInv(d.keyring, LiveSessions(d.core.store));
    hide Handle, DaemonInv, Env.Valid, Admits, Overwrites;
    KeyringBefore(d, input, id, env);
    if input.KeyringInput? && KeyringCookie(input.keyringMsg, env) == id {
      KeyringPrompted(d, input.s, input.pid, input.keyringMsg, env);
    } else if input.PinentryInput? && CookieOf(input.pinentryMsg, env) == id {
      OverwrittenPrompt(d, input.s, input.pid, input.pinentryMsg, env);
    } else {
      PromptStays(d, input, id, env);
    }
  }

  ghost predicate NeverOverwritten(steps: seq<Step>) {
    steps == [] ||
    var n := |steps| - 1;
    NeverOverwritten(steps[..n]) && !Overwrites(Run(INITIAL, steps[..n]), steps[n].input, steps[n].env)
  }

  /** Whoever answers a keyring request looks at its prompt, in every state that is reached without overwriting one. */
  lemma {:induction false} KeyringPromptIsShown(steps: seq<Step>)
    requires ValidSteps(steps) && NeverOverwritten(steps)
    ensures KeyringPrompts(Run(INITIAL, steps))
  {
    hide Handle, DaemonInv, Env.Valid, Overwrites;
    if steps != [] {
      var n := |steps| - 1;
      KeyringPromptIsShown(steps[..n]);
      RunKeeps(steps[..n]);
      KeyringPromptStep(Run(INITIAL, steps[..n]), steps[n].input, steps[n].env);
    }
  }

  /** It can be overwritten: a keyring request and a pinentry request under one cookie, with different prompts. The answer
      still goes to the keyring request. */
  lemma PromptOverwritten(s: Socket, pid: Pid, msg: KeyringMessage, pin: PinentryMessage, env: Env)
    requires msg.cookie != "" && pin.cookie == msg.cookie && pin.prompt != "" && pin.prompt != msg.message && env.Valid()
    ensures !KeyringPrompts(Run(INITIAL, [Step(KeyringInput(s, pid, msg), env), Step(PinentryInput(s, pid, pin), env)]))
  {
    var a, b := Step(KeyringInput(s, pid, msg), env), Step(PinentryInput(s, pid, pin), env);
    var d := Handle(INITIAL, a.input, env);
    FirstKeyringRequest(s, pid, msg, env);
    StepKeyring(INITIAL, a.input, env);
    TwoSteps(a, b);
    hide Handle, DaemonInv, Env.Valid, LiveSessions;
    OneStep(a);
    assert [a][..0] == [];
    KeyringPromptIsShown([a]);
    KeyringPromptStep(d, b.input, env);
  }
}
