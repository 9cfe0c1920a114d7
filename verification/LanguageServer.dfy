/** The document state of the language server: handlers and timer firings as atomic steps, and what every reachable
    state keeps. */
module LanguageServer {
  import opened Model
  import opened Framing

  datatype Diagnostic = Diagnostic(line: int, text: string)

  /** What the server runs on: which files it has an opinion about, the rules (`None` where they raise), and whether
      changes wait for the debounce window. */
  datatype Env = Env(lintable: string -> bool, analyse: (string, string) -> Option<seq<Diagnostic>>, debounced: bool)

  datatype Call =
    | Initialize | Initialized | Shutdown | Exit
    | DidOpen(uri: string, text: string)
    | DidChange(uri: string, texts: seq<string>)
    | DidSave(uri: string, saved: Option<string>)
    | DidClose(uri: string)
    | Hover(uri: string, line: int)
    | Unsupported
    | Failing

  datatype Incoming = Incoming(id: Option<int>, call: Call)

  datatype Sent =
    | Publish(uri: string, found: seq<Diagnostic>)
    | Log(uri: string)
    | Response(id: int)
    | Refusal(id: int)

  /** Timers are objects: `timers` is the server's own record, `armed` what is really running. */
  datatype State = State(
    documents: map<string, string>,
    timers: map<string, nat>,
    armed: map<nat, string>,
    started: nat,
    published: map<string, seq<Diagnostic>>,
    shutdownRequested: bool,
    running: bool,
    sent: seq<Sent>)

  const INITIAL := State(map[], map[], map[], 0, map[], false, true, [])

  // ------------------------------------------------------------------ one step

  function Send(st: State, message: Sent): State { st.(sent := st.sent + [message]) }

  /** `_cancel`. */
  function Cancel(st: State, uri: string): State {
    if uri in st.timers then st.(timers := st.timers - {uri}, armed := st.armed - {st.timers[uri]}) else st
  }

  /** `_run`. */
  function Analysed(env: Env, before: State, uri: string): State {
    var st := before.(timers := before.timers - {uri});
    if uri !in st.documents || !env.lintable(uri) then st
    else
      match env.analyse(uri, st.documents[uri])
      case None => Send(st, Log(uri))
      case Some(found) => Send(st.(published := st.published[uri := found]), Publish(uri, found))
  }

  /** `analyze`. */
  function Analyze(env: Env, before: State, uri: string, immediate: bool): State {
    var st := Cancel(before, uri);
    if immediate || !env.debounced then Analysed(env, st, uri)
    else st.(timers := st.timers[uri := st.started], armed := st.armed[st.started := uri], started := st.started + 1)
  }

  function CancelAll(st: State): State {
    st.(timers := map[], armed := map id | id in st.armed && id !in st.timers.Values :: st.armed[id])
  }

  function Handled(env: Env, st: State, call: Call): State {
    match call
    case Shutdown => CancelAll(st).(shutdownRequested := true)
    case Exit => st.(running := false)
    case DidOpen(uri, text) => Analyze(env, st.(documents := st.documents[uri := text]), uri, true)
    case DidChange(uri, texts) =>
      if texts == [] then st else Analyze(env, st.(documents := st.documents[uri := texts[|texts| - 1]]), uri, false)
    case DidSave(uri, saved) =>
      Analyze(env, if saved.Some? then st.(documents := st.documents[uri := saved.value]) else st, uri, true)
    case DidClose(uri) =>
      var closed := Cancel(st, uri);
      Send(closed.(documents := closed.documents - {uri}, published := closed.published - {uri}), Publish(uri, []))
    case _ => st
  }

  /** A request is answered, with an error where nothing handles it or the handler raises; a notification is not. */
  function Dispatched(env: Env, st: State, message: Incoming): State {
    var after := Handled(env, st, message.call);
    if message.id.None? then after
    else Send(after, if message.call.Unsupported? || message.call.Failing? then Refusal(message.id.value) else Response(message.id.value))
  }

  datatype Step = Received(message: Incoming) | Fired(timer: nat)

  /** A timer that is not armed does not fire. */
  function Next(env: Env, st: State, step: Step): State {
    match step
    case Received(message) => Dispatched(env, st, message)
    case Fired(timer) =>
      if timer in st.armed then Analysed(env, st.(armed := st.armed - {timer}), st.armed[timer]) else st
  }

  /** The state after any interleaving of messages and firings. */
  function Reached(env: Env, history: seq<Step>): State {
    if history == [] then INITIAL else Next(env, Reached(env, history[..|history| - 1]), history[|history| - 1])
  }

  // ------------------------------------------------------------------ what every reachable state keeps

  /** The diagnostics an editor is showing for a document. */
  function Shown(sent: seq<Sent>, uri: string): Option<seq<Diagnostic>> {
    if sent == [] then None
    else
      var last := sent[|sent| - 1];
      if last.Publish? && last.uri == uri then Some(last.found) else Shown(sent[..|sent| - 1], uri)
  }

  /** The server's record of timers is the timers that are running: one at most for each document. */
  ghost predicate TimersTracked(st: State) {
    && (forall uri :: uri in st.timers ==> st.timers[uri] in st.armed && st.armed[st.timers[uri]] == uri)
    && (forall id :: id in st.armed ==> id < st.started && st.armed[id] in st.timers && st.timers[st.armed[id]] == id)
  }

  ghost predicate PublishedShown(st: State) {
    && (forall uri :: uri in st.published ==> Shown(st.sent, uri) == Some(st.published[uri]))
    && (forall uri :: uri !in st.published ==> Shown(st.sent, uri) in {None, Some([])})
  }

  /** What is shown is what the rules say about the current text, where they say anything. */
  predicate UpToDate(env: Env, st: State, uri: string)
    requires uri in st.documents
  {
    var found := env.analyse(uri, st.documents[uri]);
    found.Some? ==> uri in st.published && st.published[uri] == found.value
  }

  ghost predicate Fresh(env: Env, st: State) {
    forall uri :: uri in st.documents && env.lintable(uri) ==> uri in st.timers || UpToDate(env, st, uri)
  }

  ghost predicate Invariant(env: Env, st: State) {
    && TimersTracked(st) && PublishedShown(st)
    && st.timers.Keys <= st.documents.Keys && st.published.Keys <= st.documents.Keys
    && (!st.shutdownRequested ==> Fresh(env, st))
  }

  lemma {:induction false} ShownAfter(sent: seq<Sent>, message: Sent, uri: string)
    ensures Shown(sent + [message], uri) == if message.Publish? && message.uri == uri then Some(message.found) else Shown(sent, uri)
  {
    assert (sent + [message])[..|sent|] == sent;
  }

  lemma {:induction false} SentKeeps(st: State, message: Sent)
    requires PublishedShown(st) && !message.Publish?
    ensures PublishedShown(Send(st, message))
  {
    forall uri ensures Shown(Send(st, message).sent, uri) == Shown(st.sent, uri) { ShownAfter(st.sent, message, uri); }
  }

  lemma {:induction false} PublishKeeps(st: State, uri: string, found: seq<Diagnostic>, published: map<string, seq<Diagnostic>>)
    requires PublishedShown(st)
    requires published == st.published[uri := found] || (found == [] && published == st.published - {uri})
    ensures PublishedShown(Send(st.(published := published), Publish(uri, found)))
  {
    var after := Send(st.(published := published), Publish(uri, found));
    forall other ensures Shown(after.sent, other) == if other == uri then Some(found) else Shown(st.sent, other) {
      ShownAfter(st.sent, Publish(uri, found), other);
    }
  }

  /** Everything but the freshness of one document. */
  ghost predicate InvariantBut(env: Env, st: State, uri: string) {
    && TimersTracked(st) && PublishedShown(st)
    && st.timers.Keys <= st.documents.Keys && st.published.Keys <= st.documents.Keys
    && (!st.shutdownRequested ==>
          forall other :: other in st.documents && env.lintable(other) && other != uri ==> other in st.timers || UpToDate(env, st, other))
  }

  lemma {:induction false} CancelKeeps(env: Env, st: State, uri: string)
    requires InvariantBut(env, st, uri)
    ensures InvariantBut(env, Cancel(st, uri), uri) && uri !in Cancel(st, uri).timers
    ensures Cancel(st, uri).documents == st.documents && Cancel(st, uri).published == st.published && Cancel(st, uri).sent == st.sent
  {
  }

  /** An analysis makes its document fresh. */
  lemma {:induction false} AnalysedKeeps(env: Env, st: State, uri: string)
    requires InvariantBut(env, st, uri) && uri !in st.timers
    ensures Invariant(env, Analysed(env, st, uri))
  {
    var quiet := st.(timers := st.timers - {uri});
    assert quiet == st by { assert st.timers - {uri} == st.timers; }
    if uri in st.documents && env.lintable(uri) {
      match env.analyse(uri, st.documents[uri]) {
        case None => hide Invariant, InvariantBut; LoggedKeeps(env, st, uri);
        case Some(found) => hide Invariant, InvariantBut; AnnouncedKeeps(env, st, uri, found);
      }
    } else {
      hide PublishedShown, TimersTracked, UpToDate;
    }
  }

  lemma {:induction false} LoggedKeeps(env: Env, st: State, uri: string)
    requires InvariantBut(env, st, uri) && uri in st.documents && env.analyse(uri, st.documents[uri]).None?
    ensures Invariant(env, Send(st, Log(uri)))
  {
    SentKeeps(st, Log(uri));
    hide PublishedShown;
  }

  lemma {:induction false} AnnouncedKeeps(env: Env, st: State, uri: string, found: seq<Diagnostic>)
    requires InvariantBut(env, st, uri) && uri in st.documents && env.analyse(uri, st.documents[uri]) == Some(found)
    ensures Invariant(env, Send(st.(published := st.published[uri := found]), Publish(uri, found)))
  {
    PublishKeeps(st, uri, found, st.published[uri := found]);
    hide PublishedShown;
  }

  /** So does a timer. */
  lemma {:induction false} ArmedKeeps(env: Env, st: State, uri: string)
    requires InvariantBut(env, st, uri) && uri !in st.timers && uri in st.documents
    ensures Invariant(env, st.(timers := st.timers[uri := st.started], armed := st.armed[st.started := uri], started := st.started + 1))
  {
    hide Shown;
  }

  lemma {:induction false} AnalyzeKeeps(env: Env, st: State, uri: string, immediate: bool)
    requires InvariantBut(env, st, uri) && (uri in st.documents || immediate)
    ensures Invariant(env, Analyze(env, st, uri, immediate))
  {
    hide InvariantBut, Invariant, Analysed, Cancel;
    CancelKeeps(env, st, uri);
    if immediate || !env.debounced { AnalysedKeeps(env, Cancel(st, uri), uri); } else { ArmedKeeps(env, Cancel(st, uri), uri); }
  }

  lemma {:induction false} FiredKeeps(env: Env, st: State, timer: nat)
    requires Invariant(env, st) && timer in st.armed
    ensures Invariant(env, Next(env, st, Fired(timer)))
  {
    var uri := st.armed[timer];
    var without := st.(armed := st.armed - {timer}, timers := st.timers - {uri});
    assert InvariantBut(env, without, uri) by { hide PublishedShown; assert PublishedShown(without) by { assert without.sent == st.sent; PublishedSame(st, without); } }
    AnalysedKeeps(env, without, uri);
    assert Analysed(env, st.(armed := st.armed - {timer}), uri) == Analysed(env, without, uri) by {
      assert st.timers - {uri} - {uri} == st.timers - {uri};
    }
    hide PublishedShown, Analysed, Shown;
  }

  lemma {:induction false} PublishedSame(st: State, other: State)
    requires PublishedShown(st) && other.sent == st.sent && other.published == st.published
    ensures PublishedShown(other)
  {
  }

  /** New text leaves only its own document stale. */
  lemma {:induction false} TextKeeps(env: Env, st: State, uri: string, text: string)
    requires Invariant(env, st)
    ensures InvariantBut(env, st.(documents := st.documents[uri := text]), uri)
  {
    PublishedSame(st, st.(documents := st.documents[uri := text]));
    hide PublishedShown;
  }

  lemma {:induction false} ClosedKeeps(env: Env, st: State, uri: string)
    requires Invariant(env, st)
    ensures Invariant(env, Handled(env, st, DidClose(uri)))
  {
    hide PublishedShown;
    CancelKeeps(env, st, uri);
    var closed := Cancel(st, uri);
    var gone := closed.(documents := closed.documents - {uri});
    PublishedSame(closed, gone);
    PublishKeeps(gone, uri, [], closed.published - {uri});
    hide Cancel;
  }

  lemma {:induction false} ShutdownKeeps(env: Env, st: State)
    requires Invariant(env, st)
    ensures Invariant(env, Handled(env, st, Shutdown))
  {
    hide PublishedShown;
    assert CancelAll(st).armed == map[];
    PublishedSame(st, CancelAll(st).(shutdownRequested := true));
  }

  lemma {:induction false} ExitKeeps(env: Env, st: State)
    requires Invariant(env, st)
    ensures Invariant(env, st.(running := false))
  {
    PublishedSame(st, st.(running := false));
    hide PublishedShown;
  }

  lemma {:induction false} InvariantForBut(env: Env, st: State, uri: string)
    requires Invariant(env, st)
    ensures InvariantBut(env, st, uri)
  {
    hide PublishedShown;
  }

  lemma {:induction false} HandledKeeps(env: Env, st: State, call: Call)
    requires Invariant(env, st)
    ensures Invariant(env, Handled(env, st, call))
  {
    hide Invariant, InvariantBut, Analyze, Cancel, CancelAll;
    match call
    case DidOpen(uri, text) =>
      TextKeeps(env, st, uri, text);
      AnalyzeKeeps(env, st.(documents := st.documents[uri := text]), uri, true);
    case DidChange(uri, texts) =>
      if texts != [] {
        TextKeeps(env, st, uri, texts[|texts| - 1]);
        AnalyzeKeeps(env, st.(documents := st.documents[uri := texts[|texts| - 1]]), uri, false);
      }
    case DidSave(uri, saved) =>
      if saved.Some? { TextKeeps(env, st, uri, saved.value); } else { InvariantForBut(env, st, uri); }
      AnalyzeKeeps(env, if saved.Some? then st.(documents := st.documents[uri := saved.value]) else st, uri, true);
    case DidClose(uri) => ClosedKeeps(env, st, uri);
    case Shutdown => ShutdownKeeps(env, st);
    case Exit => ExitKeeps(env, st);
    case _ =>
  }

  lemma {:induction false} NextKeeps(env: Env, st: State, step: Step)
    requires Invariant(env, st)
    ensures Invariant(env, Next(env, st, step))
  {
    match step
    case Received(message) =>
      HandledKeeps(env, st, message.call);
      var after := Handled(env, st, message.call);
      if message.id.Some? {
        SentKeeps(after, Response(message.id.value));
        SentKeeps(after, Refusal(message.id.value));
      }
      hide PublishedShown, Handled;
    case Fired(timer) => if timer in st.armed { FiredKeeps(env, st, timer); }
  }

  /** Every reachable state keeps the invariant. */
  lemma {:induction false} ReachedKeeps(env: Env, history: seq<Step>)
    ensures Invariant(env, Reached(env, history))
    decreases |history|
  {
    hide Next, Invariant;
    if history == [] {
      InitialKeeps(env);
    } else {
      ReachedKeeps(env, history[..|history| - 1]);
      NextKeeps(env, Reached(env, history[..|history| - 1]), history[|history| - 1]);
    }
  }

  lemma {:induction false} InitialKeeps(env: Env)
    ensures Invariant(env, INITIAL)
  {
  }

  // ------------------------------------------------------------------ what an editor can rely on

  function TimersOf(st: State, uri: string): set<nat> {
    set id | id in st.armed && st.armed[id] == uri
  }

  /** Until shutdown, an open document either shows what the rules say about its current text, or has exactly one timer
      running that will make it so. A document that is not open shows nothing. */
  lemma {:induction false} Freshness(env: Env, history: seq<Step>, uri: string)
    ensures
      var st := Reached(env, history);
      && (uri !in st.documents ==> Shown(st.sent, uri) in {None, Some([])} && TimersOf(st, uri) == {})
      && |TimersOf(st, uri)| <= 1
      && (uri in st.documents && env.lintable(uri) && !st.shutdownRequested && env.analyse(uri, st.documents[uri]).Some? ==>
            Shown(st.sent, uri) == Some(env.analyse(uri, st.documents[uri]).value) || |TimersOf(st, uri)| == 1)
  {
    ReachedKeeps(env, history);
    var st := Reached(env, history);
    if uri in st.timers { assert TimersOf(st, uri) == {st.timers[uri]}; } else { assert TimersOf(st, uri) == {}; }
    hide Reached, Shown;
  }

  /** The text an editor holds for a document, from the messages alone. */
  function Buffer(history: seq<Step>, uri: string): Option<string> {
    if history == [] then None
    else
      var before := Buffer(history[..|history| - 1], uri);
      match history[|history| - 1]
      case Fired(_) => before
      case Received(message) => BufferAfter(message.call, before, uri)
  }

  function TextOf(st: State, uri: string): Option<string> {
    if uri in st.documents then Some(st.documents[uri]) else None
  }

  lemma {:induction false} ReachedNext(env: Env, history: seq<Step>, step: Step)
    ensures Reached(env, history + [step]) == Next(env, Reached(env, history), step)
  {
    hide Next;
    assert (history + [step])[..|history|] == history;
  }

  lemma {:induction false} AnalyzeLeavesText(env: Env, st: State, uri: string, immediate: bool)
    ensures Analysed(env, st, uri).documents == st.documents && Analyze(env, st, uri, immediate).documents == st.documents
  {
    AnalysedLeavesText(env, st, uri);
    AnalysedLeavesText(env, Cancel(st, uri), uri);
    hide Analysed;
  }

  lemma {:induction false} AnalysedLeavesText(env: Env, st: State, uri: string)
    ensures Analysed(env, st, uri).documents == st.documents
  {
  }

  /** What one message does to a buffer. */
  function BufferAfter(call: Call, before: Option<string>, uri: string): Option<string> {
    match call
    case DidOpen(u, text) => if u == uri then Some(text) else before
    case DidChange(u, texts) => if u == uri && texts != [] then Some(texts[|texts| - 1]) else before
    case DidSave(u, saved) => if u == uri && saved.Some? then saved else before
    case DidClose(u) => if u == uri then None else before
    case _ => before
  }

  lemma {:induction false} HandledText(env: Env, st: State, call: Call, uri: string)
    ensures TextOf(Handled(env, st, call), uri) == BufferAfter(call, TextOf(st, uri), uri)
  {
    hide Analyze;
    match call
    case DidOpen(u, text) => AnalyzeLeavesText(env, st.(documents := st.documents[u := text]), u, true);
    case DidChange(u, texts) =>
      if texts != [] { AnalyzeLeavesText(env, st.(documents := st.documents[u := texts[|texts| - 1]]), u, false); }
    case DidSave(u, saved) =>
      AnalyzeLeavesText(env, if saved.Some? then st.(documents := st.documents[u := saved.value]) else st, u, true);
    case _ =>
  }

  /** Timers, saves and other documents never disturb a buffer. */
  lemma {:induction false} BuffersTracked(env: Env, history: seq<Step>, uri: string)
    ensures TextOf(Reached(env, history), uri) == Buffer(history, uri)
    decreases |history|
  {
    hide Handled, Analysed;
    if history != [] {
      var st := Reached(env, history[..|history| - 1]);
      BuffersTracked(env, history[..|history| - 1], uri);
      match history[|history| - 1]
      case Received(message) => HandledText(env, st, message.call, uri);
      case Fired(timer) =>
        if timer in st.armed { AnalyzeLeavesText(env, st.(armed := st.armed - {timer}), st.armed[timer], true); }
    }
  }

  // ------------------------------------------------------------------ what one message does, as an editor sees it

  lemma {:induction false} TimersAre(st: State, uri: string)
    requires TimersTracked(st)
    ensures TimersOf(st, uri) == if uri in st.timers then {st.timers[uri]} else {}
  {
  }

  /** The document a message is about. */
  function About(call: Call): Option<string> {
    match call
    case DidOpen(uri, _) => Some(uri)
    case DidChange(uri, _) => Some(uri)
    case DidSave(uri, _) => Some(uri)
    case DidClose(uri) => Some(uri)
    case _ => None
  }

  lemma {:induction false} AnalysedShows(env: Env, st: State, uri: string, other: string)
    ensures uri !in Analysed(env, st, uri).timers
    ensures other != uri ==> Shown(Analysed(env, st, uri).sent, other) == Shown(st.sent, other)
    ensures uri in st.documents && env.lintable(uri) && env.analyse(uri, st.documents[uri]).Some? ==>
      Shown(Analysed(env, st, uri).sent, uri) == env.analyse(uri, st.documents[uri])
    ensures uri !in st.documents || !env.lintable(uri) || env.analyse(uri, st.documents[uri]).None? ==>
      Shown(Analysed(env, st, uri).sent, uri) == Shown(st.sent, uri)
    ensures uri in st.documents && env.lintable(uri) && env.analyse(uri, st.documents[uri]).None? ==>
      Analysed(env, st, uri).sent == st.sent + [Log(uri)]
  {
    if uri in st.documents && env.lintable(uri) {
      var found := env.analyse(uri, st.documents[uri]);
      if found.Some? {
        ShownAfter(st.sent, Publish(uri, found.value), uri);
        ShownAfter(st.sent, Publish(uri, found.value), other);
      } else {
        ShownAfter(st.sent, Log(uri), uri);
        ShownAfter(st.sent, Log(uri), other);
      }
    }
    hide Shown;
  }

  lemma {:induction false} AnsweredShows(env: Env, st: State, message: Incoming, uri: string)
    ensures
      var after, handled := Dispatched(env, st, message), Handled(env, st, message.call);
      after.timers == handled.timers && after.armed == handled.armed && Shown(after.sent, uri) == Shown(handled.sent, uri)
  {
    var handled := Handled(env, st, message.call);
    hide Handled, Shown;
    if message.id.Some? {
      ShownAfter(handled.sent, Response(message.id.value), uri);
      ShownAfter(handled.sent, Refusal(message.id.value), uri);
    }
  }

  predicate AtOnce(env: Env, call: Call) {
    call.DidOpen? || call.DidSave? || (call.DidChange? && call.texts != [] && !env.debounced)
  }

  lemma {:induction false} HandledAtOnce(env: Env, st: State, call: Call)
    requires AtOnce(env, call)
    ensures exists mid: State ::
      Handled(env, st, call) == Analysed(env, mid, call.uri) && mid.sent == st.sent
      && TextOf(mid, call.uri) == BufferAfter(call, TextOf(st, call.uri), call.uri)
  {
    hide Analysed;
    var uri := call.uri;
    var mid := Cancel(match call
                      case DidOpen(_, text) => st.(documents := st.documents[uri := text])
                      case DidChange(_, texts) => st.(documents := st.documents[uri := texts[|texts| - 1]])
                      case DidSave(_, saved) => if saved.Some? then st.(documents := st.documents[uri := saved.value]) else st
                      case _ => st, uri);
    assert Handled(env, st, call) == Analysed(env, mid, uri);
    assert TextOf(mid, uri) == BufferAfter(call, TextOf(st, uri), uri);
  }

  lemma {:induction false} StepShows(env: Env, st: State, message: Incoming, uri: string)
    requires AtOnce(env, message.call) && message.call.uri == uri
    ensures
      var after, text := Dispatched(env, st, message), BufferAfter(message.call, TextOf(st, uri), uri);
      && uri !in after.timers
      && (text.Some? && env.lintable(uri) && env.analyse(uri, text.value).Some? ==> Shown(after.sent, uri) == env.analyse(uri, text.value))
      && (text.Some? && env.lintable(uri) && env.analyse(uri, text.value).None? ==>
            Shown(after.sent, uri) == Shown(st.sent, uri) && st.sent + [Log(uri)] <= after.sent)
      && (text.None? || !env.lintable(uri) ==> Shown(after.sent, uri) == Shown(st.sent, uri))
  {
    HandledAtOnce(env, st, message.call);
    hide Handled, Shown, Analysed;
    var mid :| Handled(env, st, message.call) == Analysed(env, mid, uri) && mid.sent == st.sent
      && TextOf(mid, uri) == BufferAfter(message.call, TextOf(st, uri), uri);
    AnsweredShows(env, st, message, uri);
    AnalysedShows(env, mid, uri, uri);
    AnswerExtends(env, st, message);
  }

  lemma {:induction false} AnswerExtends(env: Env, st: State, message: Incoming)
    ensures Handled(env, st, message.call).sent <= Dispatched(env, st, message).sent
  {
    hide Handled;
  }

  /** Right after a document is opened or saved, or changed where nothing is debounced, no timer runs for it, and what is
      shown is what the rules say about its text; where they raise, that is logged and what was shown stays. */
  lemma {:induction false} ShownAtOnce(env: Env, history: seq<Step>, message: Incoming, uri: string)
    requires AtOnce(env, message.call) && message.call.uri == uri
    ensures
      var longer := history + [Received(message)];
      var before, after, text := Reached(env, history), Reached(env, longer), Buffer(longer, uri);
      && TimersOf(after, uri) == {}
      && (text.Some? && env.lintable(uri) && env.analyse(uri, text.value).Some? ==> Shown(after.sent, uri) == env.analyse(uri, text.value))
      && (text.Some? && env.lintable(uri) && env.analyse(uri, text.value).None? ==>
            Shown(after.sent, uri) == Shown(before.sent, uri) && before.sent + [Log(uri)] <= after.sent)
      && (text.None? || !env.lintable(uri) ==> Shown(after.sent, uri) == Shown(before.sent, uri))
  {
    hide *;
    var longer := history + [Received(message)];
    var before, after := Reached(env, history), Reached(env, longer);
    ReachedNext(env, history, Received(message));
    ReceivedNext(env, before, message);
    BuffersTracked(env, history, uri);
    BuffersTracked(env, longer, uri);
    NextText(env, before, message, uri);
    StepShows(env, before, message, uri);
    ReachedTracked(env, longer);
    TimersAre(after, uri);
  }

  lemma {:induction false} ReceivedNext(env: Env, st: State, message: Incoming)
    ensures Next(env, st, Received(message)) == Dispatched(env, st, message)
  {
    hide Dispatched;
  }

  lemma {:induction false} NextText(env: Env, st: State, message: Incoming, uri: string)
    ensures TextOf(Dispatched(env, st, message), uri) == BufferAfter(message.call, TextOf(st, uri), uri)
  {
    HandledText(env, st, message.call, uri);
    hide Handled, BufferAfter;
  }

  lemma {:induction false} ReachedTracked(env: Env, history: seq<Step>)
    ensures TimersTracked(Reached(env, history))
  {
    ReachedKeeps(env, history);
    hide Reached, TimersTracked, PublishedShown;
  }

  /** Right after a debounced change nothing new is shown for any document, and exactly one timer runs for this one: a new
      one, started by the change. */
  lemma {:induction false} ChangeWaits(env: Env, history: seq<Step>, message: Incoming, other: string)
    requires message.call.DidChange? && message.call.texts != [] && env.debounced
    ensures
      var uri := message.call.uri;
      var before, after := Reached(env, history), Reached(env, history + [Received(message)]);
      && Shown(after.sent, other) == Shown(before.sent, other)
      && exists timer :: TimersOf(after, uri) == {timer} && timer !in before.armed
  {
    var uri, longer := message.call.uri, history + [Received(message)];
    var before, after := Reached(env, history), Reached(env, longer);
    ReachedNext(env, history, Received(message));
    AnsweredShows(env, before, message, other);
    ReachedKeeps(env, history);
    ReachedKeeps(env, longer);
    TimersAre(after, uri);
    hide Reached, Shown, PublishedShown;
    assert before.started !in before.armed;
    assert TimersOf(after, uri) == {before.started};
  }

  /** A timer that goes off leaves none for its document, and shows what the rules say about the text there is then; where
      they raise, that is logged. */
  lemma {:induction false} FiringShows(env: Env, history: seq<Step>, timer: nat)
    requires timer in Reached(env, history).armed
    ensures
      var uri := Reached(env, history).armed[timer];
      var after, text := Reached(env, history + [Fired(timer)]), Buffer(history, uri);
      && TimersOf(after, uri) == {}
      && (text.Some? && env.lintable(uri) && env.analyse(uri, text.value).Some? ==>
            Shown(after.sent, uri) == env.analyse(uri, text.value))
      && (text.Some? && env.lintable(uri) && env.analyse(uri, text.value).None? ==> after.sent == Reached(env, history).sent + [Log(uri)])
      && (text.None? || !env.lintable(uri) ==> Shown(after.sent, uri) == Shown(Reached(env, history).sent, uri))
  {
    var before := Reached(env, history);
    var uri, after := before.armed[timer], Reached(env, history + [Fired(timer)]);
    ReachedNext(env, history, Fired(timer));
    BuffersTracked(env, history, uri);
    AnalysedShows(env, before.(armed := before.armed - {timer}), uri, uri);
    ReachedKeeps(env, history + [Fired(timer)]);
    TimersAre(after, uri);
    hide Reached, Shown, Analysed, PublishedShown, Buffer;
  }

  /** After closing, an empty list is shown and no timer runs. */
  lemma {:induction false} ClosingClears(env: Env, history: seq<Step>, message: Incoming)
    requires message.call.DidClose?
    ensures
      var uri, after := message.call.uri, Reached(env, history + [Received(message)]);
      TimersOf(after, uri) == {} && Shown(after.sent, uri) == Some([])
  {
    var uri, longer := message.call.uri, history + [Received(message)];
    var before, after := Reached(env, history), Reached(env, longer);
    ReachedNext(env, history, Received(message));
    AnsweredShows(env, before, message, uri);
    ShownAfter(before.sent, Publish(uri, []), uri);
    ReachedKeeps(env, longer);
    TimersAre(after, uri);
    hide Reached, Shown, PublishedShown;
  }

  /** What a message is not about stays: what is shown, and, until shutdown, the timers that run. */
  lemma {:induction false} OthersUndisturbed(env: Env, history: seq<Step>, message: Incoming, other: string)
    requires About(message.call) != Some(other)
    ensures
      var before, after := Reached(env, history), Reached(env, history + [Received(message)]);
      && Shown(after.sent, other) == Shown(before.sent, other)
      && TimersOf(after, other) == if message.call.Shutdown? then {} else TimersOf(before, other)
  {
    var longer := history + [Received(message)];
    var before, after := Reached(env, history), Reached(env, longer);
    ReachedNext(env, history, Received(message));
    AnsweredShows(env, before, message, other);
    ReachedKeeps(env, history);
    ReachedKeeps(env, longer);
    TimersAre(before, other);
    TimersAre(after, other);
    hide Reached, Shown, PublishedShown;
    HandledOthers(env, before, message.call, other);
    hide Handled;
  }

  lemma {:induction false} AnalyzeOthers(env: Env, st: State, uri: string, immediate: bool, other: string)
    requires uri != other
    ensures Shown(Analyze(env, st, uri, immediate).sent, other) == Shown(st.sent, other)
    ensures other in Analyze(env, st, uri, immediate).timers <==> other in st.timers
    ensures other in st.timers ==> Analyze(env, st, uri, immediate).timers[other] == st.timers[other]
  {
    AnalysedShows(env, Cancel(st, uri), uri, other);
    hide Shown;
  }

  lemma {:induction false} HandledOthers(env: Env, st: State, call: Call, other: string)
    requires About(call) != Some(other)
    ensures Shown(Handled(env, st, call).sent, other) == Shown(st.sent, other)
    ensures other in Handled(env, st, call).timers <==> other in st.timers && !call.Shutdown?
    ensures other in st.timers && !call.Shutdown? ==> Handled(env, st, call).timers[other] == st.timers[other]
  {
    hide Analyze, Shown;
    match call
    case DidOpen(uri, text) => AnalyzeOthers(env, st.(documents := st.documents[uri := text]), uri, true, other);
    case DidChange(uri, texts) =>
      if texts != [] { AnalyzeOthers(env, st.(documents := st.documents[uri := texts[|texts| - 1]]), uri, false, other); }
    case DidSave(uri, saved) =>
      AnalyzeOthers(env, if saved.Some? then st.(documents := st.documents[uri := saved.value]) else st, uri, true, other);
    case DidClose(uri) => ShownAfter(st.sent, Publish(uri, []), other);
    case _ =>
  }

  /** With no timer left, every open document shows what the rules say about the editor's text. */
  lemma {:induction false} SettledShowsCurrent(env: Env, history: seq<Step>, uri: string)
    requires Reached(env, history).armed == map[] && !Reached(env, history).shutdownRequested
    requires Buffer(history, uri).Some? && env.lintable(uri) && env.analyse(uri, Buffer(history, uri).value).Some?
    ensures Shown(Reached(env, history).sent, uri) == Some(env.analyse(uri, Buffer(history, uri).value).value)
  {
    Freshness(env, history, uri);
    BuffersTracked(env, history, uri);
    hide Reached, Shown, Buffer;
  }

  /** Left alone, the server settles: each running timer fires once, and nothing starts another. */
  lemma {:induction false} Settles(env: Env, history: seq<Step>) returns (firings: seq<Step>)
    ensures |firings| == |Reached(env, history).armed| && forall k :: 0 <= k < |firings| ==> firings[k].Fired?
    ensures Reached(env, history + firings).armed == map[]
    ensures Reached(env, history + firings).shutdownRequested == Reached(env, history).shutdownRequested
    decreases |Reached(env, history).armed|
  {
    hide Reached, Analysed;
    var st := Reached(env, history);
    if st.armed == map[] {
      firings := [];
      assert history + [] == history;
    } else {
      var id :| id in st.armed;
      ReachedNext(env, history, Fired(id));
      FiredDisarms(env, st, id);
      hide Next;
      var rest := Settles(env, history + [Fired(id)]);
      firings := [Fired(id)] + rest;
      assert history + firings == (history + [Fired(id)]) + rest;
    }
  }

  lemma {:induction false} FiredDisarms(env: Env, st: State, id: nat)
    requires id in st.armed
    ensures Next(env, st, Fired(id)).armed == st.armed - {id} && |st.armed - {id}| == |st.armed| - 1
    ensures Next(env, st, Fired(id)).shutdownRequested == st.shutdownRequested
  {
    assert (st.armed - {id}).Keys == st.armed.Keys - {id};
    assert |st.armed - {id}| == |(st.armed - {id}).Keys|;
    assert |st.armed| == |st.armed.Keys|;
  }

  /** The requests answered, in order, and which of them with an error. */
  function Answers(sent: seq<Sent>): seq<(int, bool)> {
    if sent == [] then []
    else
      var last := sent[|sent| - 1];
      Answers(sent[..|sent| - 1]) + if last.Response? || last.Refusal? then [(last.id, last.Refusal?)] else []
  }

  /** The requests received, and which of them nothing handles or a handler fails on. */
  function Requests(history: seq<Step>): seq<(int, bool)> {
    if history == [] then []
    else
      var last := history[|history| - 1];
      Requests(history[..|history| - 1])
      + if last.Received? && last.message.id.Some?
        then [(last.message.id.value, last.message.call in {Unsupported, Failing})] else []
  }

  lemma {:induction false} AnswersAfter(st: State, message: Sent)
    ensures Answers(Send(st, message).sent) ==
      Answers(st.sent) + if message.Response? || message.Refusal? then [(message.id, message.Refusal?)] else []
  {
    assert Send(st, message).sent[..|st.sent|] == st.sent;
  }

  lemma {:induction false} AnalysedAnswers(env: Env, st: State, uri: string)
    ensures Answers(Analysed(env, st, uri).sent) == Answers(st.sent)
  {
    var idle := st.(timers := st.timers - {uri});
    if uri in st.documents && env.lintable(uri) {
      match env.analyse(uri, st.documents[uri])
      case None => AnswersAfter(idle, Log(uri));
      case Some(found) => AnswersAfter(idle.(published := idle.published[uri := found]), Publish(uri, found));
    }
    hide Answers;
  }

  lemma {:induction false} HandledAnswers(env: Env, st: State, call: Call)
    ensures Answers(Handled(env, st, call).sent) == Answers(st.sent)
  {
    hide Answers, Analysed;
    match call
    case DidOpen(uri, text) => AnalysedAnswers(env, Cancel(st.(documents := st.documents[uri := text]), uri), uri);
    case DidChange(uri, texts) =>
      if texts != [] { AnalysedAnswers(env, Cancel(st.(documents := st.documents[uri := texts[|texts| - 1]]), uri), uri); }
    case DidSave(uri, saved) =>
      AnalysedAnswers(env, Cancel(if saved.Some? then st.(documents := st.documents[uri := saved.value]) else st, uri), uri);
    case DidClose(uri) =>
      var closed := Cancel(st, uri);
      AnswersAfter(closed.(documents := closed.documents - {uri}, published := closed.published - {uri}), Publish(uri, []));
    case _ =>
  }

  /** Every request is answered exactly once, in order, and nothing else is: with an error where nothing handles it or the
      handler fails, and with a result otherwise. */
  lemma {:induction false} EveryRequestAnswered(env: Env, history: seq<Step>)
    ensures Answers(Reached(env, history).sent) == Requests(history)
    decreases |history|
  {
    if history != [] {
      var st, last := Reached(env, history[..|history| - 1]), history[|history| - 1];
      EveryRequestAnswered(env, history[..|history| - 1]);
      hide Answers, Analysed, Handled;
      match last
      case Received(message) =>
        HandledAnswers(env, st, message.call);
        if message.id.Some? {
          AnswersAfter(Handled(env, st, message.call), Response(message.id.value));
          AnswersAfter(Handled(env, st, message.call), Refusal(message.id.value));
        }
      case Fired(timer) =>
        if timer in st.armed { AnalysedAnswers(env, st.(armed := st.armed - {timer}), st.armed[timer]); }
    }
  }

  /** Shutdown is where freshness ends: a change that was waiting is never looked at. */
  lemma {:induction false} StaleAfterShutdown(env: Env, uri: string, text: string, changed: string)
    requires env.debounced && env.lintable(uri) && env.analyse(uri, text).Some? && env.analyse(uri, changed).Some?
    requires env.analyse(uri, text) != env.analyse(uri, changed)
    ensures
      var history := [Received(Incoming(None, DidOpen(uri, text))), Received(Incoming(None, DidChange(uri, [changed]))),
                      Received(Incoming(Some(1), Shutdown))];
      var st := Reached(env, history);
      TextOf(st, uri) == Some(changed) && st.armed == map[] && Shown(st.sent, uri) == Some(env.analyse(uri, text).value)
  {
    var open, change, stop := Received(Incoming(None, DidOpen(uri, text))), Received(Incoming(None, DidChange(uri, [changed]))),
      Received(Incoming(Some(1), Shutdown));
    var found := env.analyse(uri, text).value;
    var one := INITIAL.(documents := map[uri := text], published := map[uri := found], sent := [Publish(uri, found)]);
    var two := one.(documents := map[uri := changed], timers := map[uri := 0], armed := map[0 := uri], started := 1);
    ReachedNext(env, [], open);
    ReachedNext(env, [open], change);
    ReachedNext(env, [open, change], stop);
    assert [] + [open] == [open] && [open] + [change] == [open, change] && [open, change] + [stop] == [open, change, stop];
    hide Reached;
    assert Reached(env, [open]) == one by { StartsEmpty(env); NothingPending(uri); }
    assert Reached(env, [open, change]) == two by { NothingPending(uri); }
    assert Reached(env, [open, change, stop]) == Send(CancelAll(two).(shutdownRequested := true), Response(1));
    ShownAfter([], Publish(uri, found), uri);
    ShownAfter(one.sent, Response(1), uri);
  }

  lemma {:induction false} StartsEmpty(env: Env)
    ensures Reached(env, []) == INITIAL
  {
  }

  lemma {:induction false} NothingPending(uri: string)
    ensures var none: map<string, nat> := map[]; none - {uri} == none
  {
  }
}
