/** The language server's object: handlers that update its dictionaries, and the loop that reads messages while timers
    fire. Its history of atomic steps ties it to the state machine. */
module Serving {
  import opened Model
  import opened Framing
  import opened LanguageServer

  class Server {
    const env: Env
    var documents: map<string, string>
    var timers: map<string, nat>
    var armed: map<nat, string>
    var started: nat
    var published: map<string, seq<Diagnostic>>
    var shutdownRequested: bool
    var running: bool
    var sent: seq<Sent>

    ghost function View(): State
      reads this
    {
      State(documents, timers, armed, started, published, shutdownRequested, running, sent)
    }

    constructor (env: Env)
      ensures this.env == env && View() == Reached(env, [])
    {
      this.env := env;
      documents, timers, armed, started, published := map[], map[], map[], 0, map[];
      shutdownRequested, running, sent := false, true, [];
    }

    method Notify(message: Sent)
      modifies this
      ensures View() == Send(old(View()), message)
    {
      sent := sent + [message];
    }

    /** Whatever timer is recorded for the document is taken off the record and stopped. */
    method CancelTimer(uri: string)
      modifies this
      ensures View() == Cancel(old(View()), uri)
    {
      if uri in timers {
        var timer := timers[uri];
        timers := timers - {uri};
        armed := armed - {timer};
      }
    }

    method CancelTimers()
      modifies this
      ensures View() == CancelAll(old(View()))
    {
      ghost var stopped: set<nat> := {};
      ghost var before := View();
      NoneStopped(before);
      hide CancelAll, Cancel, Partway;
      while timers != map[]
        invariant stopped + timers.Values == before.timers.Values
        invariant View() == Partway(before, timers, stopped)
        decreases |timers|
      {
        var uri :| uri in timers;
        StopOne(before, timers, stopped, uri);
        stopped := stopped + {timers[uri]};
        CancelTimer(uri);
        assert View().timers == timers;
      }
      AllStopped(before, stopped);
    }

    method Run(uri: string)
      modifies this
      ensures View() == Analysed(env, old(View()), uri)
    {
      timers := timers - {uri};
      if uri !in documents { return; }
      if !env.lintable(uri) { return; }
      var found := env.analyse(uri, documents[uri]);
      if found.None? {
        Notify(Log(uri));
        return;
      }
      published := published[uri := found.value];
      Notify(Publish(uri, found.value));
    }

    method AnalyzeDocument(uri: string, immediate: bool)
      modifies this
      ensures View() == Analyze(env, old(View()), uri, immediate)
    {
      CancelTimer(uri);
      if immediate || !env.debounced {
        Run(uri);
        return;
      }
      timers, armed, started := timers[uri := started], armed[started := uri], started + 1;
    }

    method Handle(call: Call)
      modifies this
      ensures View() == Handled(env, old(View()), call)
    {
      hide Analyze, Cancel, Analysed;
      match call {
        case Shutdown =>
          shutdownRequested := true;
          CancelTimers();
        case Exit =>
          running := false;
        case DidOpen(uri, text) =>
          documents := documents[uri := text];
          AnalyzeDocument(uri, true);
        case DidChange(uri, texts) =>
          if texts == [] { return; }
          documents := documents[uri := texts[|texts| - 1]];
          AnalyzeDocument(uri, false);
        case DidSave(uri, saved) =>
          if saved.Some? { documents := documents[uri := saved.value]; }
          AnalyzeDocument(uri, true);
        case DidClose(uri) =>
          CancelTimer(uri);
          documents := documents - {uri};
          published := published - {uri};
          Notify(Publish(uri, []));
        case _ =>
      }
    }

    /** The diagnostics on a line, from what was last published. */
    method HoverAt(uri: string, line: int) returns (found: seq<Diagnostic>)
      ensures forall d :: d in found <==> uri in published && d in published[uri] && d.line == line
    {
      found := [];
      if uri in published {
        for i := 0 to |published[uri]|
          invariant forall d :: d in found <==> d in published[uri][..i] && d.line == line
        {
          if published[uri][i].line == line { found := found + [published[uri][i]]; }
        }
        assert published[uri][..|published[uri]|] == published[uri];
      }
    }

    method Dispatch(message: Incoming)
      modifies this
      ensures View() == Next(env, old(View()), Received(message))
    {
      match message.call {
        case Unsupported => if message.id.Some? { Notify(Refusal(message.id.value)); }
        case Failing => if message.id.Some? { Notify(Refusal(message.id.value)); }
        case _ =>
          Handle(message.call);
          if message.id.Some? { Notify(Response(message.id.value)); }
      }
    }

    /** A running timer goes off. */
    method Fire(timer: nat)
      requires timer in armed
      modifies this
      ensures View() == Next(env, old(View()), Fired(timer))
    {
      var uri := armed[timer];
      armed := armed - {timer};
      Run(uri);
    }

    /** The timers that happen to go off while the server waits for the next message. */
    method Wait(ghost history: seq<Step>) returns (ghost longer: seq<Step>)
      requires View() == Reached(env, history)
      modifies this
      ensures history <= longer && View() == Reached(env, longer) && Messages(longer) == Messages(history)
      ensures running == old(running)
    {
      longer := history;
      var more: bool := *;
      while more && armed != map[]
        invariant history <= longer && View() == Reached(env, longer) && Messages(longer) == Messages(history)
        invariant running == old(running)
        decreases |armed|
      {
        var timer :| timer in armed;
        FiredDisarms(env, View(), timer);
        ReachedNext(env, longer, Fired(timer));
        MessagesAfter(longer, Fired(timer));
        Fire(timer);
        longer := longer + [Fired(timer)];
        more := *;
      }
    }

    /** One turn of the loop: timers may go off, then one message is read and handled. */
    method Turn(codec: Codec<Incoming>, reader: Reader, ghost history: seq<Step>) returns (outcome: Outcome, ghost longer: seq<Step>)
      requires View() == Reached(env, history)
      modifies this, reader
      ensures View() == Reached(env, longer)
      ensures outcome == Continue ==>
        |reader.data| < |old(reader.data)|
        && Messages(longer) + ReadAll(codec, reader.data).0 == Messages(history) + ReadAll(codec, old(reader.data)).0
      ensures outcome != Continue ==> running == old(running) && Messages(longer) == Messages(history) + ReadAll(codec, old(reader.data)).0
    {
      hide Reached, Next, ReadAll, ReadOne;
      longer := Wait(history);
      ReadAllNext(codec, reader.data);
      var reading := ReadMessage(codec, reader);
      if reading.Broken? { return Stop, longer; }
      if reading.End? { return Finish, longer; }
      ReachedNext(env, longer, Received(reading.message));
      MessagesAfter(longer, Received(reading.message));
      hide Messages;
      Dispatch(reading.message);
      outcome, longer := Continue, longer + [Received(reading.message)];
    }

    /** `serve`: messages are handled in the order they were written, until exit, the end of the stream, or a frame
        that cannot be read; only the last of these leaves timers running. */
    method Serve(codec: Codec<Incoming>, reader: Reader) returns (code: int, ghost history: seq<Step>)
      requires View() == Reached(env, [])
      modifies this, reader
      ensures Messages(history) <= ReadAll(codec, old(reader.data)).0
      ensures code == 1 ==> View() == Reached(env, history) && Messages(history) == ReadAll(codec, old(reader.data)).0
      ensures code != 1 ==> code == 0 && View() == CancelAll(Reached(env, history)) && armed == map[]
      ensures code != 1 && running ==> Messages(history) == ReadAll(codec, old(reader.data)).0
    {
      hide Reached, ReadAll;
      history := [];
      ghost var all := ReadAll(codec, reader.data).0;
      var outcome := Continue;
      while running && outcome == Continue
        invariant View() == Reached(env, history)
        invariant outcome == Continue ==> Messages(history) + ReadAll(codec, reader.data).0 == all
        invariant outcome != Continue ==> Messages(history) == all
        decreases outcome == Continue, |reader.data|
      {
        outcome, history := Turn(codec, reader, history);
      }
      if outcome == Stop { return 1, history; }
      CancelTimers();
      NoneArmed(env, history);
      code := 0;
    }
  }

  datatype Outcome = Continue | Finish | Stop

  lemma {:induction false} NoneArmed(env: Env, history: seq<Step>)
    ensures CancelAll(Reached(env, history)).armed == map[]
  {
    ReachedKeeps(env, history);
    hide PublishedShown, Reached;
  }

  lemma {:induction false} ReadAllNext<M>(codec: Codec<M>, input: Bytes)
    ensures
      var (first, used) := ReadOne(codec, input);
      ReadAll(codec, input).0 == (if first.Message? then [first.message] + ReadAll(codec, input[used..]).0 else [])
      && (first.Message? ==> used > 0)
  {
    hide ReadOne;
  }

  /** Some timers stopped, these still on the record. */
  function Partway(before: State, timers: map<string, nat>, stopped: set<nat>): (st: State)
    ensures st.timers == timers
  {
    before.(timers := timers, armed := map id | id in before.armed && id !in stopped :: before.armed[id])
  }

  lemma {:induction false} NoneStopped(before: State)
    ensures Partway(before, before.timers, {}) == before
  {
    assert (map id | id in before.armed && id !in {} :: before.armed[id]) == before.armed;
  }

  lemma {:induction false} AllStopped(before: State, stopped: set<nat>)
    requires stopped == before.timers.Values
    ensures Partway(before, map[], stopped) == CancelAll(before)
  {
  }

  lemma {:induction false} StopOne(before: State, timers: map<string, nat>, stopped: set<nat>, uri: string)
    requires uri in timers
    ensures Cancel(Partway(before, timers, stopped), uri) == Partway(before, timers - {uri}, stopped + {timers[uri]})
    ensures timers.Values == (timers - {uri}).Values + {timers[uri]} && |timers - {uri}| < |timers|
  {
    OneLess(timers, uri);
    assert timers.Keys == (timers - {uri}).Keys + {uri};
    assert |timers| == |timers.Keys| && |timers - {uri}| == |(timers - {uri}).Keys|;
  }

  /** The messages of a history. */
  function Messages(history: seq<Step>): seq<Incoming> {
    if history == [] then []
    else
      var last := history[|history| - 1];
      Messages(history[..|history| - 1]) + if last.Received? then [last.message] else []
  }

  lemma {:induction false} MessagesAfter(history: seq<Step>, step: Step)
    ensures Messages(history + [step]) == Messages(history) + if step.Received? then [step.message] else []
  {
    assert (history + [step])[..|history|] == history;
  }

  lemma {:induction false} OneLess(timers: map<string, nat>, uri: string)
    requires uri in timers
    ensures timers.Values == (timers - {uri}).Values + {timers[uri]}
  {
    var left := timers - {uri};
    forall id ensures id in timers.Values <==> id in left.Values || id == timers[uri] {
      if id in timers.Values {
        var u :| u in timers && timers[u] == id;
        if u != uri { assert u in left && left[u] == id; }
      }
      if id in left.Values {
        var u :| u in left && left[u] == id;
        assert u in timers;
      }
    }
  }
}
