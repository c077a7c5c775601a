/**
  `runPrediction` of the Node server (server/server.js): spawn the classifier
  worker with the sanitized text, accumulate its stdout in the `data` callbacks,
  and resolve the promise once, on the first `close` or `error` event, with the
  parsed output or one of three fallback classifications.
*/
module Invoker {
  import opened Wrappers
  import opened Js

  /**
    What the worker process reports, in the order Node delivers it. The worker
    itself (spawn, Python, the operating system) is the oracle that produces these.
  */
  datatype Event =
    | StdoutData(chunk: string)
    | StderrData(chunk: string)
    /** `close` with the exit code; `None` is a `null` code (ended by a signal). */
    | Close(code: Option<int>)
    /** `error`: the process could not be started. */
    | SpawnError(message: string)

  /**
    What `spawn(pythonCmd, [scriptPath, text])` does inside the promise executor:
    either it throws synchronously (Node rejects an argument holding a NUL
    character, and some start failures are raised rather than emitted), so the
    executor throws and the promise rejects before any callback is attached; or
    it starts a process whose callbacks then receive `events`.
  */
  datatype Spawn = Threw(message: string) | Started(events: seq<Event>)

  /** The state of the promise `runPrediction` returns. */
  datatype Settlement = Pending | Resolved(classification: Value) | Rejected

  const ProcessFailed: string := "Classification process failed"
  const ParseFailed: string := "Failed to parse classification result"
  const StartFailed: string := "Failed to start classification process"

  /** `{ risk_profile: 'Balanced', confidence: 0.33, error: reason }` */
  function Fallback(reason: string): Value
  {
    Obj(map["risk_profile" := Str("Balanced"), "confidence" := Num(0.33), "error" := Str(reason)])
  }

  /** The `close` handler (lines 73-95): a non-zero or null exit code, or output that is not JSON, falls back. */
  function OnClose(code: Option<int>, stdout: string, parse: string -> Option<Value>): Value
  {
    if code != Some(0) then Fallback(ProcessFailed)
    else (match parse(JsTrim(stdout))
      case Some(result) => result
      case None => Fallback(ParseFailed))
  }

  predicate Settles(e: Event)
  {
    e.Close? || e.SpawnError?
  }

  /**
    The value a settling event resolves the promise with, given the stdout
    accumulated so far; `parse` is `JSON.parse`, `None` where it throws.
  */
  function SettleValue(e: Event, stdout: string, parse: string -> Option<Value>): Value
    requires Settles(e)
  {
    match e
    case Close(code) => OnClose(code, stdout, parse)
    case SpawnError(_) => Fallback(StartFailed)
  }

  /** The contents of `stdout` after the events: every stdout chunk, in order. */
  function StdoutOf(events: seq<Event>): string
  {
    if events == [] then ""
    else
      var last := events[|events| - 1];
      StdoutOf(events[..|events| - 1]) + (if last.StdoutData? then last.chunk else "")
  }

  /**
    The promise after the events, one callback at a time: a settling event
    resolves a pending promise; once resolved, later `resolve` calls are ignored.
  */
  function SettlementAfter(events: seq<Event>, parse: string -> Option<Value>): Settlement
  {
    if events == [] then Pending
    else
      var before := events[..|events| - 1];
      var last := events[|events| - 1];
      var prior := SettlementAfter(before, parse);
      if prior.Resolved? then prior
      else if Settles(last) then Resolved(SettleValue(last, StdoutOf(before), parse))
      else Pending
  }

  /** The promise for a spawn outcome: rejected by a throwing `spawn`, else settled by the callbacks. */
  function PromiseOf(spawned: Spawn, parse: string -> Option<Value>): Settlement
  {
    match spawned
    case Threw(_) => Rejected
    case Started(events) => SettlementAfter(events, parse)
  }

  /**
    Runs the worker on `text` and delivers its events to the callbacks of lines
    65-105. The `stderr` accumulator only feeds a log line and is not kept.
  */
  method RunPrediction(text: string, worker: string -> Spawn, parse: string -> Option<Value>)
    returns (settled: Settlement)
    ensures settled == PromiseOf(worker(text), parse)
  {
    var spawned := worker(text);
    if spawned.Threw? {
      return Rejected;
    }
    var events := spawned.events;
    var stdout := "";
    settled := Pending;
    var i: nat := 0;
    while i < |events|
      invariant i <= |events|
      invariant stdout == StdoutOf(events[..i])
      invariant settled == SettlementAfter(events[..i], parse)
    {
      AfterOneMore(events, i, parse);
      match events[i] {
      case StdoutData(chunk) =>
        stdout := stdout + chunk;
      case StderrData(_) =>
      case Close(code) =>
        if settled.Pending? {
          settled := Resolved(OnClose(code, stdout, parse));
        }
      case SpawnError(_) =>
        if settled.Pending? {
          settled := Resolved(Fallback(StartFailed));
        }
      }
      i := i + 1;
    }
    assert events[..i] == events;
  }

  /** How the accumulators evolve when the callback for `events[i]` runs. */
  lemma AfterOneMore(events: seq<Event>, i: nat, parse: string -> Option<Value>)
    requires i < |events|
    ensures StdoutOf(events[..i + 1]) ==
      StdoutOf(events[..i]) + (if events[i].StdoutData? then events[i].chunk else "")
    ensures SettlementAfter(events[..i + 1], parse) ==
      if SettlementAfter(events[..i], parse).Resolved? then SettlementAfter(events[..i], parse)
      else if Settles(events[i]) then Resolved(SettleValue(events[i], StdoutOf(events[..i]), parse))
      else Pending
  {
    assert events[..i + 1][..i] == events[..i];
  }

  /** The index of the first settling event at or after `i`. */
  function FirstSettlingFrom(events: seq<Event>, i: nat): (r: Option<nat>)
    requires i <= |events|
    ensures r.Some? ==> i <= r.value < |events| && Settles(events[r.value])
    ensures r.Some? ==> forall j :: i <= j < r.value ==> !Settles(events[j])
    ensures r.None? ==> forall j :: i <= j < |events| ==> !Settles(events[j])
    decreases |events| - i
  {
    if i == |events| then None
    else if Settles(events[i]) then Some(i)
    else FirstSettlingFrom(events, i + 1)
  }

  function FirstSettling(events: seq<Event>): Option<nat>
  {
    FirstSettlingFrom(events, 0)
  }

  /**
    The callback-by-callback promise agrees with a direct reading: the promise is
    resolved by the first `close` or `error` event, using the stdout received
    before it, and stays pending forever if there is none (there is no timeout).
  */
  lemma {:induction false} SettledByFirstSettlingEvent(events: seq<Event>, parse: string -> Option<Value>)
    ensures FirstSettling(events).None? ==> SettlementAfter(events, parse) == Pending
    ensures FirstSettling(events).Some? ==>
      var k := FirstSettling(events).value;
      SettlementAfter(events, parse) == Resolved(SettleValue(events[k], StdoutOf(events[..k]), parse))
  {
    if events != [] {
      var n := |events| - 1;
      var before := events[..n];
      SettledByFirstSettlingEvent(before, parse);
      var first := FirstSettling(before);
      if first.Some? {
        var k := first.value;
        assert before[k] == events[k];
        assert forall j :: 0 <= j < k ==> before[j] == events[j];
        assert FirstSettling(events) == Some(k);
        assert before[..k] == events[..k];
      } else {
        assert forall j :: 0 <= j < n ==> before[j] == events[j];
        if Settles(events[n]) {
          assert FirstSettling(events) == Some(n);
        } else {
          assert FirstSettling(events).None?;
        }
      }
    }
  }

  /**
    The three failure surfaces and the success path of lines 73-105, read off the
    first settling event.
  */
  lemma PredictionOutcomes(events: seq<Event>, parse: string -> Option<Value>, k: nat)
    requires FirstSettling(events) == Some(k)
    ensures events[k].SpawnError? ==>
      SettlementAfter(events, parse) == Resolved(Fallback(StartFailed))
    ensures events[k].Close? && events[k].code != Some(0) ==>
      SettlementAfter(events, parse) == Resolved(Fallback(ProcessFailed))
    ensures events[k] == Close(Some(0)) && parse(JsTrim(StdoutOf(events[..k]))).None? ==>
      SettlementAfter(events, parse) == Resolved(Fallback(ParseFailed))
    ensures events[k] == Close(Some(0)) && parse(JsTrim(StdoutOf(events[..k]))).Some? ==>
      SettlementAfter(events, parse) == Resolved(parse(JsTrim(StdoutOf(events[..k]))).value)
  {
    SettledByFirstSettlingEvent(events, parse);
  }

  /**
    Only a `spawn` that throws rejects the promise: the `close` and `error`
    callbacks always resolve it.
  */
  lemma OnlyThrowRejects(spawned: Spawn, parse: string -> Option<Value>)
    ensures PromiseOf(spawned, parse) == Rejected <==> spawned.Threw?
  {
    if spawned.Started? {
      SettledByFirstSettlingEvent(spawned.events, parse);
    }
  }

  /**
    Whatever the worker does, a resolved classification is one of the three
    fallbacks or exactly what `JSON.parse` returned for the trimmed stdout; only
    the fallbacks are guaranteed to name a profile of the enum.
  */
  lemma ResolvedIsFallbackOrParsed(events: seq<Event>, parse: string -> Option<Value>)
    requires SettlementAfter(events, parse).Resolved?
    ensures var v := SettlementAfter(events, parse).classification;
      || v == Fallback(StartFailed)
      || v == Fallback(ProcessFailed)
      || v == Fallback(ParseFailed)
      || exists out :: parse(out) == Some(v)
  {
    SettledByFirstSettlingEvent(events, parse);
    var k := FirstSettling(events).value;
    var out := JsTrim(StdoutOf(events[..k]));
    if events[k] == Close(Some(0)) && parse(out).Some? {
      assert parse(out) == Some(SettlementAfter(events, parse).classification);
    }
  }
}
