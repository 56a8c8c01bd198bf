/**
 * The VoiceBot session controller (pipecat.tsx): a status string, an
 * `isConnecting` flag and a debug log of at most 50 lines, driven by the
 * `connect` and `disconnect` handlers around the client's awaited calls.
 *
 * The client's `initDevices`, `connect` and `disconnect` are not modelled:
 * each call's outcome is an input. The clock is an input too: the handler's
 * k-th log line is stamped `clock(k)`, and the elapsed time is a number given
 * to `Connect`.
 */
module Session {
  import opened MetricTypes
  import opened SeqFacts

  /** The five status strings the controller sets. */
  datatype Status = Disconnected | Connecting | Connected | Error | Disconnecting

  function StatusText(s: Status): string
  {
    match s
    case Disconnected => "Disconnected"
    case Connecting => "Connecting..."
    case Connected => "Connected"
    case Error => "Error"
    case Disconnecting => "Disconnecting..."
  }

  /** Distinct states show distinct strings, so the guards' string comparisons are
      comparisons of states. */
  lemma StatusTextInjective(a: Status, b: Status)
    ensures StatusText(a) == StatusText(b) <==> a == b
  {
  }

  /** How an awaited client call settles: it resolves, or it rejects with an error message. */
  datatype Outcome = Ok | Fail(message: string)

  /** A call the controller makes into the client, in the order it makes them. */
  datatype ClientCall = InitDevices | Open(wsUrl: string) | Close

  // ---------------------------------------------------------------------
  // The debug log
  // ---------------------------------------------------------------------

  const MaxLogs := 50

  /** One log line: the ISO stamp, " - ", the message. */
  function LogLine(stamp: string, message: string): string
  {
    stamp + " - " + message
  }

  /** The last `k` items of `h`, or all of them when there are fewer. */
  function Last<T>(h: seq<T>, k: nat): (r: seq<T>)
    ensures |r| == if |h| <= k then |h| else k
  {
    if |h| <= k then h else h[|h| - k..]
  }

  /** `[...prev.slice(-49), line]`: at most 50 lines, the new one last, preceded by the
      previous last 49. */
  function Appended(prev: seq<string>, line: string): (r: seq<string>)
    ensures |r| <= MaxLogs && |r| == if |prev| < MaxLogs then |prev| + 1 else MaxLogs
    ensures r[|r| - 1] == line
    ensures r[..|r| - 1] == Last(prev, MaxLogs - 1)
    ensures |prev| < MaxLogs ==> r == prev + [line]
  {
    var r := Last(prev, MaxLogs - 1) + [line];
    assert r[..|r| - 1] == Last(prev, MaxLogs - 1);
    r
  }

  /** The log after writing `lines` in order. */
  function AppendAll(prev: seq<string>, lines: seq<string>): seq<string>
  {
    if lines == [] then prev else Appended(AppendAll(prev, lines[..|lines| - 1]), lines[|lines| - 1])
  }

  lemma AppendAllSnoc(prev: seq<string>, lines: seq<string>, line: string)
    ensures AppendAll(prev, lines + [line]) == Appended(AppendAll(prev, lines), line)
  {
    assert (lines + [line])[..|lines|] == lines;
  }

  lemma {:induction false} AppendAllConcat(prev: seq<string>, xs: seq<string>, ys: seq<string>)
    ensures AppendAll(prev, xs + ys) == AppendAll(AppendAll(prev, xs), ys)
  {
    if ys == [] {
      AppendEmpty(xs);
    } else {
      var n := |ys| - 1;
      AppendAllConcat(prev, xs, ys[..n]);
      AppendDropLast(xs, ys);
    }
  }

  /** A log of at most 50 lines stays the last 50 lines ever written: writing more
      never reorders, edits or keeps anything older. */
  lemma {:induction false} AppendAllWindow(prev: seq<string>, lines: seq<string>)
    requires |prev| <= MaxLogs
    ensures AppendAll(prev, lines) == Last(prev + lines, MaxLogs)
  {
    if lines == [] {
      assert prev + lines == prev;
    } else {
      var n := |lines| - 1;
      AppendAllWindow(prev, lines[..n]);
      var h := prev + lines[..n];
      assert prev + lines == h + [lines[n]];
      AppendedWindow(h, lines[n]);
    }
  }

  /** One more line keeps the window of the last 50. */
  lemma AppendedWindow(h: seq<string>, line: string)
    ensures Appended(Last(h, MaxLogs), line) == Last(h + [line], MaxLogs)
  {
    var w := Last(h, MaxLogs);
    if |h| >= MaxLogs {
      assert Last(w, MaxLogs - 1) == h[|h| - (MaxLogs - 1)..];
      assert (h + [line])[|h| + 1 - MaxLogs..] == h[|h| - (MaxLogs - 1)..] + [line];
    }
  }

  // ---------------------------------------------------------------------
  // Numbers in messages and the endpoint
  // ---------------------------------------------------------------------

  function DigitChar(d: nat): (c: char)
    requires d < 10
    ensures '0' <= c <= '9'
  {
    "0123456789"[d]
  }

  /** The decimal text of a non-negative integer. */
  function NatText(n: nat): (r: string)
    ensures |r| > 0
    ensures forall i :: 0 <= i < |r| ==> '0' <= r[i] <= '9'
    decreases n
  {
    if n < 10 then [DigitChar(n)] else NatText(n / 10) + [DigitChar(n % 10)]
  }

  /** The decimal text of an integer, with a leading '-' when it is negative. */
  function IntText(i: int): (r: string)
    ensures |r| > 0 && (r[0] == '-' <==> i < 0)
  {
    if i < 0 then "-" + NatText(-i) else NatText(i)
  }

  /** The default base URL, used when none is configured or the configured one is empty. */
  const DefaultBase := "ws://localhost:7860"

  /** `${configured || "ws://localhost:7860"}/ws`. */
  function Endpoint(configured: Option<string>): (r: string)
    ensures configured.Some? && configured.value != "" ==> r == configured.value + "/ws"
    ensures configured.None? || configured.value == "" ==> r == "ws://localhost:7860/ws"
    ensures |r| >= 3 && r[|r| - 3..] == "/ws"
  {
    var base := if configured.Some? && configured.value != "" then configured.value else DefaultBase;
    base + "/ws"
  }

  // ---------------------------------------------------------------------
  // What the handlers decide
  // ---------------------------------------------------------------------

  /** The status `connect` ends in: connected when both awaited calls resolve. */
  function ConnectOutcome(initDevices: Outcome, open: Outcome): (s: Status)
    ensures s == Connected <==> initDevices.Ok? && open.Ok?
    ensures s != Connected ==> s == Error
  {
    if initDevices.Ok? && open.Ok? then Connected else Error
  }

  /** The status `disconnect` ends in: a rejected close leaves "Disconnecting...". */
  function DisconnectOutcome(close: Outcome): (s: Status)
    ensures s == Disconnected <==> close.Ok?
    ensures s != Disconnected ==> s == Disconnecting
  {
    if close.Ok? then Disconnected else Disconnecting
  }

  /** The calls `connect` makes: `initDevices`, then, only if it resolved, `connect`. */
  function ConnectCalls(initDevices: Outcome, url: string): (r: seq<ClientCall>)
    ensures |r| >= 1 && r[0] == InitDevices
    ensures Open(url) in r <==> initDevices.Ok?
  {
    if initDevices.Ok? then [InitDevices, Open(url)] else [InitDevices]
  }

  /** The lines `connect` logs, the k-th stamped `clock(k)`. */
  function ConnectLines(initDevices: Outcome, open: Outcome, timeTaken: int, clock: nat -> string): (r: seq<string>)
    ensures |r| == if initDevices.Ok? then 4 else 3
    ensures r[0] == LogLine(clock(0), "Attempting to connect...")
  {
    [LogLine(clock(0), "Attempting to connect...")] + TryLines(initDevices, open, timeTaken, clock)
  }

  /** The lines logged inside the `try` and its `catch`. */
  function TryLines(initDevices: Outcome, open: Outcome, timeTaken: int, clock: nat -> string): (r: seq<string>)
    ensures |r| == if initDevices.Ok? then 3 else 2
  {
    [LogLine(clock(1), "Initializing devices...")] + InitLines(initDevices, open, timeTaken, clock)
  }

  /** The lines logged once `initDevices` settles. */
  function InitLines(initDevices: Outcome, open: Outcome, timeTaken: int, clock: nat -> string): (r: seq<string>)
    ensures |r| == if initDevices.Ok? then 2 else 1
  {
    match initDevices
    case Fail(m) => [LogLine(clock(2), "Error connecting: " + m)]
    case Ok => [LogLine(clock(2), "Connecting to bot...")] + OpenLines(open, timeTaken, clock)
  }

  /** The line logged once the client's `connect` settles. */
  function OpenLines(open: Outcome, timeTaken: int, clock: nat -> string): (r: seq<string>)
    ensures |r| == 1
  {
    match open
    case Fail(m) => [LogLine(clock(3), "Error connecting: " + m)]
    case Ok => [LogLine(clock(3), "Connection complete, timeTaken: " + IntText(timeTaken) + "ms")]
  }

  /** The lines `disconnect` logs, the k-th stamped `clock(k)`. */
  function DisconnectLines(close: Outcome, clock: nat -> string): (r: seq<string>)
    ensures |r| == 2 && r[0] == LogLine(clock(0), "Disconnecting...")
  {
    [LogLine(clock(0), "Disconnecting...")] + CloseLines(close, clock)
  }

  /** The line logged once the client's `disconnect` settles. */
  function CloseLines(close: Outcome, clock: nat -> string): (r: seq<string>)
    ensures |r| == 1
  {
    match close
    case Ok => [LogLine(clock(1), "Disconnected successfully")]
    case Fail(m) => [LogLine(clock(1), "Error disconnecting: " + m)]
  }

  /** `canConnect`. */
  predicate CanConnectIn(status: Status, isConnecting: bool)
  {
    status == Disconnected && !isConnecting
  }

  /** `canDisconnect`, which is `isConnected`. */
  predicate CanDisconnectIn(status: Status)
  {
    status == Connected
  }

  // ---------------------------------------------------------------------
  // The component's state
  // ---------------------------------------------------------------------

  class VoiceBot {
    /** Whether `usePipecatClient()` returned a client. */
    const hasClient: bool
    var status: Status
    var isConnecting: bool
    var debugLogs: seq<string>
    /** The calls made into the client, in order. */
    ghost var calls: seq<ClientCall>
    /** Every `setStatus`, in order. */
    ghost var statusTrace: seq<Status>
    /** Every `setIsConnecting`, in order. */
    ghost var connectingTrace: seq<bool>

    /** The log never holds more than 50 lines. */
    predicate Valid()
      reads this
    {
      |debugLogs| <= MaxLogs
    }

    constructor(hasClient: bool)
      ensures this.hasClient == hasClient && Valid()
      ensures status == Disconnected && !isConnecting && debugLogs == []
      ensures calls == [] && statusTrace == [] && connectingTrace == []
    {
      this.hasClient := hasClient;
      status := Disconnected;
      isConnecting := false;
      debugLogs := [];
      calls := [];
      statusTrace := [];
      connectingTrace := [];
    }

    predicate CanConnect()
      reads this
    {
      CanConnectIn(status, isConnecting)
    }

    predicate CanDisconnect()
      reads this
    {
      CanDisconnectIn(status)
    }

    /** `log`: one line stamped `stamp`, appended to the window of the last 50. */
    method Log(stamp: string, message: string)
      modifies this
      ensures debugLogs == Appended(old(debugLogs), LogLine(stamp, message)) && Valid()
      ensures status == old(status) && isConnecting == old(isConnecting)
      ensures calls == old(calls) && statusTrace == old(statusTrace) && connectingTrace == old(connectingTrace)
    {
      var logEntry := LogLine(stamp, message);
      var prev := debugLogs;
      var kept := if |prev| <= MaxLogs - 1 then prev else prev[|prev| - (MaxLogs - 1)..];
      debugLogs := kept + [logEntry];
    }

    method SetStatus(s: Status)
      modifies this
      ensures status == s && statusTrace == old(statusTrace) + [s]
      ensures isConnecting == old(isConnecting) && debugLogs == old(debugLogs)
      ensures calls == old(calls) && connectingTrace == old(connectingTrace)
    {
      status := s;
      statusTrace := statusTrace + [s];
    }

    method SetIsConnecting(b: bool)
      modifies this
      ensures isConnecting == b && connectingTrace == old(connectingTrace) + [b]
      ensures status == old(status) && debugLogs == old(debugLogs)
      ensures calls == old(calls) && statusTrace == old(statusTrace)
    {
      isConnecting := b;
      connectingTrace := connectingTrace + [b];
    }

    /** `connect`: "Connecting..." and the flag first; "Connected" when both client calls
        resolve and "Error" otherwise; the flag is cleared in every case. Without a client
        nothing changes. */
    method Connect(initDevices: Outcome, open: Outcome, configuredUrl: Option<string>,
                   timeTaken: int, clock: nat -> string)
      requires Valid()
      modifies this
      ensures Valid()
      ensures !hasClient ==>
        && status == old(status) && isConnecting == old(isConnecting) && debugLogs == old(debugLogs)
        && calls == old(calls) && statusTrace == old(statusTrace) && connectingTrace == old(connectingTrace)
      ensures hasClient ==>
        && status == ConnectOutcome(initDevices, open) && !isConnecting
        && statusTrace == old(statusTrace) + [Connecting, status]
        && connectingTrace == old(connectingTrace) + [true, false]
        && calls == old(calls) + ConnectCalls(initDevices, Endpoint(configuredUrl))
        && debugLogs == AppendAll(old(debugLogs), ConnectLines(initDevices, open, timeTaken, clock))
    {
      if !hasClient {
        return;
      }
      ghost var logs0, trace0, flags0 := debugLogs, statusTrace, connectingTrace;
      SetIsConnecting(true);
      SetStatus(Connecting);
      var l0 := LogLine(clock(0), "Attempting to connect...");
      Log(clock(0), "Attempting to connect...");
      AppendAllSnoc(logs0, [], l0);
      ghost var logs1 := debugLogs;
      TryConnect(initDevices, open, Endpoint(configuredUrl), timeTaken, clock);
      AppendAllConcat(logs0, [l0], TryLines(initDevices, open, timeTaken, clock));
      SetIsConnecting(false);
      AppendPair(trace0, Connecting, status);
      AppendPair(flags0, true, false);
    }

    /** The `try` block and its `catch`: `initDevices`, then `connect` at `url` only if
        that resolved; "Connected" when both resolve, "Error" as soon as one rejects. */
    method TryConnect(initDevices: Outcome, open: Outcome, url: string, timeTaken: int, clock: nat -> string)
      modifies this
      ensures Valid()
      ensures status == ConnectOutcome(initDevices, open) && statusTrace == old(statusTrace) + [status]
      ensures isConnecting == old(isConnecting) && connectingTrace == old(connectingTrace)
      ensures calls == old(calls) + ConnectCalls(initDevices, url)
      ensures debugLogs == AppendAll(old(debugLogs), TryLines(initDevices, open, timeTaken, clock))
    {
      ghost var logs0, calls0 := debugLogs, calls;
      var l1 := LogLine(clock(1), "Initializing devices...");
      Log(clock(1), "Initializing devices...");
      AppendAllSnoc(logs0, [], l1);
      calls := calls + [InitDevices];
      AfterInit(initDevices, open, url, timeTaken, clock);
      AppendAllConcat(logs0, [l1], InitLines(initDevices, open, timeTaken, clock));
      if initDevices.Ok? {
        AppendPair(calls0, InitDevices, Open(url));
      }
    }

    /** What follows `await client.initDevices()`: on a rejection the catch logs the
        message and sets "Error"; otherwise the client's `connect` at `url`. */
    method AfterInit(initDevices: Outcome, open: Outcome, url: string, timeTaken: int, clock: nat -> string)
      modifies this
      ensures Valid()
      ensures status == ConnectOutcome(initDevices, open) && statusTrace == old(statusTrace) + [status]
      ensures isConnecting == old(isConnecting) && connectingTrace == old(connectingTrace)
      ensures initDevices.Ok? ==> calls == old(calls) + [Open(url)]
      ensures initDevices.Fail? ==> calls == old(calls)
      ensures debugLogs == AppendAll(old(debugLogs), InitLines(initDevices, open, timeTaken, clock))
    {
      ghost var logs0 := debugLogs;
      match initDevices {
        case Fail(m) =>
          Log(clock(2), "Error connecting: " + m);
          SetStatus(Error);
          AppendAllSnoc(logs0, [], LogLine(clock(2), "Error connecting: " + m));
        case Ok =>
          ConnectToBot(open, url, timeTaken, clock);
      }
    }

    /** Devices ready: log "Connecting to bot...", then the client's `connect` at `url`. */
    method ConnectToBot(open: Outcome, url: string, timeTaken: int, clock: nat -> string)
      modifies this
      ensures Valid()
      ensures status == ConnectOutcome(Ok, open) && statusTrace == old(statusTrace) + [status]
      ensures isConnecting == old(isConnecting) && connectingTrace == old(connectingTrace)
      ensures calls == old(calls) + [Open(url)]
      ensures debugLogs == AppendAll(old(debugLogs), InitLines(Ok, open, timeTaken, clock))
    {
      ghost var logs0 := debugLogs;
      var l2 := LogLine(clock(2), "Connecting to bot...");
      Log(clock(2), "Connecting to bot...");
      AppendAllSnoc(logs0, [], l2);
      calls := calls + [Open(url)];
      OpenSession(open, timeTaken, clock);
      AppendAllConcat(logs0, [l2], OpenLines(open, timeTaken, clock));
    }

    /** The client's `connect` settling: "Connected" and the elapsed time when it
        resolves, the error message and "Error" when it rejects. */
    method OpenSession(open: Outcome, timeTaken: int, clock: nat -> string)
      modifies this
      ensures Valid()
      ensures status == ConnectOutcome(Ok, open) && statusTrace == old(statusTrace) + [status]
      ensures isConnecting == old(isConnecting) && connectingTrace == old(connectingTrace) && calls == old(calls)
      ensures debugLogs == AppendAll(old(debugLogs), OpenLines(open, timeTaken, clock))
    {
      ghost var logs0 := debugLogs;
      match open {
        case Fail(m) =>
          Log(clock(3), "Error connecting: " + m);
          SetStatus(Error);
        case Ok =>
          SetStatus(Connected);
          Log(clock(3), "Connection complete, timeTaken: " + IntText(timeTaken) + "ms");
      }
      AppendAllSnoc(logs0, [], OpenLines(open, timeTaken, clock)[0]);
    }

    /** `disconnect`: "Disconnecting..." first; "Disconnected" when the close resolves,
        and otherwise the status stays "Disconnecting..." with one more log line. The
        flag is left alone. Without a client nothing changes. */
    method Disconnect(close: Outcome, clock: nat -> string)
      requires Valid()
      modifies this
      ensures Valid()
      ensures !hasClient ==>
        && status == old(status) && isConnecting == old(isConnecting) && debugLogs == old(debugLogs)
        && calls == old(calls) && statusTrace == old(statusTrace) && connectingTrace == old(connectingTrace)
      ensures hasClient ==>
        && status == DisconnectOutcome(close) && isConnecting == old(isConnecting)
        && statusTrace == old(statusTrace) + (if close.Ok? then [Disconnecting, Disconnected] else [Disconnecting])
        && connectingTrace == old(connectingTrace)
        && calls == old(calls) + [Close]
        && debugLogs == AppendAll(old(debugLogs), DisconnectLines(close, clock))
    {
      if !hasClient {
        return;
      }
      ghost var logs0, trace0 := debugLogs, statusTrace;
      SetStatus(Disconnecting);
      var l0 := LogLine(clock(0), "Disconnecting...");
      Log(clock(0), "Disconnecting...");
      AppendAllSnoc(logs0, [], l0);
      TryDisconnect(close, clock);
      AppendAllConcat(logs0, [l0], CloseLines(close, clock));
      if close.Ok? {
        AppendPair(trace0, Disconnecting, Disconnected);
      }
    }

    /** The `try` block and its `catch`: the client's `disconnect`, then "Disconnected"
        when it resolves; a rejection only logs its message. */
    method TryDisconnect(close: Outcome, clock: nat -> string)
      modifies this
      ensures Valid()
      ensures close.Ok? ==> status == Disconnected && statusTrace == old(statusTrace) + [Disconnected]
      ensures close.Fail? ==> status == old(status) && statusTrace == old(statusTrace)
      ensures isConnecting == old(isConnecting) && connectingTrace == old(connectingTrace)
      ensures calls == old(calls) + [Close]
      ensures debugLogs == AppendAll(old(debugLogs), CloseLines(close, clock))
    {
      ghost var logs0 := debugLogs;
      calls := calls + [Close];
      match close {
        case Ok =>
          SetStatus(Disconnected);
          Log(clock(1), "Disconnected successfully");
        case Fail(m) =>
          Log(clock(1), "Error disconnecting: " + m);
      }
      AppendAllSnoc(logs0, [], CloseLines(close, clock)[0]);
    }

    /** `disconnect` as evidently intended: the same steps and lines, but the `catch`
        also sets "Disconnected", so a rejected close no longer strands the controller
        and connect is enabled again whenever no connect is in flight. */
    method DisconnectForced(close: Outcome, clock: nat -> string)
      requires Valid()
      modifies this
      ensures Valid()
      ensures !hasClient ==>
        && status == old(status) && isConnecting == old(isConnecting) && debugLogs == old(debugLogs)
        && calls == old(calls) && statusTrace == old(statusTrace) && connectingTrace == old(connectingTrace)
      ensures hasClient ==>
        && status == Disconnected && isConnecting == old(isConnecting)
        && statusTrace == old(statusTrace) + [Disconnecting, Disconnected]
        && connectingTrace == old(connectingTrace)
        && calls == old(calls) + [Close]
        && debugLogs == AppendAll(old(debugLogs), DisconnectLines(close, clock))
      ensures hasClient ==> !Stranded(status) && (CanConnect() <==> !isConnecting)
    {
      if !hasClient {
        return;
      }
      ghost var logs0, trace0 := debugLogs, statusTrace;
      SetStatus(Disconnecting);
      var l0 := LogLine(clock(0), "Disconnecting...");
      Log(clock(0), "Disconnecting...");
      AppendAllSnoc(logs0, [], l0);
      TryDisconnectForced(close, clock);
      AppendAllConcat(logs0, [l0], CloseLines(close, clock));
      AppendPair(trace0, Disconnecting, Disconnected);
    }

    /** The corrected `try` and `catch`: "Disconnected" whichever way the close settles,
        after its one log line. */
    method TryDisconnectForced(close: Outcome, clock: nat -> string)
      modifies this
      ensures Valid()
      ensures status == Disconnected && statusTrace == old(statusTrace) + [Disconnected]
      ensures isConnecting == old(isConnecting) && connectingTrace == old(connectingTrace)
      ensures calls == old(calls) + [Close]
      ensures debugLogs == AppendAll(old(debugLogs), CloseLines(close, clock))
    {
      ghost var logs0 := debugLogs;
      calls := calls + [Close];
      match close {
        case Ok =>
          SetStatus(Disconnected);
          Log(clock(1), "Disconnected successfully");
        case Fail(m) =>
          Log(clock(1), "Error disconnecting: " + m);
          SetStatus(Disconnected);
      }
      AppendAllSnoc(logs0, [], CloseLines(close, clock)[0]);
    }
  }

  // ---------------------------------------------------------------------
  // Properties of the controller
  // ---------------------------------------------------------------------

  /** The log stays within 50 lines through any handler, and is then exactly the last
      50 lines ever written. */
  lemma HandlersKeepWindow(prev: seq<string>, lines: seq<string>)
    requires |prev| <= MaxLogs
    ensures |AppendAll(prev, lines)| <= MaxLogs
    ensures AppendAll(prev, lines) == Last(prev + lines, MaxLogs)
  {
    AppendAllWindow(prev, lines);
  }

  /** A connect that succeeds enables disconnect and not connect. */
  lemma ConnectedEnablesDisconnect(initDevices: Outcome, open: Outcome)
    requires initDevices.Ok? && open.Ok?
    ensures CanDisconnectIn(ConnectOutcome(initDevices, open))
    ensures !CanConnectIn(ConnectOutcome(initDevices, open), false)
  {
  }

  /** As written: a status from which neither button is enabled, whatever the flag. */
  predicate Stranded(s: Status)
  {
    !CanConnectIn(s, false) && !CanDisconnectIn(s)
  }

  /** As written, every failed client call strands the controller: a failed connect
      leaves "Error" and a failed disconnect leaves "Disconnecting...", and from either
      no action is enabled again. */
  lemma FailuresStrand(initDevices: Outcome, open: Outcome, close: Outcome)
    ensures initDevices.Fail? || open.Fail? ==> Stranded(ConnectOutcome(initDevices, open))
    ensures close.Fail? ==> Stranded(DisconnectOutcome(close))
    ensures forall s :: Stranded(s) <==> s == Error || s == Disconnecting || s == Connecting
  {
  }

  // ---------------------------------------------------------------------
  // The handlers as evidently intended
  // ---------------------------------------------------------------------

  /** Connect is allowed again after an error. */
  predicate CanConnectRetrying(status: Status, isConnecting: bool)
  {
    (status == Disconnected || status == Error) && !isConnecting
  }

  /** With the retrying guard no outcome of connect leaves the controller without an
      enabled action, and the retrying guard allows everything the original one does.
      The disconnect side is `VoiceBot.DisconnectForced`. */
  lemma NoDeadEndWhenCorrected(initDevices: Outcome, open: Outcome)
    ensures var s := ConnectOutcome(initDevices, open);
      CanConnectRetrying(s, false) || CanDisconnectIn(s)
    ensures forall s :: CanConnectIn(s, false) ==> CanConnectRetrying(s, false)
  {
  }
}
