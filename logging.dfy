/**
 * The mod loader's console logger: writes either render at once (when the
 * console is ready) or wait in a FIFO queue that a background worker drains.
 *
 * Threads are modelled as arbitrary sequences of calls on one `Logger`:
 * producers call the facade methods, the constructor's background task ends
 * in `AttachSucceeded` or `AttachFailed`, and `DrainStep` is one iteration of
 * the worker's loop. A blocking `Take` on an empty queue is a step that is not
 * enabled. The console and the `OnPrintMessage` event are sequences that the
 * model appends to.
 */
module Logging {

  /** `Color.FromArgb(r, g, b)`. */
  datatype Color = Argb(red: int, green: int, blue: int)

  /** The default text colour the colourless overloads pass on. */
  const TextColor: Color := Argb(239, 240, 235)

  datatype LogMessageType = WriteLine | Write

  /** One queued (or rendered) entry. */
  datatype LogMessage = LogMessage(kind: LogMessageType, text: string, color: Color)

  /** The Windows console control signals a handler can receive. */
  datatype CtrlType = CtrlC | CtrlBreak | CtrlClose | CtrlLogoff | CtrlShutdown

  /** What the control handler does: its return value and whether it raises `OnConsoleClose`. */
  datatype CtrlResponse = CtrlResponse(suppressDefault: bool, raisesConsoleClose: bool)

  /** The texts `OnPrintMessage` carries for a sequence of rendered entries. */
  function Texts(entries: seq<LogMessage>): seq<string> {
    if entries == [] then []
    else Texts(entries[..|entries| - 1]) + [entries[|entries| - 1].text]
  }

  lemma TextsSnoc(entries: seq<LogMessage>, last: LogMessage)
    ensures Texts(entries + [last]) == Texts(entries) + [last.text]
  {
    assert (entries + [last])[..|entries|] == entries;
  }

  /** `Texts` keeps one text per entry, in the entries' order. */
  lemma {:induction false} TextsAreTheEntries(entries: seq<LogMessage>)
    ensures |Texts(entries)| == |entries|
    ensures forall i :: 0 <= i < |entries| ==> Texts(entries)[i] == entries[i].text
  {
    if entries != [] {
      TextsAreTheEntries(entries[..|entries| - 1]);
    }
  }

  /** The texts of two runs of entries are the texts of the first, then those of the second. */
  lemma {:induction false} TextsAppend(first: seq<LogMessage>, second: seq<LogMessage>)
    ensures Texts(first + second) == Texts(first) + Texts(second)
    decreases |second|
  {
    if second == [] {
      assert first + second == first;
    } else {
      var init, last := second[..|second| - 1], second[|second| - 1];
      assert second == init + [last];
      assert first + second == (first + init) + [last];
      TextsAppend(first, init);
      TextsSnoc(first + init, last);
      TextsSnoc(init, last);
    }
  }

  /**
   * The entries of `console` that the worker rendered, in console order:
   * `byWorker[i]` tells whether the worker rendered `console[i]`.
   */
  function WorkerRendered(console: seq<LogMessage>, byWorker: seq<bool>): seq<LogMessage>
    requires |byWorker| == |console|
  {
    if console == [] then []
    else
      var n := |console| - 1;
      WorkerRendered(console[..n], byWorker[..n]) + (if byWorker[n] then [console[n]] else [])
  }

  lemma WorkerRenderedSnoc(console: seq<LogMessage>, byWorker: seq<bool>, entry: LogMessage, fromWorker: bool)
    requires |byWorker| == |console|
    ensures WorkerRendered(console + [entry], byWorker + [fromWorker])
         == WorkerRendered(console, byWorker) + (if fromWorker then [entry] else [])
  {
    assert (console + [entry])[..|console|] == console;
    assert (byWorker + [fromWorker])[..|console|] == byWorker;
  }

  /** The worker's renderings are a subsequence of the console: no more of them than entries. */
  lemma {:induction false} WorkerRenderedIsSubsequence(console: seq<LogMessage>, byWorker: seq<bool>)
    requires |byWorker| == |console|
    ensures |WorkerRendered(console, byWorker)| <= |console|
  {
    if console != [] {
      var n := |console| - 1;
      WorkerRenderedIsSubsequence(console[..n], byWorker[..n]);
    }
  }

  /**
   * The console control handler: only the close signal raises `OnConsoleClose`,
   * and the default handling is never suppressed.
   */
  function NotifyOnConsoleClose(signal: CtrlType): (response: CtrlResponse)
    ensures !response.suppressDefault
    ensures response.raisesConsoleClose <==> signal == CtrlClose
  {
    CtrlResponse(false, signal.CtrlClose?)
  }

  // ----- Banner layout ---------------------------------------------------------

  const Int32Max := 0x7fff_ffff

  /** C#'s `int` division by two, which truncates toward zero. */
  function HalveTowardZero(d: int): int {
    if d >= 0 then d / 2 else -((-d) / 2)
  }

  /**
   * The column `CenterCursor` moves to: half the space the text leaves free,
   * and the first column when the text is as wide as the window or wider.
   */
  function CenterCursor(windowWidth: int, textLength: int): (column: int)
    requires 0 <= windowWidth <= Int32Max && 0 <= textLength <= Int32Max
    ensures column >= 0
    ensures textLength <= windowWidth ==>
      2 * column + textLength <= windowWidth < 2 * column + textLength + 2
    ensures textLength >= windowWidth ==> column == 0
  {
    var pointer := HalveTowardZero(windowWidth - textLength);
    if pointer < 0 then 0 else pointer
  }

  /** A banner formatter: the text it inserts and its colour. */
  datatype Formatter = Formatter(target: string, color: Color)

  /**
   * `WriteLinesCentered`: the x-th line is written with the x-th formatter.
   * Extra formatters are ignored; there must be one per line.
   */
  method WriteLinesCentered(lines: seq<string>, formatters: seq<Formatter>)
    returns (written: seq<(string, Formatter)>)
    requires |formatters| >= |lines|
    ensures |written| == |lines|
    ensures forall x :: 0 <= x < |lines| ==> written[x] == (lines[x], formatters[x])
  {
    written := [];
    for x := 0 to |lines|
      invariant |written| == x
      invariant forall k :: 0 <= k < x ==> written[k] == (lines[k], formatters[k])
    {
      written := written + [(lines[x], formatters[x])];
    }
  }

  // ----- The logger ------------------------------------------------------------

  /** One call a thread can make on the logger, for `Logger.Run`. */
  datatype Operation =
    | WriteCall(text: string, color: Color)
    | WriteLineCall(text: string, color: Color)
    | WriteAsyncCall(text: string, color: Color)
    | WriteLineAsyncCall(text: string, color: Color)
    | ShutdownCall
    | WaitForConsoleInitCall(cancelled: bool)
    | WorkerStep
    | InitSucceeded
    | InitFailed
    | ControlSignal(signal: CtrlType)

  class Logger {
    /** `IsEnabled`: fixed by the constructor. */
    const isEnabled: bool
    /** `IsReady`: the console is attached and the worker runs. */
    var isReady: bool
    /** `_isShuttingDown`: buffered writes are no longer accepted. */
    var isShuttingDown: bool
    /** `_messages`: the pending entries, front first. */
    var messages: seq<LogMessage>
    /** The entries rendered on the console, in order. */
    var console: seq<LogMessage>
    /** The arguments `OnPrintMessage` has been raised with, in order. */
    var printed: seq<string>
    /** How often `OnConsoleClose` has been raised. */
    var closeNotifications: nat
    /** The constructor's background task has not finished yet. */
    var initPending: bool
    /** The console control handler is registered. */
    var handlerRegistered: bool
    /** `_loggingThread.IsAlive`. */
    var workerAlive: bool

    /** Every entry ever accepted into the queue, in order. */
    ghost var accepted: seq<LogMessage>
    /** Every entry the worker has taken from the queue, in order. */
    ghost var drained: seq<LogMessage>
    /** `byWorker[i]`: the worker, not a direct write, rendered `console[i]`. */
    ghost var byWorker: seq<bool>

    /**
     * The logger's invariant. Every accepted entry is either drained or still
     * queued, in order; the worker's renderings on the console are exactly
     * the drained entries, in order; and `OnPrintMessage` has carried the
     * text of every rendered entry, once and in order.
     */
    ghost predicate Valid()
      reads this
    {
      accepted == drained + messages
      && |byWorker| == |console| && WorkerRendered(console, byWorker) == drained
      && printed == Texts(console)
      && (initPending ==> isEnabled && !isReady)
      && (isReady ==> isEnabled && !initPending)
      && (handlerRegistered <==> isReady)
      && (workerAlive ==> isReady)
      && (isReady && !workerAlive ==> isShuttingDown && messages == [])
      && (!isReady ==> console == [] && drained == [])
      && (!isEnabled ==> !isShuttingDown && accepted == [])
    }

    /** Whether a buffered write is accepted into the queue. */
    ghost predicate AcceptsBuffered()
      reads this
    {
      isEnabled && !isShuttingDown
    }

    /**
     * Shutdown was requested while the worker waits in `Take` on an empty
     * queue: nothing can enqueue any more, so the worker never wakes.
     */
    ghost predicate ShutdownDeadlocked()
      reads this
    {
      isReady && isShuttingDown && workerAlive && messages == []
    }

    /**
     * What any call, also one to the corrected worker, may do to the logger:
     * the flags only ever rise, the initialisation task ends at most once and
     * a failed one stays failed, a ready logger's stopped worker stays
     * stopped, the queue's history and the rendered output
     * only grow, nothing enters the queue once shutdown was requested, and a
     * disabled logger never notifies.
     */
    twostate predicate OnlyGrows()
      reads this
    {
      (old(isReady) ==> isReady)
      && (old(isShuttingDown) ==> isShuttingDown)
      && (!old(initPending) ==> !initPending)
      && (!old(initPending) && !old(isReady) ==> !isReady)
      && (old(isReady) && !old(workerAlive) ==> !workerAlive)
      && old(accepted) <= accepted && old(drained) <= drained && old(console) <= console
      && old(printed) <= printed && old(byWorker) <= byWorker
      && (old(isShuttingDown) ==> accepted == old(accepted))
      && (!isEnabled ==> closeNotifications == old(closeNotifications))
    }

    /** What any call of the program as written may do: `OnlyGrows`, and a deadlocked shutdown stays deadlocked. */
    twostate predicate Evolved()
      reads this
    {
      OnlyGrows() && (old(ShutdownDeadlocked()) ==> ShutdownDeadlocked())
    }

    /** An enabled logger starts its initialisation task; a disabled one stays inert. */
    constructor (enabled: bool)
      ensures Valid()
      ensures isEnabled == enabled && initPending == enabled
      ensures !isReady && !isShuttingDown && !handlerRegistered && !workerAlive
      ensures messages == [] && console == [] && printed == [] && closeNotifications == 0
    {
      isEnabled := enabled;
      initPending := enabled;
      isReady, isShuttingDown, handlerRegistered, workerAlive := false, false, false, false;
      messages, console, printed, closeNotifications := [], [], [], 0;
      accepted, drained, byWorker := [], [], [];
    }

    /**
     * The initialisation task after the console was allocated: it registers the
     * control handler, starts the worker, prints the banner and only then
     * becomes ready.
     */
    method AttachSucceeded()
      requires Valid() && initPending
      modifies this`initPending, this`handlerRegistered, this`workerAlive, this`isReady
      ensures Valid() && Evolved()
      ensures !initPending && handlerRegistered && workerAlive && isReady
    {
      handlerRegistered := true;
      workerAlive := true;
      isReady := true;
      initPending := false;
    }

    /** The initialisation task when allocation failed: it ends, not ready and with no worker. */
    method AttachFailed()
      requires Valid() && initPending
      modifies this`initPending
      ensures Valid() && Evolved() && !initPending
    {
      initPending := false;
    }

    /** `WriteLineAsync`: queue the entry, unless disabled or shutting down. */
    method WriteLineAsync(text: string, color: Color)
      requires Valid()
      modifies this`messages, this`accepted
      ensures Valid() && Evolved()
      ensures AcceptsBuffered() ==> messages == old(messages) + [LogMessage(LogMessageType.WriteLine, text, color)]
      ensures !AcceptsBuffered() ==> messages == old(messages) && accepted == old(accepted)
    {
      if !isShuttingDown && isEnabled {
        messages := messages + [LogMessage(LogMessageType.WriteLine, text, color)];
        accepted := accepted + [LogMessage(LogMessageType.WriteLine, text, color)];
      }
    }

    /** `WriteAsync`: as `WriteLineAsync`, for an entry rendered without a line break. */
    method WriteAsync(text: string, color: Color)
      requires Valid()
      modifies this`messages, this`accepted
      ensures Valid() && Evolved()
      ensures AcceptsBuffered() ==> messages == old(messages) + [LogMessage(LogMessageType.Write, text, color)]
      ensures !AcceptsBuffered() ==> messages == old(messages) && accepted == old(accepted)
    {
      if !isShuttingDown && isEnabled {
        messages := messages + [LogMessage(LogMessageType.Write, text, color)];
        accepted := accepted + [LogMessage(LogMessageType.Write, text, color)];
      }
    }

    /**
     * Rendering an entry on the console, followed by `OnPrintMessage` with its
     * text; `fromWorker` records who rendered it.
     */
    method Render(entry: LogMessage, fromWorker: bool)
      requires |byWorker| == |console|
      modifies this`console, this`printed, this`byWorker
      ensures console == old(console) + [entry] && printed == old(printed) + [entry.text]
      ensures byWorker == old(byWorker) + [fromWorker]
      ensures WorkerRendered(console, byWorker) == WorkerRendered(old(console), old(byWorker)) + (if fromWorker then [entry] else [])
      ensures old(printed) == Texts(old(console)) ==> printed == Texts(console)
    {
      WorkerRenderedSnoc(console, byWorker, entry, fromWorker);
      TextsSnoc(console, entry);
      console := console + [entry];
      printed := printed + [entry.text];
      byWorker := byWorker + [fromWorker];
    }

    /**
     * `WriteLine`: when ready, render now and raise `OnPrintMessage` once with
     * the text (shutdown is not consulted); otherwise behave as `WriteLineAsync`.
     */
    method WriteLine(text: string, color: Color)
      requires Valid()
      modifies this`messages, this`accepted, this`console, this`printed, this`byWorker
      ensures Valid() && Evolved()
      ensures isReady ==> console == old(console) + [LogMessage(LogMessageType.WriteLine, text, color)]
                          && printed == old(printed) + [text] && byWorker == old(byWorker) + [false]
                          && messages == old(messages) && accepted == old(accepted)
      ensures !isReady ==> console == old(console) && printed == old(printed) && byWorker == old(byWorker)
                           && (AcceptsBuffered() ==> messages == old(messages) + [LogMessage(LogMessageType.WriteLine, text, color)])
                           && (!AcceptsBuffered() ==> messages == old(messages) && accepted == old(accepted))
    {
      if isReady {
        Render(LogMessage(LogMessageType.WriteLine, text, color), false);
      } else {
        WriteLineAsync(text, color);
      }
    }

    /** `Write`: as `WriteLine`, for text without a line break. */
    method Write(text: string, color: Color)
      requires Valid()
      modifies this`messages, this`accepted, this`console, this`printed, this`byWorker
      ensures Valid() && Evolved()
      ensures isReady ==> console == old(console) + [LogMessage(LogMessageType.Write, text, color)]
                          && printed == old(printed) + [text] && byWorker == old(byWorker) + [false]
                          && messages == old(messages) && accepted == old(accepted)
      ensures !isReady ==> console == old(console) && printed == old(printed) && byWorker == old(byWorker)
                           && (AcceptsBuffered() ==> messages == old(messages) + [LogMessage(LogMessageType.Write, text, color)])
                           && (!AcceptsBuffered() ==> messages == old(messages) && accepted == old(accepted))
    {
      if isReady {
        Render(LogMessage(LogMessageType.Write, text, color), false);
      } else {
        WriteAsync(text, color);
      }
    }

    /**
     * One iteration of `ProcessQueue`: take the front entry, render it through
     * `Write` or `WriteLine` according to its kind, and stop the worker if the
     * queue is now empty and shutdown was requested. With no worker, or an
     * empty queue (`Take` blocks), no step happens.
     */
    method DrainStep() returns (took: bool)
      requires Valid()
      modifies this`messages, this`console, this`printed, this`byWorker, this`workerAlive, this`drained
      ensures Valid() && Evolved()
      ensures took <==> old(workerAlive) && old(messages) != []
      ensures !took ==> messages == old(messages) && console == old(console) && printed == old(printed)
                        && workerAlive == old(workerAlive) && drained == old(drained) && byWorker == old(byWorker)
      ensures took ==>
        messages == old(messages)[1..]
        && drained == old(drained) + [old(messages)[0]]
        && console == old(console) + [old(messages)[0]]
        && printed == old(printed) + [old(messages)[0].text]
        && byWorker == old(byWorker) + [true]
        && (workerAlive <==> !(messages == [] && isShuttingDown))
    {
      if !workerAlive || messages == [] {
        return false;
      }
      var message := messages[0];
      messages := messages[1..];
      drained := drained + [message];
      assert accepted == drained + messages;
      match message.kind {
        case WriteLine => Render(LogMessage(LogMessageType.WriteLine, message.text, message.color), true);
        case Write => Render(LogMessage(LogMessageType.Write, message.text, message.color), true);
      }
      assert WorkerRendered(console, byWorker) == drained && printed == Texts(console);
      if messages == [] && isShuttingDown {
        workerAlive := false;
      }
      return true;
    }

    /**
     * A worker that also notices shutdown while the queue is empty (as one
     * that stops when the queue is marked complete would): with shutdown
     * requested and nothing queued it stops; otherwise it behaves as `DrainStep`.
     */
    method DrainStepIntended() returns (took: bool)
      requires Valid()
      modifies this`messages, this`console, this`printed, this`byWorker, this`workerAlive, this`drained
      ensures Valid() && OnlyGrows()
      ensures took <==> old(workerAlive) && (old(messages) != [] || isShuttingDown)
      ensures !old(workerAlive) || old(messages) == [] ==>
        messages == old(messages) && console == old(console) && printed == old(printed)
        && drained == old(drained) && byWorker == old(byWorker)
        && (workerAlive <==> old(workerAlive) && !isShuttingDown)
      ensures old(workerAlive) && old(messages) != [] ==>
        messages == old(messages)[1..]
        && drained == old(drained) + [old(messages)[0]]
        && console == old(console) + [old(messages)[0]]
        && printed == old(printed) + [old(messages)[0].text]
        && byWorker == old(byWorker) + [true]
        && (workerAlive <==> !(messages == [] && isShuttingDown))
    {
      if workerAlive && messages == [] && isShuttingDown {
        workerAlive := false;
        return true;
      }
      took := DrainStep();
    }

    /**
     * `WaitForConsoleInit`, one poll of its loop: it returns when the logger is
     * disabled, ready, or the cancellation was requested.
     */
    method WaitForConsoleInit(cancelled: bool) returns (returned: bool)
      requires Valid()
      ensures returned <==> !isEnabled || isReady || cancelled
    {
      if !isEnabled {
        return true;
      }
      if isReady {
        return true;
      }
      return cancelled;
    }

    /**
     * The wait loop of `Shutdown` on a ready logger. While the caller sleeps,
     * only the worker makes progress towards its own end, so each iteration
     * is one worker step. It ends when the worker has stopped, or when the
     * worker is blocked in `Take` on an empty queue.
     */
    method AwaitWorker()
      requires Valid() && isShuttingDown && isReady
      modifies this`messages, this`console, this`printed, this`byWorker, this`workerAlive, this`drained
      ensures Valid() && Evolved() && messages == []
      ensures console == old(console) + old(messages) && drained == old(drained) + old(messages)
      ensures printed == old(printed) + Texts(old(messages))
      ensures workerAlive <==> old(workerAlive) && old(messages) == []
      decreases |messages|
    {
      if messages == [] {
        return;
      }
      ghost var front, rest := messages[0], messages[1..];
      var _ := DrainStep();
      AwaitWorker();
      assert old(messages) == [front] + rest;
      TextsAppend(old(console), old(messages));
    }

    /**
     * The wait loop of `Shutdown` with the worker of `DrainStepIntended`. That
     * worker takes the same steps as `DrainStep` while entries are queued, and
     * then one more: it notices the empty queue and stops.
     */
    method AwaitWorkerIntended()
      requires Valid() && isShuttingDown && isReady
      modifies this`messages, this`console, this`printed, this`byWorker, this`workerAlive, this`drained
      ensures Valid() && OnlyGrows() && messages == [] && !workerAlive
      ensures console == old(console) + old(messages) && drained == old(drained) + old(messages)
      ensures printed == old(printed) + Texts(old(messages))
    {
      AwaitWorker();
      if workerAlive {
        var _ := DrainStepIntended();
      }
    }

    /**
     * `Shutdown`: stop accepting buffered writes; when ready, wait until the
     * worker has stopped. `returned` is false when the worker is blocked for
     * good, so that the call never returns.
     */
    method Shutdown() returns (returned: bool)
      requires Valid()
      modifies this`isShuttingDown, this`messages, this`console, this`printed, this`byWorker,
               this`workerAlive, this`drained
      ensures Valid() && Evolved()
      ensures isShuttingDown == isEnabled
      ensures !isReady ==> messages == old(messages) && console == old(console) && printed == old(printed)
      ensures isReady ==> messages == [] && console == old(console) + old(messages)
                          && printed == old(printed) + Texts(old(messages))
                          && drained == old(drained) + old(messages)
      ensures isReady ==> (workerAlive <==> old(workerAlive) && old(messages) == [])
      ensures returned <==> !(isReady && workerAlive)
      ensures returned <==> !(isReady && old(workerAlive) && old(messages) == [])
      ensures !returned ==> ShutdownDeadlocked()
    {
      if !isEnabled {
        return true;
      }
      isShuttingDown := true;
      if isReady {
        AwaitWorker();
      }
      returned := !(isReady && workerAlive);
    }

    /**
     * `Shutdown` with the worker of `DrainStepIntended`: it always returns, and
     * when ready it does so with every queued entry rendered in order.
     */
    method ShutdownIntended() returns (returned: bool)
      requires Valid()
      modifies this`isShuttingDown, this`messages, this`console, this`printed, this`byWorker,
               this`workerAlive, this`drained
      ensures Valid() && OnlyGrows()
      ensures returned
      ensures isShuttingDown == isEnabled && !workerAlive
      ensures !isReady ==> messages == old(messages) && console == old(console) && printed == old(printed)
      ensures isReady ==> messages == [] && console == old(console) + old(messages)
                          && printed == old(printed) + Texts(old(messages))
                          && drained == old(drained) + old(messages)
    {
      if !isEnabled {
        return true;
      }
      isShuttingDown := true;
      if isReady {
        AwaitWorkerIntended();
      }
      returned := !(isReady && workerAlive);
    }

    /** The registered control handler receiving a signal from the console. */
    method ReceiveControlSignal(signal: CtrlType) returns (suppressDefault: bool)
      requires Valid() && handlerRegistered
      modifies this`closeNotifications
      ensures Valid() && Evolved() && !suppressDefault
      ensures closeNotifications == old(closeNotifications) + (if signal == CtrlClose then 1 else 0)
    {
      var response := NotifyOnConsoleClose(signal);
      if response.raisesConsoleClose {
        closeNotifications := closeNotifications + 1;
      }
      suppressDefault := response.suppressDefault;
    }

    /**
     * One call from some thread. The initialisation task ends at most once and
     * signals arrive only at a registered handler; every other call can come
     * at any time.
     */
    method Perform(operation: Operation)
      requires Valid()
      modifies this`isReady, this`isShuttingDown, this`messages, this`accepted, this`console, this`printed, this`byWorker,
               this`workerAlive, this`drained, this`initPending, this`handlerRegistered, this`closeNotifications
      ensures Valid() && Evolved()
    {
      match operation {
        case WriteCall(text, color) => Write(text, color);
        case WriteLineCall(text, color) => WriteLine(text, color);
        case WriteAsyncCall(text, color) => WriteAsync(text, color);
        case WriteLineAsyncCall(text, color) => WriteLineAsync(text, color);
        case ShutdownCall => var _ := Shutdown();
        case WaitForConsoleInitCall(cancelled) => var _ := WaitForConsoleInit(cancelled);
        case WorkerStep => var _ := DrainStep();
        case InitSucceeded => if initPending { AttachSucceeded(); }
        case InitFailed => if initPending { AttachFailed(); }
        case ControlSignal(signal) => if handlerRegistered { var _ := ReceiveControlSignal(signal); }
      }
    }

    /**
     * Any interleaving of the threads' calls. Across all of them the flags only
     * ever rise and a failed initialisation stays failed; the queue's history
     * only grows, and what the worker has rendered, followed by what is still
     * queued, is that history in order, and the worker has taken no more
     * entries than the console holds; `OnPrintMessage` has carried each
     * rendered entry's text once, in console order; nothing enters the queue
     * once shutdown was requested; and a deadlocked shutdown stays deadlocked.
     */
    method Run(operations: seq<Operation>)
      requires Valid()
      modifies this`isReady, this`isShuttingDown, this`messages, this`accepted, this`console, this`printed, this`byWorker,
               this`workerAlive, this`drained, this`initPending, this`handlerRegistered, this`closeNotifications
      ensures Valid() && Evolved()
      ensures WorkerRendered(console, byWorker) + messages == accepted && printed == Texts(console)
      ensures |drained| <= |console|
      ensures !isEnabled ==> messages == [] && console == [] && printed == []
    {
      for i := 0 to |operations|
        invariant Valid() && Evolved()
      {
        ghost var before := (accepted, drained, console, printed);
        Perform(operations[i]);
        PrefixTransitive(old(accepted), before.0, accepted);
        PrefixTransitive(old(drained), before.1, drained);
        PrefixTransitive(old(console), before.2, console);
        PrefixTransitive(old(printed), before.3, printed);
      }
      WorkerRenderedIsSubsequence(console, byWorker);
    }
  }

  lemma PrefixTransitive<T>(a: seq<T>, b: seq<T>, c: seq<T>)
    requires a <= b && b <= c
    ensures a <= c
  {
    assert c[..|a|] == b[..|a|];
  }

  // ----- Scenarios -------------------------------------------------------------

  /** A disabled logger neither queues nor renders, whatever its callers do. */
  method DisabledLoggerStaysSilent(operations: seq<Operation>)
    returns (printedTexts: seq<string>, queued: seq<LogMessage>, shutdownReturned: bool)
    ensures printedTexts == [] && queued == [] && shutdownReturned
  {
    var log := new Logger(false);
    log.Run(operations);
    shutdownReturned := log.Shutdown();
    printedTexts, queued := log.printed, log.messages;
  }

  /**
   * When the console cannot be allocated, buffered entries stay queued and
   * `Shutdown` returns at once; whatever the threads do afterwards, the
   * logger never becomes ready and the entries stay queued, unrendered.
   */
  method FailedAttachStrandsEntries(a: string, b: string, later: seq<Operation>)
    returns (ready: bool, shutdownReturned: bool, queued: seq<LogMessage>, printedTexts: seq<string>)
    ensures !ready && shutdownReturned && printedTexts == []
    ensures queued == [LogMessage(LogMessageType.WriteLine, a, TextColor), LogMessage(LogMessageType.WriteLine, b, TextColor)]
  {
    var log := new Logger(true);
    log.AttachFailed();
    log.WriteLineAsync(a, TextColor);
    log.WriteLineAsync(b, TextColor);
    assert !log.isReady && log.isEnabled;
    ghost var pending := log.messages;
    assert pending == [LogMessage(LogMessageType.WriteLine, a, TextColor), LogMessage(LogMessageType.WriteLine, b, TextColor)];
    shutdownReturned := log.Shutdown();
    assert log.messages == pending && log.accepted == pending;
    log.Run(later);
    assert !log.isReady && log.accepted == pending;
    assert log.drained == [] && log.console == [];
    assert log.messages == pending;
    ready, queued, printedTexts := log.isReady, log.messages, log.printed;
  }

  /**
   * Entries buffered before the console is ready are printed in the order
   * they were written; `Shutdown` waits for all of them and for the worker
   * to stop, and buffered writes
   * after it are dropped.
   */
  method ShutdownDrainsInEnqueueOrder(texts: seq<string>, late: string)
    returns (shutdownReturned: bool, workerStopped: bool, printedTexts: seq<string>, queuedAfter: seq<LogMessage>)
    ensures shutdownReturned == (texts != []) && workerStopped == (texts != [])
    ensures printedTexts == texts && queuedAfter == []
  {
    var log := new Logger(true);
    for i := 0 to |texts|
      invariant log.Valid() && log.initPending && !log.isShuttingDown
      invariant |log.messages| == i
      invariant forall k :: 0 <= k < i ==> log.messages[k].text == texts[k]
    {
      log.WriteLineAsync(texts[i], TextColor);
    }
    log.AttachSucceeded();
    ghost var queued := log.messages;
    TextsAreTheEntries(queued);
    shutdownReturned := log.Shutdown();
    workerStopped := !log.workerAlive;
    log.WriteLineAsync(late, TextColor);
    printedTexts, queuedAfter := log.printed, log.messages;
  }

  /**
   * Once `Shutdown` has returned on a ready logger the worker is gone for
   * good: whatever the threads do next, a second `Shutdown` returns too.
   */
  method ShutdownReturnsAgain(texts: seq<string>, later: seq<Operation>)
    returns (firstReturned: bool, secondReturned: bool)
    ensures firstReturned == (texts != [])
    ensures firstReturned ==> secondReturned
  {
    var log := new Logger(true);
    for i := 0 to |texts|
      invariant log.Valid() && log.initPending && !log.isShuttingDown
      invariant |log.messages| == i
    {
      log.WriteLineAsync(texts[i], TextColor);
    }
    log.AttachSucceeded();
    firstReturned := log.Shutdown();
    log.Run(later);
    secondReturned := log.Shutdown();
  }

  /**
   * On a ready logger a direct write prints once, at once; a buffered write
   * prints nothing until the worker takes it.
   */
  method ReadyLoggerWrites(direct: string, buffered: string)
    returns (afterDirect: seq<string>, afterBuffered: seq<string>, afterDrain: seq<string>)
    ensures afterDirect == [direct] && afterBuffered == [direct] && afterDrain == [direct, buffered]
  {
    var log := new Logger(true);
    log.AttachSucceeded();
    assert log.isReady && !log.isShuttingDown && log.messages == [] && log.printed == [];
    log.WriteLine(direct, TextColor);
    afterDirect := log.printed;
    assert log.workerAlive && log.messages == [];
    log.WriteLineAsync(buffered, TextColor);
    afterBuffered := log.printed;
    assert log.workerAlive && log.messages == [LogMessage(LogMessageType.WriteLine, buffered, TextColor)];
    var _ := log.DrainStep();
    afterDrain := log.printed;
  }

  /**
   * The worker checks for shutdown only after taking an entry: once the queue
   * has been drained, `Shutdown` waits for a worker that is blocked in `Take`
   * and, whatever the other threads do next, never stops.
   */
  method IdleShutdownNeverReturns(text: string, later: seq<Operation>)
    returns (shutdownReturned: bool, workerStopped: bool)
    ensures !shutdownReturned && !workerStopped
  {
    var log := new Logger(true);
    log.AttachSucceeded();
    log.WriteLineAsync(text, TextColor);
    var _ := log.DrainStep();
    assert log.isReady && log.workerAlive && log.messages == [];
    shutdownReturned := log.Shutdown();
    assert log.ShutdownDeadlocked();
    log.Run(later);
    workerStopped := !log.workerAlive;
  }

  /** The same calls with the worker of `DrainStepIntended`: `Shutdown` returns and the worker stops. */
  method IdleShutdownIntendedReturns(text: string)
    returns (shutdownReturned: bool, workerStopped: bool, printedTexts: seq<string>)
    ensures shutdownReturned && workerStopped && printedTexts == [text]
  {
    var log := new Logger(true);
    log.AttachSucceeded();
    log.WriteLineAsync(text, TextColor);
    var _ := log.DrainStepIntended();
    assert log.printed == [text] && log.messages == [];
    shutdownReturned := log.ShutdownIntended();
    workerStopped := !log.workerAlive;
    printedTexts := log.printed;
  }

  /** Only the close signal reaches `OnConsoleClose`, and the handler never suppresses the default. */
  method CloseSignalNotifiesOnce(signals: seq<CtrlType>)
    returns (notifications: nat, anySuppressed: bool)
    ensures !anySuppressed
    ensures notifications == |set i | 0 <= i < |signals| && signals[i] == CtrlClose|
  {
    var log := new Logger(true);
    log.AttachSucceeded();
    anySuppressed := false;
    ghost var seen: set<int> := {};
    for i := 0 to |signals|
      invariant log.Valid() && log.handlerRegistered && !anySuppressed
      invariant seen == set k | 0 <= k < i && signals[k] == CtrlClose
      invariant log.closeNotifications == |seen|
    {
      var suppressed := log.ReceiveControlSignal(signals[i]);
      anySuppressed := anySuppressed || suppressed;
      if signals[i] == CtrlClose {
        assert i !in seen;
        seen := seen + {i};
      }
      assert seen == set k | 0 <= k < i + 1 && signals[k] == CtrlClose;
    }
    notifications := log.closeNotifications;
  }
}
