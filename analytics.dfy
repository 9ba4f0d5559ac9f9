/**
 * The analytical logger of the Singleton demo (src/creational/singleton/definition.js):
 * a buffer of logged events that is uploaded once no event has been logged
 * for five one-second ticks.
 *
 * The browser's timers become explicit steps. `Tick` is one firing of the
 * 1000 ms interval; the upload is split at its `await` into the part that runs
 * inside the tick (`UploadBegun`) and `FinishUpload`, the continuation that
 * runs when the 2000 ms delay resolves. The intervals the browser has
 * scheduled and not cleared are part of the state, so that "at most one
 * countdown" is a statement about them. Every call of the registered listener
 * is recorded in `notified`; `callbackErrors` counts the listener failures
 * that were caught and logged.
 */
module Analytics {
  import opened Wrappers

  /** `#uploadInterval`, also the value `#timeLeft` restarts from. */
  const UPLOAD_INTERVAL: int := 5000
  /** The period of the countdown interval and the amount each tick subtracts. */
  const TICK: int := 1000
  const NO_EVENTS_MESSAGE: string := "No events to upload"

  /** The `EVENT` constants. Any string may be logged as an event type. */
  const CTA_CLICK: string := "cta_click"
  const PAGE_MOUNT: string := "page_mount"
  const PAGE_UNMOUNT: string := "page_unmount"

  /** The `STATUS` constants. */
  datatype Status = Idle | Countdown | Uploading | Uploaded

  /** The string each `STATUS` constant stands for. */
  function StatusName(s: Status): (r: string)
    ensures s == Idle <==> r == "idle"
    ensures s == Countdown <==> r == "countdown"
    ensures s == Uploading <==> r == "uploading"
    ensures s == Uploaded <==> r == "uploaded"
  {
    match s
    case Idle => "idle"
    case Countdown => "countdown"
    case Uploading => "uploading"
    case Uploaded => "uploaded"
  }

  /** A cached event: `{ type, data, timestamp }`; the timestamp is supplied by the caller. */
  datatype Event = Event(kind: string, data: map<string, string>, timestamp: string)

  /** The payloads the listener is called with. */
  datatype Payload =
    | NoDetails                                        // {}
    | Note(message: string)                            // { message }
    | TimeLeft(ms: int)                                // { timeLeft }
    | UploadingCount(count: nat)                       // { uploadingCount }
    | UploadedBatch(count: nat, uploaded: seq<Event>)  // { uploadedCount, uploaded }

  /** A registered listener function; `throws` says whether calling it raises. */
  datatype Listener = Listener(id: nat, throws: bool)

  /** What `registerStatusListener` may be given. */
  datatype ListenerArg = Function(listener: Listener) | NotAFunction

  /** One call of the listener: which listener, with which status and payload. */
  datatype Notification = Notification(listener: nat, status: Status, payload: Payload)

  type TimerId = nat

  /** The logger's private fields, together with the timers and the listener calls. */
  datatype Logger = Logger(
    cachedEvents: seq<Event>,
    uploadJob: Option<TimerId>,
    timeLeft: int,
    callback: Option<Listener>,
    currentStatus: Status,
    intervals: set<TimerId>,   // intervals scheduled and not cleared
    nextTimer: TimerId,        // the handle the next `setInterval` returns
    pendingUploads: nat,       // uploads suspended at the 2000 ms delay
    notified: seq<Notification>,
    callbackErrors: nat)

  /** The timers a job field refers to. */
  function JobTimers(job: Option<TimerId>): set<TimerId> {
    if job.Some? then {job.value} else {}
  }

  /**
   * The logger's invariant: the only scheduled interval is `#uploadJob`, so at
   * most one countdown runs; and `#timeLeft` is a whole number of ticks within
   * the interval, positive while a countdown runs.
   */
  ghost predicate Consistent(s: Logger) {
    && s.intervals == JobTimers(s.uploadJob)
    && (forall t :: t in s.intervals ==> t < s.nextTimer)
    && 0 <= s.timeLeft <= UPLOAD_INTERVAL
    && s.timeLeft % TICK == 0
    && (s.uploadJob.Some? ==> s.timeLeft > 0)
  }

  /** The field initialisers of a new logger. */
  function Initial(): (s: Logger)
    ensures Consistent(s)
    ensures s.cachedEvents == [] && s.callback.None? && s.currentStatus == Idle
    ensures s.uploadJob.None? && s.intervals == {} && s.timeLeft == UPLOAD_INTERVAL
  {
    Logger([], None, UPLOAD_INTERVAL, None, Idle, {}, 0, 0, [], 0)
  }

  /** What one call of the current listener adds to the record. */
  function Delivered(callback: Option<Listener>, status: Status, payload: Payload): seq<Notification> {
    if callback.Some? then [Notification(callback.value.id, status, payload)] else []
  }

  /**
   * `#invokeCallback(status, payload)`: the status is set even when no listener
   * is registered, and a listener that throws changes nothing but the error count.
   */
  function Notified(s: Logger, status: Status, payload: Payload): (r: Logger)
    ensures r.currentStatus == status
    ensures r.notified == s.notified + Delivered(s.callback, status, payload)
    ensures r.callbackErrors == s.callbackErrors + (if s.callback.Some? && s.callback.value.throws then 1 else 0)
    ensures r.(currentStatus := s.currentStatus, notified := s.notified, callbackErrors := s.callbackErrors) == s
    ensures Consistent(s) ==> Consistent(r)
  {
    var errors := if s.callback.Some? && s.callback.value.throws then s.callbackErrors + 1 else s.callbackErrors;
    s.(currentStatus := status, notified := s.notified + Delivered(s.callback, status, payload), callbackErrors := errors)
  }

  /** `registerStatusListener(arg)`. */
  function Registered(s: Logger, arg: ListenerArg): (r: Logger)
    ensures arg.NotAFunction? ==> r == s
    ensures arg.Function? ==> r.callback == Some(arg.listener) && r.currentStatus == Idle
    ensures arg.Function? ==> r.notified == s.notified + [Notification(arg.listener.id, Idle, NoDetails)]
    ensures arg.Function? ==> r.callbackErrors == s.callbackErrors + (if arg.listener.throws then 1 else 0)
    ensures r.(callback := s.callback, currentStatus := s.currentStatus, notified := s.notified, callbackErrors := s.callbackErrors) == s
    ensures Consistent(s) ==> Consistent(r)
  {
    if arg.NotAFunction? then s
    else Notified(s.(callback := Some(arg.listener), currentStatus := Idle), Idle, NoDetails)
  }

  /** `#startCountDown()` up to the point where the new interval is scheduled. */
  function CountdownStarted(s: Logger): (r: Logger)
    ensures r.timeLeft == UPLOAD_INTERVAL
    ensures r.uploadJob == Some(s.nextTimer)
    ensures Consistent(s) ==> s.nextTimer !in s.intervals
    ensures r.intervals == s.intervals - JobTimers(s.uploadJob) + {s.nextTimer}
    ensures r.(timeLeft := s.timeLeft, uploadJob := s.uploadJob, intervals := s.intervals, nextTimer := s.nextTimer) == s
    ensures Consistent(s) ==> Consistent(r)
  {
    s.(timeLeft := UPLOAD_INTERVAL,
       intervals := s.intervals - JobTimers(s.uploadJob) + {s.nextTimer},
       uploadJob := Some(s.nextTimer),
       nextTimer := s.nextTimer + 1)
  }

  /**
   * `logEvent(type, data)`: the event goes to the end of the cache and the
   * countdown restarts from the full interval, replacing any running one.
   */
  function Logged(s: Logger, e: Event): (r: Logger)
    ensures r.cachedEvents == s.cachedEvents + [e]
    ensures r.timeLeft == UPLOAD_INTERVAL && r.uploadJob.Some?
    ensures Consistent(s) ==> Consistent(r) && r.intervals == {r.uploadJob.value} && r.uploadJob.value !in s.intervals
    ensures r.callback == s.callback && r.currentStatus == s.currentStatus && r.notified == s.notified
    ensures r.pendingUploads == s.pendingUploads && r.callbackErrors == s.callbackErrors
  {
    CountdownStarted(s.(cachedEvents := s.cachedEvents + [e]))
  }

  /**
   * The first half of `#uploadEvents()`: with an empty cache the listener hears
   * `IDLE`; otherwise it hears `UPLOADING` with the cache's length and the
   * upload waits for its delay.
   */
  function UploadBegun(s: Logger): (r: Logger)
    ensures |s.cachedEvents| == 0 ==> r == Notified(s, Idle, Note(NO_EVENTS_MESSAGE))
    ensures |s.cachedEvents| > 0 ==> r.currentStatus == Uploading && r.pendingUploads == s.pendingUploads + 1
    ensures |s.cachedEvents| > 0 ==> r.notified == s.notified + Delivered(s.callback, Uploading, UploadingCount(|s.cachedEvents|))
    ensures |s.cachedEvents| > 0 ==> r.(currentStatus := s.currentStatus, notified := s.notified, callbackErrors := s.callbackErrors, pendingUploads := s.pendingUploads) == s
    ensures r.cachedEvents == s.cachedEvents && r.uploadJob == s.uploadJob && r.intervals == s.intervals
    ensures Consistent(s) ==> Consistent(r)
  {
    if |s.cachedEvents| == 0 then Notified(s, Idle, Note(NO_EVENTS_MESSAGE))
    else Notified(s, Uploading, UploadingCount(|s.cachedEvents|)).(pendingUploads := s.pendingUploads + 1)
  }

  /**
   * The second half of `#uploadEvents()`, after the delay: the cache as it is
   * now (events logged during the delay included) is uploaded and cleared.
   */
  function UploadFinished(s: Logger): (r: Logger)
    requires s.pendingUploads > 0
    ensures r.cachedEvents == [] && r.pendingUploads == s.pendingUploads - 1
    ensures r.currentStatus == Uploaded
    ensures r.notified == s.notified + Delivered(s.callback, Uploaded, UploadedBatch(|s.cachedEvents|, s.cachedEvents))
    ensures r.(cachedEvents := s.cachedEvents, currentStatus := s.currentStatus, notified := s.notified, callbackErrors := s.callbackErrors, pendingUploads := s.pendingUploads) == s
    ensures Consistent(s) ==> Consistent(r)
  {
    var uploaded := s.cachedEvents;
    Notified(s.(cachedEvents := [], pendingUploads := s.pendingUploads - 1), Uploaded, UploadedBatch(|uploaded|, uploaded))
  }

  /**
   * One firing of the countdown interval: `#timeLeft` drops by a tick; while
   * time is left the listener hears `COUNTDOWN`, otherwise the interval is
   * cleared and the upload begins.
   */
  function Ticked(s: Logger): (r: Logger)
    requires s.uploadJob.Some?
    ensures s.timeLeft - TICK > 0 ==> r == Notified(s.(timeLeft := s.timeLeft - TICK), Countdown, TimeLeft(s.timeLeft - TICK))
    ensures s.timeLeft - TICK <= 0 ==> r.uploadJob.None? && r.intervals == s.intervals - {s.uploadJob.value}
    ensures s.timeLeft - TICK <= 0 ==> r == UploadBegun(s.(timeLeft := s.timeLeft - TICK, intervals := s.intervals - {s.uploadJob.value}, uploadJob := None))
    ensures r.cachedEvents == s.cachedEvents
    ensures Consistent(s) ==> Consistent(r)
  {
    var left := s.timeLeft - TICK;
    if left <= 0 then
      UploadBegun(s.(timeLeft := left, intervals := s.intervals - {s.uploadJob.value}, uploadJob := None))
    else
      Notified(s.(timeLeft := left), Countdown, TimeLeft(left))
  }

  // ---------------------------------------------------------------------------
  // Runs of several steps
  // ---------------------------------------------------------------------------

  /** `n` firings of the countdown interval; nothing fires once it is cleared. */
  function Ticks(s: Logger, n: nat): Logger
    decreases n
  {
    if n == 0 then s
    else
      var before := Ticks(s, n - 1);
      if before.uploadJob.None? then before else Ticked(before)
  }

  /** `logEvent` for each of `es`, in order, with no tick in between. */
  function LoggedAll(s: Logger, es: seq<Event>): Logger
    decreases |es|
  {
    if es == [] then s else Logged(LoggedAll(s, es[..|es| - 1]), es[|es| - 1])
  }

  /** The `COUNTDOWN` notices the first `k` ticks of a fresh countdown deliver: 4000, 3000, ... */
  function CountdownNotices(callback: Option<Listener>, k: nat): seq<Notification>
    decreases k
  {
    if k == 0 then []
    else CountdownNotices(callback, k - 1) + Delivered(callback, Countdown, TimeLeft(UPLOAD_INTERVAL - TICK * k))
  }

  /** The number of listener failures `k` calls of `callback` add. */
  function Failures(callback: Option<Listener>, k: nat): nat {
    if callback.Some? && callback.value.throws then k else 0
  }

  /**
   * The first four ticks after a (re)start of the countdown only count down:
   * tick k leaves `UPLOAD_INTERVAL - k * TICK` and notifies exactly that.
   */
  lemma {:induction false} CountdownPhase(s: Logger, k: nat)
    requires s.uploadJob.Some? && s.timeLeft == UPLOAD_INTERVAL
    requires k < 5
    ensures Ticks(s, k) == s.(timeLeft := UPLOAD_INTERVAL - TICK * k,
                              currentStatus := if k == 0 then s.currentStatus else Countdown,
                              notified := s.notified + CountdownNotices(s.callback, k),
                              callbackErrors := s.callbackErrors + Failures(s.callback, k))
  {
    if k > 0 {
      CountdownPhase(s, k - 1);
    }
  }

  /** The fifth tick clears the interval and begins the upload. */
  lemma FifthTickUploads(s: Logger)
    requires s.uploadJob.Some? && s.timeLeft == UPLOAD_INTERVAL
    ensures var counted := Ticks(s, 4);
            Ticks(s, 5) == UploadBegun(counted.(timeLeft := 0, intervals := s.intervals - {s.uploadJob.value}, uploadJob := None))
    ensures Ticks(s, 5).uploadJob.None?
  {
  }

  /**
   * Logging a non-empty run of events appends them in order and leaves exactly
   * one countdown, restarted from the full interval.
   */
  lemma {:induction false} LoggedAllBuffers(s: Logger, es: seq<Event>)
    requires Consistent(s) && es != []
    ensures var r := LoggedAll(s, es);
            && r.cachedEvents == s.cachedEvents + es
            && Consistent(r) && r.uploadJob.Some? && r.intervals == {r.uploadJob.value}
            && r.timeLeft == UPLOAD_INTERVAL
            && r.callback == s.callback && r.currentStatus == s.currentStatus && r.notified == s.notified
            && r.pendingUploads == s.pendingUploads && r.callbackErrors == s.callbackErrors
  {
    var init := es[..|es| - 1];
    if init != [] {
      LoggedAllBuffers(s, init);
      assert s.cachedEvents + init + [es[|es| - 1]] == s.cachedEvents + es;
    } else {
      assert es == [es[0]];
    }
  }

  /**
   * A burst of events followed by five quiet ticks and the end of the delay
   * uploads the whole burst once, in log order: the listener hears the four
   * countdown values, then `UPLOADING` and `UPLOADED` with all the events,
   * and the cache is empty again.
   */
  lemma DebouncedUpload(s: Logger, es: seq<Event>)
    requires Consistent(s) && es != []
    ensures var counted := Ticks(LoggedAll(s, es), 5);
            var batch := s.cachedEvents + es;
            && counted.pendingUploads == s.pendingUploads + 1
            && counted.uploadJob.None? && counted.intervals == {}
            && counted.currentStatus == Uploading
            && counted.notified == s.notified + CountdownNotices(s.callback, 4)
                                   + Delivered(s.callback, Uploading, UploadingCount(|batch|))
            && var done := UploadFinished(counted);
               && done.cachedEvents == []
               && done.currentStatus == Uploaded
               && done.notified == counted.notified + Delivered(s.callback, Uploaded, UploadedBatch(|batch|, batch))
  {
    var logged := LoggedAll(s, es);
    LoggedAllBuffers(s, es);
    CountdownPhase(logged, 4);
    FifthTickUploads(logged);
  }

  /**
   * An event logged while an upload waits for its delay is uploaded with that
   * batch, and the countdown it restarted later finds an empty cache.
   */
  lemma LateEventJoinsUpload(s: Logger, e: Event)
    requires Consistent(s) && s.pendingUploads > 0
    ensures var done := UploadFinished(Logged(s, e));
            && done.notified == s.notified + Delivered(s.callback, Uploaded, UploadedBatch(|s.cachedEvents| + 1, s.cachedEvents + [e]))
            && done.cachedEvents == []
            && done.uploadJob.Some? && done.timeLeft == UPLOAD_INTERVAL
            && Ticks(done, 5) == Notified(Ticks(done, 4).(timeLeft := 0, intervals := {}, uploadJob := None), Idle, Note(NO_EVENTS_MESSAGE))
  {
  }

  /** A listener that throws sees the same calls, and the logger the same transition, as one that does not. */
  lemma ThrowingListenerIsHarmless(s: Logger, l: Listener, status: Status, payload: Payload)
    requires s.callback == Some(l)
    ensures var quiet := s.(callback := Some(l.(throws := false)));
            Notified(s, status, payload) == Notified(quiet, status, payload).(callback := s.callback, callbackErrors := s.callbackErrors + Failures(s.callback, 1))
  {
  }

  // ---------------------------------------------------------------------------
  // The logger object
  // ---------------------------------------------------------------------------

  class AnalyticalLogger {
    var cachedEvents: seq<Event>
    var uploadJob: Option<TimerId>
    var timeLeft: int
    var callback: Option<Listener>
    var currentStatus: Status
    var intervals: set<TimerId>
    var nextTimer: TimerId
    var pendingUploads: nat
    var notified: seq<Notification>
    var callbackErrors: nat

    /** The fields as a value. */
    function State(): Logger
      reads this
    {
      Logger(cachedEvents, uploadJob, timeLeft, callback, currentStatus, intervals, nextTimer, pendingUploads, notified, callbackErrors)
    }

    ghost predicate Valid()
      reads this
    {
      Consistent(State())
    }

    /** `new AnalyticalLogger()` when no instance exists yet. */
    constructor ()
      ensures Valid() && State() == Initial()
    {
      cachedEvents := [];
      uploadJob := None;
      timeLeft := UPLOAD_INTERVAL;
      callback := None;
      currentStatus := Idle;
      intervals := {};
      nextTimer := 0;
      pendingUploads := 0;
      notified := [];
      callbackErrors := 0;
    }

    method InvokeCallback(status: Status, payload: Payload)
      requires Valid()
      modifies this
      ensures Valid() && State() == Notified(old(State()), status, payload)
    {
      currentStatus := status;
      if callback.Some? {
        notified := notified + [Notification(callback.value.id, status, payload)];
        if callback.value.throws {
          // caught and passed to console.error
          callbackErrors := callbackErrors + 1;
        }
      }
    }

    method RegisterStatusListener(arg: ListenerArg)
      requires Valid()
      modifies this
      ensures Valid() && State() == Registered(old(State()), arg)
    {
      if arg.Function? {
        callback := Some(arg.listener);
        currentStatus := Idle;
        InvokeCallback(currentStatus, NoDetails);
      }
    }

    method LogEvent(eventType: string, eventData: map<string, string>, timestamp: string)
      requires Valid()
      modifies this
      ensures Valid() && State() == Logged(old(State()), Event(eventType, eventData, timestamp))
    {
      cachedEvents := cachedEvents + [Event(eventType, eventData, timestamp)];
      StartCountDown();
    }

    method StartCountDown()
      requires Valid()
      modifies this
      ensures Valid() && State() == CountdownStarted(old(State()))
    {
      timeLeft := UPLOAD_INTERVAL;
      if uploadJob.Some? {
        intervals := intervals - {uploadJob.value};  // clearInterval
      }
      uploadJob := Some(nextTimer);                   // setInterval
      intervals := intervals + {nextTimer};
      nextTimer := nextTimer + 1;
    }

    /** The body of the countdown interval, run when it fires. */
    method Tick()
      requires Valid() && uploadJob.Some?
      modifies this
      ensures Valid() && State() == Ticked(old(State()))
    {
      timeLeft := timeLeft - TICK;
      if timeLeft <= 0 {
        intervals := intervals - {uploadJob.value};   // clearInterval
        uploadJob := None;
        UploadEvents();
      } else {
        InvokeCallback(Countdown, TimeLeft(timeLeft));
      }
    }

    /** `#uploadEvents()` up to its `await`. */
    method UploadEvents()
      requires Valid()
      modifies this
      ensures Valid() && State() == UploadBegun(old(State()))
    {
      if |cachedEvents| == 0 {
        InvokeCallback(Idle, Note(NO_EVENTS_MESSAGE));
        return;
      }
      InvokeCallback(Uploading, UploadingCount(|cachedEvents|));
      pendingUploads := pendingUploads + 1;
    }

    /** The rest of `#uploadEvents()`, run when the 2000 ms delay resolves. */
    method FinishUpload()
      requires Valid() && pendingUploads > 0
      modifies this
      ensures Valid() && State() == UploadFinished(old(State()))
    {
      pendingUploads := pendingUploads - 1;
      var uploaded := cachedEvents;
      cachedEvents := [];
      InvokeCallback(Uploaded, UploadedBatch(|uploaded|, uploaded));
    }
  }

  /** The static `AnalyticalLogger.instance` slot, made an explicit object. */
  class LoggerSlot {
    var instance: AnalyticalLogger?

    constructor ()
      ensures instance == null
    {
      instance := null;
    }

    /** `new AnalyticalLogger()`: every construction after the first returns the first instance. */
    method Construct() returns (l: AnalyticalLogger)
      modifies this
      ensures instance == l
      ensures old(instance) != null ==> l == old(instance)
      ensures old(instance) == null ==> fresh(l) && l.Valid() && l.State() == Initial()
    {
      if instance != null {
        return instance;
      }
      l := new AnalyticalLogger();
      instance := l;
    }
  }

  /** The demo page's use: one listener, three clicks, five quiet ticks, then the delay. */
  method ClickScenario()
  {
    var slot := new LoggerSlot();
    var logger := slot.Construct();
    var same := slot.Construct();
    assert same == logger;

    var listener := Listener(1, false);
    logger.RegisterStatusListener(Function(listener));
    assert logger.notified == [Notification(1, Idle, NoDetails)];

    logger.LogEvent(CTA_CLICK, map["buttonId" := "event1Btn"], "t1");
    logger.Tick();
    logger.LogEvent(CTA_CLICK, map["buttonId" := "event2Btn"], "t2");
    logger.LogEvent(CTA_CLICK, map["buttonId" := "event1Btn"], "t3");
    assert logger.timeLeft == UPLOAD_INTERVAL && |logger.intervals| == 1;
    assert |logger.cachedEvents| == 3;

    logger.Tick();
    logger.Tick();
    logger.Tick();
    logger.Tick();
    assert logger.timeLeft == 1000 && logger.currentStatus == Countdown;
    logger.Tick();
    assert logger.uploadJob.None? && logger.currentStatus == Uploading;
    logger.FinishUpload();
    assert logger.cachedEvents == [] && logger.currentStatus == Uploaded;
  }
}
