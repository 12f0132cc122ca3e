/**
 * The structured logger (src/utils/logging.py): masking of sensitive context
 * values, the level gate and the timer bookkeeping. Handlers, files and JSON
 * rendering are not modelled; what a call hands to the underlying logger is
 * appended to `records`.
 */
module Logging {
  import opened Wrappers
  import opened PyValues
  import opened Strings

  /** Levels by verbosity: a message is emitted when its value is at most the configured one. */
  datatype LogLevel = Error | Warn | Info | Debug | Trace {
    function Value(): nat {
      match this
      case Error => 0
      case Warn => 1
      case Info => 2
      case Debug => 3
      case Trace => 4
    }

    /** The logger method `level.name.lower()` names; there is no `trace`, so it falls back to `debug`. */
    function MethodName(): string {
      match this
      case Error => "error"
      case Warn => "warn"
      case Info => "info"
      case Debug => "debug"
      case Trace => "debug"
    }
  }

  /** What replaces the value of a sensitive key. */
  const MASK: string := "********"

  const DEFAULT_SENSITIVE_FIELDS: seq<string> := ["password", "token", "secret", "key", "auth", "credential"]

  /** A key is sensitive when its lower-cased form contains one of the sensitive fields. */
  predicate IsSensitiveKey(key: string, fields: seq<string>) {
    exists f :: f in fields && Contains(Lower(key), f)
  }

  /** Sensitivity ignores case: a key and its lower-cased form are treated alike. */
  lemma SensitiveKeyIgnoresCase(key: string, fields: seq<string>)
    ensures IsSensitiveKey(key, fields) <==> IsSensitiveKey(Lower(key), fields)
  {
    LowerIdempotent(key);
  }

  /**
   * Masks a dictionary: sensitive keys get `MASK` whatever their value,
   * dictionaries under other keys are masked recursively, and every other
   * value is copied. The keys and their order are kept.
   */
  function MaskEntries(fields: seq<string>, data: Entries): (r: Entries)
    ensures |r| == |data|
    ensures Keys(r) == Keys(data)
    decreases data
  {
    if data == [] then []
    else
      var (key, value) := data[0];
      assert value < data[0];
      var masked :=
        if IsSensitiveKey(key, fields) then Str(MASK)
        else if value.Dict? then Dict(MaskEntries(fields, value.entries))
        else value;
      [(key, masked)] + MaskEntries(fields, data[1..])
  }

  /** `_mask_sensitive_data(data)`: the identity when masking is switched off. */
  function MaskSensitiveData(enabled: bool, fields: seq<string>, data: Entries): (r: Entries)
    ensures Keys(r) == Keys(data)
    ensures !enabled ==> r == data
  {
    if !enabled then data else MaskEntries(fields, data)
  }

  /** What masking makes of the entry at index `i`. */
  lemma {:induction false} MaskEntriesAt(fields: seq<string>, data: Entries, i: nat)
    requires i < |data|
    ensures var (key, value) := data[i];
      MaskEntries(fields, data)[i] ==
        (key,
         if IsSensitiveKey(key, fields) then Str(MASK)
         else if value.Dict? then Dict(MaskEntries(fields, value.entries))
         else value)
    decreases i
  {
    if i > 0 {
      MaskEntriesAt(fields, data[1..], i - 1);
    }
  }

  /** Masking an already masked dictionary changes nothing. */
  lemma {:induction false} MaskIdempotent(fields: seq<string>, data: Entries)
    ensures MaskEntries(fields, MaskEntries(fields, data)) == MaskEntries(fields, data)
    decreases data
  {
    if data != [] {
      var (key, value) := data[0];
      assert value < data[0];
      var once := MaskEntries(fields, data);
      MaskIdempotent(fields, data[1..]);
      if !IsSensitiveKey(key, fields) && value.Dict? {
        MaskIdempotent(fields, value.entries);
      }
      assert once[1..] == MaskEntries(fields, data[1..]);
    }
  }

  /** "monkey" contains "key", so its value is masked too. */
  lemma MonkeyIsSensitive()
    ensures IsSensitiveKey("monkey", DEFAULT_SENSITIVE_FIELDS)
    ensures MaskEntries(DEFAULT_SENSITIVE_FIELDS, [("monkey", Int(1))]) == [("monkey", Str(MASK))]
  {
    assert Lower("monkey") == "monkey";
    assert OccursAt("monkey", "key", 3);
    assert "key" in DEFAULT_SENSITIVE_FIELDS;
  }

  /** The sensitivity test ignores case: "API_Key" holds a key. */
  lemma SensitivityIgnoresCase()
    ensures IsSensitiveKey("API_Key", DEFAULT_SENSITIVE_FIELDS)
  {
    assert Lower("API_Key") == "api_key";
    assert OccursAt("api_key", "key", 4);
    assert "key" in DEFAULT_SENSITIVE_FIELDS;
  }

  /** What `log` hands to the underlying logger: level, logger method, message and masked context. */
  datatype LogRecord = LogRecord(level: LogLevel, loggerMethod: string, message: string, context: Entries)

  /** The level gate: a message passes when it is no more verbose than the threshold. */
  predicate Enabled(level: LogLevel, threshold: LogLevel) {
    !(level.Value() > threshold.Value())
  }

  /**
   * Raising the threshold never suppresses a message that passed, a more
   * severe message passes wherever a less severe one does, ERROR always
   * passes and TRACE lets everything through.
   */
  lemma EnabledMonotone(level: LogLevel, threshold: LogLevel, other: LogLevel)
    ensures Enabled(level, threshold) && threshold.Value() <= other.Value() ==> Enabled(level, other)
    ensures Enabled(level, threshold) && other.Value() <= level.Value() ==> Enabled(other, threshold)
    ensures Enabled(Error, threshold) && Enabled(level, Trace)
  {
  }

  /** TRACE messages are suppressed at DEBUG; every other level passes there. */
  lemma TraceSuppressedAtDebug(level: LogLevel)
    ensures Enabled(level, Debug) <==> level != Trace
  {
  }

  /** The records one `log` call produces. */
  function LogOutput(threshold: LogLevel, enabled: bool, fields: seq<string>,
                     level: LogLevel, message: string, context: Option<Entries>): (r: seq<LogRecord>)
    ensures r == [] <==> !Enabled(level, threshold)
    ensures r != [] ==> |r| == 1 && r[0].level == level && r[0].message == message
    ensures r != [] ==> r[0].loggerMethod == level.MethodName()
    ensures r != [] ==> r[0].context == MaskSensitiveData(enabled, fields, context.GetOr([]))
    ensures r != [] ==> Keys(r[0].context) == Keys(context.GetOr([]))
  {
    if !Enabled(level, threshold) then []
    else [LogRecord(level, level.MethodName(), message, MaskSensitiveData(enabled, fields, context.GetOr([])))]
  }

  /** `f"{ms:.2f}"` for a whole number of milliseconds. */
  function FormatMs(ms: int): string {
    IntToString(ms) + ".00"
  }

  class Logger {
    const name: string
    /** The configured level, `config["level"]`. */
    var level: LogLevel
    const maskSensitiveData: bool
    const sensitiveFields: seq<string>
    /** Start times of the running timers, in milliseconds. */
    var timers: map<string, int>
    /** Everything handed to the underlying logger so far. */
    var records: seq<LogRecord>

    constructor (name: string, level: LogLevel := Debug, maskSensitiveData: bool := true,
                 sensitiveFields: seq<string> := DEFAULT_SENSITIVE_FIELDS)
      ensures this.name == name && this.level == level
      ensures this.maskSensitiveData == maskSensitiveData && this.sensitiveFields == sensitiveFields
      ensures timers == map[] && records == []
    {
      this.name := name;
      this.level := level;
      this.maskSensitiveData := maskSensitiveData;
      this.sensitiveFields := sensitiveFields;
      timers := map[];
      records := [];
    }

    method Log(level: LogLevel, message: string, context: Option<Entries> := None)
      modifies this`records
      ensures records == old(records) + LogOutput(this.level, maskSensitiveData, sensitiveFields, level, message, context)
    {
      if level.Value() > this.level.Value() {
        return;
      }
      var masked := MaskSensitiveData(maskSensitiveData, sensitiveFields, context.GetOr([]));
      records := records + [LogRecord(level, level.MethodName(), message, masked)];
    }

    /** Records the start time of a timer, replacing any earlier one of the same id. */
    method StartTimer(timerId: string, now: int)
      modifies this`timers
      ensures timers == old(timers)[timerId := now]
    {
      timers := timers[timerId := now];
    }

    /**
     * Stops a timer and logs the elapsed time. An unknown id logs a warning,
     * returns 0 and leaves the timers as they are.
     */
    method EndTimer(timerId: string, now: int, message: string := "Operation completed", level: LogLevel := Debug)
      returns (elapsed: int)
      modifies this`timers, this`records
      ensures timers == old(timers) - {timerId}
      ensures timerId !in old(timers) ==> elapsed == 0
      ensures timerId !in old(timers) ==>
        records == old(records) + LogOutput(this.level, maskSensitiveData, sensitiveFields,
                                            Warn, "Timer '" + timerId + "' does not exist", None)
      ensures timerId in old(timers) ==> elapsed == now - old(timers)[timerId]
      ensures timerId in old(timers) ==>
        records == old(records) + LogOutput(this.level, maskSensitiveData, sensitiveFields,
                                            level, message + " in " + FormatMs(elapsed) + "ms",
                                            Some([("timer_id", Str(timerId)), ("processing_time_ms", Int(elapsed))]))
    {
      if timerId !in timers {
        Log(Warn, "Timer '" + timerId + "' does not exist");
        return 0;
      }
      var startTime := timers[timerId];
      timers := timers - {timerId};
      elapsed := now - startTime;
      Log(level, message + " in " + FormatMs(elapsed) + "ms",
          Some([("timer_id", Str(timerId)), ("processing_time_ms", Int(elapsed))]));
    }

    method SetLevel(level: LogLevel)
      modifies this`level
      ensures this.level == level
    {
      this.level := level;
    }
  }

  /** A timer started once and ended twice: the second end finds nothing and returns 0. */
  method TimerLifecycle(logger: Logger, timerId: string, t0: int, t1: int, t2: int)
    returns (first: int, second: int)
    modifies logger
    ensures first == t1 - t0 && second == 0
    ensures logger.timers == old(logger.timers) - {timerId}
  {
    logger.StartTimer(timerId, t0);
    first := logger.EndTimer(timerId, t1);
    ghost var afterFirst := logger.timers;
    second := logger.EndTimer(timerId, t2);
    assert logger.timers == afterFirst;
  }

  /** After `set_level(TRACE)` a TRACE message is emitted; after `set_level(DEBUG)` it is not. */
  method SetLevelGatesLaterCalls(logger: Logger, message: string)
    modifies logger
    ensures logger.level == Debug
    ensures logger.records == old(logger.records) + [LogRecord(Trace, "debug", message, [])]
  {
    logger.SetLevel(Trace);
    logger.Log(Trace, message);
    logger.SetLevel(Debug);
    logger.Log(Trace, message);
  }
}
