/**
 * The attributes ThreadBase gives every agent, and the first statement of
 * each agent's run, which formats the thread's start time into a debug
 * message. An f-string is evaluated whether or not the message is logged,
 * so reading an attribute the object lacks raises AttributeError, which
 * nothing in run catches.
 */
module Threads {
  import opened Wrappers

  /** What an attribute holds, as far as this model needs to tell. */
  datatype Value = Number(x: real) | Other

  /** An object's attributes by name. */
  type Attributes = map<string, Value>

  /** The attribute ThreadBase's constructor sets to the start time. */
  const StartTimestamp := "start_timestamp"
  /** The attribute the canonical agents read at the start of run. */
  const StartTimestampCamel := "startTimestamp"

  /**
   * The attributes of a fresh ThreadBase: the process id, the logger, the
   * sleep period, the start time, and the three logging options.
   */
  function ThreadBaseInit(sleepPeriod: real, now: real): (obj: Attributes)
    ensures obj.Keys == {"os_pid", "logger", "sleep_period", StartTimestamp, "logger_format_colored", "log_level", "log_file"}
    ensures obj[StartTimestamp] == Number(now) && obj["sleep_period"] == Number(sleepPeriod)
    ensures StartTimestampCamel !in obj
  {
    map["os_pid" := Other, "logger" := Other, "sleep_period" := Number(sleepPeriod),
        StartTimestamp := Number(now), "logger_format_colored" := Other, "log_level" := Other, "log_file" := Other]
  }

  /** Python attribute access: the value when the object has it, AttributeError otherwise. */
  function GetAttribute(obj: Attributes, name: string): (r: Completion<Value>)
    ensures r.Raised? <==> name !in obj
    ensures r.Returned? ==> r.value == obj[name]
  {
    if name in obj then Returned(obj[name]) else Raised
  }

  /** The first statement of run in the canonical agents: it reads startTimestamp. */
  function StartMessageAsWritten(obj: Attributes): Completion<Value> {
    GetAttribute(obj, StartTimestampCamel)
  }

  /** The first statement of run as the single-script agents write it: it reads start_timestamp. */
  function StartMessage(obj: Attributes): Completion<Value> {
    GetAttribute(obj, StartTimestamp)
  }

  /**
   * As written, every canonical agent's run raises at its first statement:
   * no agent class defines startTimestamp on top of what ThreadBase sets.
   */
  lemma StartMessageAsWrittenRaises(sleepPeriod: real, now: real, own: Attributes)
    requires StartTimestampCamel !in own
    ensures StartMessageAsWritten(ThreadBaseInit(sleepPeriod, now) + own).Raised?
  {
  }

  /**
   * Reading the attribute ThreadBase sets gives the start time, whatever the
   * agent adds that does not shadow it, so run goes on to its loop.
   */
  lemma StartMessageReadsStartTime(sleepPeriod: real, now: real, own: Attributes)
    requires StartTimestamp !in own
    ensures StartMessage(ThreadBaseInit(sleepPeriod, now) + own) == Returned(Number(now))
  {
  }
}
