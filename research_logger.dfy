/** The research interaction logger: an append-only list of event records for one session. */
module ResearchLog {
  import opened Json
  import opened Text

  /** The fields every entry starts with, before the event's own fields are spread over them. */
  const BaseKeys: set<string> := {"sessionId", "userId", "timestamp", "iso_timestamp"}

  /**
   * The entry `log(event)` builds: session, user and the two timestamps, then
   * `...event`, so that an event field of the same name overrides a base field.
   */
  function Entry(sessionId: string, userId: Value, event: Record, stamp: nat, iso: string): (e: Record)
    ensures e.Keys == BaseKeys + event.Keys
    ensures forall k :: k in event ==> e[k] == event[k]
    ensures "sessionId" !in event ==> e["sessionId"] == Str(sessionId)
    ensures "userId" !in event ==> e["userId"] == userId
    ensures "timestamp" !in event ==> e["timestamp"] == Num(stamp as real)
    ensures "iso_timestamp" !in event ==> e["iso_timestamp"] == Str(iso)
  {
    map[
      "sessionId" := Str(sessionId),
      "userId" := userId,
      "timestamp" := Num(stamp as real),
      "iso_timestamp" := Str(iso)] + event
  }

  /** The session identifier `session_<Date.now()>_<random base-36 text>`. */
  function SessionId(startMillis: nat, randomSuffix: string): (id: string)
    ensures |id| > 9 && id[..8] == "session_"
  {
    "session_" + NatToString(startMillis) + "_" + randomSuffix
  }

  class ResearchLogger {
    var logs: seq<Record>
    var sessionId: string
    var userId: Value

    /** Every entry carries this logger's session identifier. */
    ghost predicate SessionConsistent()
      reads this
    {
      forall i :: 0 <= i < |logs| ==> "sessionId" in logs[i] && logs[i]["sessionId"] == Str(sessionId)
    }

    /** `new ResearchLogger()`, given the clock reading and the random text it uses. */
    constructor (startMillis: nat, randomSuffix: string)
      ensures logs == []
      ensures sessionId == SessionId(startMillis, randomSuffix)
      ensures userId == Null
      ensures SessionConsistent()
    {
      logs := [];
      sessionId := SessionId(startMillis, randomSuffix);
      userId := Null;
    }

    /** `log(event)` at clock reading `stamp` (milliseconds) and ISO time `iso`. */
    method Log(event: Record, stamp: nat, iso: string)
      modifies this`logs
      ensures logs == old(logs) + [Entry(sessionId, userId, event, stamp, iso)]
      ensures old(SessionConsistent()) && "sessionId" !in event ==> SessionConsistent()
    {
      logs := logs + [Entry(sessionId, userId, event, stamp, iso)];
    }

    /** `getLogs()`: the entries themselves, unmodified. */
    method GetLogs() returns (entries: seq<Record>)
      ensures entries == logs
    {
      entries := logs;
    }

    /** `clearLogs()`: no entries; the session identifier stays. */
    method ClearLogs()
      modifies this`logs
      ensures logs == []
      ensures SessionConsistent()
    {
      logs := [];
    }
  }
}
