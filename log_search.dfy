/**
 * The simulated log search tool (tools/log_search.py): the entries of one
 * service, narrowed by level, an inclusive time window and a case-insensitive
 * message substring, and sorted by their timestamp text.
 */
module LogSearch {
  import opened Wrappers
  import opened Text
  import opened Lists
  import Sorting

  datatype LogEntry = LogEntry(timestamp: string, service: string, level: string, message: string)

  /** The sort key `lambda x: x["timestamp"]`. */
  function Timestamp(e: LogEntry): string {
    e.timestamp
  }

  /** The arguments of `search_logs`; the four optional filters default to `None`. */
  datatype LogQuery = LogQuery(
    service: string,
    severity: Option<string>,
    timeStart: Option<string>,
    timeEnd: Option<string>,
    query: Option<string>)

  /**
   * The filters of `search_logs`, in the order they run: the first `stage` of
   * them. `instant` is `datetime.fromisoformat(t.replace("Z", "+00:00"))`,
   * a map from timestamp text to a point on the time line.
   */
  predicate PassesUpTo(q: LogQuery, instant: string -> int, e: LogEntry, stage: nat) {
    && e.service == q.service
    && (stage >= 1 && Truthy(q.severity) ==> e.level == Upper(q.severity.value))
    && (stage >= 2 && Truthy(q.timeStart) ==> instant(e.timestamp) >= instant(q.timeStart.value))
    && (stage >= 3 && Truthy(q.timeEnd) ==> instant(e.timestamp) <= instant(q.timeEnd.value))
    && (stage >= 4 && Truthy(q.query) ==> Contains(Lower(e.message), Lower(q.query.value)))
  }

  /** The first `stage` filters, as the predicate a comprehension tests. */
  function Stage(q: LogQuery, instant: string -> int, stage: nat): LogEntry -> bool {
    (e: LogEntry) => PassesUpTo(q, instant, e, stage)
  }

  /**
   * An entry is returned when it has the requested service, its level is the
   * upper-cased severity, its time lies in the window (both ends included) and
   * its lower-cased message contains the lower-cased query; an absent or empty
   * filter admits every entry.
   */
  predicate Passes(q: LogQuery, instant: string -> int, e: LogEntry) {
    PassesUpTo(q, instant, e, 4)
  }

  /** The entries that pass every filter, in their original order. */
  function Matching(logs: seq<LogEntry>, q: LogQuery, instant: string -> int): (r: seq<LogEntry>)
    ensures forall e :: e in r <==> e in logs && Passes(q, instant, e)
  {
    var r := Keep(logs, (e: LogEntry) => Passes(q, instant, e));
    KeepMembers(logs, (e: LogEntry) => Passes(q, instant, e));
    assert forall e :: e in logs ==> exists i :: 0 <= i < |logs| && logs[i] == e;
    r
  }

  /** A filter that applies at this stage advances it. */
  lemma StageFiltered(logs: seq<LogEntry>, q: LogQuery, instant: string -> int, stage: nat,
                      filter: LogEntry -> bool, r: seq<LogEntry>)
    requires r == Keep(logs, Stage(q, instant, stage))
    requires forall e :: PassesUpTo(q, instant, e, stage + 1) == (PassesUpTo(q, instant, e, stage) && filter(e))
    ensures Keep(r, filter) == Keep(logs, Stage(q, instant, stage + 1))
  {
    KeepTwice(logs, Stage(q, instant, stage), filter,
              Stage(q, instant, stage + 1));
  }

  /** A filter that is absent or empty admits everything, so the stage advances unchanged. */
  lemma StageSkipped(logs: seq<LogEntry>, q: LogQuery, instant: string -> int, stage: nat, r: seq<LogEntry>)
    requires r == Keep(logs, Stage(q, instant, stage))
    requires forall e :: PassesUpTo(q, instant, e, stage + 1) == PassesUpTo(q, instant, e, stage)
    ensures r == Keep(logs, Stage(q, instant, stage + 1))
  {
    KeepSame(logs, Stage(q, instant, stage),
             Stage(q, instant, stage + 1));
  }

  /**
   * `search_logs(service, severity, time_start, time_end, query)` over the log
   * list `logs`: exactly the matching entries, rearranged into timestamp order.
   */
  method SearchLogs(logs: seq<LogEntry>, q: LogQuery, instant: string -> int) returns (results: seq<LogEntry>)
    ensures multiset(results) == multiset(Matching(logs, q, instant))
    ensures forall e :: e in results <==> e in logs && Passes(q, instant, e)
    ensures Sorting.SortedBy(results, Timestamp, false)
  {
    var r := FilterLogs(logs, q, instant);
    var a := new LogEntry[|r|](i requires 0 <= i < |r| => r[i]);
    assert a[..] == r;
    Sorting.Sort(a, Timestamp, false);
    results := a[..];
    assert forall e :: e in results <==> e in multiset(r);
  }

  /** The successive filters of `search_logs`, each a list comprehension over the previous result. */
  method FilterLogs(logs: seq<LogEntry>, q: LogQuery, instant: string -> int) returns (r: seq<LogEntry>)
    ensures r == Matching(logs, q, instant)
  {
    r := Keep(logs, (e: LogEntry) => e.service == q.service);
    KeepSame(logs, (e: LogEntry) => e.service == q.service, Stage(q, instant, 0));
    r := BySeverity(logs, q, instant, r);
    r := ByStart(logs, q, instant, r);
    r := ByEnd(logs, q, instant, r);
    r := ByQuery(logs, q, instant, r);
    KeepSame(logs, Stage(q, instant, 4), (e: LogEntry) => Passes(q, instant, e));
  }

  /** `if severity:` keep the entries whose level is the upper-cased severity. */
  method BySeverity(ghost logs: seq<LogEntry>, q: LogQuery, ghost instant: string -> int, r: seq<LogEntry>)
    returns (r': seq<LogEntry>)
    requires r == Keep(logs, Stage(q, instant, 0))
    ensures r' == Keep(logs, Stage(q, instant, 1))
  {
    if Truthy(q.severity) {
      var level := Upper(q.severity.value);
      StageFiltered(logs, q, instant, 0, (e: LogEntry) => e.level == level, r);
      r' := Keep(r, (e: LogEntry) => e.level == level);
    } else {
      StageSkipped(logs, q, instant, 0, r);
      r' := r;
    }
  }

  /** `if time_start:` keep the entries at or after the start. */
  method ByStart(ghost logs: seq<LogEntry>, q: LogQuery, instant: string -> int, r: seq<LogEntry>)
    returns (r': seq<LogEntry>)
    requires r == Keep(logs, Stage(q, instant, 1))
    ensures r' == Keep(logs, Stage(q, instant, 2))
  {
    if Truthy(q.timeStart) {
      var startAt := instant(q.timeStart.value);
      StageFiltered(logs, q, instant, 1, (e: LogEntry) => instant(e.timestamp) >= startAt, r);
      r' := Keep(r, (e: LogEntry) => instant(e.timestamp) >= startAt);
    } else {
      StageSkipped(logs, q, instant, 1, r);
      r' := r;
    }
  }

  /** `if time_end:` keep the entries at or before the end. */
  method ByEnd(ghost logs: seq<LogEntry>, q: LogQuery, instant: string -> int, r: seq<LogEntry>)
    returns (r': seq<LogEntry>)
    requires r == Keep(logs, Stage(q, instant, 2))
    ensures r' == Keep(logs, Stage(q, instant, 3))
  {
    if Truthy(q.timeEnd) {
      var endAt := instant(q.timeEnd.value);
      StageFiltered(logs, q, instant, 2, (e: LogEntry) => instant(e.timestamp) <= endAt, r);
      r' := Keep(r, (e: LogEntry) => instant(e.timestamp) <= endAt);
    } else {
      StageSkipped(logs, q, instant, 2, r);
      r' := r;
    }
  }

  /** `if query:` keep the entries whose lower-cased message contains the lower-cased query. */
  method ByQuery(ghost logs: seq<LogEntry>, q: LogQuery, ghost instant: string -> int, r: seq<LogEntry>)
    returns (r': seq<LogEntry>)
    requires r == Keep(logs, Stage(q, instant, 3))
    ensures r' == Keep(logs, Stage(q, instant, 4))
  {
    if Truthy(q.query) {
      var needle := Lower(q.query.value);
      StageFiltered(logs, q, instant, 3, (e: LogEntry) => Contains(Lower(e.message), needle), r);
      r' := Keep(r, (e: LogEntry) => Contains(Lower(e.message), needle));
    } else {
      StageSkipped(logs, q, instant, 3, r);
      r' := r;
    }
  }

  /** A service with no entries gives no results, whatever the other filters. */
  lemma UnknownServiceFindsNothing(logs: seq<LogEntry>, q: LogQuery, instant: string -> int)
    requires forall e :: e in logs ==> e.service != q.service
    ensures Matching(logs, q, instant) == []
  {
    KeepNone(logs, (e: LogEntry) => Passes(q, instant, e));
  }

  /** With no optional filter given, every entry of the service is returned. */
  lemma ServiceOnly(logs: seq<LogEntry>, q: LogQuery, instant: string -> int)
    requires !Truthy(q.severity) && !Truthy(q.timeStart) && !Truthy(q.timeEnd) && !Truthy(q.query)
    ensures Matching(logs, q, instant) == Keep(logs, (e: LogEntry) => e.service == q.service)
  {
    KeepSame(logs, (e: LogEntry) => Passes(q, instant, e), (e: LogEntry) => e.service == q.service);
  }

  /** Both ends of the time window are included. */
  lemma WindowIsInclusive(q: LogQuery, instant: string -> int, e: LogEntry)
    requires e.service == q.service && !Truthy(q.severity) && !Truthy(q.query)
    requires q.timeStart.Some? && q.timeEnd.Some?
    requires instant(e.timestamp) == instant(q.timeStart.value) || instant(e.timestamp) == instant(q.timeEnd.value)
    requires instant(q.timeStart.value) <= instant(q.timeEnd.value)
    ensures Passes(q, instant, e)
  {
  }
}
