/**
 * The replayable log of a conversation's turn (src/runtime/run-bus.ts). The grace timer is an operation
 * of its own, free to fire at any time after a run has ended; abort signals are not modelled.
 */
module TurnLog {
  import opened Prelude

  datatype RunStatus = Running | Done | Errored | Cancelled

  datatype BufferedRunEvent = BufferedRunEvent(number: nat, kind: string, data: string)

  datatype RunLog = RunLog(last: nat, events: seq<BufferedRunEvent>, status: RunStatus)

  type Runs = map<string, RunLog>

  /** Numbers run from 1 without a gap up to the last one assigned. */
  ghost predicate Numbered(log: RunLog) {
    log.last == |log.events| && forall i :: 0 <= i < |log.events| ==> log.events[i].number == i + 1
  }

  ghost predicate AllNumbered(runs: Runs) {
    forall c :: c in runs ==> Numbered(runs[c])
  }

  predicate IsRunning(runs: Runs, c: string) {
    c in runs && runs[c].status == Running
  }

  function CurrentSeq(runs: Runs, c: string): nat {
    if c in runs then runs[c].last else 0
  }

  /** The log that a new turn starts with. */
  function Begun(runs: Runs, c: string): Runs {
    if IsRunning(runs, c) then runs else runs[c := RunLog(0, [], Running)]
  }

  function Ended(runs: Runs, c: string, status: RunStatus, keeps: bool): Runs {
    if !IsRunning(runs, c) then runs
    else if keeps then runs[c := runs[c].(status := status)]
    else runs - {c}
  }

  /** The event a publish buffers; one past the cap is the error that ends the run. */
  function NextEvent(log: RunLog, kind: string, data: string, cap: nat): BufferedRunEvent {
    if |log.events| >= cap then BufferedRunEvent(log.last + 1, "error", "buffer_overflow")
    else BufferedRunEvent(log.last + 1, kind, data)
  }

  function Published(runs: Runs, c: string, kind: string, data: string, cap: nat, keeps: bool): Runs {
    if !IsRunning(runs, c) then runs
    else
      var log := runs[c];
      var appended := runs[c := log.(last := log.last + 1, events := log.events + [NextEvent(log, kind, data, cap)])];
      if |log.events| >= cap then Ended(appended, c, Errored, keeps) else appended
  }

  function Collected(runs: Runs, c: string): Runs {
    if IsRunning(runs, c) then runs else runs - {c}
  }

  function Above(events: seq<BufferedRunEvent>, afterSeq: int): seq<BufferedRunEvent> {
    if events == [] then []
    else if events[0].number > afterSeq then [events[0]] + Above(events[1..], afterSeq)
    else Above(events[1..], afterSeq)
  }

  function Since(runs: Runs, c: string, afterSeq: int): seq<BufferedRunEvent> {
    if c in runs then Above(runs[c].events, afterSeq) else []
  }

  class RunBus {
    const keeps: bool
    const maxEventsPerRun: nat
    var runs: Runs

    constructor (graceMs: int, maxEventsPerRun: nat)
      ensures runs == map[] && keeps == (graceMs > 0) && this.maxEventsPerRun == maxEventsPerRun
    {
      this.keeps, this.maxEventsPerRun, runs := graceMs > 0, maxEventsPerRun, map[];
    }

    /** False for the error of a turn already in progress. */
    method Begin(c: string) returns (begun: bool)
      modifies this
      ensures begun == !IsRunning(old(runs), c) && runs == Begun(old(runs), c)
    {
      if c in runs && runs[c].status == Running {
        return false;
      }
      runs := runs[c := RunLog(0, [], Running)];
      return true;
    }

    method Publish(c: string, kind: string, data: string) returns (r: Option<BufferedRunEvent>)
      modifies this
      ensures runs == Published(old(runs), c, kind, data, maxEventsPerRun, keeps)
      ensures r == if IsRunning(old(runs), c) then Some(NextEvent(old(runs)[c], kind, data, maxEventsPerRun)) else None
    {
      if c !in runs || runs[c].status != Running {
        return None;
      }
      var log := runs[c];
      if |log.events| >= maxEventsPerRun {
        var failure := BufferedRunEvent(log.last + 1, "error", "buffer_overflow");
        runs := runs[c := log.(last := log.last + 1, events := log.events + [failure])];
        End(c, Errored);
        return Some(failure);
      }
      var event := BufferedRunEvent(log.last + 1, kind, data);
      runs := runs[c := log.(last := log.last + 1, events := log.events + [event])];
      return Some(event);
    }

    method End(c: string, status: RunStatus)
      modifies this
      ensures runs == Ended(old(runs), c, status, keeps)
    {
      if c !in runs || runs[c].status != Running {
        return;
      }
      runs := if keeps then runs[c := runs[c].(status := status)] else runs - {c};
    }

    method Cancel(c: string) returns (cancelled: bool)
      modifies this
      ensures cancelled == IsRunning(old(runs), c) && runs == Ended(old(runs), c, Cancelled, keeps)
    {
      cancelled := c in runs && runs[c].status == Running;
      End(c, Cancelled);
    }
  }

  lemma {:induction false} StepsKeepNumbers(
    runs: Runs, c: string, kind: string, data: string, cap: nat, status: RunStatus, keeps: bool)
    requires AllNumbered(runs)
    ensures AllNumbered(Begun(runs, c)) && AllNumbered(Ended(runs, c, status, keeps)) && AllNumbered(Collected(runs, c))
    ensures AllNumbered(Published(runs, c, kind, data, cap, keeps))
  {
  }

  /**
   * What a publish adds for a viewer that has seen everything so far: the event itself, or past the cap
   * the error that ends the run, when the log is kept; and nothing for any other conversation.
   */
  lemma {:induction false} PublishReachesReplay(
    runs: Runs, c: string, kind: string, data: string, cap: nat, keeps: bool)
    requires AllNumbered(runs) && IsRunning(runs, c)
    ensures var after, over := Published(runs, c, kind, data, cap, keeps), |runs[c].events| >= cap;
            && (IsRunning(after, c) <==> !over)
            && (!over ==>
                  Since(after, c, CurrentSeq(runs, c)) == [BufferedRunEvent(CurrentSeq(runs, c) + 1, kind, data)])
            && (over && keeps ==>
                  Since(after, c, CurrentSeq(runs, c)) ==
                    [BufferedRunEvent(CurrentSeq(runs, c) + 1, "error", "buffer_overflow")])
            && forall d, k :: d != c ==> Since(after, d, k) == Since(runs, d, k)
  {
    var after := Published(runs, c, kind, data, cap, keeps);
    if c in after {
      StepsKeepNumbers(runs, c, kind, data, cap, Errored, keeps);
      ReplayIsSuffix(after[c], CurrentSeq(runs, c));
    }
  }

  lemma {:induction false} AboveConcat(a: seq<BufferedRunEvent>, b: seq<BufferedRunEvent>, afterSeq: int)
    ensures Above(a + b, afterSeq) == Above(a, afterSeq) + Above(b, afterSeq)
  {
    if a == [] {
      assert a + b == b;
    } else {
      assert (a + b)[1..] == a[1..] + b;
      AboveConcat(a[1..], b, afterSeq);
    }
  }

  /** Where a replay from a cursor starts. */
  function Resume(last: nat, afterSeq: int): nat {
    Max(0, Min(afterSeq, last))
  }

  /** A replay is a suffix of the log: the filter by number never leaves one out of the middle. */
  lemma {:induction false} ReplayIsSuffix(log: RunLog, afterSeq: int)
    requires Numbered(log)
    ensures Above(log.events, afterSeq) == log.events[Resume(log.last, afterSeq)..]
    decreases |log.events|
  {
    if log.events != [] {
      var n := |log.events| - 1;
      var init := RunLog(n, log.events[..n], log.status);
      assert log.events == init.events + [log.events[n]];
      ReplayIsSuffix(init, afterSeq);
      AboveConcat(init.events, [log.events[n]], afterSeq);
      var last := [log.events[n]];
      assert last[1..] == [] && Above(last, afterSeq) == if n + 1 > afterSeq then last else [];
      if n + 1 > afterSeq {
        assert log.events[Resume(n, afterSeq)..] == init.events[Resume(n, afterSeq)..] + last;
      } else {
        assert init.events[n..] == [] && log.events[n + 1..] == [];
      }
    }
  }
}
