/**
 * The events a deposit run sends to the event stream, and two views of an event log that the
 * lifecycle properties are stated in: how many terminal events it holds and which next-state
 * indices it announces.
 */
module Events {
  import opened Wrappers

  /** The six stage names announced by InitStates; index i is next-state i. */
  const StageNames: seq<string> :=
    ["Calculating size", "Transferring", "Packaging", "Storing in archive", "Verifying", "Complete"]

  /** The payload of one event, one constructor per event class the task sends. */
  datatype EventKind =
    | InitStates(states: seq<string>)
    | Start(nextState: nat)
    | ComputedSize(bytes: int)
    | UpdateProgress(progress: int, expected: int, message: string)
    | UpdateProgressNext(nextState: nat)   // UpdateProgress carrying only withNextState(n)
    | TransferComplete(nextState: nat)
    | PackageComplete(nextState: nat)
    | ComputedDigest(digest: string, algorithm: string)
    | Complete(archiveId: string, archiveSize: int, nextState: nat)
    | Error(message: string)
  {
    /** Complete and Error end a run; every other event is informational. */
    predicate IsTerminal()
    {
      Complete? || Error?
    }

    /** The next-state index the event announces, if it carries one. */
    function NextStateOf(): Option<nat>
    {
      if Start? || UpdateProgressNext? || TransferComplete? || PackageComplete? || Complete?
      then Some(nextState)
      else None
    }
  }

  /** An event as sent: tagged with the job id, the deposit id and the user id. */
  datatype Event = Event(jobId: string, depositId: Option<string>, userId: Option<string>, kind: EventKind)

  /** The events as the stream receives them: every payload tagged with the same job, deposit and user. */
  function Tagged(jobId: string, depositId: Option<string>, userId: Option<string>, kinds: seq<EventKind>): (r: seq<Event>)
    ensures |r| == |kinds|
    ensures forall i :: 0 <= i < |r| ==> r[i].kind == kinds[i] && r[i].jobId == jobId && r[i].depositId == depositId && r[i].userId == userId
  {
    seq(|kinds|, i requires 0 <= i < |kinds| => Event(jobId, depositId, userId, kinds[i]))
  }

  /** Tagging commutes with appending: the events a later batch of payloads adds are that batch, tagged. */
  lemma TaggedSuffix(jobId: string, depositId: Option<string>, userId: Option<string>, a: seq<EventKind>, b: seq<EventKind>)
    ensures Tagged(jobId, depositId, userId, a + b)[|a|..] == Tagged(jobId, depositId, userId, b)
  {
  }

  /** The number of terminal events in a log. */
  function TerminalCount(log: seq<EventKind>): (n: nat)
    ensures n <= |log|
  {
    if log == [] then 0
    else TerminalCount(log[..|log| - 1]) + (if log[|log| - 1].IsTerminal() then 1 else 0)
  }

  /** The next-state indices announced by a log, in the order they are announced. */
  function NextStates(log: seq<EventKind>): (s: seq<nat>)
    ensures |s| <= |log|
  {
    if log == [] then []
    else
      var last := log[|log| - 1];
      NextStates(log[..|log| - 1]) + (if last.NextStateOf().Some? then [last.NextStateOf().value] else [])
  }

  /** Strictly forward: every later index is larger than every earlier one. */
  predicate StrictlyIncreasing(s: seq<nat>)
  {
    forall i, j :: 0 <= i < j < |s| ==> s[i] < s[j]
  }

  lemma {:induction false} TerminalCountAppend(a: seq<EventKind>, b: seq<EventKind>)
    ensures TerminalCount(a + b) == TerminalCount(a) + TerminalCount(b)
  {
    if b == [] {
      assert a + b == a;
    } else {
      var init := b[..|b| - 1];
      TerminalCountAppend(a, init);
      assert (a + b)[..|a + b| - 1] == a + init;
    }
  }

  lemma {:induction false} NoTerminalsCountZero(log: seq<EventKind>)
    requires forall i :: 0 <= i < |log| ==> !log[i].IsTerminal()
    ensures TerminalCount(log) == 0
  {
    if log != [] {
      NoTerminalsCountZero(log[..|log| - 1]);
    }
  }

  lemma {:induction false} NextStatesAppend(a: seq<EventKind>, b: seq<EventKind>)
    ensures NextStates(a + b) == NextStates(a) + NextStates(b)
  {
    if b == [] {
      assert a + b == a;
    } else {
      var init := b[..|b| - 1];
      NextStatesAppend(a, init);
      assert (a + b)[..|a + b| - 1] == a + init;
    }
  }

  /** Announcing a prefix of a log announces a prefix of its next-state indices. */
  lemma NextStatesOfPrefix(a: seq<EventKind>, b: seq<EventKind>)
    requires a <= b
    ensures NextStates(a) <= NextStates(b)
  {
    assert b == a + b[|a|..];
    NextStatesAppend(a, b[|a|..]);
  }
}
