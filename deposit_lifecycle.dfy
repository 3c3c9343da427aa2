/** The lifecycle every run follows: one terminal event, stage indices only going forward. */
module DepositLifecycle {
  import opened Wrappers
  import opened Collaborators
  import opened Events
  import opened DepositSpec

  /**
   * Inside the try block, the task sends the file-not-found error alone, or a prefix of the
   * success log: all of it exactly when no exception escapes.
   */
  lemma BodyIsPrefixOfSuccessLog(o: Oracle)
    ensures !Throws(o, Exists) && !o.fileExists ==> DepositBody(o) == Stage([Error(NotFoundMessage)], Ok(()))
    ensures Throws(o, Exists) || o.fileExists ==>
      (DepositBody(o).out.Ok? ==> DepositBody(o).log == SuccessLog(o))
      && (DepositBody(o).out.Thrown? ==> DepositBody(o).log < SuccessLog(o))
  {
    var s := SuccessLog(o);
    if !Throws(o, Exists) && o.fileExists {
      var b := DepositBody(o);
      assert [] < s;
      assert s[..1] < s && s[..3] < s && s[..4] < s && s[..6] < s && s[..7] < s;
    }
  }

  /** A run that fails in the verification stage has sent everything but the Complete event. */
  lemma FailsInVerification(o: Oracle)
    requires ReachesVerification(o) && Verification(o).Thrown?
    ensures DepositBody(o) == Stage(SuccessLog(o)[..7], Verification(o))
  {
    var s := SuccessLog(o);
    assert DepositBody(o).log == s[..7];
  }

  /** Every run follows the protocol. */
  lemma TraceFollowsProtocol(redeliver: bool, o: Oracle)
    ensures FollowsProtocol(Trace(redeliver, o), o)
  {
    var t := Trace(redeliver, o);
    if !redeliver && o.userStoreBuilds && o.archiveStoreBuilds {
      BodyIsPrefixOfSuccessLog(o);
      var b := DepositBody(o);
      if b.out.Thrown? {
        assert t == Header + b.log + [Error(FailedPrefix + b.out.message)];
        assert t[..2] == Header;
        assert t[2..|t| - 1] == b.log;
      } else if !Throws(o, Exists) && !o.fileExists {
        assert t == Header + [Error(NotFoundMessage)];
        assert t[2..|t| - 1] == [];
      }
    } else if !redeliver {
      assert t[2..|t| - 1] == [];
    }
  }

  /** The next-state indices the whole run announces when every stage succeeds. */
  const AllStates: seq<nat> := [0, 1, 2, 3, 4, 5]

  lemma NextStatesSnoc(a: seq<EventKind>, e: EventKind)
    ensures NextStates(a + [e]) == NextStates(a) + (if e.NextStateOf().Some? then [e.NextStateOf().value] else [])
  {
    assert (a + [e])[..|a|] == a;
  }

  /** The success log announces the stages after Calculating size, in order. */
  lemma SuccessLogAnnouncesStages(o: Oracle)
    ensures NextStates(SuccessLog(o)) == [1, 2, 3, 4, 5]
  {
    var s := SuccessLog(o);
    assert s[..0] == [];
    assert s[..1] == s[..0] + [s[0]];
    NextStatesSnoc(s[..0], s[0]);
    assert s[..2] == s[..1] + [s[1]];
    NextStatesSnoc(s[..1], s[1]);
    assert s[..3] == s[..2] + [s[2]];
    NextStatesSnoc(s[..2], s[2]);
    assert s[..4] == s[..3] + [s[3]];
    NextStatesSnoc(s[..3], s[3]);
    assert s[..5] == s[..4] + [s[4]];
    NextStatesSnoc(s[..4], s[4]);
    assert s[..6] == s[..5] + [s[5]];
    NextStatesSnoc(s[..5], s[5]);
    assert s[..7] == s[..6] + [s[6]];
    NextStatesSnoc(s[..6], s[6]);
    assert s[..8] == s[..7] + [s[7]];
    NextStatesSnoc(s[..7], s[7]);
    assert s[..8] == s;
  }

  /** No proper prefix of the success log holds a terminal event. */
  lemma ProperPrefixHasNoTerminal(p: seq<EventKind>, o: Oracle)
    requires p < SuccessLog(o)
    ensures TerminalCount(p) == 0
  {
    var s := SuccessLog(o);
    forall i | 0 <= i < |p| ensures !p[i].IsTerminal() {
      assert p[i] == s[i];
    }
    NoTerminalsCountZero(p);
  }

  /** The header and a proper prefix of the success log, closed by one terminal event, hold one. */
  lemma ClosedByTerminal(p: seq<EventKind>, e: EventKind, o: Oracle)
    requires p < SuccessLog(o)
    requires e.IsTerminal()
    ensures TerminalCount(Header + p + [e]) == 1
  {
    NoTerminalsCountZero(Header);
    ProperPrefixHasNoTerminal(p, o);
    TerminalCountAppend(Header, p);
    TerminalCountAppend(Header + p, [e]);
    assert [e][..0] == [];
  }

  /** The whole success log after the header holds one terminal event, the Complete. */
  lemma SuccessHasOneTerminal(o: Oracle)
    ensures TerminalCount(Header + SuccessLog(o)) == 1
  {
    var s := SuccessLog(o);
    assert s == s[..7] + [s[7]];
    assert Header + s == Header + s[..7] + [s[7]];
    ClosedByTerminal(s[..7], s[7], o);
  }

  lemma SplitAfterHeader(t: seq<EventKind>)
    requires |t| >= 3
    ensures t == t[..2] + t[2..|t| - 1] + [t[|t| - 1]]
  {
  }

  /** An error after the header and a proper prefix of the success log is the one terminal event. */
  lemma FailureHasOneTerminal(t: seq<EventKind>, o: Oracle)
    requires |t| >= 3 && t[..2] == Header && t[2..|t| - 1] < SuccessLog(o) && t[|t| - 1].Error?
    ensures TerminalCount(t) == 1
  {
    SplitAfterHeader(t);
    ClosedByTerminal(t[2..|t| - 1], t[|t| - 1], o);
  }

  /** A log that follows the protocol holds exactly one terminal event, and it is the last. */
  lemma ProtocolHasOneTerminal(t: seq<EventKind>, o: Oracle)
    requires FollowsProtocol(t, o)
    ensures TerminalCount(t) == 1
    ensures t[|t| - 1].IsTerminal()
  {
    if t == [Error(RedeliveredMessage)] {
      NoTerminalsCountZero([]);
      TerminalCountAppend([], t);
    } else if t == Header + SuccessLog(o) {
      SuccessHasOneTerminal(o);
    } else {
      FailureHasOneTerminal(t, o);
    }
  }

  /** The header and a prefix of the success log announce a prefix of the six stages. */
  lemma HeaderAndPrefixForward(p: seq<EventKind>, o: Oracle)
    requires p <= SuccessLog(o)
    ensures NextStates(Header + p) <= AllStates
  {
    SuccessLogAnnouncesStages(o);
    NextStatesSnoc([InitStates(StageNames)], Start(0));
    assert Header == [InitStates(StageNames)] + [Start(0)];
    assert [InitStates(StageNames)] == [] + [InitStates(StageNames)];
    NextStatesSnoc([], InitStates(StageNames));
    NextStatesOfPrefix(p, SuccessLog(o));
    NextStatesAppend(Header, p);
  }

  /** A log that follows the protocol announces a prefix of the stages 0 to 5, never going back. */
  lemma ProtocolIsStrictlyForward(t: seq<EventKind>, o: Oracle)
    requires FollowsProtocol(t, o)
    ensures NextStates(t) <= AllStates
    ensures StrictlyIncreasing(NextStates(t))
  {
    var s := SuccessLog(o);
    if t == [Error(RedeliveredMessage)] {
      NextStatesSnoc([], t[0]);
      assert t == [] + [t[0]];
    } else if t == Header + s {
      HeaderAndPrefixForward(s, o);
    } else {
      var p := t[2..|t| - 1];
      assert t == (Header + p) + [t[|t| - 1]];
      HeaderAndPrefixForward(p, o);
      NextStatesSnoc(Header + p, t[|t| - 1]);
    }
  }

  /** Every run, redelivered or not, ends in exactly one terminal event, sent last. */
  lemma ExactlyOneTerminal(redeliver: bool, o: Oracle)
    ensures TerminalCount(Trace(redeliver, o)) == 1
    ensures Trace(redeliver, o)[|Trace(redeliver, o)| - 1].IsTerminal()
  {
    TraceFollowsProtocol(redeliver, o);
    ProtocolHasOneTerminal(Trace(redeliver, o), o);
  }

  /** The stage indices a run announces are a prefix of 0, 1, 2, 3, 4, 5: strictly forward. */
  lemma StrictlyForward(redeliver: bool, o: Oracle)
    ensures NextStates(Trace(redeliver, o)) <= AllStates
    ensures StrictlyIncreasing(NextStates(Trace(redeliver, o)))
  {
    TraceFollowsProtocol(redeliver, o);
    ProtocolIsStrictlyForward(Trace(redeliver, o), o);
  }
}

