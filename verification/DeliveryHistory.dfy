/**
 A run recorded state by state: the form in which an implementation can keep the
 run it has taken so far, and speak of any moment of it.
 */
module DeliveryHistory {
  import opened Base
  import opened DeliveryProtocol
  import opened DeliverySafety
  import opened DeliveryTickets
  import opened DeliveryOnce
  import opened DeliveryRuns
  import opened DeliverySingle

  /** One attempt to send: what was to be written, and whether it was. */
  datatype Trial = Trial(x: Delivery, ok: bool)

  predicate Tries(step: Step) {
    step.SendOk? || step.SendFail?
  }

  function TrialBy(s: State, step: Step): Trial
    requires Tries(step) && step.g in s.workers && s.workers[step.g].pc.Sending?
  {
    Trial(Sent(s.workers[step.g]), step.SendOk?)
  }

  /** The attempt a step is, if any. */
  function TrialOf(s: State, step: Step): seq<Trial> {
    if Tries(step) && step.g in s.workers && s.workers[step.g].pc.Sending? then [TrialBy(s, step)] else []
  }

  /** The states passed through, the steps between them, and at each state the attempts to send made so far. */
  datatype History = History(states: seq<State>, steps: seq<Step>, tried: seq<seq<Trial>>)

  /** The states follow one another by the steps, none of them a storage error. */
  ghost predicate Recorded(h: History) {
    && |h.states| == |h.tried| == |h.steps| + 1
    && forall n {:trigger h.steps[n]} :: 0 <= n < |h.steps| ==>
         Follows(h.states[n], h.steps[n], h.states[n + 1]) && h.tried[n + 1] == h.tried[n] + TrialOf(h.states[n], h.steps[n])
  }

  ghost predicate Follows(s: State, step: Step, s': State) {
    Enabled(s, step) && !Faulty(step) && s' == Apply(s, step)
  }

  function Last(h: History): State
    requires h.states != []
  {
    h.states[|h.states| - 1]
  }

  ghost function Extend(h: History, step: Step): History
    requires h.states != [] && h.tried != [] && Enabled(Last(h), step)
  {
    History(h.states + [Apply(Last(h), step)], h.steps + [step], h.tried + [Tried(h) + TrialOf(Last(h), step)])
  }

  /** The attempts made by the end. */
  function Tried(h: History): seq<Trial>
    requires h.tried != []
  {
    h.tried[|h.tried| - 1]
  }

  predicate Extends(h: History, h': History) {
    h.states <= h'.states && h.steps <= h'.steps
  }

  lemma ExtendsOn(h: History, mid: History, h': History)
    requires Extends(h, mid) && Extends(mid, h')
    ensures Extends(h, h')
  {
  }

  lemma RecordedThen(h: History, step: Step)
    requires Recorded(h) && Enabled(Last(h), step) && !Faulty(step)
    ensures Recorded(Extend(h, step)) && Extends(h, Extend(h, step))
    ensures Last(Extend(h, step)) == Apply(Last(h), step)
  {
  }

  /** The history up to its n-th state. */
  function Until(h: History, n: nat): History
    requires n < |h.states| && n <= |h.steps| && n < |h.tried|
  {
    History(h.states[..n + 1], h.steps[..n], h.tried[..n + 1])
  }

  lemma UntilRecorded(h: History, n: nat)
    requires Recorded(h) && n <= |h.steps|
    ensures Recorded(Until(h, n)) && Last(Until(h, n)) == h.states[n]
  {
  }

  // ---------------------------------------------------------- histories as runs

  /** A1 and A2 held at every step. */
  ghost predicate Guarded(h: History)
    requires Recorded(h)
  {
    forall n :: 0 <= n < |h.steps| ==> Careful(h.states[n], h.steps[n])
  }

  ghost predicate Careful(s: State, step: Step) {
    Enabled(s, step) ==> A1(s, step) && A2(s, step)
  }

  lemma RecordedRun(h: History)
    requires Recorded(h)
    ensures IsRun(h.states[0], h.steps, FAULTLESS) && Final(h.states[0], h.steps, FAULTLESS) == Last(h)
    ensures Guarded(h) ==> IsRun(h.states[0], h.steps, RELIABLE) && Final(h.states[0], h.steps, RELIABLE) == Last(h)
  {
    RecordedUnder(h, FAULTLESS);
    if Guarded(h) {
      RecordedUnder(h, RELIABLE);
    }
  }

  lemma {:induction false} RecordedUnder(h: History, m: Regime)
    requires Recorded(h) && (m == FAULTLESS || (m == RELIABLE && Guarded(h)))
    ensures IsRun(h.states[0], h.steps, m) && Final(h.states[0], h.steps, m) == Last(h)
    decreases |h.steps|
  {
    if h.steps != [] {
      var n := |h.steps| - 1;
      UntilRecorded(h, n);
      if m == RELIABLE {
        assert Extends(Until(h, n), h);
        GuardedBefore(Until(h, n), h);
      }
      RecordedUnder(Until(h, n), m);
      RecordedStep(h, n, m);
      RunThen(h.states[0], h.steps[..n], h.steps[n], m);
      assert h.steps[..n] + [h.steps[n]] == h.steps;
    }
  }

  lemma RecordedStep(h: History, n: nat, m: Regime)
    requires Recorded(h) && n < |h.steps| && (m == FAULTLESS || (m == RELIABLE && Guarded(h)))
    ensures Allowed(h.states[n], h.steps[n], m) && Apply(h.states[n], h.steps[n]) == h.states[n + 1]
  {
    assert Follows(h.states[n], h.steps[n], h.states[n + 1]);
    if m == RELIABLE {
      assert Careful(h.states[n], h.steps[n]);
    }
  }

  lemma GuardedBefore(h: History, h': History)
    requires Recorded(h) && Recorded(h') && Extends(h, h') && Guarded(h')
    ensures Guarded(h)
  {
    forall n | 0 <= n < |h.steps|
      ensures Careful(h.states[n], h.steps[n])
    {
      assert h.states[n] == h'.states[n] && h.steps[n] == h'.steps[n];
      assert Careful(h'.states[n], h'.steps[n]);
    }
  }

  /** It started from a safe state and kept A1 and A2. */
  ghost predicate Sound(h: History) {
    Recorded(h) && Guarded(h) && Safe(h.states[0])
  }

  lemma SoundSafe(h: History)
    requires Sound(h)
    ensures Safe(Last(h))
  {
    RecordedRun(h);
    RunSafe(h.states[0], h.steps, RELIABLE);
  }

  lemma SoundBefore(h: History, h': History)
    requires Recorded(h) && Extends(h, h') && Sound(h')
    ensures Sound(h)
  {
    GuardedBefore(h, h');
  }

  /** Where every call comes to one remote recipient at most, A1 and A2 need not be asked for. */
  lemma {:induction false} SingleIsSound(h: History)
    requires Recorded(h) && Safe(h.states[0]) && Solo(h.states[0]) && SingleCalls(h.steps)
    ensures Sound(h) && Solo(Last(h))
    decreases |h.steps|
  {
    if h.steps != [] {
      var n := |h.steps| - 1;
      var before := Until(h, n);
      UntilRecorded(h, n);
      assert forall k :: 0 <= k < n ==> before.steps[k] == h.steps[k];
      SingleIsSound(before);
      SingleThen(h, n);
    }
  }

  lemma SingleThen(h: History, n: nat)
    requires Recorded(h) && |h.steps| == n + 1 && SingleStep(h.steps[n])
    requires Sound(Until(h, n)) && Solo(Last(Until(h, n)))
    ensures Sound(h) && Solo(Last(h))
  {
    UntilRecorded(h, n);
    SoundSafe(Until(h, n));
    assert Follows(h.states[n], h.steps[n], h.states[n + 1]);
    SingleIsCareful(h.states[n], h.steps[n], h.states[n + 1]);
    GuardedThen(h, n);
  }

  lemma SingleIsCareful(s: State, step: Step, s': State)
    requires Safe(s) && Solo(s) && Follows(s, step, s') && SingleStep(step)
    ensures Careful(s, step) && Solo(s')
  {
    SoloGuards(s, step);
    StepSolo(s, step);
  }

  lemma GuardedThen(h: History, n: nat)
    requires Recorded(h) && |h.steps| == n + 1 && Recorded(Until(h, n)) && Guarded(Until(h, n))
    requires Careful(h.states[n], h.steps[n])
    ensures Guarded(h)
  {
    var before := Until(h, n);
    forall k | 0 <= k < |h.steps|
      ensures Careful(h.states[k], h.steps[k])
    {
      if k < n {
        assert before.states[k] == h.states[k] && before.steps[k] == h.steps[k];
        assert Careful(before.states[k], before.steps[k]);
      }
    }
  }

  // ------------------------------------------------------------------ what lasts

  /** Numbers, issued tickets and the log only grow from one moment to a later one. */
  lemma {:induction false} Lasts(h: History, a: nat, b: nat)
    requires Recorded(h) && a <= b < |h.states|
    requires Numbered(h.states[a].issued, h.states[a].mails, h.states[a].clock)
    ensures Numbered(h.states[b].issued, h.states[b].mails, h.states[b].clock)
    ensures IsHistory(h.states[a], h.states[b]) && h.states[a].clock <= h.states[b].clock
    decreases b
  {
    if a < b {
      var s, step, s' := h.states[b - 1], h.steps[b - 1], h.states[b];
      Lasts(h, a, b - 1);
      LastsStep(s, step, s');
      HistoryOn(h.states[a], s, s');
    }
  }

  lemma HistoryOn(s: State, t: State, u: State)
    requires IsHistory(s, t) && IsHistory(t, u)
    ensures IsHistory(s, u)
  {
  }

  lemma LastsStep(s: State, step: Step, s': State)
    requires Follows(s, step, s') && Numbered(s.issued, s.mails, s.clock)
    ensures Numbered(s'.issued, s'.mails, s'.clock) && IsHistory(s, s') && s.clock <= s'.clock
  {
    HistoryStep(s, step);
    StepNumbered(s, step);
    ClockRuns(s, step);
  }

  lemma LastsSince(h: History, h': History)
    requires Recorded(h) && Recorded(h') && Extends(h, h')
    requires Numbered(Last(h).issued, Last(h).mails, Last(h).clock)
    ensures IsHistory(Last(h), Last(h')) && Last(h).clock <= Last(h').clock
  {
    assert h'.states[|h.states| - 1] == Last(h);
    Lasts(h', |h.states| - 1, |h'.states| - 1);
  }

  // --------------------------------------------------------------- what was sent

  /** All attempts of a history, in order. */
  function Trials(h: History): seq<Trial>
    requires |h.states| == |h.tried| == |h.steps| + 1
    decreases |h.steps|
  {
    if h.steps == [] then []
    else
      var n := |h.steps| - 1;
      Trials(Until(h, n)) + TrialOf(h.states[n], h.steps[n])
  }

  /** What a history has recorded as tried is what its steps tried. */
  lemma {:induction false} TriedIsTrials(h: History)
    requires Recorded(h)
    ensures Tried(h) == h.tried[0] + Trials(h)
    decreases |h.steps|
  {
    if h.steps == [] {
      assert h.tried[0] + [] == h.tried[0];
    } else {
      var n := |h.steps| - 1;
      UntilRecorded(h, n);
      TriedIsTrials(Until(h, n));
      Associates(h.tried[0], Trials(Until(h, n)), TrialOf(h.states[n], h.steps[n]));
      TriedNext(h, n);
    }
  }

  lemma TriedNext(h: History, n: nat)
    requires Recorded(h) && n < |h.steps|
    ensures Tried(Until(h, n)) == h.tried[n] && h.tried[n + 1] == h.tried[n] + TrialOf(h.states[n], h.steps[n])
  {
  }

  /** The deliveries written, among some attempts. */
  function Writes(trials: seq<Trial>): multiset<Delivery> {
    if trials == [] then multiset{}
    else
      var last := trials[|trials| - 1];
      Writes(trials[..|trials| - 1]) + if last.ok then multiset{last.x} else multiset{}
  }

  /** At most one more. */
  lemma WritesMore(trials: seq<Trial>, more: seq<Trial>)
    requires |more| <= 1
    ensures Writes(trials + more) == Writes(trials) + Writes(more)
  {
    if more == [] {
      assert trials + more == trials;
    } else {
      assert (trials + more)[..|trials|] == trials;
      assert more[..0] == [];
    }
  }

  lemma {:induction false} WritesTried(trials: seq<Trial>, x: Delivery)
    requires x in Writes(trials)
    ensures Trial(x, true) in trials
  {
    var n := |trials| - 1;
    if trials[n] != Trial(x, true) {
      WritesTried(trials[..n], x);
    }
  }

  /** The log's entries since the start are exactly the attempts that succeeded. */
  lemma {:induction false} LogIsWrites(h: History)
    requires Recorded(h)
    ensures Last(h).log == h.states[0].log + Writes(Trials(h))
    decreases |h.steps|
  {
    if h.steps != [] {
      var before, more := LastWrites(h);
      LogIsWrites(before);
      LogGrows(h.states[0].log, Last(before).log, Last(h).log, Trials(before), more);
    }
  }

  /** The history before its last step, and what that step tried. */
  lemma LastWrites(h: History) returns (before: History, more: seq<Trial>)
    requires Recorded(h) && h.steps != []
    ensures Recorded(before) && |before.steps| == |h.steps| - 1 && before.states[0] == h.states[0]
    ensures |more| <= 1 && Trials(h) == Trials(before) + more && Last(h).log == Last(before).log + Writes(more)
  {
    var n := |h.steps| - 1;
    UntilRecorded(h, n);
    StepWritten(h, n);
    before, more := Until(h, n), TrialOf(h.states[n], h.steps[n]);
  }

  lemma LogGrows(start: multiset<Delivery>, log: multiset<Delivery>, log': multiset<Delivery>, trials: seq<Trial>,
      more: seq<Trial>)
    requires |more| <= 1 && log == start + Writes(trials) && log' == log + Writes(more)
    ensures log' == start + Writes(trials + more)
  {
    WritesMore(trials, more);
  }

  lemma StepWritten(h: History, n: nat)
    requires Recorded(h) && n < |h.steps|
    ensures h.states[n + 1].log == h.states[n].log + Writes(TrialOf(h.states[n], h.steps[n]))
  {
    assert Follows(h.states[n], h.steps[n], h.states[n + 1]);
    StepWrites(h.states[n], h.steps[n]);
  }

  lemma StepWrites(s: State, step: Step)
    requires Enabled(s, step)
    ensures Apply(s, step).log == s.log + Writes(TrialOf(s, step))
  {
    if step.SendOk? {
      assert TrialOf(s, step)[..0] == [];
    } else {
      OthersWriteNothing(s, step);
    }
  }

  lemma OthersWriteNothing(s: State, step: Step)
    requires Enabled(s, step) && !step.SendOk?
    ensures Apply(s, step).log == s.log && Writes(TrialOf(s, step)) == multiset{}
  {
    if ByWorker(step) {
      LogKept(s, step);
    } else if Plain(step) {
      PlainStep(s, step);
    } else if step.Insert? {
      InsertLeaves(s, step.c);
    }
  }

  /** The history from its n-th state on. */
  function Since(h: History, n: nat): History
    requires n < |h.states| && n <= |h.steps| && n < |h.tried|
  {
    History(h.states[n..], h.steps[n..], h.tried[n..])
  }

  // --------------------------------------------------------------- what trials say

  /** In a sound history what is tried, written or not, is the delivery its ticket stands for. */
  lemma {:induction false} TrialsAreIssued(h: History)
    requires Sound(h)
    ensures forall a :: a in Trials(h) ==> a.x.ticket in Last(h).issued && Last(h).issued[a.x.ticket] == a.x
    decreases |h.steps|
  {
    if h.steps != [] {
      var n := |h.steps| - 1;
      UntilRecorded(h, n);
      SoundBefore(Until(h, n), h);
      TrialsAreIssued(Until(h, n));
      SoundSafe(Until(h, n));
      assert Follows(h.states[n], h.steps[n], h.states[n + 1]);
      TrialIsIssued(h.states[n], h.steps[n]);
      HistoryStep(h.states[n], h.steps[n]);
    }
  }

  lemma TrialIsIssued(s: State, step: Step)
    requires Safe(s) && Enabled(s, step)
    ensures forall a :: a in TrialOf(s, step) ==> a.x.ticket in s.issued && s.issued[a.x.ticket] == a.x
  {
    if step.SendOk? || step.SendFail? {
      SendsAsIssued(s, step.g);
    }
  }

  /** A send of ticket t was tried and failed. */
  ghost predicate FailedOnce(trials: seq<Trial>, t: nat) {
    exists a :: a in trials && !a.ok && a.x.ticket == t
  }

  /** The failure record holds no ticket whose send was not tried. */
  lemma {:induction false} FailuresWereTried(h: History)
    requires Recorded(h)
    ensures forall t :: t in Last(h).failed ==> t in h.states[0].failed || FailedOnce(Trials(h), t)
    decreases |h.steps|
  {
    if h.steps != [] {
      var n := |h.steps| - 1;
      UntilRecorded(h, n);
      FailuresWereTried(Until(h, n));
      assert Follows(h.states[n], h.steps[n], h.states[n + 1]);
      forall t | t in Last(h).failed
        ensures t in h.states[0].failed || FailedOnce(Trials(h), t)
      {
        FailureIsTrial(h.states[n], h.steps[n], t);
        if t !in h.states[0].failed {
          FailedMore(Trials(Until(h, n)), TrialOf(h.states[n], h.steps[n]), t);
        }
      }
    }
  }

  lemma FailureIsTrial(s: State, step: Step, t: nat)
    requires Enabled(s, step) && t in Apply(s, step).failed
    ensures t in s.failed || FailedOnce(TrialOf(s, step), t)
  {
    if step.SendFail? {
      assert Trial(Sent(s.workers[step.g]), false) in TrialOf(s, step);
    } else {
      OthersFailNothing(s, step);
    }
  }

  lemma OthersFailNothing(s: State, step: Step)
    requires Enabled(s, step) && !step.SendFail?
    ensures Apply(s, step).failed <= s.failed
  {
  }

  lemma FailedMore(trials: seq<Trial>, more: seq<Trial>, t: nat)
    requires FailedOnce(trials, t) || FailedOnce(more, t)
    ensures FailedOnce(trials + more, t)
  {
    var a :| (a in trials || a in more) && !a.ok && a.x.ticket == t;
    assert a in trials + more;
  }

  // ---------------------------------------------------------------- once each

  /** Of the trials that succeeded, no two are of one ticket. */
  ghost predicate OnceEach(trials: seq<Trial>) {
    forall i, j :: 0 <= i < j < |trials| && trials[i].ok && trials[j].ok ==> trials[i].x.ticket != trials[j].x.ticket
  }

  /** Each trial says what its ticket says, as to destination, sender and recipient. */
  ghost predicate AllStand(trials: seq<Trial>, issued: Issued) {
    forall a :: a in trials ==> Stands(issued, a.x.ticket, a.x.key, a.x.from, a.x.rcpt)
  }

  lemma {:induction false} TrialsOnce(h: History)
    requires Recorded(h) && Once(h.states[0])
    ensures Once(Last(h)) && OnceEach(Trials(h)) && AllStand(Trials(h), Last(h).issued)
    ensures forall a :: a in Trials(h) && a.ok ==> a.x in Last(h).log
    decreases |h.steps|
  {
    if h.steps != [] {
      var n := |h.steps| - 1;
      UntilRecorded(h, n);
      TrialsOnce(Until(h, n));
      TrialsOnceStep(h.states[n], h.steps[n], h.states[n + 1], Trials(Until(h, n)));
    }
  }

  lemma TrialsOnceStep(s: State, step: Step, s': State, trials: seq<Trial>)
    requires Follows(s, step, s') && Once(s) && OnceEach(trials) && AllStand(trials, s.issued)
    requires forall a :: a in trials && a.ok ==> a.x in s.log
    ensures Once(s') && OnceEach(trials + TrialOf(s, step)) && AllStand(trials + TrialOf(s, step), s'.issued)
    ensures forall a :: a in trials + TrialOf(s, step) && a.ok ==> a.x in s'.log
  {
    NoErrorsDrop(s, step, NoErrors);
    StepOnce(s, step);
    HistoryStep(s, step);
    NewTrial(s, step);
    TrialsOnceMore(trials, TrialOf(s, step), s, s');
  }

  /** A new trial says what its ticket says, and is the first to succeed with it if it does. */
  lemma NewTrial(s: State, step: Step)
    requires Once(s) && Enabled(s, step)
    ensures |TrialOf(s, step)| <= 1 && AllStand(TrialOf(s, step), s.issued)
    ensures forall a :: a in TrialOf(s, step) && a.ok ==> !Logged(s.log, a.x.ticket) && a.x in Apply(s, step).log
  {
    if step.SendOk? || step.SendFail? {
      assert Holds(s.workers[step.g], s.workers[step.g].pc.ref);
      NotYetWritten(s, step.g);
    }
  }

  lemma TrialsOnceMore(trials: seq<Trial>, more: seq<Trial>, s: State, s': State)
    requires OnceEach(trials) && AllStand(trials, s.issued) && forall a :: a in trials && a.ok ==> a.x in s.log
    requires |more| <= 1 && AllStand(more, s.issued) && IsHistory(s, s')
    requires forall a :: a in more && a.ok ==> !Logged(s.log, a.x.ticket) && a.x in s'.log
    ensures OnceEach(trials + more) && AllStand(trials + more, s'.issued)
    ensures forall a :: a in trials + more && a.ok ==> a.x in s'.log
  {
    forall i | 0 <= i < |trials| && trials[i].ok
      ensures Logged(s.log, trials[i].x.ticket)
    {
      assert trials[i] in trials && trials[i].x in s.log;
    }
    assert forall a :: a in trials + more <==> a in trials || a in more;
    assert more != [] ==> more[0] in more;
  }
}
