/**
 End to end over what was really said: each conversation a sender's transport has held
 since the start, traced back to the local session that asked for it and forward to
 the node that hears it.
 */
module Conversations {
  import opened Base
  import opened Addresses
  import opened DeliveryProtocol
  import opened DeliverySafety
  import opened DeliveryTickets
  import opened DeliveryRuns
  import opened DeliveryOrigin
  import opened DeliveryHistory
  import opened Sender
  import opened SenderLaws
  import opened Sessions

  /** The call whose MailCreate the step is asked for what was said: sender, recipient, node, and the body if `full`. */
  ghost predicate AskedToSay(step: Step, v: Conversation, full: bool) {
    && step.Create? && step.from == v.from && Remote(v.dest, v.rcpt) in step.targets
    && (full ==> step.body == v.body)
  }

  ghost predicate WasAsked(steps: seq<Step>, v: Conversation, full: bool) {
    exists n :: 0 <= n < |steps| && AskedToSay(steps[n], v, full)
  }

  /**
   Every conversation held since a start with an empty Outbox, whether it came to its end
   or not, was asked for by a call, with its sender and recipient, and with its body if
   the history kept A1 and A2.  If local sessions made all calls, the sender is the one a
   session left, and a bare recipient's conversation is heard by its one node.
   */
  lemma HeldIsHeard(q: Queues, parse: MailParser, n: nat)
    requires q.Valid() && |q.own| == KEY_SIZE && q.path.states[0] == INIT
    requires AllBySession(q.own, parse, q.path.steps)
    requires |q.heldBefore| <= n < |q.transport.held|
    ensures var v := q.transport.held[n];
      && WasAsked(q.path.steps, v, false) && (Sound(q.path) ==> WasAsked(q.path.steps, v, true))
      && (parse(v.rcpt) == Some(v.rcpt) ==> FromSession(q.own, v.from) && Reaches(q.own, v.dest, v.hello, v.from, v.rcpt))
  {
    var a := TrialBehind(q, n);
    TrialStands(q.path, a);
    var v := q.transport.held[n];
    TrialWasAsked(q, a, false);
    if Sound(q.path) {
      TrialsAreIssued(q.path);
      TrialWasAsked(q, a, true);
    }
    if parse(v.rcpt) == Some(v.rcpt) {
      RecordedRun(q.path);
      EndToEnd(q.own, parse, q.path.steps, FAULTLESS, a.x.ticket);
    }
  }

  /** The send of the history that the n-th conversation was. */
  lemma TrialBehind(q: Queues, n: nat) returns (a: Trial)
    requires q.Valid() && |q.heldBefore| <= n < |q.transport.held|
    ensures a in Trials(q.path) && q.transport.held[n] == Said(q.own, a)
  {
    HeldIsTrials(q);
    a := NthSaid(q.own, q.heldBefore, Trials(q.path), q.transport.held, n);
  }

  lemma NthSaid(own: Bytes, before: seq<Conversation>, trials: seq<Trial>, held: seq<Conversation>, n: nat)
      returns (a: Trial)
    requires held == before + AllSaid(own, trials) && |before| <= n < |held|
    ensures a in trials && held[n] == Said(own, a)
  {
    a := trials[n - |before|];
  }

  lemma TrialStands(h: History, a: Trial)
    requires Recorded(h) && h.states[0] == INIT && a in Trials(h)
    ensures Stands(Last(h).issued, a.x.ticket, a.x.key, a.x.from, a.x.rcpt)
  {
    EmptyOutboxIsAStart();
    TrialsOnce(h);
  }

  lemma TrialWasAsked(q: Queues, a: Trial, full: bool)
    requires q.Valid() && q.path.states[0] == INIT && Stands(q.sys.issued, a.x.ticket, a.x.key, a.x.from, a.x.rcpt)
    requires full ==> Sound(q.path) && q.sys.issued[a.x.ticket] == a.x
    ensures WasAsked(q.path.steps, Said(q.own, a), full)
  {
    RecordedRun(q.path);
    DeliveriesWereAsked(q.path.steps, if full then RELIABLE else FAULTLESS);
    var n :| 0 <= n < |q.path.steps| && Asked(q.path.steps[n], q.sys.issued[a.x.ticket], full);
    assert AskedToSay(q.path.steps[n], Said(q.own, a), full);
  }
}
