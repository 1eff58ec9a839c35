/**
 Where deliveries come from: whatever the schedule and whatever fails, each row
 ever inserted is for a remote recipient of some call of `QueueFor`, and carries
 the sender that call was given; under A1 and A2 also its content.
 */
module DeliveryOrigin {
  import opened Base
  import opened DeliveryProtocol
  import opened DeliverySafety
  import opened DeliveryTickets
  import opened DeliveryRuns

  /** Step p is the call's MailCreate. */
  ghost predicate Made(p: Step, q: Client) {
    && (if q.id == 0 then p.SilentCreate? else p.Create?)
    && p.from == q.from && p.body == q.body && forall t :: t in q.targets ==> t in p.targets
  }

  /** Step p is the MailCreate of a call that asked for delivery x; `own` says with its content. */
  predicate Asked(p: Step, x: Delivery, own: bool) {
    p.Create? && p.from == x.from && Remote(x.key.dest, x.rcpt) in p.targets && (own ==> p.body == x.body)
  }

  ghost predicate HasMaker(past: seq<Step>, q: Client) {
    exists n :: 0 <= n < |past| && Made(past[n], q)
  }

  ghost predicate HasAsker(past: seq<Step>, x: Delivery, own: bool) {
    exists n :: 0 <= n < |past| && Asked(past[n], x, own)
  }

  ghost predicate Origins(past: seq<Step>, s: State, own: bool) {
    && (forall c :: c in s.clients ==> HasMaker(past, s.clients[c]))
    && (forall t :: t in s.issued ==> HasAsker(past, s.issued[t], own))
  }

  lemma MakerStays(past: seq<Step>, step: Step, q: Client, q': Client)
    requires HasMaker(past, q)
    requires q'.id == q.id && q'.from == q.from && q'.body == q.body && forall t :: t in q'.targets ==> t in q.targets
    ensures HasMaker(past + [step], q')
  {
    var n :| 0 <= n < |past| && Made(past[n], q);
    assert (past + [step])[n] == past[n];
  }

  lemma AskerStays(past: seq<Step>, step: Step, x: Delivery, own: bool)
    requires HasAsker(past, x, own)
    ensures HasAsker(past + [step], x, own)
  {
    var n :| 0 <= n < |past| && Asked(past[n], x, own);
    assert (past + [step])[n] == past[n];
  }

  lemma IssuedOrigins(past: seq<Step>, s: State, step: Step, own: bool)
    requires Origins(past, s, own) && Numbered(s.issued, s.mails, s.clock) && Enabled(s, step)
    requires own ==> ClientsOk(s.clients, s.mails)
    ensures forall t :: t in Apply(s, step).issued ==> HasAsker(past + [step], Apply(s, step).issued[t], own)
  {
    var s' := Apply(s, step);
    forall t | t in s'.issued
      ensures HasAsker(past + [step], s'.issued[t], own)
    {
      if step.Insert? && Inserts(s, step.c) && t == s.clock {
        InsertAsked(past, s, step.c, own);
        AskerStays(past, step, s'.issued[t], own);
      } else {
        IssuedBefore(s, step, t);
        AskerStays(past, step, s.issued[t], own);
      }
    }
  }

  lemma IssuedBefore(s: State, step: Step, t: nat)
    requires Enabled(s, step) && t in Apply(s, step).issued
    requires !(step.Insert? && Inserts(s, step.c) && t == s.clock)
    ensures t in s.issued && Apply(s, step).issued[t] == s.issued[t]
  {
    if step.Insert? {
      if !Inserts(s, step.c) {
        SkipTables(s, step.c);
      }
    } else if !step.Create? {
      NumbersKept(s, step);
    }
  }

  lemma InsertAsked(past: seq<Step>, s: State, c: nat, own: bool)
    requires Origins(past, s, own) && Numbered(s.issued, s.mails, s.clock) && Inserts(s, c)
    requires own ==> ClientsOk(s.clients, s.mails)
    ensures HasAsker(past, InsertNext(s, c).issued[s.clock], own)
  {
    var q := s.clients[c];
    assert HasMaker(past, q);
    var n :| 0 <= n < |past| && Made(past[n], q);
    assert q.targets[0] in q.targets;
    if own {
      QueuesOwn(s, c);
    }
    assert Asked(past[n], InsertNext(s, c).issued[s.clock], own);
  }

  lemma ClientOrigins(past: seq<Step>, s: State, step: Step, own: bool)
    requires Origins(past, s, own) && Numbered(s.issued, s.mails, s.clock) && Enabled(s, step)
    ensures forall c :: c in Apply(s, step).clients ==> HasMaker(past + [step], Apply(s, step).clients[c])
  {
    var s' := Apply(s, step);
    forall c | c in s'.clients
      ensures HasMaker(past + [step], s'.clients[c])
    {
      if (step.Create? || step.SilentCreate?) && c == step.c {
        assert (past + [step])[|past|] == step;
        assert Made(step, s'.clients[c]);
      } else {
        ClientBefore(s, step, c);
        MakerStays(past, step, s.clients[c], s'.clients[c]);
      }
    }
  }

  lemma ClientBefore(s: State, step: Step, c: nat)
    requires Enabled(s, step) && c in Apply(s, step).clients
    requires (step.Create? || step.SilentCreate?) ==> step.c != c
    ensures c in s.clients
    ensures var q, q' := s.clients[c], Apply(s, step).clients[c];
      && q'.id == q.id && q'.from == q.from && q'.body == q.body
      && forall t :: t in q'.targets ==> t in q.targets
  {
    if ByWorker(step) {
      WorkerLeavesClients(s, step);
    } else if step.Insert? && !Inserts(s, step.c) {
      SkipClients(s, step.c);
    }
  }

  lemma StepOrigins(past: seq<Step>, s: State, step: Step, own: bool)
    requires Origins(past, s, own) && Numbered(s.issued, s.mails, s.clock) && Enabled(s, step)
    requires own ==> ClientsOk(s.clients, s.mails)
    ensures Origins(past + [step], Apply(s, step), own)
  {
    IssuedOrigins(past, s, step, own);
    ClientOrigins(past, s, step, own);
  }

  // ---------------------------------------------------------------------- runs

  lemma {:induction false} RunOrigins(past: seq<Step>, s: State, steps: seq<Step>, m: Regime, own: bool)
    requires Origins(past, s, own) && Ticketed(s) && IsRun(s, steps, m)
    requires own ==> Safe(s) && m.a1 && m.a2
    ensures Origins(past + steps, Final(s, steps, m), own) && Ticketed(Final(s, steps, m))
    decreases |steps|
  {
    if steps == [] {
      assert past + steps == past;
    } else {
      StepOrigins(past, s, steps[0], own);
      StepTicketed(s, steps[0]);
      if own {
        StepSafe(s, steps[0]);
      }
      RunOrigins(past + [steps[0]], Apply(s, steps[0]), steps[1..], m, own);
      assert past + steps == (past + [steps[0]]) + steps[1..];
    }
  }

  /**
   Every delivery issued in a run was asked for by a call in it; so was what each
   row says, and what each reference says that a worker holds.
   */
  lemma DeliveriesWereAsked(steps: seq<Step>, m: Regime)
    requires IsRun(INIT, steps, m)
    ensures var s, own := Final(INIT, steps, m), m.a1 && m.a2;
      && (forall t :: t in s.issued ==> HasAsker(steps, s.issued[t], own))
      && (forall k :: k in s.queue ==>
            Stands(s.issued, s.queue[k].ticket, k, s.queue[k].from, s.queue[k].rcpt))
      && (forall g, r :: g in s.workers && Holds(s.workers[g], r) ==>
            Stands(s.issued, r.ticket, Key(s.workers[g].dest, r.id), r.from, r.rcpt))
  {
    InitSafe();
    RunOrigins([], INIT, steps, m, m.a1 && m.a2);
    assert [] + steps == steps;
  }
}
