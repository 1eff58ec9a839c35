/**
 The other side of at-most-once writing: when the deletion of a row already
 written fails, the next round writes the delivery again.
 */
module DeliveryTwice {
  import opened Base
  import opened DeliveryProtocol
  import opened DeliverySafety
  import opened DeliveryRuns
  import opened DeliveryNecessity

  /** One delivery, to destination d. */
  datatype Parcel = Parcel(from: string, body: Bytes, d: string, rcpt: string)

  function Issued(p: Parcel): Delivery {
    Delivery(1, 0, Key(p.d, 1), p.from, p.rcpt, p.body)
  }

  function RefTo(p: Parcel): Ref {
    Ref(1, p.from, p.rcpt, 1)
  }

  /** Its row is queued, its body has been written once, and worker g is at pc. */
  function OneWorker(p: Parcel, g: nat, pc: Pc): State {
    Kicked(p.from, p.body, p.d, p.rcpt, []).(
      workers := map[g := Worker(p.d, pc, [])],
      log := multiset{Issued(p)})
  }

  /** ... and there is no worker. */
  function NoWorker(p: Parcel): State {
    OneWorker(p, 0, Starting).(workers := map[], running := {})
  }

  /**
   For every delivery: a run without errors to the point where its worker has written
   it and is about to delete the row; that delete fails; and a run without errors, or
   calls, from there in which the worker of the next tick writes it again.
   */
  lemma FailedDropWritesTwice(p: Parcel) returns (s: State, s': State)
    requires p.d != "Outbox"
    ensures Reached(From([[Remote(p.d, p.rcpt)]]), s, RELIABLE)
    ensures s.workers.Keys == {0} && s.workers[0].pc.Written? && Enabled(s, Fault(0)) && DropFails(s, Fault(0))
    ensures Reached(Trail(DoFault(s, 0), []), s', RELIABLE)
    ensures Issued(p).ticket in s.issued && s.issued[Issued(p).ticket] == Issued(p) && s'.log[Issued(p)] == 2
  {
    FirstWrite(p);
    s := OneWorker(p, 0, Written(RefTo(p)));
    StartReached(DoFault(s, 0), RELIABLE);
    DropFaults(p);
    NextRound(Trail(DoFault(s, 0), []), p);
    s' := WritesAgain(Trail(DoFault(s, 0), []), p);
  }

  lemma FirstWrite(p: Parcel)
    requires p.d != "Outbox"
    ensures Reached(From([[Remote(p.d, p.rcpt)]]), OneWorker(p, 0, Written(RefTo(p))), RELIABLE)
  {
    var trail := From([[Remote(p.d, p.rcpt)]]);
    var d', rcpt', rest := FirstRow(p.from, p.body, [Remote(p.d, p.rcpt)], RELIABLE);
    assert [Remote(p.d, p.rcpt)][0] == Remote(d', rcpt') && rest == [];
    var s0 := Kicked(p.from, p.body, p.d, p.rcpt, []);
    ReadsOne(trail, s0, 0, RefTo(p), RELIABLE);
    Next(trail, HasRead(s0, 0, RefTo(p)), SendOk(0), RELIABLE);
    WrittenOnce(p);
  }

  lemma WrittenOnce(p: Parcel)
    ensures DoSendOk(HasRead(Kicked(p.from, p.body, p.d, p.rcpt, []), 0, RefTo(p)), 0) ==
      OneWorker(p, 0, Written(RefTo(p)))
  {
    var s := HasRead(Kicked(p.from, p.body, p.d, p.rcpt, []), 0, RefTo(p));
    assert Sent(s.workers[0]) == Issued(p);
    assert s.log + multiset{Issued(p)} == multiset{Issued(p)};
  }

  lemma DropFaults(p: Parcel)
    ensures DoFault(OneWorker(p, 0, Written(RefTo(p))), 0) == OneWorker(p, 0, Looping)
  {
  }

  lemma NextRound(trail: Trail, p: Parcel)
    requires Reached(trail, OneWorker(p, 0, Looping), RELIABLE)
    ensures Reached(trail, OneWorker(p, 1, Starting), RELIABLE)
  {
    Ends(trail, p);
    var s := NoWorker(p);
    assert Key(p.d, 1) in s.queue && p.d in [p.d];
    Next(trail, s, Tick([p.d]), RELIABLE);
    Next(trail, DoTick(s, [p.d]), TickStart(1), RELIABLE);
    Restarts(p);
  }

  lemma Restarts(p: Parcel)
    ensures DoTickStart(DoTick(NoWorker(p), [p.d]), 1) == OneWorker(p, 1, Starting)
  {
    var s1 := DoTick(NoWorker(p), [p.d]);
    assert [p.d][0] == p.d && [p.d][1..] == [] && {} + {p.d} == {p.d};
    assert s1.workers[1 := Worker(p.d, Starting, [])] == map[1 := Worker(p.d, Starting, [])];
  }

  lemma Ends(trail: Trail, p: Parcel)
    requires Reached(trail, OneWorker(p, 0, Looping), RELIABLE)
    ensures Reached(trail, NoWorker(p), RELIABLE)
  {
    Next(trail, OneWorker(p, 0, Looping), Expunge(0), RELIABLE);
    ExpungesNothing(p);
    Next(trail, OneWorker(p, 0, Finishing), Finish(0), RELIABLE);
    FinishesAlone(p);
  }

  lemma ExpungesNothing(p: Parcel)
    ensures DoExpunge(OneWorker(p, 0, Looping), 0) == OneWorker(p, 0, Finishing)
  {
    var s := OneWorker(p, 0, Looping);
    assert Expunged(s).mails == s.mails && Expunged(s).queue == s.queue;
  }

  lemma FinishesAlone(p: Parcel)
    ensures DoFinish(OneWorker(p, 0, Finishing), 0) == NoWorker(p)
  {
    var s := OneWorker(p, 0, Finishing);
    assert s.workers - {0} == map[] && s.running - {p.d} == {};
  }

  lemma WritesAgain(trail: Trail, p: Parcel) returns (s: State)
    requires Reached(trail, OneWorker(p, 1, Starting), RELIABLE)
    ensures Reached(trail, s, RELIABLE) && s.log[Issued(p)] == 2
  {
    var s0, r := OneWorker(p, 1, Starting), RefTo(p);
    ReadsOne(trail, s0, 1, r, RELIABLE);
    s := DoSendOk(HasRead(s0, 1, r), 1);
    Next(trail, HasRead(s0, 1, r), SendOk(1), RELIABLE);
  }
}
