/**
 The two SMTP sessions of a node and the checks that tie them together: what a
 local session lets a user send, and what a remote session accepts from a peer.
 */
module Sessions {
  import opened Base
  import opened Addresses
  import opened DeliveryProtocol
  import opened DeliverySafety
  import opened DeliveryTickets
  import opened DeliveryRuns
  import opened DeliveryOrigin
  import opened DeliveryHistory
  import opened Sender
  import opened Storage
  import Tables

  // ----------------------------------------------------------- local commands

  /** A command of a local session; DATA comes between them and leaves the fields alone. */
  datatype Command = MAIL(from: string) | RCPT(to: string) | RSET

  datatype LocalState = LocalState(from: string, rcpt: seq<string>)

  const FRESH := LocalState("", [])

  predicate IsOwn(own: Bytes, from: string) {
    ParseAddress(from) == Tables.Ok(own)
  }

  /** A refused MAIL has already dropped the recipients, but keeps the old sender. */
  function LocalStep(own: Bytes, s: LocalState, cmd: Command): LocalState {
    match cmd
    case MAIL(from) => LocalState(if IsOwn(own, from) then from else s.from, [])
    case RCPT(to) => s.(rcpt := s.rcpt + [to])
    case RSET => FRESH
  }

  function LocalRun(own: Bytes, cmds: seq<Command>): LocalState {
    if cmds == [] then FRESH else LocalStep(own, LocalRun(own, cmds[..|cmds| - 1]), cmds[|cmds| - 1])
  }

  /** The last own address a MAIL gave since the last RSET, if any. */
  ghost predicate SenderSince(own: Bytes, cmds: seq<Command>, n: nat, from: string) {
    && n < |cmds| && cmds[n] == MAIL(from) && IsOwn(own, from)
    && forall j :: n < j < |cmds| ==> !cmds[j].RSET? && (cmds[j].MAIL? ==> !IsOwn(own, cmds[j].from))
  }

  ghost predicate HasSender(own: Bytes, cmds: seq<Command>) {
    exists n, from :: SenderSince(own, cmds, n, from)
  }

  /**
   Over every command trace the session's sender is empty or an own address, and
   it is set exactly when some MAIL was accepted since the last RSET.
   */
  lemma {:induction false} SenderIsOwn(own: Bytes, cmds: seq<Command>)
    ensures var s := LocalRun(own, cmds);
      && (s.from == "" || IsOwn(own, s.from))
      && (s.from != "" <==> HasSender(own, cmds))
      && (forall n, from :: SenderSince(own, cmds, n, from) ==> s.from == from)
  {
    if cmds != [] {
      var before, cmd := cmds[..|cmds| - 1], cmds[|cmds| - 1];
      assert cmds == before + [cmd];
      SenderIsOwn(own, before);
      if cmd.MAIL? && IsOwn(own, cmd.from) {
        SenderSet(own, before, cmd);
      } else if cmd.RSET? {
        assert forall n, from :: !SenderSince(own, cmds, n, from);
      } else {
        SenderStays(own, before, cmd);
      }
    }
  }

  /** An accepted MAIL is the sender from then on. */
  lemma SenderSet(own: Bytes, cmds: seq<Command>, cmd: Command)
    requires cmd.MAIL? && IsOwn(own, cmd.from)
    ensures HasSender(own, cmds + [cmd]) && cmd.from != ""
    ensures forall n, from :: SenderSince(own, cmds + [cmd], n, from) ==> from == cmd.from
  {
    EmptyNeverOwn(own);
    assert SenderSince(own, cmds + [cmd], |cmds|, cmd.from);
  }

  /** A recipient or a refused MAIL leaves the sender of a trace as it was. */
  lemma SenderStays(own: Bytes, cmds: seq<Command>, cmd: Command)
    requires !cmd.RSET? && (cmd.MAIL? ==> !IsOwn(own, cmd.from))
    ensures forall n, from :: SenderSince(own, cmds + [cmd], n, from) <==> SenderSince(own, cmds, n, from)
    ensures HasSender(own, cmds + [cmd]) <==> HasSender(own, cmds)
  {
    forall n: nat, from
      ensures SenderSince(own, cmds + [cmd], n, from) <==> SenderSince(own, cmds, n, from)
    {
      StaysSince(own, cmds, cmd, n, from);
    }
    if HasSender(own, cmds) {
      var n, from :| SenderSince(own, cmds, n, from);
      assert SenderSince(own, cmds + [cmd], n, from);
    }
  }

  lemma StaysSince(own: Bytes, cmds: seq<Command>, cmd: Command, n: nat, from: string)
    requires !cmd.RSET? && (cmd.MAIL? ==> !IsOwn(own, cmd.from))
    ensures SenderSince(own, cmds + [cmd], n, from) <==> SenderSince(own, cmds, n, from)
  {
    var after := cmds + [cmd];
    assert forall j :: 0 <= j < |cmds| ==> after[j] == cmds[j];
    assert after[|cmds|] == cmd;
  }

  lemma EmptyNeverOwn(own: Bytes)
    ensures !IsOwn(own, "")
  {
  }

  /** Command n gives a recipient of the mail in progress: no MAIL and no RSET has come after it. */
  ghost predicate Counts(cmds: seq<Command>, n: nat) {
    n < |cmds| && cmds[n].RCPT? && forall j :: n < j < |cmds| ==> cmds[j].RCPT?
  }

  /** The recipients are the arguments of those commands, in order and with repetitions. */
  ghost predicate AreRecipients(cmds: seq<Command>, rcpt: seq<string>, pos: seq<nat>) {
    && |pos| == |rcpt|
    && (forall i, j :: 0 <= i < j < |pos| ==> pos[i] < pos[j])
    && (forall n :: n in pos <==> Counts(cmds, n))
    && (forall i :: 0 <= i < |pos| ==> pos[i] < |cmds| && cmds[pos[i]] == RCPT(rcpt[i]))
  }

  /**
   Over every command trace the session's recipients are exactly the arguments of the
   RCPT commands after the last MAIL or RSET, whether that MAIL was accepted or refused.
   */
  lemma {:induction false} RecipientsAre(own: Bytes, cmds: seq<Command>) returns (pos: seq<nat>)
    ensures AreRecipients(cmds, LocalRun(own, cmds).rcpt, pos)
  {
    pos := [];
    if cmds != [] {
      var before, cmd := cmds[..|cmds| - 1], cmds[|cmds| - 1];
      assert cmds == before + [cmd];
      if cmd.RCPT? {
        var pos0 := RecipientsAre(own, before);
        OneMoreRecipient(before, LocalRun(own, before).rcpt, pos0, cmd.to);
        pos := pos0 + [|before|];
      } else {
        assert forall n: nat :: n < |before| ==> !Counts(cmds, n);
      }
    }
  }

  lemma OneMoreRecipient(cmds: seq<Command>, rcpt: seq<string>, pos: seq<nat>, to_: string)
    requires AreRecipients(cmds, rcpt, pos)
    ensures AreRecipients(cmds + [RCPT(to_)], rcpt + [to_], pos + [|cmds|])
  {
    var more := cmds + [RCPT(to_)];
    assert forall j :: 0 <= j < |cmds| ==> more[j] == cmds[j];
    forall n: nat
      ensures n in pos + [|cmds|] <==> Counts(more, n)
    {
      assert n < |cmds| ==> (Counts(more, n) <==> Counts(cmds, n));
    }
    forall i | 0 <= i < |pos|
      ensures pos[i] < |cmds|
    {
      assert pos[i] in pos;
    }
  }

  class SessionLocal {
    const own: Bytes
    const queues: Queues
    var from: string
    var rcpt: seq<string>
    ghost var cmds: seq<Command>

    /** The fields are what the commands so far make them. */
    ghost predicate Valid()
      reads this
    {
      Fields() == LocalRun(own, cmds)
    }

    function Fields(): LocalState
      reads this
    {
      LocalState(from, rcpt)
    }

    constructor (own: Bytes, queues: Queues)
      ensures this.own == own && this.queues == queues && cmds == [] && Valid()
    {
      this.own, this.queues, this.from, this.rcpt, this.cmds := own, queues, "", [], [];
    }

    method Mail(from: string) returns (r: Tables.Reply<()>)
      requires Valid()
      modifies this
      ensures Valid() && cmds == old(cmds) + [MAIL(from)] && Fields() == LocalStep(own, old(Fields()), MAIL(from))
      ensures r.Ok? <==> IsOwn(own, from)
    {
      cmds := cmds + [MAIL(from)];
      rcpt := [];
      var pk := ParseAddress(from);
      if pk.Err? {
        return Tables.Err(pk.error);
      }
      if pk.value != own {
        return Tables.Err(Tables.Refused);
      }
      this.from := from;
      r := Tables.Ok(());
    }

    method Rcpt(to: string)
      requires Valid()
      modifies this
      ensures Valid() && cmds == old(cmds) + [RCPT(to)] && Fields() == LocalStep(own, old(Fields()), RCPT(to))
    {
      cmds := cmds + [RCPT(to)];
      rcpt := rcpt + [to];
    }

    method Reset()
      requires Valid()
      modifies this
      ensures Valid() && cmds == old(cmds) + [RSET] && Fields() == LocalStep(own, old(Fields()), RSET)
    {
      cmds := cmds + [RSET];
      rcpt := [];
      from := "";
    }

    /**
     Hand the mail, headers already added, to QueueFor as call c: it is stored as given,
     and on success queued under the session's sender for each of its recipients whose
     key is not this node's.
     */
    method Data(ghost c: nat, body: Bytes, parse: MailParser, now: int)
        returns (r: Tables.Reply<()>, ghost pid: int, ghost at: nat, ghost tickets: seq<Option<nat>>)
      requires Valid() && queues.own == own && queues.Valid() && c !in queues.sys.clients
      requires {this as object} !! {queues as object, queues.store as object, queues.transport as object}
      modifies queues, queues.store, queues.transport
      ensures queues.Valid() && Extends(old(queues.path), queues.path)
      ensures Valid() && Fields() == old(Fields()) && cmds == old(cmds)
      ensures |old(queues.path.steps)| <= at
      ensures Stores(queues.path, at, c, from, Targets(own, parse, rcpt), body, pid)
      ensures BySession(own, parse, queues.path.steps[at])
      ensures r.Ok? ==>
        AllHandled(queues.path, own, parse, rcpt, tickets, at, c, old(queues.sys.clock), pid, from,
          queues.path.states[at].clock, body)
      ensures r.Err? ==> exists n ::
        0 <= n < |rcpt| && NotQueued(old(queues.path), queues.path, own, KeyOf(parse, rcpt[n]), pid)
    {
      r, pid, at, tickets := queues.QueueFor(c, from, rcpt, body, parse, now);
      assert CameFrom(own, parse, queues.path.steps[at], cmds);
    }
  }

  // ------------------------------------------------------------ remote sessions

  datatype Mode = Internal | External

  /** AnonymousLogin: the peer's HELLO name must be the canonical form of its address. */
  function AnonymousLogin(mode: Mode, remoteAddr: string, hostname: string): Tables.Reply<Bytes> {
    if mode.Internal? then Tables.Err(Tables.Refused)
    else
      var pks := HexDecode(remoteAddr);
      if pks.None? then Tables.Err(Tables.Refused)
      else if hostname != HexEncode(pks.value) then Tables.Err(Tables.Refused)
      else Tables.Ok(pks.value)
  }

  /** A session without login exists only on the overlay listener, and for a peer that names itself canonically. */
  lemma AnonymousIff(mode: Mode, remoteAddr: string, hostname: string)
    ensures AnonymousLogin(mode, remoteAddr, hostname).Ok? <==>
      mode.External? && |remoteAddr| % 2 == 0 && IsHex(remoteAddr) && hostname == Lower(remoteAddr)
  {
    DecodeIff(remoteAddr);
    if HexDecode(remoteAddr).Some? {
      EncodeDecode(remoteAddr);
    }
  }

  predicate MailAccepted(remoteAddr: string, from: string) {
    var pk := ParseAddress(from);
    pk.Ok? && HexEncode(pk.value) == remoteAddr
  }

  predicate RcptAccepted(own: Bytes, to: string) {
    ParseAddress(to) == Tables.Ok(own)
  }

  class SessionRemote {
    const own: Bytes
    const remoteAddr: string
    const store: Store
    var from: string

    constructor (own: Bytes, remoteAddr: string, store: Store)
      ensures this.own == own && this.remoteAddr == remoteAddr && this.store == store && from == ""
    {
      this.own, this.remoteAddr, this.store, this.from := own, remoteAddr, store, "";
    }

    method Mail(from: string) returns (r: Tables.Reply<()>)
      modifies this
      ensures r.Ok? <==> MailAccepted(remoteAddr, from)
      ensures this.from == if r.Ok? then from else old(this.from)
    {
      var pk := ParseAddress(from);
      if pk.Err? {
        return Tables.Err(pk.error);
      }
      if HexEncode(pk.value) != remoteAddr {
        return Tables.Err(Tables.Refused);
      }
      this.from := from;
      r := Tables.Ok(());
    }

    method Rcpt(to: string) returns (r: Tables.Reply<()>)
      ensures r.Ok? <==> RcptAccepted(own, to)
    {
      var pk := ParseAddress(to);
      if pk.Err? {
        return Tables.Err(pk.error);
      }
      if pk.value != own {
        return Tables.Err(Tables.Refused);
      }
      r := Tables.Ok(());
    }

    /** Store the mail, headers already added, in the INBOX. */
    method Data(body: Bytes, now: int) returns (r: Tables.Reply<int>)
      requires store.Valid()
      modifies store
      ensures store.Valid() && (store.Db(), r) == Tables.MailCreate(old(store.Db()), "INBOX", body, now)
    {
      r := store.MailCreate("INBOX", body, now);
    }
  }

  // --------------------------------------------------------------- end to end

  /** The three checks a worker's HELLO, MAIL and RCPT meet at a node with key `node`. */
  predicate Accepts(node: Bytes, remoteAddr: string, hello: string, from: string, rcpt: string) {
    && AnonymousLogin(External, remoteAddr, hello).Ok?
    && MailAccepted(remoteAddr, from)
    && RcptAccepted(node, rcpt)
  }

  /**
   What a node accepts is authentic: the sender address is the peer's own key, the
   peer named itself canonically, and the recipient is the node.
   */
  lemma AcceptedIsAuthentic(node: Bytes, remoteAddr: string, hello: string, from: string, rcpt: string)
    requires Accepts(node, remoteAddr, hello, from, rcpt)
    ensures exists peer :: IsSenderKey(peer, remoteAddr, hello, from)
    ensures ParseAddress(rcpt) == Tables.Ok(node)
  {
    var peer := ParseAddress(from).value;
    DecodeEncode(peer);
    assert IsSenderKey(peer, remoteAddr, hello, from);
  }

  /** `peer` is the key behind the connection, the HELLO and the sender address alike. */
  ghost predicate IsSenderKey(peer: Bytes, remoteAddr: string, hello: string, from: string) {
    |peer| == KEY_SIZE && remoteAddr == HexEncode(peer) == hello && ParseAddress(from) == Tables.Ok(peer)
  }

  /** Exactly when a node accepts from an honest peer with key `peer`. */
  lemma AcceptsIff(node: Bytes, peer: Bytes, from: string, rcpt: string)
    ensures Accepts(node, HexEncode(peer), HexEncode(peer), from, rcpt) <==>
      ParseAddress(from) == Tables.Ok(peer) && ParseAddress(rcpt) == Tables.Ok(node)
  {
    DecodeEncode(peer);
    if ParseAddress(from).Ok? && HexEncode(ParseAddress(from).value) == HexEncode(peer) {
      EncodeInjective(ParseAddress(from).value, peer);
    }
  }

  /** The call's sender and recipients are what these commands leave in a session. */
  ghost predicate CameFrom(own: Bytes, parse: MailParser, step: Step, cmds: seq<Command>)
    requires step.Create?
  {
    var s := LocalRun(own, cmds);
    step.from == s.from && step.targets == Targets(own, parse, s.rcpt)
  }

  /** If the step is a call's MailCreate, a local session made the call. */
  ghost predicate BySession(own: Bytes, parse: MailParser, step: Step) {
    step.Create? ==> exists cmds :: CameFrom(own, parse, step, cmds)
  }

  ghost predicate AllBySession(own: Bytes, parse: MailParser, steps: seq<Step>) {
    forall n :: 0 <= n < |steps| ==> BySession(own, parse, steps[n])
  }

  /** One node has this destination, and it is another; it accepts what is said exactly when there is a sender. */
  ghost predicate Reaches(own: Bytes, dest: string, hello: string, from: string, rcpt: string) {
    && (exists node :: IsNode(node, dest))
    && (forall node :: IsNode(node, dest) ==>
          node != own && (Accepts(node, HexEncode(own), hello, from, rcpt) <==> from != ""))
  }

  ghost predicate Deliverable(own: Bytes, x: Delivery) {
    Reaches(own, x.key.dest, HexEncode(own), x.from, x.rcpt)
  }

  predicate IsNode(node: Bytes, dest: string) {
    |node| == KEY_SIZE && HexEncode(node) == dest
  }

  /** A session left this sender, which is set exactly if a MAIL was accepted since its last RSET. */
  ghost predicate FromSession(own: Bytes, from: string) {
    exists cmds :: from == LocalRun(own, cmds).from && (from != "" <==> HasSender(own, cmds))
  }

  /**
   End to end.  Take any run, whatever its schedule and whatever fails, in which local
   sessions made the calls.  Each delivery issued in it for a bare address names one
   node, which is not this one and accepts it exactly when the session had a sender.
   */
  lemma EndToEnd(own: Bytes, parse: MailParser, steps: seq<Step>, m: Regime, t: nat)
    requires |own| == KEY_SIZE && IsRun(INIT, steps, m) && AllBySession(own, parse, steps)
    requires t in Final(INIT, steps, m).issued
    requires var x := Final(INIT, steps, m).issued[t]; parse(x.rcpt) == Some(x.rcpt)
    ensures var x := Final(INIT, steps, m).issued[t]; FromSession(own, x.from) && Deliverable(own, x)
  {
    DeliveriesWereAsked(steps, m);
    var x := Final(INIT, steps, m).issued[t];
    AskedDeliverable(own, parse, steps, x, m.a1 && m.a2);
  }

  lemma AskedDeliverable(own: Bytes, parse: MailParser, steps: seq<Step>, x: Delivery, alike: bool)
    requires HasAsker(steps, x, alike) && AllBySession(own, parse, steps) && parse(x.rcpt) == Some(x.rcpt)
    ensures FromSession(own, x.from) && Deliverable(own, x)
  {
    var n :| 0 <= n < |steps| && Asked(steps[n], x, alike);
    assert BySession(own, parse, steps[n]);
    var cmds :| CameFrom(own, parse, steps[n], cmds);
    SenderIsOwn(own, cmds);
    TargetInList(own, parse, LocalRun(own, cmds).rcpt, x);
    EmptyNeverOwn(own);
    TargetDeliverable(own, parse, x);
  }

  /** A remote target in a call's list is what QueueFor makes of that very recipient. */
  lemma TargetInList(own: Bytes, parse: MailParser, rcpts: seq<string>, x: Delivery)
    requires Remote(x.key.dest, x.rcpt) in Targets(own, parse, rcpts)
    ensures TargetOf(own, parse, x.rcpt) == Remote(x.key.dest, x.rcpt)
  {
    var n :| 0 <= n < |rcpts| && Targets(own, parse, rcpts)[n] == Remote(x.key.dest, x.rcpt);
    assert TargetOf(own, parse, rcpts[n]).rcpt == rcpts[n];
  }

  lemma TargetDeliverable(own: Bytes, parse: MailParser, x: Delivery)
    requires parse(x.rcpt) == Some(x.rcpt) && TargetOf(own, parse, x.rcpt) == Remote(x.key.dest, x.rcpt)
    requires x.from == "" || IsOwn(own, x.from)
    ensures Deliverable(own, x)
  {
    var there := ParseAddress(x.rcpt).value;
    assert IsNode(there, x.key.dest);
    EmptyNeverOwn(own);
    forall node | IsNode(node, x.key.dest)
      ensures node != own && (Accepts(node, HexEncode(own), HexEncode(own), x.from, x.rcpt) <==> x.from != "")
    {
      EncodeInjective(there, node);
      AcceptsIff(node, own, x.from, x.rcpt);
    }
  }

  /** What a worker says of the reference it holds: its ticket's sender and recipient. */
  predicate Says(x: Delivery, dest: string, r: Ref) {
    x.key == Key(dest, r.id) && x.from == r.from && x.rcpt == r.rcpt
  }

  /** The same of every row of the queue, and of every reference a worker holds and may send. */
  lemma RowsEndToEnd(own: Bytes, parse: MailParser, steps: seq<Step>, m: Regime)
    requires |own| == KEY_SIZE && IsRun(INIT, steps, m) && AllBySession(own, parse, steps)
    ensures var s := Final(INIT, steps, m);
      && (forall k :: k in s.queue && parse(s.queue[k].rcpt) == Some(s.queue[k].rcpt) ==>
            RowDeliverable(own, s, k))
      && (forall g, r :: g in s.workers && Holds(s.workers[g], r) && parse(r.rcpt) == Some(r.rcpt) ==>
            RefDeliverable(own, s, g, r))
  {
    DeliveriesWereAsked(steps, m);
    var s := Final(INIT, steps, m);
    forall k | k in s.queue && parse(s.queue[k].rcpt) == Some(s.queue[k].rcpt)
      ensures RowDeliverable(own, s, k)
    {
      EndToEnd(own, parse, steps, m, s.queue[k].ticket);
    }
    forall g, r | g in s.workers && Holds(s.workers[g], r) && parse(r.rcpt) == Some(r.rcpt)
      ensures RefDeliverable(own, s, g, r)
    {
      EndToEnd(own, parse, steps, m, r.ticket);
    }
  }

  ghost predicate RowDeliverable(own: Bytes, s: State, k: Key)
    requires k in s.queue
  {
    var row := s.queue[k];
    && row.ticket in s.issued && FromSession(own, s.issued[row.ticket].from) && Deliverable(own, s.issued[row.ticket])
    && Says(s.issued[row.ticket], k.dest, Ref(k.id, row.from, row.rcpt, row.ticket))
  }

  ghost predicate RefDeliverable(own: Bytes, s: State, g: nat, r: Ref)
    requires g in s.workers
  {
    && r.ticket in s.issued && FromSession(own, s.issued[r.ticket].from) && Deliverable(own, s.issued[r.ticket])
    && Says(s.issued[r.ticket], s.workers[g].dest, r)
  }
}
