/** One-time pairing tickets: a machine joins the mesh by presenting the secret
    a ticket carries, and what the two machines save on the way. */
module Pairings {
  import opened Basics
  import opened Stamps
  import opened Membership
  import opened MeshStores

  /** What authorizes a join; every ticket has its own. */
  type Secret = nat

  /** The one ticket that can be out at a time. */
  datatype Issued = Issued(secret: Secret, expires: int, localName: Bytes)

  datatype Redeemed = Stale | NotSaved | Saved

  /** The ticket that is outstanding at `now`. */
  function StillOut(issued: Option<Issued>, now: int): Option<Issued> {
    if issued.Some? && issued.value.expires <= now then None else issued
  }

  predicate IsLive(issued: Option<Issued>, secret: Secret, now: int) {
    issued.Some? && issued.value.secret == secret && now < issued.value.expires
  }

  /** No change where the record is there and alive. */
  function AddingPaired(peers: Mesh, id: Id, name: Bytes): Result<Mesh, Fault> {
    if IsAlive(peers, id) then Ok(peers) else Adding(peers, id, name)
  }

  /** Consuming a ticket and saving the machine that completed the exchange. */
  function Redeeming(issued: Option<Issued>, peers: Mesh, secret: Secret, id: Id, name: Bytes, now: int)
    : (Option<Issued>, Mesh, Redeemed)
  {
    if !IsLive(issued, secret, now) then (issued, peers, Stale)
    else match AddingPaired(peers, id, name)
      case Ok(next) => (None, next, Saved)
      case Err(_) => (None, peers, NotSaved)
  }

  /** The name in the record there is, or else the one announced if it will do. */
  function ResolveName(peers: Mesh, id: Id, announced: Bytes): Option<Bytes> {
    if IsAlive(peers, id) then Some(peers[id].status.name)
    else if ValidateNew(peers, id, announced).None? then Some(announced)
    else None
  }

  class Pairing {
    const store: MeshStore
    var issued: Option<Issued>

    constructor (store: MeshStore)
      ensures this.store == store && issued == None
    {
      this.store, issued := store, None;
    }

    /** Hosting starts by revoking whatever is outstanding. */
    method Revoke() returns (revoked: Option<Issued>)
      modifies this
      ensures issued == None && revoked == old(issued)
    {
      revoked := issued;
      issued := None;
    }

    method Issue(ticket: Issued)
      modifies this
      ensures issued == Some(ticket)
    {
      issued := Some(ticket);
    }

    /** The ticket that is out at `now`; one that is past its time is forgotten. */
    method Outstanding(now: int) returns (ticket: Option<Issued>)
      modifies this
      ensures issued == ticket == StillOut(old(issued), now)
    {
      if issued.Some? && issued.value.expires <= now {
        issued := None;
      }
      return issued;
    }

    /** Consumes the ticket and saves the machine under one lock. */
    method Redeem(secret: Secret, id: Id, name: Bytes, now: int) returns (redeemed: Redeemed)
      requires store.Valid()
      modifies this, store
      ensures store.Valid()
      ensures (issued, store.state, redeemed) == Redeeming(old(issued), old(store.state), secret, id, name, now)
      ensures redeemed.Saved? ==> IsAlive(store.disk, id)
    {
      if !IsLive(issued, secret, now) {
        return Stale;
      }
      issued := None;
      var fault := store.AddPaired(id, name);
      return if fault.None? then Saved else NotSaved;
    }
  }

  // ------------------------------------------------------------ the exchange

  datatype Message = Hello(secret: Secret, name: Bytes) | Welcome(name: Bytes) | Done | Reject

  /** Why a connection is closed, as the other side reads it. */
  datatype Reason = Confirmed | Otherwise

  datatype Hosting =
    | Incoming
    | Opened(ticket: Issued, known: Mesh)
    | Welcomed(secret: Secret, name: Bytes)
    | Exchanged(secret: Secret, name: Bytes)
    | Kept
    | Finished

  /** A stranger is a machine that does whatever it likes. */
  datatype Joining =
    | Asked(known: Mesh)
    | Promised(hostName: Bytes)
    | Joined
    | GaveUp
    | Stranger

  /** A connection to the host: what each side has said on it, how much of
      that the other has read, and whether it is closed. */
  datatype Conn = Conn(
    remote: Id, host: Hosting, join: Joining,
    toHost: seq<Message>, heard: nat, toJoiner: seq<Message>, closed: Option<Reason>)
  {
    function Close(reason: Reason): Conn {
      if closed.None? then this.(closed := Some(reason)) else this
    }

    /** What the host reads next, if the connection still delivers. */
    function NextToHost(): Option<Message> {
      if closed.None? && heard < |toHost| then Some(toHost[heard]) else None
    }
  }

  /** What happened to tickets and registrations, in order; it only serves to
      state what holds of them. */
  datatype Entry =
    | Issuing(secret: Secret, expires: int)
    | Revoking(secret: Secret)
    | Expiring(secret: Secret)
    | Using(secret: Secret, conn: nat, at: int)
    | Saving(secret: Secret, conn: nat, machine: Id)
    | Registering(conn: nat, machine: Id)

  /** The host, everyone who connects to it, and their own mesh states. */
  datatype World = World(
    host: Id, mesh: Mesh, issued: Option<Issued>, waiting: nat, nextSecret: Secret,
    conns: seq<Conn>, meshes: map<Id, Mesh>, log: seq<Entry>)
  {
    function MeshOf(id: Id): Mesh { if id in meshes then meshes[id] else map[] }

    function With(k: nat, conn: Conn): World
      requires k < |conns|
    {
      this.(conns := conns[k := conn])
    }

    function Logged(entry: Entry): World { this.(log := log + [entry]) }
  }

  datatype Event =
    | Host                                               // `yank pair`, up to the wait for a relay
    | Issue(expires: int, name: Bytes)
    | Dial(from: Id, secret: Secret, name: Bytes)
    | StrangerDials(from: Id)
    | StrangerSends(conn: nat, message: Message)
    | Accept(conn: nat, at: int)
    | HostReads(conn: nat)
    | HostGivesUp(conn: nat)
    | Redeem(conn: nat, at: int)
    | Confirm(conn: nat)
    | JoinerReads(conn: nat)
    | JoinerSeesClose(conn: nat)
    | JoinerLeaves(conn: nat)
    | HostMeshChanges(mesh: Mesh)

  function Dialled(w: World, from: Id, join: Joining, said: seq<Message>): World {
    w.(conns := w.conns + [Conn(from, Incoming, join, said, 0, [], None)])
  }

  /** The host takes a connection up, or turns it away with no ticket out. */
  function Accepting(w: World, k: nat, now: int): World
    requires k < |w.conns|
  {
    var conn, ticket := w.conns[k], StillOut(w.issued, now);
    var looked := if ticket == w.issued then w else w.(issued := None).Logged(Expiring(w.issued.value.secret));
    if ticket.None? then
      looked.With(k, conn.(host := Finished, toJoiner := conn.toJoiner + [Reject]).Close(Otherwise))
    else looked.With(k, conn.(host := Opened(ticket.value, w.mesh)))
  }

  function Refused(conn: Conn): Conn {
    conn.(host := Finished, toJoiner := conn.toJoiner + [Reject]).Close(Otherwise)
  }

  /** One message read by the host. */
  function HostHears(conn: Conn, message: Message): Conn {
    var read := conn.(heard := conn.heard + 1);
    match conn.host
    case Opened(ticket, known) =>
      if !(message.Hello? && message.secret == ticket.secret) then Refused(read)
      else (match ResolveName(known, conn.remote, message.name)
            case None => Refused(read)
            case Some(name) =>
              read.(host := Welcomed(ticket.secret, name), toJoiner := conn.toJoiner + [Welcome(ticket.localName)]))
    case Welcomed(secret, name) =>
      if message.Done? then read.(host := Exchanged(secret, name))
      else read.(host := Finished).Close(Otherwise)
    case _ => conn
  }

  /** The exchange is complete: the ticket is used up and the machine saved,
      unless the ticket is no longer good. */
  function RedeemingOn(w: World, k: nat, now: int): World
    requires k < |w.conns| && w.conns[k].host.Exchanged?
  {
    var conn := w.conns[k];
    var (secret, name) := (conn.host.secret, conn.host.name);
    var (issued, mesh, redeemed) := Redeeming(w.issued, w.mesh, secret, conn.remote, name, now);
    var after := w.(issued := issued, mesh := mesh);
    match redeemed
    case Stale => after.With(k, conn.(host := Finished).Close(Otherwise))
    case NotSaved => after.Logged(Using(secret, k, now)).With(k, conn.(host := Finished).Close(Otherwise))
    case Saved =>
      after.Logged(Using(secret, k, now)).Logged(Saving(secret, k, conn.remote)).With(k, conn.(host := Kept))
  }

  /** The joiner reads the answer to its `Hello`. */
  function JoinerHears(w: World, conn: Conn, message: Message): Conn
    requires conn.join.Asked?
  {
    if !message.Welcome? then conn.(join := GaveUp).Close(Otherwise)
    else match ResolveName(conn.join.known, w.host, message.name)
      case None => conn.(join := GaveUp, toHost := conn.toHost + [Reject]).Close(Otherwise)
      case Some(name) => conn.(join := Promised(name), toHost := conn.toHost + [Done])
  }

  /** The joiner saves the host when the connection closes as confirmed, and
      only then. */
  function JoinerLearns(w: World, k: nat): World
    requires k < |w.conns| && w.conns[k].join.Promised? && w.conns[k].closed.Some?
  {
    var conn := w.conns[k];
    if conn.closed != Some(Confirmed) then w.With(k, conn.(join := GaveUp))
    else match AddingPaired(w.MeshOf(conn.remote), w.host, conn.join.hostName)
      case Err(_) => w.With(k, conn.(join := GaveUp))
      case Ok(next) =>
        w.(meshes := w.meshes[conn.remote := next]).Logged(Registering(k, conn.remote)).With(k, conn.(join := Joined))
  }

  /** What one event makes of all of them; one that cannot happen now, nothing. */
  function Step(w: World, event: Event): World {
    match event
    case Host =>
      var revoked := w.(issued := None, waiting := w.waiting + 1);
      if w.issued.None? then revoked else revoked.Logged(Revoking(w.issued.value.secret))
    case Issue(expires, name) =>
      if w.waiting == 0 then w
      else
        w.(issued := Some(Issued(w.nextSecret, expires, name)),
           waiting := w.waiting - 1,
           nextSecret := w.nextSecret + 1)
         .Logged(Issuing(w.nextSecret, expires))
    case Dial(from, secret, name) =>
      if from == w.host then w else Dialled(w, from, Asked(w.MeshOf(from)), [Hello(secret, name)])
    case StrangerDials(from) => if from == w.host then w else Dialled(w, from, Stranger, [])
    case StrangerSends(k, message) =>
      if k < |w.conns| && w.conns[k].join.Stranger? then
        w.With(k, w.conns[k].(toHost := w.conns[k].toHost + [message]))
      else w
    case Accept(k, now) => if k < |w.conns| && w.conns[k].host.Incoming? then Accepting(w, k, now) else w
    case HostReads(k) =>
      if k < |w.conns| && w.conns[k].NextToHost().Some? then
        w.With(k, HostHears(w.conns[k], w.conns[k].NextToHost().value))
      else w
    case HostGivesUp(k) =>
      if k < |w.conns| && (w.conns[k].host.Opened? || w.conns[k].host.Welcomed?) then
        w.With(k, w.conns[k].(host := Finished).Close(Otherwise))
      else w
    case Redeem(k, now) => if k < |w.conns| && w.conns[k].host.Exchanged? then RedeemingOn(w, k, now) else w
    case Confirm(k) =>
      if k < |w.conns| && w.conns[k].host.Kept? then w.With(k, w.conns[k].(host := Finished).Close(Confirmed)) else w
    case JoinerReads(k) =>
      if k < |w.conns| && w.conns[k].join.Asked? && w.conns[k].closed.None? && w.conns[k].toJoiner != [] then
        w.With(k, JoinerHears(w, w.conns[k], w.conns[k].toJoiner[0]))
      else w
    case JoinerSeesClose(k) =>
      if k < |w.conns| && w.conns[k].join.Promised? && w.conns[k].closed.Some? then JoinerLearns(w, k) else w
    case JoinerLeaves(k) =>
      if k < |w.conns| && !w.conns[k].join.Joined? then
        w.With(k, w.conns[k].(join := if w.conns[k].join.Stranger? then Stranger else GaveUp).Close(Otherwise))
      else w
    case HostMeshChanges(mesh) => w.(mesh := mesh)
  }

  function Run(host: Id, mesh: Mesh, meshes: map<Id, Mesh>, events: seq<Event>): World {
    if events == [] then World(host, mesh, None, 0, 0, [], meshes, [])
    else Step(Run(host, mesh, meshes, events[..|events| - 1]), events[|events| - 1])
  }

  // ------------------------------------------------------- what the log says

  /** Whether an entry is about the outstanding ticket. */
  predicate AboutTickets(entry: Entry) { !entry.Saving? && !entry.Registering? }

  /** The ticket that is out, going by the log. */
  function Live(log: seq<Entry>): Option<Secret> {
    if log == [] then None
    else
      var last := log[|log| - 1];
      if last.Issuing? then Some(last.secret)
      else if AboutTickets(last) then None
      else Live(log[..|log| - 1])
  }

  predicate IssuedAt(log: seq<Entry>, i: nat, secret: Secret) {
    i < |log| && log[i].Issuing? && log[i].secret == secret
  }

  /** Nothing happened to tickets after entry `i`. */
  predicate LastTicket(log: seq<Entry>, i: nat) {
    forall m :: i < m < |log| ==> !AboutTickets(log[m])
  }

  lemma {:induction false} LiveWasIssued(log: seq<Entry>) returns (i: nat)
    requires Live(log).Some?
    ensures IssuedAt(log, i, Live(log).value) && LastTicket(log, i)
  {
    if log[|log| - 1].Issuing? {
      i := |log| - 1;
    } else {
      i := LiveWasIssued(log[..|log| - 1]);
    }
  }

  /** Every ticket is used while it is out and good, and no two are the same. */
  predicate TicketsOk(log: seq<Entry>, next: Secret) {
    && (forall i :: 0 <= i < |log| && log[i].Issuing? ==> log[i].secret < next)
    && (forall i, j :: 0 <= i < j < |log| && log[i].Issuing? && log[j].Issuing? ==> log[i].secret != log[j].secret)
    && (forall j :: 0 <= j < |log| && log[j].Using? ==> Live(log[..j]) == Some(log[j].secret))
    && (forall i, j :: 0 <= i < j < |log| && log[j].Using? && IssuedAt(log, i, log[j].secret) ==>
          log[j].at < log[i].expires)
  }

  /** A machine was saved for a connection. */
  predicate SavedFor(log: seq<Entry>, k: nat, machine: Id) {
    exists i :: 0 <= i < |log| && log[i].Saving? && log[i].conn == k && log[i].machine == machine
  }

  /** Machines are saved as tickets are used, and register the host later. */
  predicate SavesOk(log: seq<Entry>) {
    && (forall j :: 0 <= j < |log| && log[j].Saving? ==>
          j > 0 && log[j - 1].Using? && log[j - 1].secret == log[j].secret && log[j - 1].conn == log[j].conn)
    && (forall j :: 0 <= j < |log| && log[j].Registering? ==> SavedFor(log[..j], log[j].conn, log[j].machine))
  }

  lemma LogGrows(log: seq<Entry>, entry: Entry, next: Secret)
    requires TicketsOk(log, next)
    requires entry.Issuing? ==> entry.secret == next
    requires entry.Using? ==>
               && Live(log) == Some(entry.secret)
               && forall i :: 0 <= i < |log| && IssuedAt(log, i, entry.secret) ==> entry.at < log[i].expires
    ensures TicketsOk(log + [entry], if entry.Issuing? then next + 1 else next)
    ensures Live(log + [entry]) ==
            if entry.Issuing? then Some(entry.secret) else if AboutTickets(entry) then None else Live(log)
  {
    var more := log + [entry];
    assert more[..|more| - 1] == log;
    forall j | 0 <= j < |more| && more[j].Using? ensures Live(more[..j]) == Some(more[j].secret) {
      assert more[..j] == log[..j];
      if j == |log| { assert log[..j] == log; }
    }
    forall i, j | 0 <= i < j < |more| && more[j].Using? && IssuedAt(more, i, more[j].secret)
      ensures more[j].at < more[i].expires
    {
      assert IssuedAt(log, i, more[j].secret);
    }
  }

  lemma SavesGrow(log: seq<Entry>, entry: Entry)
    requires SavesOk(log)
    requires entry.Saving? ==>
               log != [] && var last := log[|log| - 1];
               last.Using? && last.secret == entry.secret && last.conn == entry.conn
    requires entry.Registering? ==> SavedFor(log, entry.conn, entry.machine)
    ensures SavesOk(log + [entry])
    ensures forall k, machine :: SavedFor(log, k, machine) ==> SavedFor(log + [entry], k, machine)
    ensures entry.Saving? ==> SavedFor(log + [entry], entry.conn, entry.machine)
  {
    var more := log + [entry];
    forall k, machine | SavedFor(log, k, machine) ensures SavedFor(more, k, machine) {
      var i :| 0 <= i < |log| && log[i].Saving? && log[i].conn == k && log[i].machine == machine;
      assert more[i] == log[i];
    }
    if entry.Saving? { assert more[|log|] == entry; }
    forall j | 0 <= j < |more| && more[j].Registering? ensures SavedFor(more[..j], more[j].conn, more[j].machine) {
      assert more[..j] == log[..j];
      if j == |log| { assert log[..j] == log; }
    }
  }

  // ------------------------------------------------------------ the invariant

  predicate Presented(conn: Conn, secret: Secret) {
    exists i :: 0 <= i < |conn.toHost| && conn.toHost[i].Hello? && conn.toHost[i].secret == secret
  }

  /** A connection as the log has it: what is kept or confirmed was saved, and
      an exchange goes on with whoever presented the secret. */
  predicate ConnOk(log: seq<Entry>, k: nat, conn: Conn) {
    && (conn.host.Kept? || conn.closed == Some(Confirmed) ==> SavedFor(log, k, conn.remote))
    && (conn.host.Welcomed? || conn.host.Exchanged? ==> Presented(conn, conn.host.secret))
  }

  predicate SavedPresented(w: World) {
    forall j :: 0 <= j < |w.log| && w.log[j].Saving? ==>
      var entry := w.log[j];
      entry.conn < |w.conns| && w.conns[entry.conn].remote == entry.machine
      && Presented(w.conns[entry.conn], entry.secret)
  }

  predicate IssuedOk(w: World) {
    match w.issued
    case None => Live(w.log).None?
    case Some(ticket) =>
      && Live(w.log) == Some(ticket.secret)
      && forall i :: 0 <= i < |w.log| && IssuedAt(w.log, i, ticket.secret) ==> w.log[i].expires == ticket.expires
  }

  predicate Sound(w: World) {
    && TicketsOk(w.log, w.nextSecret) && SavesOk(w.log) && IssuedOk(w)
    && (forall k :: 0 <= k < |w.conns| ==> ConnOk(w.log, k, w.conns[k]))
    && SavedPresented(w)
  }

  /** A change to one connection, nothing said on it taken back. */
  lemma ConnChanges(w: World, k: nat, conn: Conn)
    requires Sound(w) && k < |w.conns| && conn.remote == w.conns[k].remote
    requires w.conns[k].toHost <= conn.toHost && ConnOk(w.log, k, conn)
    ensures Sound(w.With(k, conn))
  {
    forall secret | Presented(w.conns[k], secret) ensures Presented(conn, secret) {
      var i :| 0 <= i < |w.conns[k].toHost| && w.conns[k].toHost[i].Hello? && w.conns[k].toHost[i].secret == secret;
      assert conn.toHost[i] == w.conns[k].toHost[i];
    }
  }

  /** The same for one whose host side does not change. */
  lemma JoinerChanges(w: World, k: nat, conn: Conn)
    requires Sound(w) && k < |w.conns| && conn.remote == w.conns[k].remote && conn.host == w.conns[k].host
    requires w.conns[k].toHost <= conn.toHost && (conn.closed == w.conns[k].closed || conn.closed == Some(Otherwise))
    ensures Sound(w.With(k, conn))
  {
    assert ConnOk(w.log, k, w.conns[k]);
    forall secret | Presented(w.conns[k], secret) ensures Presented(conn, secret) {
      var i :| 0 <= i < |w.conns[k].toHost| && w.conns[k].toHost[i].Hello? && w.conns[k].toHost[i].secret == secret;
      assert conn.toHost[i] == w.conns[k].toHost[i];
    }
    ConnChanges(w, k, conn);
  }

  lemma DialSound(w: World, from: Id, join: Joining, said: seq<Message>)
    requires Sound(w)
    ensures Sound(Dialled(w, from, join, said))
  {}

  /** Something happens to a ticket, and to nothing else. */
  lemma TicketChanges(w: World, after: World, entry: Entry)
    requires Sound(w) && AboutTickets(entry) && after.log == w.log + [entry] && after.conns == w.conns
    requires after.nextSecret == if entry.Issuing? then w.nextSecret + 1 else w.nextSecret
    requires entry.Issuing? ==> after.issued.Some? && after.issued.value.secret == entry.secret == w.nextSecret
    requires entry.Issuing? ==> after.issued.value.expires == entry.expires
    requires !entry.Issuing? ==> after.issued == None
    requires entry.Using? ==>
               w.issued.Some? && w.issued.value.secret == entry.secret && entry.at < w.issued.value.expires
    ensures Sound(after)
  {
    LogGrows(w.log, entry, w.nextSecret);
    SavesGrow(w.log, entry);
    forall k | 0 <= k < |after.conns| ensures ConnOk(after.log, k, after.conns[k]) {
      assert ConnOk(w.log, k, w.conns[k]);
    }
  }

  lemma AcceptSound(w: World, k: nat, now: int)
    requires Sound(w) && k < |w.conns| && w.conns[k].host.Incoming?
    ensures Sound(Accepting(w, k, now))
  {
    var conn, ticket := w.conns[k], StillOut(w.issued, now);
    var looked := if ticket == w.issued then w else w.(issued := None).Logged(Expiring(w.issued.value.secret));
    if ticket != w.issued { TicketChanges(w, looked, Expiring(w.issued.value.secret)); }
    assert ConnOk(looked.log, k, conn);
    ConnChanges(looked, k, if ticket.None? then Refused(conn) else conn.(host := Opened(ticket.value, w.mesh)));
  }

  lemma HostReadsSound(w: World, k: nat)
    requires Sound(w) && k < |w.conns| && w.conns[k].NextToHost().Some?
    ensures Sound(Step(w, HostReads(k)))
  {
    var conn := w.conns[k];
    var message := conn.NextToHost().value;
    assert ConnOk(w.log, k, conn);
    var after := HostHears(conn, message);
    if conn.host.Opened? && after.host.Welcomed? {
      assert after.toHost[conn.heard].Hello? && after.toHost[conn.heard].secret == conn.host.ticket.secret;
    }
    if conn.host.Welcomed? && after.host.Exchanged? { assert Presented(after, conn.host.secret); }
    ConnChanges(w, k, after);
  }

  /** The ticket a connection completed its exchange with is used up. */
  lemma UseSound(w: World, k: nat, secret: Secret, now: int)
    requires Sound(w) && k < |w.conns| && IsLive(w.issued, secret, now)
    ensures Sound(w.(issued := None).Logged(Using(secret, k, now)))
  {
    TicketChanges(w, w.(issued := None).Logged(Using(secret, k, now)), Using(secret, k, now));
  }

  lemma FinishingSound(used: World, k: nat)
    requires Sound(used) && k < |used.conns|
    ensures Sound(used.With(k, used.conns[k].(host := Finished).Close(Otherwise)))
  {
    assert ConnOk(used.log, k, used.conns[k]);
    ConnChanges(used, k, used.conns[k].(host := Finished).Close(Otherwise));
  }

  lemma MeshIsFree(w: World, mesh: Mesh)
    requires Sound(w)
    ensures Sound(w.(mesh := mesh))
  {}

  lemma RedeemStale(w: World, k: nat, now: int)
    requires Sound(w) && k < |w.conns| && w.conns[k].host.Exchanged?
    requires !IsLive(w.issued, w.conns[k].host.secret, now)
    ensures Sound(RedeemingOn(w, k, now))
  {
    FinishingSound(w, k);
    assert RedeemingOn(w, k, now) == w.With(k, w.conns[k].(host := Finished).Close(Otherwise));
  }

  lemma RedeemNotSaved(w: World, k: nat, now: int)
    requires Sound(w) && k < |w.conns| && w.conns[k].host.Exchanged?
    requires IsLive(w.issued, w.conns[k].host.secret, now)
    requires AddingPaired(w.mesh, w.conns[k].remote, w.conns[k].host.name).Err?
    ensures Sound(RedeemingOn(w, k, now))
  {
    var used := w.(issued := None).Logged(Using(w.conns[k].host.secret, k, now));
    UseSound(w, k, w.conns[k].host.secret, now);
    FinishingSound(used, k);
    assert RedeemingOn(w, k, now) == used.With(k, w.conns[k].(host := Finished).Close(Otherwise));
  }

  lemma RedeemSaved(w: World, k: nat, now: int)
    requires Sound(w) && k < |w.conns| && w.conns[k].host.Exchanged?
    requires IsLive(w.issued, w.conns[k].host.secret, now)
    requires AddingPaired(w.mesh, w.conns[k].remote, w.conns[k].host.name).Ok?
    ensures Sound(RedeemingOn(w, k, now))
  {
    var conn := w.conns[k];
    var used := w.(issued := None).Logged(Using(conn.host.secret, k, now));
    var next := AddingPaired(w.mesh, conn.remote, conn.host.name).value;
    assert ConnOk(w.log, k, conn);
    UseSound(w, k, conn.host.secret, now);
    SaveIntoSound(used, k, conn.host.secret, next);
    assert RedeemingOn(w, k, now)
        == used.(mesh := next).Logged(Saving(conn.host.secret, k, conn.remote)).With(k, conn.(host := Kept));
  }

  lemma RedeemSound(w: World, k: nat, now: int)
    requires Sound(w) && k < |w.conns| && w.conns[k].host.Exchanged?
    ensures Sound(RedeemingOn(w, k, now))
  {
    if !IsLive(w.issued, w.conns[k].host.secret, now) {
      RedeemStale(w, k, now);
    } else if AddingPaired(w.mesh, w.conns[k].remote, w.conns[k].host.name).Err? {
      RedeemNotSaved(w, k, now);
    } else {
      RedeemSaved(w, k, now);
    }
  }

  lemma SaveIntoSound(used: World, k: nat, secret: Secret, next: Mesh)
    requires Sound(used) && k < |used.conns| && used.log != [] && Presented(used.conns[k], secret)
    requires var last := used.log[|used.log| - 1]; last.Using? && last.secret == secret && last.conn == k
    ensures Sound(used.(mesh := next).Logged(Saving(secret, k, used.conns[k].remote))
                       .With(k, used.conns[k].(host := Kept)))
  {
    MeshIsFree(used, next);
    SaveSound(used.(mesh := next), k, secret);
  }

  lemma SaveSound(used: World, k: nat, secret: Secret)
    requires Sound(used) && k < |used.conns| && used.log != [] && Presented(used.conns[k], secret)
    requires var last := used.log[|used.log| - 1]; last.Using? && last.secret == secret && last.conn == k
    ensures Sound(used.Logged(Saving(secret, k, used.conns[k].remote)).With(k, used.conns[k].(host := Kept)))
  {
    var entry := Saving(secret, k, used.conns[k].remote);
    var saved := used.Logged(entry);
    LogGrows(used.log, entry, used.nextSecret);
    SavesGrow(used.log, entry);
    forall i | 0 <= i < |saved.conns| ensures ConnOk(saved.log, i, saved.conns[i]) {
      assert ConnOk(used.log, i, used.conns[i]);
    }
    assert Sound(saved);
    assert ConnOk(saved.log, k, used.conns[k]);
    ConnChanges(saved, k, used.conns[k].(host := Kept));
  }

  /** A machine that saw its confirmation notes that it registered the host. */
  lemma RegisteringSound(w: World, after: World, k: nat)
    requires Sound(w) && k < |w.conns| && w.conns[k].closed == Some(Confirmed)
    requires after == w.(meshes := after.meshes).Logged(Registering(k, w.conns[k].remote))
    ensures Sound(after)
  {
    var entry := Registering(k, w.conns[k].remote);
    assert ConnOk(w.log, k, w.conns[k]);
    LogGrows(w.log, entry, w.nextSecret);
    SavesGrow(w.log, entry);
    forall i | 0 <= i < |after.conns| ensures ConnOk(after.log, i, after.conns[i]) {
      assert ConnOk(w.log, i, w.conns[i]);
    }
  }

  lemma RegisterSound(w: World, k: nat)
    requires Sound(w) && k < |w.conns| && w.conns[k].join.Promised? && w.conns[k].closed.Some?
    ensures Sound(JoinerLearns(w, k))
  {
    var conn := w.conns[k];
    var registered := AddingPaired(w.MeshOf(conn.remote), w.host, conn.join.hostName);
    if conn.closed == Some(Confirmed) && registered.Ok? {
      var after := w.(meshes := w.meshes[conn.remote := registered.value]).Logged(Registering(k, conn.remote));
      RegisteringSound(w, after, k);
      JoinerChanges(after, k, conn.(join := Joined));
    } else {
      JoinerChanges(w, k, conn.(join := GaveUp));
    }
  }

  lemma HostSound(w: World)
    requires Sound(w)
    ensures Sound(Step(w, Host))
  {
    if w.issued.Some? { TicketChanges(w, Step(w, Host), Revoking(w.issued.value.secret)); }
  }

  lemma IssueSound(w: World, expires: int, name: Bytes)
    requires Sound(w)
    ensures Sound(Step(w, Issue(expires, name)))
  {
    if w.waiting > 0 { TicketChanges(w, Step(w, Issue(expires, name)), Issuing(w.nextSecret, expires)); }
  }

  /** What concerns the ticket, and new connections. */
  lemma MeetingSound(w: World, event: Event)
    requires Sound(w)
    requires event.Host? || event.Issue? || event.Dial? || event.StrangerDials? || event.Accept? || event.HostReads?
    ensures Sound(Step(w, event))
  {
    match event
    case Host => HostSound(w);
    case Issue(expires, name) => IssueSound(w, expires, name);
    case Dial(from, secret, name) => DialSound(w, from, Asked(w.MeshOf(from)), [Hello(secret, name)]);
    case StrangerDials(from) => DialSound(w, from, Stranger, []);
    case Accept(k, now) => if k < |w.conns| && w.conns[k].host.Incoming? { AcceptSound(w, k, now); }
    case HostReads(k) => if k < |w.conns| && w.conns[k].NextToHost().Some? { HostReadsSound(w, k); }
  }

  lemma StepSound(w: World, event: Event)
    requires Sound(w)
    ensures Sound(Step(w, event))
  {
    match event
    case Redeem(k, now) => if k < |w.conns| && w.conns[k].host.Exchanged? { RedeemSound(w, k, now); }
    case JoinerSeesClose(k) =>
      if k < |w.conns| && w.conns[k].join.Promised? && w.conns[k].closed.Some? { RegisterSound(w, k); }
    case HostMeshChanges(mesh) => MeshIsFree(w, mesh);
    case StrangerSends(_, _) => OneConnSound(w, event);
    case HostGivesUp(_) => OneConnSound(w, event);
    case Confirm(_) => OneConnSound(w, event);
    case JoinerReads(_) => OneConnSound(w, event);
    case JoinerLeaves(_) => OneConnSound(w, event);
    case _ => MeetingSound(w, event);
  }

  lemma OneConnSound(w: World, event: Event)
    requires Sound(w)
    requires event.StrangerSends? || event.HostGivesUp? || event.Confirm? || event.JoinerReads? || event.JoinerLeaves?
    ensures Sound(Step(w, event))
  {
    var k := event.conn;
    if k < |w.conns| {
      match event
      case StrangerSends(_, message) => SendingSound(w, k, message);
      case JoinerReads(_) => JoinerReadsSound(w, k);
      case JoinerLeaves(_) => LeavingSound(w, k);
      case HostGivesUp(_) => FinishingSound(w, k);
      case Confirm(_) => ConfirmSound(w, k);
    }
  }

  lemma SendingSound(w: World, k: nat, message: Message)
    requires Sound(w) && k < |w.conns|
    ensures Sound(Step(w, StrangerSends(k, message)))
  {
    JoinerChanges(w, k, w.conns[k].(toHost := w.conns[k].toHost + [message]));
  }

  lemma JoinerReadsSound(w: World, k: nat)
    requires Sound(w) && k < |w.conns|
    ensures Sound(Step(w, JoinerReads(k)))
  {
    var conn := w.conns[k];
    if conn.join.Asked? && conn.closed.None? && conn.toJoiner != [] {
      JoinerChanges(w, k, JoinerHears(w, conn, conn.toJoiner[0]));
    }
  }

  lemma LeavingSound(w: World, k: nat)
    requires Sound(w) && k < |w.conns|
    ensures Sound(Step(w, JoinerLeaves(k)))
  {
    var conn := w.conns[k];
    JoinerChanges(w, k, conn.(join := if conn.join.Stranger? then Stranger else GaveUp).Close(Otherwise));
  }

  lemma ConfirmSound(w: World, k: nat)
    requires Sound(w) && k < |w.conns|
    ensures Sound(Step(w, Confirm(k)))
  {
    assert ConnOk(w.log, k, w.conns[k]);
    if w.conns[k].host.Kept? { ConnChanges(w, k, w.conns[k].(host := Finished).Close(Confirmed)); }
  }

  lemma {:induction false} RunIsSound(host: Id, mesh: Mesh, meshes: map<Id, Mesh>, events: seq<Event>)
    ensures Sound(Run(host, mesh, meshes, events))
  {
    if events != [] {
      RunIsSound(host, mesh, meshes, events[..|events| - 1]);
      StepSound(Run(host, mesh, meshes, events[..|events| - 1]), events[|events| - 1]);
    }
  }

  // ------------------------------------------------------------ what it means

  /** Every ticket used was issued before, was still good, and nothing had
      happened to tickets in between: it had not been revoked, replaced, used
      or found to have expired. */
  lemma TicketsAreUsedWhileTheyLast(host: Id, mesh: Mesh, meshes: map<Id, Mesh>, events: seq<Event>, j: nat)
    returns (i: nat)
    requires var log := Run(host, mesh, meshes, events).log; j < |log| && log[j].Using?
    ensures var log := Run(host, mesh, meshes, events).log;
            && i < j && IssuedAt(log, i, log[j].secret) && log[j].at < log[i].expires
            && forall m :: i < m < j ==> !AboutTickets(log[m])
  {
    RunIsSound(host, mesh, meshes, events);
    var log := Run(host, mesh, meshes, events).log;
    i := LiveWasIssued(log[..j]);
    assert forall m :: i < m < j ==> log[..j][m] == log[m];
    assert IssuedAt(log, i, log[j].secret);
  }

  /** So no ticket is used twice. */
  lemma TicketsAreUsedOnce(host: Id, mesh: Mesh, meshes: map<Id, Mesh>, events: seq<Event>, j: nat, k: nat)
    requires var log := Run(host, mesh, meshes, events).log;
             j < |log| && k < |log| && log[j].Using? && log[k].Using? && log[j].secret == log[k].secret
    ensures j == k
  {
    var log := Run(host, mesh, meshes, events).log;
    RunIsSound(host, mesh, meshes, events);
    var a := TicketsAreUsedWhileTheyLast(host, mesh, meshes, events, j);
    var b := TicketsAreUsedWhileTheyLast(host, mesh, meshes, events, k);
    assert a == b;
    assert AboutTickets(log[j]) && AboutTickets(log[k]);
  }

  /** And no ticket registers more than one machine, which is one that
      presented it. */
  lemma TicketsRegisterOneMachine(host: Id, mesh: Mesh, meshes: map<Id, Mesh>, events: seq<Event>, j: nat, k: nat)
    requires var log := Run(host, mesh, meshes, events).log;
             j < |log| && k < |log| && log[j].Saving? && log[k].Saving? && log[j].secret == log[k].secret
    ensures var w := Run(host, mesh, meshes, events);
            && j == k
            && w.log[j].conn < |w.conns| && w.conns[w.log[j].conn].remote == w.log[j].machine
            && Presented(w.conns[w.log[j].conn], w.log[j].secret)
  {
    RunIsSound(host, mesh, meshes, events);
    TicketsAreUsedOnce(host, mesh, meshes, events, j - 1, k - 1);
  }

  /** Whenever a machine registered the host, the host had saved it before: a
      pairing that stops halfway is one-sided on the host, never on the
      machine that joins. */
  lemma HalfPairingsAreTheHosts(host: Id, mesh: Mesh, meshes: map<Id, Mesh>, events: seq<Event>, j: nat)
    requires var log := Run(host, mesh, meshes, events).log; j < |log| && log[j].Registering?
    ensures var log := Run(host, mesh, meshes, events).log;
            exists i :: 0 <= i < j && log[i].Saving? && log[i].conn == log[j].conn && log[i].machine == log[j].machine
  {
    RunIsSound(host, mesh, meshes, events);
    var log := Run(host, mesh, meshes, events).log;
    var i :| 0 <= i < |log[..j]| && log[..j][i].Saving? && log[..j][i].conn == log[j].conn
             && log[..j][i].machine == log[j].machine;
    assert log[i] == log[..j][i];
  }

  // -------------------------------------------------- what an exchange does

  /** Whether a machine could be saved under a name: it already is, or the name
      will do, there is room and its record is not at the ceiling. */
  predicate Registrable(mesh: Mesh, id: Id, name: Bytes) {
    || (id in mesh && mesh[id].status.Alive?)
    || (ValidName(name) && (|mesh| < 64 || id in mesh) && (id in mesh ==> mesh[id].version < 0x1_0000_0000))
  }

  /** A machine that was known keeps its record, and one that was not has a new
      one with that name. */
  predicate PairedAs(before: Mesh, after: Mesh, id: Id, name: Bytes) {
    if id in before && before[id].status.Alive? then after == before
    else after == before[id := Peer(if id in before then before[id].version + 1 else 1, Alive(name))]
  }

  /** What a completed exchange comes to. With its ticket out and not past its
      time, the ticket is gone and the machine saved, if it can be; with
      another out, none, or one that is past its time, nothing happens to
      tickets or machines, and the joiner is not told that it is in. */
  lemma RedeemingExactly(w: World, k: nat, now: int)
    requires k < |w.conns| && w.conns[k].host.Exchanged?
    ensures var conn, after := w.conns[k], Step(w, Redeem(k, now));
            var good := w.issued.Some? && w.issued.value.secret == conn.host.secret && now < w.issued.value.expires;
            var saved := good && Registrable(w.mesh, conn.remote, conn.host.name);
            && after.issued == (if good then None else w.issued)
            && (if saved then PairedAs(w.mesh, after.mesh, conn.remote, conn.host.name) else after.mesh == w.mesh)
            && after.log == w.log + (if good then [Using(conn.host.secret, k, now)] else [])
                                  + (if saved then [Saving(conn.host.secret, k, conn.remote)] else [])
            && after.conns == w.conns[k := after.conns[k]]
            && after.conns[k].host == (if saved then Kept else Finished)
            && (conn.closed.None? ==> after.conns[k].closed == if saved then None else Some(Otherwise))
  {}

  function Steps(w: World, events: seq<Event>): World
    decreases |events|
  {
    if events == [] then w else Steps(Step(w, events[0]), events[1..])
  }

  lemma ThreeSteps(w: World, a: Event, b: Event, c: Event)
    ensures Steps(w, [a, b, c]) == Step(Step(Step(w, a), b), c)
  {
    assert [a, b, c][1..] == [b, c] && [b, c][1..] == [c] && [c][1..] == [];
    assert Steps(Step(Step(w, a), b), [c]) == Steps(Step(Step(Step(w, a), b), c), []);
  }

  lemma {:induction false} StepsInTurn(w: World, first: seq<Event>, others: seq<Event>)
    ensures Steps(w, first + others) == Steps(Steps(w, first), others)
    decreases |first|
  {
    if first == [] {
      assert first + others == others;
    } else {
      assert (first + others)[1..] == first[1..] + others;
      StepsInTurn(Step(w, first[0]), first[1..], others);
    }
  }

  /** The name a machine is saved under, and would be if it is known. */
  function SavedName(mesh: Mesh, id: Id, name: Bytes): Bytes {
    if id in mesh && mesh[id].status.Alive? then mesh[id].status.name else name
  }

  /** A connection whose joiner knows the secret, once the host heard it. */
  function Greeted(w: World, ticket: Issued, from: Id, name: Bytes): Conn {
    Conn(from, Welcomed(ticket.secret, SavedName(w.mesh, from, name)), Asked(w.MeshOf(from)),
         [Hello(ticket.secret, name)], 1, [Welcome(ticket.localName)], None)
  }

  /** A connection that was taken up while a ticket was out. */
  function TakenUp(w: World, ticket: Issued, from: Id, said: Message): Conn {
    Conn(from, Opened(ticket, w.mesh), Asked(w.MeshOf(from)), [said], 0, [], None)
  }

  lemma TakingUp(w: World, from: Id, secret: Secret, name: Bytes, at: int)
    requires from != w.host && w.issued.Some? && at < w.issued.value.expires
    ensures Step(Step(w, Dial(from, secret, name)), Accept(|w.conns|, at))
            == w.(conns := w.conns + [TakenUp(w, w.issued.value, from, Hello(secret, name))])
  {
    var dialled := Step(w, Dial(from, secret, name));
    assert dialled.conns[|w.conns| := TakenUp(w, w.issued.value, from, Hello(secret, name))]
        == w.conns + [TakenUp(w, w.issued.value, from, Hello(secret, name))];
  }

  lemma HearingHello(w: World, taken: World, from: Id, name: Bytes)
    requires w.issued.Some? && Registrable(w.mesh, from, name)
    requires taken == w.(conns := w.conns + [TakenUp(w, w.issued.value, from, Hello(w.issued.value.secret, name))])
    ensures Step(taken, HostReads(|w.conns|)) == w.(conns := w.conns + [Greeted(w, w.issued.value, from, name)])
  {
    var k := |w.conns|;
    assert ResolveName(w.mesh, from, name) == Some(SavedName(w.mesh, from, name));
    assert HostHears(taken.conns[k], Hello(w.issued.value.secret, name)) == Greeted(w, w.issued.value, from, name);
    assert taken.conns[k := Greeted(w, w.issued.value, from, name)]
        == w.conns + [Greeted(w, w.issued.value, from, name)];
  }

  lemma HelloIsAnswered(w: World, from: Id, name: Bytes, at: int)
    requires from != w.host && w.issued.Some? && at < w.issued.value.expires && Registrable(w.mesh, from, name)
    ensures var ticket, k := w.issued.value, |w.conns|;
            Steps(w, [Dial(from, ticket.secret, name), Accept(k, at), HostReads(k)])
            == w.(conns := w.conns + [Greeted(w, ticket, from, name)])
  {
    var ticket, k := w.issued.value, |w.conns|;
    ThreeSteps(w, Dial(from, ticket.secret, name), Accept(k, at), HostReads(k));
    TakingUp(w, from, ticket.secret, name, at);
    HearingHello(w, Step(Step(w, Dial(from, ticket.secret, name)), Accept(k, at)), from, name);
  }

  /** The joiner promises to save the host, and the host hears that. */
  lemma WelcomeIsAnswered(w: World, k: nat, ticket: Issued, from: Id, name: Bytes, known: Bytes)
    requires k < |w.conns| && Registrable(w.MeshOf(from), w.host, ticket.localName)
    requires w.conns[k] == Conn(from, Welcomed(ticket.secret, known), Asked(w.MeshOf(from)),
                                [Hello(ticket.secret, name)], 1, [Welcome(ticket.localName)], None)
    ensures Step(Step(w, JoinerReads(k)), HostReads(k))
            == w.(conns := w.conns[k := Conn(from, Exchanged(ticket.secret, known),
                 Promised(SavedName(w.MeshOf(from), w.host, ticket.localName)),
                 [Hello(ticket.secret, name), Done], 2, [Welcome(ticket.localName)], None)])
  {
    var hostName := SavedName(w.MeshOf(from), w.host, ticket.localName);
    assert ResolveName(w.MeshOf(from), w.host, ticket.localName) == Some(hostName);
    var read := Step(w, JoinerReads(k));
    assert read.conns[k] == w.conns[k].(join := Promised(hostName), toHost := [Hello(ticket.secret, name), Done]);
    assert read.conns[k].NextToHost() == Some(Done);
  }

  /** The joiner saves the host once it is told that it is in. */
  lemma ConfirmingSaves(w: World, k: nat)
    requires k < |w.conns| && w.conns[k].host.Kept? && w.conns[k].join.Promised? && w.conns[k].closed == None
    requires Registrable(w.MeshOf(w.conns[k].remote), w.host, w.conns[k].join.hostName)
    ensures var conn, after := w.conns[k], Step(Step(w, Confirm(k)), JoinerSeesClose(k));
            && PairedAs(w.MeshOf(conn.remote), after.MeshOf(conn.remote), w.host, conn.join.hostName)
            && after.mesh == w.mesh && after.issued == w.issued && |after.conns| == |w.conns|
            && after.conns == w.conns[k := conn.(host := Finished, join := Joined, closed := Some(Confirmed))]
  {
    var confirmed := Step(w, Confirm(k));
    assert confirmed.conns[k] == w.conns[k].(host := Finished, closed := Some(Confirmed));
    assert confirmed.meshes == w.meshes;
  }

  /** Both sides save each other, the host first. */
  lemma BothAreSaved(w: World, k: nat, at: int)
    requires k < |w.conns| && w.conns[k].host.Exchanged? && w.conns[k].join.Promised? && w.conns[k].closed == None
    requires var conn := w.conns[k];
             && w.issued.Some? && w.issued.value.secret == conn.host.secret && at < w.issued.value.expires
             && Registrable(w.mesh, conn.remote, conn.host.name)
             && Registrable(w.MeshOf(conn.remote), w.host, conn.join.hostName)
    ensures var conn, after := w.conns[k], Steps(w, [Redeem(k, at), Confirm(k), JoinerSeesClose(k)]);
            && PairedAs(w.mesh, after.mesh, conn.remote, conn.host.name)
            && PairedAs(w.MeshOf(conn.remote), after.MeshOf(conn.remote), w.host, conn.join.hostName)
            && after.issued == None && |after.conns| == |w.conns|
            && after.conns == w.conns[k := conn.(host := Finished, join := Joined, closed := Some(Confirmed))]
  {
    ThreeSteps(w, Redeem(k, at), Confirm(k), JoinerSeesClose(k));
    RedeemingExactly(w, k, at);
    var saved := Step(w, Redeem(k, at));
    assert saved.conns[k] == w.conns[k].(host := Kept);
    assert saved.meshes == w.meshes;
    ConfirmingSaves(saved, k);
  }

  /** The messages and steps of an exchange that nothing disturbs. */
  function Exchange(k: nat, ticket: Issued, from: Id, name: Bytes, at: int, end: int): seq<Event> {
    [Dial(from, ticket.secret, name), Accept(k, at), HostReads(k)]
    + ([JoinerReads(k), HostReads(k)] + [Redeem(k, end), Confirm(k), JoinerSeesClose(k)])
  }

  /** Pairing works: whoever knows the secret of the ticket that is out, and
      comes before its time is over, ends up saved by the host under the name
      it gave, and has the host saved under the name on the ticket; whichever
      of them was known to the other keeps the name it has there. The ticket
      is gone. */
  lemma PairingWorks(w: World, from: Id, name: Bytes, at: int, end: int)
    requires from != w.host && w.issued.Some? && at < w.issued.value.expires && end < w.issued.value.expires
    requires Registrable(w.mesh, from, name)
    requires Registrable(w.MeshOf(from), w.host, w.issued.value.localName)
    ensures var ticket, k := w.issued.value, |w.conns|;
            var after := Steps(w, Exchange(k, ticket, from, name, at, end));
            && PairedAs(w.mesh, after.mesh, from, name)
            && PairedAs(w.MeshOf(from), after.MeshOf(from), w.host, ticket.localName)
            && after.issued == None && |after.conns| == k + 1 && after.conns[..k] == w.conns
            && after.conns[k].join == Joined && after.conns[k].closed == Some(Confirmed)
  {
    var ticket, k := w.issued.value, |w.conns|;
    var first, last := [Dial(from, ticket.secret, name), Accept(k, at), HostReads(k)],
                       [Redeem(k, end), Confirm(k), JoinerSeesClose(k)];
    var middle := [JoinerReads(k), HostReads(k)];
    StepsInTurn(w, first, middle + last);
    HelloIsAnswered(w, from, name, at);
    var greeted := Steps(w, first);
    StepsInTurn(greeted, middle, last);
    TwoSteps(greeted, JoinerReads(k), HostReads(k));
    WelcomeIsAnswered(greeted, k, ticket, from, name, SavedName(w.mesh, from, name));
    var exchanged := Steps(greeted, middle);
    BothAreSaved(exchanged, k, end);
    assert exchanged.conns[..k] == w.conns;
  }

  lemma TwoSteps(w: World, a: Event, b: Event)
    ensures Steps(w, [a, b]) == Step(Step(w, a), b)
  {
    assert [a, b][1..] == [b] && [b][1..] == [];
    assert Steps(Step(w, a), [b]) == Steps(Step(Step(w, a), b), []);
  }

  /** Hosting puts a new ticket out in the place of any other. */
  lemma HostingIssues(w: World, expires: int, name: Bytes)
    ensures var after := Steps(w, [Host, Issue(expires, name)]);
            && after.issued == Some(Issued(w.nextSecret, expires, name)) && after.nextSecret == w.nextSecret + 1
            && after.mesh == w.mesh && after.meshes == w.meshes && after.conns == w.conns
  {
    TwoSteps(w, Host, Issue(expires, name));
  }

  /** What becomes of whoever is turned away. */
  predicate TurnedAway(w: World, after: World) {
    && after.mesh == w.mesh && after.meshes == w.meshes
    && |after.conns| == |w.conns| + 1 && after.conns[..|w.conns|] == w.conns
    && var conn := after.conns[|w.conns|];
       conn.host == Finished && conn.toJoiner == [Reject] && conn.closed == Some(Otherwise)
  }

  /** Whoever comes when no ticket is out, or after its time, is turned away
      at once, and the ticket is forgotten. */
  lemma LateOnesAreTurnedAway(w: World, from: Id, secret: Secret, name: Bytes, at: int)
    requires from != w.host && (w.issued.None? || w.issued.value.expires <= at)
    ensures var after := Steps(w, [Dial(from, secret, name), Accept(|w.conns|, at)]);
            TurnedAway(w, after) && after.issued == None
  {
    var k, dialled := |w.conns|, Step(w, Dial(from, secret, name));
    TwoSteps(w, Dial(from, secret, name), Accept(k, at));
    RefusedLate(dialled, k, at);
    assert dialled.conns[k] == Conn(from, Incoming, Asked(w.MeshOf(from)), [Hello(secret, name)], 0, [], None);
    assert dialled.conns[..k] == w.conns;
  }

  lemma RefusedLate(w: World, k: nat, at: int)
    requires k < |w.conns| && w.conns[k].host.Incoming? && w.conns[k].closed == None
    requires w.issued.None? || w.issued.value.expires <= at
    ensures var conn, after := w.conns[k], Step(w, Accept(k, at));
            && after.mesh == w.mesh && after.meshes == w.meshes && after.issued == None
            && after.conns == w.conns[k :=
                 conn.(host := Finished, toJoiner := conn.toJoiner + [Reject], closed := Some(Otherwise))]
  {
    var conn := w.conns[k];
    assert StillOut(w.issued, at) == None;
    assert Refused(conn) == conn.(host := Finished, toJoiner := conn.toJoiner + [Reject], closed := Some(Otherwise));
  }

  /** And whoever comes with another secret when it gives that away; the
      ticket is still out. */
  lemma StrangersAreTurnedAway(w: World, from: Id, secret: Secret, name: Bytes, at: int)
    requires from != w.host && w.issued.Some? && at < w.issued.value.expires && w.issued.value.secret != secret
    ensures var k := |w.conns|;
            var after := Steps(w, [Dial(from, secret, name), Accept(k, at), HostReads(k)]);
            TurnedAway(w, after) && after.issued == w.issued
  {
    var k := |w.conns|;
    ThreeSteps(w, Dial(from, secret, name), Accept(k, at), HostReads(k));
    TakingUp(w, from, secret, name, at);
    var taken := Step(Step(w, Dial(from, secret, name)), Accept(k, at));
    assert taken.conns[k].NextToHost() == Some(Hello(secret, name));
  }

  // ------------------------------------------------------ one message at a time

  /** A connection that one side gave up. */
  predicate Dropped(before: Conn, after: Conn) {
    before.closed.None? ==> after.closed == Some(Otherwise)
  }

  /** A host that welcomed the joiner is only satisfied with its promise. */
  lemma OnlyDoneCompletes(w: World, k: nat, message: Message)
    requires k < |w.conns| && w.conns[k].host.Welcomed? && w.conns[k].NextToHost() == Some(message)
    ensures var conn, after := w.conns[k], Step(w, HostReads(k));
            && after == w.(conns := w.conns[k := after.conns[k]])
            && (message == Done ==> after.conns[k].host == Exchanged(conn.host.secret, conn.host.name)
                                    && after.conns[k].closed.None?)
            && (message != Done ==> after.conns[k].host == Finished && Dropped(conn, after.conns[k]))
  {}

  /** A host does not welcome whom it could not save. */
  lemma UnfitJoinersAreRefused(w: World, k: nat, name: Bytes)
    requires k < |w.conns| && w.conns[k].host.Opened?
    requires w.conns[k].NextToHost() == Some(Hello(w.conns[k].host.ticket.secret, name))
    ensures var conn, after := w.conns[k], Step(w, HostReads(k));
            var (known, ticket) := (conn.host.known, conn.host.ticket);
            && after == w.(conns := w.conns[k := after.conns[k]])
            && (IsAlive(known, conn.remote) ==>
                  after.conns[k].host == Welcomed(ticket.secret, known[conn.remote].status.name))
            && (!IsAlive(known, conn.remote) && ValidName(name) && (|known| < 64 || conn.remote in known) ==>
                  after.conns[k].host == Welcomed(ticket.secret, name))
            && (after.conns[k].host.Welcomed? ==>
                  after.conns[k].toJoiner == conn.toJoiner + [Welcome(ticket.localName)])
            && (!IsAlive(known, conn.remote) && (!ValidName(name) || (|known| >= 64 && conn.remote !in known)) ==>
                  after.conns[k].host == Finished && after.conns[k].toJoiner == conn.toJoiner + [Reject]
                  && Dropped(conn, after.conns[k]))
  {}

  /** A joiner promises only to a host that welcomed it, and that it could save. */
  lemma JoinersPromiseExactly(w: World, k: nat)
    requires k < |w.conns| && w.conns[k].join.Asked? && w.conns[k].closed.None? && w.conns[k].toJoiner != []
    ensures var conn, after := w.conns[k], Step(w, JoinerReads(k));
            var (known, said) := (conn.join.known, conn.toJoiner[0]);
            && after == w.(conns := w.conns[k := after.conns[k]])
            && (after.conns[k].join.Promised? <==>
                  && said.Welcome?
                  && (IsAlive(known, w.host) || (ValidName(said.name) && (|known| < 64 || w.host in known))))
            && (after.conns[k].join.Promised? ==>
                  && after.conns[k].join.hostName == SavedName(known, w.host, said.name)
                  && after.conns[k].toHost == conn.toHost + [Done] && after.conns[k].closed.None?)
            && (!after.conns[k].join.Promised? ==> after.conns[k].join == GaveUp && Dropped(conn, after.conns[k]))
  {}

  /** And saves it exactly when the connection is closed as confirmed. */
  lemma JoinersSaveExactly(w: World, k: nat)
    requires k < |w.conns| && w.conns[k].join.Promised? && w.conns[k].closed.Some?
    ensures var conn, after := w.conns[k], Step(w, JoinerSeesClose(k));
            var saves := conn.closed == Some(Confirmed)
                         && Registrable(w.MeshOf(conn.remote), w.host, conn.join.hostName);
            && (saves ==> after.conns[k].join == Joined
                          && PairedAs(w.MeshOf(conn.remote), after.MeshOf(conn.remote), w.host, conn.join.hostName))
            && (!saves ==> after.conns[k].join == GaveUp && after.meshes == w.meshes && after.log == w.log)
            && after.mesh == w.mesh && after.issued == w.issued
            && forall id :: id != conn.remote ==> after.MeshOf(id) == w.MeshOf(id)
  {}
}
