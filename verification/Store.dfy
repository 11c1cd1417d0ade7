/** The session store: a Redis keyspace with expiry, and the client that fails open. */
module Store {
  import opened Options
  import opened StateMachine

  /** Times are in milliseconds. */
  const CLAIM_TTL: nat := 30_000

  /** A stored value; a cell without a deadline never expires. */
  datatype Cell = Cell(record: Record, deadline: Option<int>)

  /** The keyspace at one instant. Expired keys are gone from it. */
  datatype Db = Db(now: int, cells: map<string, Cell>)

  datatype Command =
    | SetIfAbsent(key: string, record: Record, ttl: nat)   // SET NX EX
    | SetWithTtl(key: string, record: Record, ttl: nat)    // SET EX
    | SetKeepTtl(key: string, record: Record)              // SET KEEPTTL
    | Refresh(key: string, ttl: nat)                       // the expiry half of GETEX, or EXPIRE

  function Execute(db: Db, c: Command): Db {
    match c
    case SetIfAbsent(k, r, ttl) =>
      if k in db.cells then db else db.(cells := db.cells[k := Cell(r, Some(db.now + ttl))])
    case SetWithTtl(k, r, ttl) =>
      db.(cells := db.cells[k := Cell(r, Some(db.now + ttl))])
    case SetKeepTtl(k, r) =>
      db.(cells := db.cells[k := Cell(r, if k in db.cells then db.cells[k].deadline else None)])
    case Refresh(k, ttl) =>
      if k in db.cells then db.(cells := db.cells[k := db.cells[k].(deadline := Some(db.now + ttl))]) else db
  }

  function Read(db: Db, key: string): Option<Record> {
    if key in db.cells then Some(db.cells[key].record) else None
  }

  predicate Alive(c: Cell, now: int) {
    c.deadline.None? || now <= c.deadline.value
  }

  /** Time passes and keys past their deadline disappear. */
  function Advance(db: Db, ms: nat): Db {
    Db(db.now + ms, map k | k in db.cells && Alive(db.cells[k], db.now + ms) :: db.cells[k])
  }

  function Evict(db: Db, key: string): Db {
    db.(cells := db.cells - {key})
  }

  /** What the server understands: GETEX since 6.2, KEEPTTL since 6.0. */
  datatype Server = Server(getex: bool, keepTtl: bool)

  /** The write-back of a pinned record: keep the sliding deadline, or reset it on old servers. */
  function UpdateCommand(server: Server, key: string, record: Record, ttl: nat): Command {
    if server.keepTtl then SetKeepTtl(key, record) else SetWithTtl(key, record, ttl)
  }

  /** The fate of a request to the server: answered, lost on the way there, or carried out
      without the answer arriving. The client cannot tell the last two apart. */
  datatype Fault = Answered | Lost | Unanswered

  /** The fates of the commands a read may send: GETEX, or GET and EXPIRE on an old server. */
  datatype ReadAttempts = ReadAttempts(getex: Fault, get: Fault, expire: Fault)

  /** The fates of a KEEPTTL write and of the write sent instead if an old server rejects it. */
  datatype Attempts = Attempts(first: Fault, second: Fault)

  /** A pair of GET and EXPIRE is answered if both are; only EXPIRE has an effect. */
  function PairFate(get: Fault, expire: Fault): Fault {
    if expire.Answered? && !get.Answered? then Unanswered else expire
  }

  /** What becomes of a read: a rejected GETEX has no effect and is tried again as GET and EXPIRE. */
  function ReadFate(server: Server, triesGetex: bool, sent: ReadAttempts): Fault {
    if triesGetex && server.getex then sent.getex
    else if triesGetex && !sent.getex.Answered? then Lost
    else PairFate(sent.get, sent.expire)
  }

  predicate StillTriesGetex(server: Server, triesGetex: bool, sent: ReadAttempts) {
    triesGetex && (server.getex || !sent.getex.Answered?)
  }

  /** What becomes of a write-back: a rejected KEEPTTL has no effect and is tried again without it. */
  function UpdateFate(server: Server, sent: Attempts): Fault {
    if server.keepTtl then sent.first else if sent.first.Answered? then sent.second else Lost
  }

  /** When a read or a write-back is answered, and when it has no effect, in terms of what is sent. An
      old server takes two attempts, the first of which must be answered with its rejection. */
  lemma WhatReachesTheServer(server: Server, triesGetex: bool, read: ReadAttempts, update: Attempts)
    ensures ReadFate(server, triesGetex, read).Answered?
            <==> if triesGetex && server.getex then read.getex.Answered?
                 else (triesGetex ==> read.getex.Answered?) && read.get.Answered? && read.expire.Answered?
    ensures ReadFate(server, triesGetex, read).Lost?
            <==> if triesGetex && server.getex then read.getex.Lost?
                 else (triesGetex && !read.getex.Answered?) || read.expire.Lost?
    ensures UpdateFate(server, update).Lost?
            <==> if server.keepTtl then update.first.Lost? else !update.first.Answered? || update.second.Lost?
    ensures UpdateFate(server, update).Answered?
            <==> if server.keepTtl then update.first.Answered? else update.first.Answered? && update.second.Answered?
    ensures !StillTriesGetex(server, triesGetex, read) <==> !triesGetex || (!server.getex && read.getex.Answered?)
  {
  }

  class SessionStore {
    const ttl: nat
    const server: Server
    var db: Db
    var getexSupported: bool

    constructor (db: Db, ttl: nat, server: Server)
      ensures this.db == db && this.ttl == ttl && this.server == server && getexSupported
    {
      this.db, this.ttl, this.server := db, ttl, server;
      getexSupported := true;
    }

    /** Sends one command; false means the client saw an error. */
    method Send(c: Command, fault: Fault) returns (acknowledged: bool)
      modifies this`db
      ensures acknowledged <==> fault.Answered?
      ensures db == if fault.Lost? then old(db) else Execute(old(db), c)
    {
      if !fault.Lost? {
        db := Execute(db, c);
      }
      acknowledged := fault.Answered?;
    }

    /** An old server rejects GETEX; the client then remembers to use GET and EXPIRE instead. Either
        way an answered read returns the stored record and slides its deadline. */
    method GetAndRefresh(key: string, sent: ReadAttempts) returns (r: Option<Record>)
      modifies this
      ensures var fate := ReadFate(server, old(getexSupported), sent);
              && r == (if fate.Answered? then Read(old(db), key) else None)
              && db == (if fate.Lost? then old(db) else Execute(old(db), Refresh(key, ttl)))
      ensures getexSupported == StillTriesGetex(server, old(getexSupported), sent)
    {
      var value := Read(db, key);
      if getexSupported {
        if server.getex {
          var ok := Send(Refresh(key, ttl), sent.getex);
          return if ok then value else None;
        }
        if !sent.getex.Answered? {
          return None;
        }
        getexSupported := false;
      }
      var ok := Send(Refresh(key, ttl), sent.expire);
      r := if ok && sent.get.Answered? then value else None;
    }

    /** True exactly when this client is known to have placed the placeholder. */
    method ClaimForClassification(key: string, placeholder: Record, fault: Fault) returns (won: bool)
      modifies this`db
      ensures won <==> fault.Answered? && key !in old(db).cells
      ensures db == if fault.Lost? then old(db) else Execute(old(db), SetIfAbsent(key, placeholder, CLAIM_TTL))
    {
      var free := key !in db.cells;
      var ok := Send(SetIfAbsent(key, placeholder, CLAIM_TTL), fault);
      won := ok && free;
    }

    method WritePin(key: string, record: Record, fault: Fault)
      modifies this`db
      ensures db == if fault.Lost? then old(db) else Execute(old(db), SetWithTtl(key, record, ttl))
    {
      var _ := Send(SetWithTtl(key, record, ttl), fault);
    }

    /** A server without KEEPTTL rejects it, and the client sends a second command that resets the
        deadline instead. */
    method Update(key: string, record: Record, sent: Attempts)
      modifies this`db
      ensures db == if UpdateFate(server, sent).Lost? then old(db)
                    else Execute(old(db), UpdateCommand(server, key, record, ttl))
    {
      if server.keepTtl {
        var _ := Send(SetKeepTtl(key, record), sent.first);
      } else if sent.first.Answered? {
        var _ := Send(SetWithTtl(key, record, ttl), sent.second);
      }
    }
  }

  lemma ClockStays(db: Db, c: Command)
    ensures Execute(db, c).now == db.now
  {
  }

  /** A write-back replaces the record and leaves the sliding deadline where it was, unless the server
      cannot keep it; a read leaves the record and slides the deadline by the full ttl. */
  lemma WriteBackAndRead(db: Db, server: Server, key: string, record: Record, ttl: nat)
    requires key in db.cells
    ensures Execute(db, UpdateCommand(server, key, record, ttl)).cells
            == db.cells[key := Cell(record, if server.keepTtl then db.cells[key].deadline else Some(db.now + ttl))]
    ensures Execute(db, Refresh(key, ttl)).cells == db.cells[key := Cell(db.cells[key].record, Some(db.now + ttl))]
  {
  }

  /** Commands touch only their own key. */
  lemma OtherKeysUntouched(db: Db, c: Command, k: string)
    requires k != c.key
    ensures var after := Execute(db, c);
            after.now == db.now && (k in after.cells <==> k in db.cells)
            && (k in db.cells ==> after.cells[k] == db.cells[k])
  {
  }

  /** Refreshing a key, or setting it only if absent, never changes a record that is there; any
      other command changes its own key only. */
  lemma HarmlessCommand(db: Db, c: Command, k: string)
    requires c.key == k ==> c.Refresh? || (c.SetIfAbsent? && (c.record.Classifying? || k in db.cells))
    ensures var after := Execute(db, c);
            && (k in after.cells && after.cells[k].record.Pinned? <==> k in db.cells && db.cells[k].record.Pinned?)
            && (k in db.cells ==> k in after.cells && after.cells[k].record == db.cells[k].record)
  {
  }

  /** The only way a command leaves a key without expiry where there was none is a KEEPTTL write
      to a key that had already gone. */
  lemma KeepTtlRevivesExactlyTheDead(db: Db, c: Command)
    ensures var after := Execute(db, c);
            c.key in after.cells && after.cells[c.key].deadline.None?
            && !(c.key in db.cells && db.cells[c.key].deadline.None?)
            <==> c.SetKeepTtl? && c.key !in db.cells
  {
  }
}
