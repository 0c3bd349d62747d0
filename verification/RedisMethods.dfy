/**
The Redis client on its objects: connections that write bytes and read replies from the bytes the server has sent, the
pool, and what borrows from it. What the network and the server do with a command is passed in with it.
*/
module RedisMethods {
  import opened Basics
  import opened Replies
  import opened Commands
  import opened Arguments
  import opened RedisClient

  lemma {:induction false} EncodeAllAppend(rs: seq<Reply>, more: seq<Reply>)
    ensures EncodeAll(rs + more) == EncodeAll(rs) + EncodeAll(more)
    ensures AllSendable(rs + more) <==> AllSendable(rs) && AllSendable(more)
  {
    if rs != [] {
      assert (rs + more)[0] == rs[0] && (rs + more)[1..] == rs[1..] + more;
      EncodeAllAppend(rs[1..], more);
      assert Encode(rs[0]) + (EncodeAll(rs[1..]) + EncodeAll(more)) == Encode(rs[0]) + EncodeAll(rs[1..]) + EncodeAll(more);
    } else {
      assert rs + more == more && [] + EncodeAll(more) == EncodeAll(more);
    }
  }

  lemma EncodeOne(r: Reply)
    ensures EncodeAll([r]) == Encode(r) && (AllSendable([r]) <==> Sendable(r))
  {
    assert [r][1..] == [] && Encode(r) + [] == Encode(r);
  }

  /** What is written for a command. */
  function Put(args: seq<Arg>, net: Net): bytes {
    if PackCommand(args, TURNS).Some? && net.write == Fine then PackCommand(args, TURNS).value else []
  }

  predicate EndsWith<T(==)>(s: seq<T>, end: seq<T>) { |end| <= |s| && s[|s| - |end|..] == end }

  /** Replies as a server sends them. */
  predicate WellFormed(net: Net) { Sendable(net.answer) && AllSendable(net.garbage) }

  class Connection {
    const reader: Reader        // the bytes the server has sent
    var written: bytes          // the bytes sent to the server
    var serverInStep: bool      // the server has found in them just the commands that were sent
    ghost var link: Link

    /** The bytes to be read are the replies that are pending. */
    ghost predicate Valid()
      reads this, reader
    {
      AllSendable(link.pending) && reader.unread == EncodeAll(link.pending) && serverInStep == link.inStep
    }

    constructor ()
      ensures Valid() && fresh(reader) && link == NEW_LINK && written == []
    {
      reader := new Reader([]);
      written, serverInStep, link := [], true, NEW_LINK;
    }

    /** The connection is lost: nothing more comes from it. */
    method Lose()
      modifies this, reader
      ensures Valid() && link == NEW_LINK && written == old(written)
    {
      reader.unread := [];
      serverInStep, link := true, NEW_LINK;
    }

    /** The server's part: it answers the bytes of a command. */
    method ServerAnswers(args: seq<Arg>, net: Net)
      requires Valid() && WellFormed(net)
      modifies this, reader
      ensures Valid() && link == Delivered(old(link), args, net) && written == old(written)
    {
      serverInStep := serverInStep && Understood(args);
      if serverInStep {
        EncodeOne(net.answer);
        EncodeAllAppend(link.pending, [net.answer]);
        reader.unread := reader.unread + Encode(net.answer);
      } else {
        EncodeAllAppend(link.pending, net.garbage);
        reader.unread := reader.unread + EncodeAll(net.garbage);
      }
      link := Delivered(link, args, net);
    }

    method SendCommand(args: seq<Arg>, net: Net) returns (sent: Sent)
      requires Valid() && AllTyped(args) && WellFormed(net)
      modifies this, reader
      ensures Valid() && (link, sent) == Send(old(link), args, net)
      ensures sent == Done ==> PackCommand(args, TURNS).Some?
      ensures written == old(written) + if sent == Done then PackCommand(args, TURNS).value else []
    {
      var request := WriteCommand(args);
      if request.None? { return SendError; }
      match net.write {
        case Fine =>
          written := written + request.value;
          ServerAnswers(args, net);
          sent := Done;
        case Eof =>
          Lose();
          sent := SendEof;
        case Broken =>
          Lose();
          sent := SendError;
      }
    }

    /** Where the program would wait for ever, the method returns NothingComes. */
    method RecvReply(read: Delivery) returns (r: Received)
      requires Valid()
      modifies this, reader
      ensures Valid() && (link, r) == Receive(old(link), read) && written == old(written)
    {
      match read {
        case Fine =>
          if link.pending != [] { RecvEncode(link.pending[0], EncodeAll(link.pending[1..])); }
          var reply := reader.RecvReply();
          if reply.None? { return NothingComes; }
          link := Link(link.pending[1..], link.inMulti, link.inStep);
          r := Got(reply.value);
        case Eof =>
          Lose();
          r := RecvEof;
        case Broken =>
          Lose();
          r := RecvError;
      }
    }

    /** Send one command and read one reply. */
    method AskServer(args: seq<Arg>, net: Net) returns (a: Asked)
      requires Valid() && AllTyped(args) && WellFormed(net)
      modifies this, reader
      ensures Valid() && (link, a) == Ask(old(link), args, net)
      ensures written == old(written) + Put(args, net)
    {
      var sent := SendCommand(args, net);
      match sent {
        case SendEof => return LostAtSend;
        case SendError => return Failed;
        case Done =>
      }
      var r := RecvReply(net.read);
      match r {
        case Got(reply) => a := Answered(reply);
        case RecvEof => a := LostAtRecv;
        case RecvError => a := Failed;
        case NothingComes => a := Waits;
      }
    }
  }

  class ConnPool {
    var maxIdle: int
    var idle: seq<Connection>
    var closed: bool
    ghost var Repr: set<object>   // the pool, and the connections that it has had, with their readers

    constructor (maxIdle: int)
      ensures View() == Pool(maxIdle, [], false) && Repr == {this}
      ensures maxIdle >= 1 ==> Valid() && AllClean()
    {
      this.maxIdle, idle, closed, Repr := maxIdle, [], false, {this};
    }

    ghost function View(): Pool<Connection>
      reads this
    {
      Pool(maxIdle, idle, closed)
    }

    /** connPool.Get; `dials` says whether a dial would succeed. */
    method Get(dials: bool) returns (c: Option<Connection>)
      modifies this`idle
      ensures var (q, g) := PoolGet(old(View()));
        && View() == q
        && match g
           case Closed => c.None?
           case Reused(x) => c == Some(x)
           case MustDial =>
             && c.Some? == dials
             && (dials ==> fresh(c.value) && fresh(c.value.reader) && c.value.Valid() && c.value.link == NEW_LINK)
    {
      if closed { return None; }
      if |idle| > 0 {
        var back := idle[|idle| - 1];
        idle := idle[..|idle| - 1];
        return Some(back);
      }
      if !dials { return None; }
      var conn := new Connection();
      c := Some(conn);
    }

    method Put(c: Connection)
      requires PoolPut(View(), c).Some?
      modifies this`idle
      ensures PoolPut(old(View()), c) == Some(View())
    {
      if closed { return; }
      if |idle| >= maxIdle { idle := idle[1..]; }
      idle := idle + [c];
    }

    method Close()
      modifies this`closed
      ensures View() == old(View()).(closed := true)
    {
      closed := true;
    }

    /** Idle connections are distinct objects with their own readers, no more than the limit. */
    ghost predicate Valid()
      reads this, Repr
    {
      && this in Repr && PoolOk(View())
      && (forall c {:trigger c in idle} :: c in idle ==> c in Repr && c.reader in Repr && c.Valid())
      && (forall c, d {:trigger c in idle, d in idle} :: c in idle && d in idle && c != d ==> c.reader != d.reader)
    }

    /** Every idle connection is fit for reuse. */
    ghost predicate AllClean()
      reads this, idle
    {
      forall c {:trigger c in idle} :: c in idle ==> Clean(c.link)
    }

    /** The connection is not in the pool. */
    ghost predicate Outside(c: Connection)
      reads this, idle
    {
      c !in idle && forall d {:trigger d in idle} :: d in idle ==> d.reader != c.reader
    }

    /** The connection at the back is taken, if there is one, and the others stay. */
    static predicate TakenFrom(before: seq<Connection>, closed: bool, c: Option<Connection>, after: seq<Connection>) {
      if closed then c == None && after == before
      else if before == [] then after == []
      else c == Some(before[|before| - 1]) && after == before[..|before| - 1]
    }

    /** A connection is taken out of the pool, or made. */
    method Borrow(dials: bool) returns (c: Option<Connection>)
      requires Valid()
      modifies this
      ensures Valid() && maxIdle == old(maxIdle) && closed == old(closed)
      ensures old(Repr) <= Repr && fresh(Repr - old(Repr))
      ensures c.Some? ==> c.value.Valid() && Outside(c.value) && c.value in Repr && c.value.reader in Repr
      ensures old(AllClean()) ==> AllClean() && (c.Some? ==> Clean(c.value.link))
      ensures !old(closed) && dials ==> c.Some?
      ensures TakenFrom(old(idle), old(closed), c, idle) && (old(idle) == [] && c.Some? ==> fresh(c.value))
    {
      PoolGetMeans(View());
      c := Get(dials);
      if c.Some? { Repr := Repr + {c.value, c.value.reader}; }
    }

    /** A connection is given back; the pool stays clean if the connection is. */
    method GiveBack(c: Connection)
      requires Valid() && Outside(c) && c.Valid()
      modifies this
      ensures Valid() && PoolPut(old(View()), c) == Some(View()) && Repr == old(Repr) + {c, c.reader}
      ensures old(AllClean()) && Clean(c.link) ==> AllClean()
    {
      PoolPutMeans(View(), c);
      Put(c);
      Repr := Repr + {c, c.reader};
    }
  }

  /** The reply is the answer to the command, in an attempt in which the network did its part. */
  predicate OwnAnswer(r: Reply, net: Net) { net.write == Fine && net.read == Fine && r == net.answer }

  /** A command that leaves a clean connection clean. */
  ghost predicate Proper(args: seq<Arg>) { Harmless(args) && !Named(args, MULTI) }

  /** What a proper command makes of a clean connection. */
  lemma ProperAsk(args: seq<Arg>, net: Net)
    requires AllTyped(args) && WellFormed(net) && Proper(args)
    ensures var (l, a) := Ask(NEW_LINK, args, net);
      && Clean(l) && !a.Waits? && (a.Answered? ==> OwnAnswer(a.reply, net))
      && (AllSmall(args) ==>
            (a.Answered? <==> Works(net)) && (a.LostAtSend? <==> LostAtWrite(net)) && (a.LostAtRecv? <==> LostAtRead(net)))
  {
    AskOwnReply(NEW_LINK, args, net);
    if AllSmall(args) { AskLostIff(NEW_LINK, args, net); }
  }

  /** A connection is borrowed, and one command is sent on it and answered. */
  method TryOnce(pool: ConnPool, args: seq<Arg>, net: Net, dials: bool) returns (c: Option<Connection>, a: Asked)
    requires pool.Valid() && AllTyped(args) && WellFormed(net)
    modifies pool.Repr
    ensures pool.Valid() && pool.maxIdle == old(pool.maxIdle) && pool.closed == old(pool.closed)
    ensures old(pool.Repr) <= pool.Repr && fresh(pool.Repr - old(pool.Repr))
    ensures c.Some? ==> c.value.Valid() && pool.Outside(c.value) && c.value in pool.Repr && c.value.reader in pool.Repr
    ensures old(pool.AllClean()) ==> pool.AllClean() && (c.Some? ==> (c.value.link, a) == Ask(NEW_LINK, args, net))
    ensures !old(pool.closed) && dials ==> c.Some?
    ensures ConnPool.TakenFrom(old(pool.idle), old(pool.closed), c, pool.idle)
    ensures old(pool.idle) == [] && c.Some? ==> fresh(c.value)
    ensures c.Some? ==> EndsWith(c.value.written, Put(args, net))
  {
    a := Failed;
    c := pool.Borrow(dials);
    if c.Some? { a := c.value.AskServer(args, net); }
  }

  /** The end of a call: the connection is given back, unless the call waits for ever. */
  method Conclude(pool: ConnPool, c: Connection, a: Asked) returns (r: Option<Reply>)
    requires pool.Valid() && pool.Outside(c) && c.Valid() && c in pool.Repr && c.reader in pool.Repr
    modifies pool
    ensures pool.Valid() && pool.maxIdle == old(pool.maxIdle) && pool.closed == old(pool.closed)
    ensures old(pool.AllClean()) && Clean(c.link) ==> pool.AllClean()
    ensures r == if a.Answered? then Some(a.reply) else None
    ensures pool.Repr == old(pool.Repr) && forall x :: x in pool.idle ==> x in old(pool.idle) || x == c
  {
    if !a.Waits? {
      PoolPutMeans(pool.View(), c);
      pool.GiveBack(c);
    }
    r := if a.Answered? then Some(a.reply) else None;
  }

  /** The last attempt: whatever happens, its connection is given back. */
  method LastAttempt(pool: ConnPool, args: seq<Arg>, net: Net, dials: bool) returns (r: Option<Reply>)
    requires pool.Valid() && AllTyped(args) && WellFormed(net)
    modifies pool.Repr
    ensures pool.Valid() && pool.maxIdle == old(pool.maxIdle) && pool.closed == old(pool.closed)
    ensures old(pool.AllClean()) && Proper(args) ==> pool.AllClean() && (r.Some? ==> OwnAnswer(r.value, net))
    ensures old(pool.AllClean()) && Proper(args) && AllSmall(args) && !old(pool.closed) && dials ==>
      r == if Works(net) then Some(net.answer) else None
    ensures forall x :: x in pool.idle ==> x in old(pool.idle) || fresh(x)
    ensures old(pool.Repr) <= pool.Repr && fresh(pool.Repr - old(pool.Repr))
  {
    if Proper(args) { ProperAsk(args, net); }
    var c, a := TryOnce(pool, args, net, dials);
    if c.None? { return None; }
    r := Conclude(pool, c.value, a);
  }

  /** The second attempt, after the first connection was lost while the command was sent. */
  method SecondAttempt(pool: ConnPool, args: seq<Arg>, net2: Net, net3: Net, dials: bool) returns (r: Option<Reply>)
    requires pool.Valid() && AllTyped(args) && WellFormed(net2) && WellFormed(net3)
    modifies pool.Repr
    ensures pool.Valid() && pool.maxIdle == old(pool.maxIdle) && pool.closed == old(pool.closed)
    ensures old(pool.AllClean()) && Proper(args) ==>
      pool.AllClean() && (r.Some? ==> OwnAnswer(r.value, net2) || OwnAnswer(r.value, net3))
    ensures old(pool.AllClean()) && Proper(args) && AllSmall(args) && !old(pool.closed) && dials ==>
      r == if Works(net2) then Some(net2.answer)
           else if LostAtRead(net2) && Works(net3) then Some(net3.answer) else None
    ensures forall x :: x in pool.idle ==> x in old(pool.idle) || fresh(x)
    ensures old(pool.Repr) <= pool.Repr && fresh(pool.Repr - old(pool.Repr))
  {
    if Proper(args) { ProperAsk(args, net2); }
    var c, a := TryOnce(pool, args, net2, dials);
    if c.None? { return None; }
    if a.LostAtRecv? {
      r := LastAttempt(pool, args, net3, dials);
    } else {
      r := Conclude(pool, c.value, a);
    }
  }

  /**
  Redis.ExecuteCommand. A lost connection is forgotten and the command is sent again on another one. A proper command on
  a pool of clean connections is answered with its own answer, and the pool stays clean, whatever the network does. It is
  answered by the first attempt that works; a second is made after a lost connection, and a third when the first was
  lost during the write and the second during the read.
  */
  method ExecuteCommand(pool: ConnPool, args: seq<Arg>, net1: Net, net2: Net, net3: Net, dials: bool) returns (r: Option<Reply>)
    requires pool.Valid() && AllTyped(args) && WellFormed(net1) && WellFormed(net2) && WellFormed(net3)
    modifies pool.Repr
    ensures pool.Valid() && pool.maxIdle == old(pool.maxIdle) && pool.closed == old(pool.closed)
    ensures old(pool.AllClean()) && Proper(args) ==>
      && pool.AllClean()
      && (r.Some? ==> OwnAnswer(r.value, net1) || OwnAnswer(r.value, net2) || OwnAnswer(r.value, net3))
    ensures old(pool.AllClean()) && Proper(args) && AllSmall(args) && !old(pool.closed) && dials ==>
      r == if Works(net1) then Some(net1.answer)
           else if (LostAtWrite(net1) || LostAtRead(net1)) && Works(net2) then Some(net2.answer)
           else if LostAtWrite(net1) && LostAtRead(net2) && Works(net3) then Some(net3.answer)
           else None
    ensures old(pool.AllClean()) && Proper(args) && AllSmall(args) && !old(pool.closed) && old(pool.idle) != [] ==>
      (LostAtWrite(net1) || LostAtRead(net1) ==> old(pool.idle)[|old(pool.idle)| - 1] !in pool.idle)
    ensures old(pool.Repr) <= pool.Repr && fresh(pool.Repr - old(pool.Repr))
  {
    if Proper(args) { ProperAsk(args, net1); }
    var c, a := TryOnce(pool, args, net1, dials);
    if c.None? { return None; }
    if a.LostAtSend? {
      r := SecondAttempt(pool, args, net2, net3, dials);
    } else if a.LostAtRecv? {
      r := LastAttempt(pool, args, net2, dials);
    } else {
      r := Conclude(pool, c.value, a);
    }
  }

  // ----- Transactions -----

  class Transaction {
    const pool: ConnPool
    const conn: Connection

    constructor (pool: ConnPool, conn: Connection)
      ensures this.pool == pool && this.conn == conn
    {
      this.pool, this.conn := pool, conn;
    }

    /** Transaction.Command: the items are flattened, sent, and must be answered with QUEUED. */
    method Command(items: seq<Item>, net: Net) returns (ok: bool)
      requires conn.Valid() && AllTyped(PackArgs(items)) && WellFormed(net)
      modifies conn, conn.reader
      ensures conn.Valid() && (conn.link, ok) == TxCommand(old(conn.link), PackArgs(items), net)
      ensures conn.written == old(conn.written) + Put(PackArgs(items), net)
    {
      var args := FlattenArgs(items);
      var a := conn.AskServer(args, net);
      ok := a.Answered? && a.reply.StatusReply? && a.reply.status == QUEUED;
    }

    method Exec(net: Net) returns (r: Option<Reply>)
      requires conn.Valid() && WellFormed(net)
      modifies conn, conn.reader
      ensures conn.Valid() && (conn.link, r) == TxExec(old(conn.link), net)
      ensures Chars(conn.written) == old(Chars(conn.written)) + if net.write == Fine then "*1\r\n$4\r\nEXEC\r\n" else ""
    {
      NamesKnown();
      NamesOnWire();
      CharsConcat(conn.written, Put([StringArg(EXEC)], net));
      var a := conn.AskServer([StringArg(EXEC)], net);
      r := if a.Answered? && (a.reply.MultiReply? || a.reply.NullMulti?) then Some(a.reply) else None;
    }

    method Discard(net: Net) returns (ok: bool)
      requires conn.Valid() && WellFormed(net)
      modifies conn, conn.reader
      ensures conn.Valid() && (conn.link, ok) == TxDiscard(old(conn.link), net)
      ensures Chars(conn.written) == old(Chars(conn.written)) + if net.write == Fine then "*1\r\n$7\r\nDISCARD\r\n" else ""
    {
      NamesKnown();
      NamesOnWire();
      CharsConcat(conn.written, Put([StringArg(DISCARD)], net));
      var a := conn.AskServer([StringArg(DISCARD)], net);
      ok := a.Answered?;
    }

    /** Whatever the state of its connection, a transaction gives it back. */
    method Close()
      requires pool.Valid() && pool.Outside(conn) && conn.Valid()
      modifies pool
      ensures pool.Valid() && PoolPut(old(pool.View()), conn) == Some(pool.View())
      ensures old(pool.AllClean()) && Clean(conn.link) ==> pool.AllClean()
    {
      pool.GiveBack(conn);
    }

    /**
    commit and abort of the persistence layer: EXEC or DISCARD, and the connection goes back into the pool, clean if
    every reply before was read.
    */
    method Finish(commit: bool, net: Net) returns (ok: bool)
      requires pool.Valid() && pool.Outside(conn) && conn.Valid() && WellFormed(net)
      modifies pool, conn, conn.reader
      ensures pool.Valid() && conn.Valid() && PoolPut(old(pool.View()), conn) == Some(pool.View())
      ensures old(conn.link.pending) == [] && old(conn.link.inStep) ==>
        Clean(conn.link) && (old(pool.AllClean()) ==> pool.AllClean())
      ensures Chars(conn.written) == old(Chars(conn.written))
        + if net.write != Fine then "" else if commit then "*1\r\n$4\r\nEXEC\r\n" else "*1\r\n$7\r\nDISCARD\r\n"
    {
      if conn.link.pending == [] && conn.link.inStep { FinishClean(conn.link, net, commit); }
      if commit {
        var r := Exec(net);
        ok := r.Some?;
      } else {
        ok := Discard(net);
      }
      Close();
    }
  }

  lemma MultiWritten(written: bytes, net: Net)
    requires EndsWith(written, Put([StringArg(MULTI)], net))
    ensures net.write == Fine ==> EndsWith(Chars(written), "*1\r\n$5\r\nMULTI\r\n")
  {
    NamesOnWire();
    var end := Put([StringArg(MULTI)], net);
    assert written == written[..|written| - |end|] + end;
    CharsConcat(written[..|written| - |end|], end);
  }

  /** Redis.Transaction: a connection on which MULTI has been sent and answered. */
  method NewTransaction(pool: ConnPool, net: Net, dials: bool) returns (t: Option<Transaction>)
    requires pool.Valid() && WellFormed(net)
    modifies pool.Repr
    ensures pool.Valid() && pool.maxIdle == old(pool.maxIdle) && pool.closed == old(pool.closed)
    ensures t.Some? ==> t.value.pool == pool && pool.Outside(t.value.conn) && t.value.conn.Valid() && fresh(t.value)
    ensures old(pool.AllClean()) ==>
      pool.AllClean() && (t.Some? ==> t.value.conn.link == Link([], !net.answer.ErrorReply?, true))
    ensures t.Some? ==> t.value.conn in pool.Repr && t.value.conn.reader in pool.Repr
    ensures t.Some? && net.write == Fine ==> EndsWith(Chars(t.value.conn.written), "*1\r\n$5\r\nMULTI\r\n")
    ensures old(pool.Repr) <= pool.Repr && fresh(pool.Repr - old(pool.Repr))
  {
    NamesKnown();
    AskOwnReply(NEW_LINK, [StringArg(MULTI)], net);
    var c, a := TryOnce(pool, [StringArg(MULTI)], net, dials);
    if c.None? { return None; }
    MultiWritten(c.value.written, net);
    if !a.Answered? {
      var none := Conclude(pool, c.value, a);
      return None;
    }
    var tx := new Transaction(pool, c.value);
    t := Some(tx);
  }

  // ----- Pipelines -----

  class Pipelined {
    const pool: ConnPool
    const conn: Connection
    var times: int

    constructor (pool: ConnPool, conn: Connection)
      ensures this.pool == pool && this.conn == conn && times == 0
    {
      this.pool, this.conn, times := pool, conn, 0;
    }

    method Command(args: seq<Arg>, net: Net) returns (sent: Sent)
      requires conn.Valid() && AllTyped(args) && WellFormed(net)
      modifies this`times, conn, conn.reader
      ensures conn.Valid() && (conn.link, sent) == Send(old(conn.link), args, net)
      ensures times == old(times) + if sent == Done then 1 else 0
    {
      sent := conn.SendCommand(args, net);
      if sent == Done { times := times + 1; }
    }

    method Receive(read: Delivery) returns (r: Received)
      requires conn.Valid()
      modifies this`times, conn, conn.reader
      ensures conn.Valid() && (conn.link, r) == RedisClient.Receive(old(conn.link), read)
      ensures times == old(times) - if r.Got? then 1 else 0
    {
      r := conn.RecvReply(read);
      if r.Got? { times := times - 1; }
    }

    /**
    Pipelined.ReceiveAll: as many replies as the counter says, or those before the first read that fails; `fates` says
    what becomes of each read. The program returns the replies it has in a list as long as the counter said.
    */
    method ReceiveAll(fates: seq<Delivery>) returns (rps: seq<Reply>, ok: bool)
      requires conn.Valid() && |fates| == if times <= 0 then 0 else times
      modifies this`times, conn, conn.reader
      ensures conn.Valid() && (conn.link, rps, ok) == ReceiveLoop(old(conn.link), fates)
      ensures times == old(times) - |rps|
    {
      rps, ok := [], true;
      if times <= 0 { return; }
      ghost var outcome := ReceiveLoop(conn.link, fates);
      ghost var start := times;
      var num := times;
      var i := 0;
      assert fates[0..] == fates && forall more: seq<Reply> :: [] + more == more;
      while i < num
        invariant 0 <= i <= num && times == num - i && |rps| == i && conn.Valid()
        invariant outcome == var (l, more, all) := ReceiveLoop(conn.link, fates[i..]); (l, rps + more, all)
      {
        var rp := Receive(fates[i]);
        if !rp.Got? { assert rps + [] == rps; return rps, false; }
        assert fates[i..][1..] == fates[i + 1..];
        assert forall more: seq<Reply> :: rps + ([rp.reply] + more) == rps + [rp.reply] + more;
        rps := rps + [rp.reply];
        i := i + 1;
      }
      assert fates[i..] == [] && rps + [] == rps;
    }

    /** Whatever its counter says, a pipeline gives its connection back. */
    method Close()
      requires pool.Valid() && pool.Outside(conn) && conn.Valid() && (this as object) != pool
      modifies pool, this`times
      ensures pool.Valid() && PoolPut(old(pool.View()), conn) == Some(pool.View()) && times == 0
      ensures old(pool.AllClean()) && Clean(conn.link) ==> pool.AllClean()
    {
      pool.GiveBack(conn);
      times := 0;
    }
  }

  /** Redis.Pipelining */
  method NewPipeline(pool: ConnPool, dials: bool) returns (p: Option<Pipelined>)
    requires pool.Valid()
    modifies pool
    ensures pool.Valid() && pool.maxIdle == old(pool.maxIdle) && pool.closed == old(pool.closed)
    ensures p.Some? ==> p.value.pool == pool && pool.Outside(p.value.conn) && p.value.conn.Valid() && fresh(p.value)
    ensures old(pool.AllClean()) ==> pool.AllClean() && (p.Some? ==> Clean(p.value.conn.link))
    ensures p.Some? ==> p.value.times == 0 && p.value.conn in pool.Repr && p.value.conn.reader in pool.Repr
    ensures old(pool.Repr) <= pool.Repr && fresh(pool.Repr - old(pool.Repr))
  {
    var c := pool.Borrow(dials);
    if c.None? { return None; }
    var pipe := new Pipelined(pool, c.value);
    p := Some(pipe);
  }
}
