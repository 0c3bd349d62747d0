/**
Whole runs of the Redis client: commands, transactions and pipelines borrow connections from one pool and give them
back. Connections are numbers here; `links` says what each of them holds.
*/
module RedisRuns {
  import opened Basics
  import opened Replies
  import opened Commands
  import opened RedisClient

  /** `txs` says of each open transaction whether EXEC or DISCARD has ended it, `pipes` what each pipeline's counter is. */
  datatype World = World(pool: Pool<int>, links: map<int, Link>, txs: map<int, bool>, pipes: map<int, int>)

  /** What the network does in one attempt, and the connection that a dial would make; None is a failed dial. */
  datatype Try = Try(net: Net, dialed: Option<int>)

  // ----- Borrowing and giving back -----

  /** connPool.Get, with the dial */
  function Obtain(w: World, dialed: Option<int>): (World, Option<int>) {
    var (q, g) := PoolGet(w.pool);
    match g
    case Closed => (w, None)
    case Reused(c) => (w.(pool := q), Some(c))
    case MustDial => if dialed.None? then (w, None) else (w.(links := w.links[dialed.value := NEW_LINK]), dialed)
  }

  /** connPool.Put */
  function GiveBack(w: World, c: int): Option<World> {
    match PoolPut(w.pool, c)
    case None => None
    case Some(p) => Some(w.(pool := p))
  }

  function SetLink(w: World, c: int, l: Link): World { w.(links := w.links[c := l]) }

  /** The link of a connection; one that nobody has dialed has nothing to give. */
  function LinkOf(w: World, c: int): Link { if c in w.links then w.links[c] else NEW_LINK }

  // ----- ExecuteCommand -----

  /** The answer of ExecuteCommand; None is an error return. A world of None is a run-time error in Put. */
  type Executed = (Option<World>, Option<Reply>)

  function AskOn(w: World, c: int, args: seq<Arg>, net: Net): (World, Asked) {
    var (l, a) := Ask(LinkOf(w, c), args, net);
    (SetLink(w, c, l), a)
  }

  /** The connection is given back, unless the read waits for ever: then the call keeps it and never returns. */
  function Concluded(w: World, c: int, a: Asked): Executed {
    (if a.Waits? then Some(w) else GiveBack(w, c), if a.Answered? then Some(a.reply) else None)
  }

  /** The last attempt: whatever happens, its connection is given back. */
  function LastTry(w: World, args: seq<Arg>, t: Try): Executed {
    var (w1, c) := Obtain(w, t.dialed);
    if c.None? then (Some(w1), None)
    else
      var (w2, a) := AskOn(w1, c.value, args, t.net);
      Concluded(w2, c.value, a)
  }

  /** The second attempt after the first connection was lost while the command was sent. */
  function SecondTry(w: World, args: seq<Arg>, t2: Try, t3: Try): Executed {
    var (w1, c) := Obtain(w, t2.dialed);
    if c.None? then (Some(w1), None)
    else
      var (w2, a) := AskOn(w1, c.value, args, t2.net);
      if a.LostAtRecv? then LastTry(w2, args, t3) else Concluded(w2, c.value, a)
  }

  /** Redis.ExecuteCommand: a lost connection is forgotten and the command is sent again on another one. */
  function Execute(w: World, args: seq<Arg>, t1: Try, t2: Try, t3: Try): Executed {
    var (w1, c) := Obtain(w, t1.dialed);
    if c.None? then (Some(w1), None)
    else
      var (w2, a) := AskOn(w1, c.value, args, t1.net);
      AfterFirstTry(w2, c.value, a, args, t2, t3)
  }

  /** What ExecuteCommand does once the first attempt has come to its end. */
  function AfterFirstTry(w: World, c: int, a: Asked, args: seq<Arg>, t2: Try, t3: Try): Executed {
    match a
    case LostAtSend => SecondTry(w, args, t2, t3)
    case LostAtRecv => LastTry(w, args, t2)
    case _ => Concluded(w, c, a)
  }

  // ----- Transactions and pipelines -----

  /** Redis.Transaction */
  function OpenTx(w: World, t: Try): Option<World> {
    var (w1, c) := Obtain(w, t.dialed);
    if c.None? then Some(w1)
    else
      var (w2, a) := AskOn(w1, c.value, [StringArg(MULTI)], t.net);
      if a.Answered? then Some(w2.(txs := w2.txs[c.value := false])) else Concluded(w2, c.value, a).0
  }

  /** Transaction.Exec or Discard; the transaction has ended when it returns. */
  function EndTx(w: World, c: int, commit: bool, net: Net): World {
    var (w1, a) := AskOn(w, c, [StringArg(if commit then EXEC else DISCARD)], net);
    w1.(txs := w1.txs[c := !a.Waits?])
  }

  function CloseTx(w: World, c: int): Option<World> {
    GiveBack(w.(txs := w.txs - {c}), c)
  }

  /** Redis.Pipelining */
  function OpenPipe(w: World, dialed: Option<int>): World {
    var (w1, c) := Obtain(w, dialed);
    if c.None? then w1 else w1.(pipes := w1.pipes[c.value := 0])
  }

  function PipeCommand(w: World, c: int, args: seq<Arg>, net: Net): World
    requires c in w.pipes
  {
    var (l, sent) := Send(LinkOf(w, c), args, net);
    SetLink(w, c, l).(pipes := w.pipes[c := w.pipes[c] + if sent == Done then 1 else 0])
  }

  function PipeReceive(w: World, c: int, read: Delivery): World
    requires c in w.pipes
  {
    var (l, r) := Receive(LinkOf(w, c), read);
    SetLink(w, c, l).(pipes := w.pipes[c := w.pipes[c] - if r.Got? then 1 else 0])
  }

  function ClosePipe(w: World, c: int): Option<World> {
    GiveBack(w.(pipes := w.pipes - {c}), c)
  }

  // ----- The invariant -----

  predicate Borrowed(w: World, c: int) { c in w.txs || c in w.pipes }

  predicate Idle(w: World, c: int) { c in w.pool.idle }

  /**
  Idle connections are distinct, not borrowed, no more than the limit, and clean. The server is in step on the borrowed
  ones too; a transaction has no unread reply, and is clean once it has ended; a pipeline counts at least its unread
  replies and is outside MULTI.
  */
  ghost predicate WorldOk(w: World) {
    && PoolOk(w.pool)
    && (forall c {:trigger Idle(w, c)} :: Idle(w, c) ==> !Borrowed(w, c) && c in w.links && Clean(w.links[c]))
    && (forall c {:trigger Borrowed(w, c)} :: Borrowed(w, c) ==> c in w.links)
    && (forall c :: c in w.txs ==> 
          && c !in w.pipes && c in w.links && w.links[c].pending == [] && w.links[c].inStep
          && (w.txs[c] ==> Clean(w.links[c])))
    && (forall c :: c in w.pipes ==> 
          && c in w.links && !w.links[c].inMulti && w.links[c].inStep && |w.links[c].pending| <= w.pipes[c])
  }

  /** A world in which connection `c` is borrowed by the operation that is under way. */
  ghost predicate Holding(w: World, c: int) {
    WorldOk(w) && c in w.links && !Idle(w, c) && !Borrowed(w, c)
  }

  lemma ObtainMeans(w: World, dialed: Option<int>)
    requires WorldOk(w) && (dialed.Some? ==> dialed.value !in w.links)
    ensures var (t, c) := Obtain(w, dialed);
      && WorldOk(t) && t.txs == w.txs && t.pipes == w.pipes
      && (c.Some? ==> Holding(t, c.value) && Clean(t.links[c.value]))
      && t.links.Keys == w.links.Keys + (if c.Some? then {c.value} else {})
      && (c.Some? && c.value !in w.links ==> c == dialed)
  {
    match PoolGet(w.pool).1
    case Closed =>
    case Reused(_) => ReusedMeans(w, dialed);
    case MustDial => if dialed.Some? { DialedMeans(w, dialed.value); }
  }

  lemma ReusedMeans(w: World, dialed: Option<int>)
    requires WorldOk(w) && PoolGet(w.pool).1.Reused?
    ensures var (t, c) := Obtain(w, dialed);
      c.Some? && c.value in w.links && Holding(t, c.value) && Clean(t.links[c.value])
  {
    PoolGetMeans(w.pool);
    var (t, c) := Obtain(w, dialed);
    assert Idle(w, c.value);
    forall x | Idle(t, x) ensures !Borrowed(t, x) && x in t.links && Clean(t.links[x]) { assert Idle(w, x); }
    forall x | Borrowed(t, x) ensures x in t.links { assert Borrowed(w, x); }
  }

  lemma DialedMeans(w: World, c: int)
    requires WorldOk(w) && c !in w.links
    ensures Holding(w.(links := w.links[c := NEW_LINK]), c)
  {
    var t := w.(links := w.links[c := NEW_LINK]);
    var idle, borrowed := Idle(w, c), Borrowed(w, c);
    forall x | Idle(t, x) ensures !Borrowed(t, x) && x in t.links && Clean(t.links[x]) { assert Idle(w, x); }
    forall x | Borrowed(t, x) ensures x in t.links { assert Borrowed(w, x); }
  }

  /** Whatever becomes of the link of a held connection, the rest of the world is as it should be. */
  lemma HoldingKeeps(w: World, c: int, l: Link)
    requires Holding(w, c)
    ensures Holding(SetLink(w, c, l), c)
  {
    var t := SetLink(w, c, l);
    forall x | Idle(t, x) ensures !Borrowed(t, x) && x in t.links && Clean(t.links[x]) { assert Idle(w, x); }
    forall x | Borrowed(t, x) ensures x in t.links && x != c { assert Borrowed(w, x); }
  }

  lemma GiveBackMeans(w: World, c: int)
    requires Holding(w, c) && Clean(w.links[c])
    ensures var t := GiveBack(w, c);
      t.Some? && WorldOk(t.value) && t.value.txs == w.txs && t.value.pipes == w.pipes && t.value.links == w.links
  {
    var idle := Idle(w, c);
    PoolPutMeans(w.pool, c);
    var t := GiveBack(w, c).value;
    forall x | Idle(t, x) ensures !Borrowed(t, x) && x in t.links && Clean(t.links[x]) {
      var idle, borrowed := Idle(w, x), Borrowed(w, x);
    }
    forall x | Borrowed(t, x) ensures x in t.links { assert Borrowed(w, x); }
  }

  /** The reply is the answer to the command, in an attempt in which the network did its part. */
  predicate OwnReply(r: Reply, t: Try) { t.net.write == Fine && t.net.read == Fine && r == t.net.answer }

  /** What a command that is not MULTI leaves of a clean link that is held. */
  lemma AskHeld(w: World, c: int, args: seq<Arg>, net: Net)
    requires Holding(w, c) && Clean(w.links[c]) && !Named(args, MULTI) && Harmless(args)
    ensures var (t, a) := AskOn(w, c, args, net);
      && Holding(t, c) && Clean(t.links[c]) && t.links.Keys == w.links.Keys && t.txs == w.txs && t.pipes == w.pipes
      && !a.Waits?
      && (a.Answered? ==> net.write == Fine && net.read == Fine && a.reply == net.answer)
      && (AllSmall(args) && net.write == Fine && net.read == Fine ==> a.Answered?)
  {
    AskOwnReply(w.links[c], args, net);
    HoldingKeeps(w, c, Ask(w.links[c], args, net).0);
  }

  lemma LastTryMeans(w: World, args: seq<Arg>, t: Try)
    requires WorldOk(w) && !Named(args, MULTI) && Harmless(args) && (t.dialed.Some? ==> t.dialed.value !in w.links)
    ensures var (v, r) := LastTry(w, args, t);
      && v.Some? && WorldOk(v.value) && v.value.txs == w.txs && v.value.pipes == w.pipes
      && (r.Some? ==> OwnReply(r.value, t))
  {
    ObtainMeans(w, t.dialed);
    var (w1, c) := Obtain(w, t.dialed);
    if c.Some? {
      AskHeld(w1, c.value, args, t.net);
      GiveBackMeans(AskOn(w1, c.value, args, t.net).0, c.value);
    }
  }

  /** A dial makes a new connection each time. */
  ghost predicate FreshDials(w: World, tries: seq<Try>) {
    && (forall i :: 0 <= i < |tries| && tries[i].dialed.Some? ==> tries[i].dialed.value !in w.links)
    && (forall i, j :: 0 <= i < j < |tries| && tries[i].dialed.Some? ==> tries[i].dialed != tries[j].dialed)
  }

  /** After one attempt, in which the first dial may have made connection `c`, the other dials are still fresh. */
  lemma DialsStayFresh(w: World, v: World, c: int, t1: Try, others: seq<Try>)
    requires FreshDials(w, [t1] + others) && v.links.Keys == w.links.Keys + {c} && (c !in w.links ==> t1.dialed == Some(c))
    ensures FreshDials(v, others)
  {
    var all := [t1] + others;
    forall i | 0 <= i < |others| && others[i].dialed.Some? ensures others[i].dialed.value !in v.links {
      assert others[i] == all[i + 1] && all[0] == t1;
    }
    forall i, j | 0 <= i < j < |others| && others[i].dialed.Some? ensures others[i].dialed != others[j].dialed {
      assert others[i] == all[i + 1] && others[j] == all[j + 1];
    }
  }

  lemma FirstDialFresh(w: World, t1: Try, others: seq<Try>)
    requires FreshDials(w, [t1] + others)
    ensures t1.dialed.Some? ==> t1.dialed.value !in w.links
  {
    assert ([t1] + others)[0] == t1;
  }

  lemma SecondTryMeans(w: World, args: seq<Arg>, t2: Try, t3: Try)
    requires WorldOk(w) && !Named(args, MULTI) && Harmless(args) && FreshDials(w, [t2, t3])
    ensures var (v, r) := SecondTry(w, args, t2, t3);
      && v.Some? && WorldOk(v.value) && v.value.txs == w.txs && v.value.pipes == w.pipes
      && (r.Some? ==> OwnReply(r.value, t2) || OwnReply(r.value, t3))
  {
    assert [t2, t3] == [t2] + [t3];
    FirstDialFresh(w, t2, [t3]);
    ObtainMeans(w, t2.dialed);
    var (w1, c) := Obtain(w, t2.dialed);
    if c.Some? {
      AskHeld(w1, c.value, args, t2.net);
      var (w2, a) := AskOn(w1, c.value, args, t2.net);
      DialsStayFresh(w, w2, c.value, t2, [t3]);
      FirstDialFresh(w2, t3, []);
      if a.LostAtRecv? { LastTryMeans(w2, args, t3); } else { GiveBackMeans(w2, c.value); }
    }
  }

  lemma OtherTries(w: World, c: int, a: Asked, args: seq<Arg>, t2: Try, t3: Try)
    requires Holding(w, c) && Clean(w.links[c]) && !a.Waits? && !Named(args, MULTI) && Harmless(args) && FreshDials(w, [t2, t3])
    ensures var (v, r) := AfterFirstTry(w, c, a, args, t2, t3);
      && v.Some? && WorldOk(v.value) && v.value.txs == w.txs && v.value.pipes == w.pipes
      && (a.Answered? ==> r == Some(a.reply))
      && (r.Some? ==> (a.Answered? && r == Some(a.reply)) || OwnReply(r.value, t2) || OwnReply(r.value, t3))
  {
    if a.LostAtSend? {
      SecondTryMeans(w, args, t2, t3);
    } else if a.LostAtRecv? {
      assert [t2, t3] == [t2] + [t3];
      FirstDialFresh(w, t2, [t3]);
      LastTryMeans(w, args, t2);
    } else {
      GiveBackMeans(w, c);
    }
  }

  // ----- Attempts after a lost connection -----

  /** The connection that the k-th attempt takes if those before it keep theirs: idle ones from the back, then a new one. */
  function TakenAt(w: World, k: nat, dialed: Option<int>): Option<int>
    requires k >= 1
  {
    if k <= |w.pool.idle| then Some(w.pool.idle[|w.pool.idle| - k]) else dialed
  }

  /** A command with a name, known types and small numbers, that is not MULTI. */
  ghost predicate Ordinary(args: seq<Arg>) { args != [] && AllTyped(args) && AllSmall(args) && !Named(args, MULTI) }

  /** One attempt: which connection it takes, what is left in the pool, and how it ends. */
  lemma AttemptMeans(w: World, args: seq<Arg>, t: Try)
    requires WorldOk(w) && !w.pool.closed && Ordinary(args) && (t.dialed.Some? ==> t.dialed.value !in w.links)
    ensures var (w1, c) := Obtain(w, t.dialed); var idle := w.pool.idle;
      && c == TakenAt(w, 1, t.dialed) && WorldOk(w1) && !w1.pool.closed
      && w1.pool.idle == (if idle == [] then [] else idle[..|idle| - 1])
      && (c.Some? ==>
            var (w2, a) := AskOn(w1, c.value, args, t.net);
            && w2.pool == w1.pool && Holding(w2, c.value) && Clean(w2.links[c.value])
            && w2.links.Keys == w.links.Keys + {c.value}
            && a == (if Works(t.net) then Answered(t.net.answer) else if LostAtWrite(t.net) then LostAtSend
                     else if LostAtRead(t.net) then LostAtRecv else Failed))
  {
    ObtainMeans(w, t.dialed);
    var (w1, c) := Obtain(w, t.dialed);
    if c.Some? {
      AskHeld(w1, c.value, args, t.net);
      AskOwnReply(w1.links[c.value], args, t.net);
      AskLostIff(w1.links[c.value], args, t.net);
    }
  }

  /** What the last attempt returns, and what may be in the pool after it. */
  lemma LastTryDecides(w: World, args: seq<Arg>, t: Try)
    requires WorldOk(w) && !w.pool.closed && Ordinary(args) && (t.dialed.Some? ==> t.dialed.value !in w.links)
    ensures var (v, r) := LastTry(w, args, t); var c := TakenAt(w, 1, t.dialed);
      && r == (if c.Some? && Works(t.net) then Some(t.net.answer) else None)
      && v.Some? && forall x :: x in v.value.pool.idle ==> x in w.pool.idle || c == Some(x)
  {
    AttemptMeans(w, args, t);
    var (w1, c) := Obtain(w, t.dialed);
    if c.Some? {
      var (w2, a) := AskOn(w1, c.value, args, t.net);
      Returned(w2, c.value);
    }
  }

  lemma Returned(w: World, c: int)
    requires Holding(w, c)
    ensures var v := GiveBack(w, c); v.Some? && forall x :: x in v.value.pool.idle ==> x in w.pool.idle || x == c
  {
    var idle := Idle(w, c);
    PoolPutMeans(w.pool, c);
  }

  /** The dials of the attempts that follow are fresh, and take other connections than this one. */
  lemma NextAttempt(w: World, w2: World, c: int, t: Try, others: seq<Try>)
    requires WorldOk(w) && FreshDials(w, [t] + others) && TakenAt(w, 1, t.dialed) == Some(c)
    requires w2.pool.idle == (if w.pool.idle == [] then [] else w.pool.idle[..|w.pool.idle| - 1])
    requires w2.links.Keys == w.links.Keys + {c}
    ensures FreshDials(w2, others) && c !in w2.pool.idle
    ensures forall k: nat, d :: k >= 1 ==> TakenAt(w2, k, d) == TakenAt(w, k + 1, d)
    ensures forall i, k: nat :: 0 <= i < |others| && k >= 1 ==> TakenAt(w2, k, others[i].dialed) != Some(c)
  {
    var idle := w.pool.idle;
    forall x | x in idle ensures x in w.links { assert Idle(w, x); }
    if idle != [] { assert c == idle[|idle| - 1]; }
    DialsStayFresh(w, w2, c, t, others);
    forall i, k: nat | 0 <= i < |others| && k >= 1 ensures TakenAt(w2, k, others[i].dialed) != Some(c) {
      assert others[i].dialed.Some? ==> others[i].dialed.value !in w2.links;
    }
  }

  /** The second attempt, when the first connection was lost during the write. */
  lemma SecondTryDecides(w: World, args: seq<Arg>, t2: Try, t3: Try)
    requires WorldOk(w) && !w.pool.closed && Ordinary(args) && FreshDials(w, [t2, t3])
    ensures var (v, r) := SecondTry(w, args, t2, t3);
      var c2, c3 := TakenAt(w, 1, t2.dialed), TakenAt(w, 2, t3.dialed);
      && r == (if c2.Some? && Works(t2.net) then Some(t2.net.answer)
               else if c2.Some? && c3.Some? && LostAtRead(t2.net) && Works(t3.net) then Some(t3.net.answer) else None)
      && v.Some? && (forall x :: x in v.value.pool.idle ==> x in w.pool.idle || c2 == Some(x) || c3 == Some(x))
      && (c2.Some? && LostAtRead(t2.net) ==> c2.value !in v.value.pool.idle)
  {
    assert [t2, t3] == [t2] + [t3];
    FirstDialFresh(w, t2, [t3]);
    AttemptMeans(w, args, t2);
    var (w1, c) := Obtain(w, t2.dialed);
    if c.Some? {
      var (w2, a) := AskOn(w1, c.value, args, t2.net);
      NextAttempt(w, w2, c.value, t2, [t3]);
      if a.LostAtRecv? {
        FirstDialFresh(w2, t3, []);
        assert [t3][0] == t3;
        LastTryDecides(w2, args, t3);
      } else {
        Returned(w2, c.value);
      }
    }
  }

  /**
  Which attempt answers. The first one that works: the second is made when the first connection is lost, during the write
  or the read, and the third when the first is lost during the write and the second during the read. Otherwise there is
  no answer. A connection that was lost, and that another attempt was to replace, is not in the pool afterwards.
  */
  predicate Retried(w: World, t1: Try, t2: Try, t3: Try, v: World, r: Option<Reply>) {
    var c1, c2, c3 := TakenAt(w, 1, t1.dialed), TakenAt(w, 2, t2.dialed), TakenAt(w, 3, t3.dialed);
    var second := c1.Some? && c2.Some? && (LostAtWrite(t1.net) || LostAtRead(t1.net));
    var third := second && c3.Some? && LostAtWrite(t1.net) && LostAtRead(t2.net);
    && (c1.Some? && Works(t1.net) ==> r == Some(t1.net.answer))
    && (second && Works(t2.net) ==> r == Some(t2.net.answer))
    && (third && Works(t3.net) ==> r == Some(t3.net.answer))
    && (r.Some? ==> (c1.Some? && Works(t1.net)) || (second && Works(t2.net)) || (third && Works(t3.net)))
    && (c1.Some? && (LostAtWrite(t1.net) || LostAtRead(t1.net)) ==> c1.value !in v.pool.idle)
    && (second && LostAtWrite(t1.net) && LostAtRead(t2.net) ==> c2.value !in v.pool.idle)
  }

  lemma ExecuteRetries(w: World, args: seq<Arg>, t1: Try, t2: Try, t3: Try)
    requires WorldOk(w) && !w.pool.closed && Ordinary(args) && FreshDials(w, [t1, t2, t3])
    ensures var (v, r) := Execute(w, args, t1, t2, t3); v.Some? && Retried(w, t1, t2, t3, v.value, r)
  {
    assert [t1, t2, t3] == [t1] + [t2, t3];
    FirstDialFresh(w, t1, [t2, t3]);
    AttemptMeans(w, args, t1);
    var (w1, c) := Obtain(w, t1.dialed);
    if c.Some? {
      var (w2, a) := AskOn(w1, c.value, args, t1.net);
      NextAttempt(w, w2, c.value, t1, [t2, t3]);
      assert [t2, t3][0] == t2 && [t2, t3][1] == t3;
      RetriesAfter(w2, c.value, a, args, t2, t3);
    }
  }

  lemma RetriesAfter(w: World, c: int, a: Asked, args: seq<Arg>, t2: Try, t3: Try)
    requires Holding(w, c) && !w.pool.closed && Ordinary(args) && FreshDials(w, [t2, t3]) && !a.Waits?
    requires TakenAt(w, 1, t2.dialed) != Some(c) && TakenAt(w, 2, t3.dialed) != Some(c)
    ensures var (v, r) := AfterFirstTry(w, c, a, args, t2, t3);
      var c2, c3 := TakenAt(w, 1, t2.dialed), TakenAt(w, 2, t3.dialed);
      && r == (if a.Answered? then Some(a.reply)
               else if (a.LostAtSend? || a.LostAtRecv?) && c2.Some? && Works(t2.net) then Some(t2.net.answer)
               else if a.LostAtSend? && c2.Some? && c3.Some? && LostAtRead(t2.net) && Works(t3.net) then Some(t3.net.answer)
               else None)
      && v.Some? && (a.LostAtSend? || a.LostAtRecv? ==> c !in v.value.pool.idle)
      && (a.LostAtSend? && c2.Some? && LostAtRead(t2.net) ==> c2.value !in v.value.pool.idle)
  {
    var idle := Idle(w, c);
    if a.LostAtSend? {
      SecondTryDecides(w, args, t2, t3);
    } else if a.LostAtRecv? {
      assert [t2, t3] == [t2] + [t3];
      FirstDialFresh(w, t2, [t3]);
      LastTryDecides(w, args, t2);
    } else {
      Returned(w, c);
    }
  }

  /**
  In a world that is as it should be, and whatever the network does, ExecuteCommand returns the reply to its own
  command, or an error, and leaves the world as it should be. On an open pool it tries again as Retried says.
  */
  lemma ExecuteOwnReply(w: World, args: seq<Arg>, t1: Try, t2: Try, t3: Try)
    requires WorldOk(w) && !Named(args, MULTI) && Harmless(args) && FreshDials(w, [t1, t2, t3])
    ensures var (v, r) := Execute(w, args, t1, t2, t3);
      && v.Some? && WorldOk(v.value) && v.value.txs == w.txs && v.value.pipes == w.pipes
      && (r.Some? ==> OwnReply(r.value, t1) || OwnReply(r.value, t2) || OwnReply(r.value, t3))
      && (!w.pool.closed && AllSmall(args) ==> Retried(w, t1, t2, t3, v.value, r))
  {
    if !w.pool.closed && AllSmall(args) { ExecuteRetries(w, args, t1, t2, t3); }
    assert [t1, t2, t3] == [t1] + [t2, t3];
    FirstDialFresh(w, t1, [t2, t3]);
    ObtainMeans(w, t1.dialed);
    var (w1, c) := Obtain(w, t1.dialed);
    if c.Some? {
      AskHeld(w1, c.value, args, t1.net);
      var (w2, a) := AskOn(w1, c.value, args, t1.net);
      DialsStayFresh(w, w2, c.value, t1, [t2, t3]);
      OtherTries(w2, c.value, a, args, t2, t3);
    }
  }

  // ----- A command whose announced lengths are wrong -----

  /** The first attempt has a connection, and the network lets it write and read; a reply of some kind comes back. */
  predicate FirstTryWorks(w: World, args: seq<Arg>, t1: Try) {
    Obtain(w, t1.dialed).1.Some? && Ask(LinkOf(Obtain(w, t1.dialed).0, Obtain(w, t1.dialed).1.value), args, t1.net).1.Answered?
  }

  lemma FirstTryDecides(w: World, args: seq<Arg>, t1: Try, t2: Try, t3: Try)
    requires FirstTryWorks(w, args, t1)
    ensures var (w1, c) := Obtain(w, t1.dialed); var (l, a) := Ask(LinkOf(w1, c.value), args, t1.net);
      Execute(w, args, t1, t2, t3) == (GiveBack(SetLink(w1, c.value, l), c.value), Some(a.reply))
  {
  }

  /** The connection that is in hand after the first attempt. */
  lemma FirstHeld(w: World, args: seq<Arg>, t1: Try) returns (v: World, c: int)
    requires WorldOk(w) && FreshDials(w, [t1]) && FirstTryWorks(w, args, t1)
    ensures var (w1, d) := Obtain(w, t1.dialed); d == Some(c) && v == SetLink(w1, c, Ask(LinkOf(w1, c), args, t1.net).0)
    ensures Holding(v, c) && Clean(LinkOf(Obtain(w, t1.dialed).0, c)) && v.pool.closed == w.pool.closed
  {
    assert [t1][0] == t1;
    ObtainMeans(w, t1.dialed);
    var (w1, d) := Obtain(w, t1.dialed);
    c := d.value;
    HoldingKeeps(w1, c, Ask(LinkOf(w1, c), args, t1.net).0);
    v := SetLink(w1, c, Ask(LinkOf(w1, c), args, t1.net).0);
  }

  /**
  On an open pool, a command that is answered at the first attempt leaves the pool as it should be exactly when it has a
  name, its numbers are below 10^18, and it did not open MULTI.
  */
  lemma ExecuteKeepsPoolIff(w: World, args: seq<Arg>, t1: Try, t2: Try, t3: Try)
    requires WorldOk(w) && !w.pool.closed && FreshDials(w, [t1]) && AllTyped(args) && FirstTryWorks(w, args, t1)
    ensures var v := Execute(w, args, t1, t2, t3).0;
      v.Some? && (WorldOk(v.value) <==> args != [] && AllSmall(args) && !(Named(args, MULTI) && !t1.net.answer.ErrorReply?))
  {
    var u, c := FirstHeld(w, args, t1);
    FirstTryDecides(w, args, t1, t2, t3);
    AskCleanIff(LinkOf(Obtain(w, t1.dialed).0, c), args, t1.net);
    if Clean(u.links[c]) { GiveBackMeans(u, c); } else { Poisoned(u, c); }
  }

  /** A connection that is not fit for reuse is the next to be handed out. */
  lemma Poisoned(w: World, c: int)
    requires Holding(w, c) && !Clean(w.links[c]) && !w.pool.closed
    ensures var v := GiveBack(w, c);
      && v.Some? && !WorldOk(v.value) && v.value.links == w.links
      && forall d :: Obtain(v.value, d).1 == Some(c) && Obtain(v.value, d).0.links == w.links
  {
    var idle := Idle(w, c);
    PoolPutMeans(w.pool, c);
    assert Idle(GiveBack(w, c).value, c);
  }

  /** One of two replies is read, and the other stays. */
  lemma TwoReplies(l: Link, args: seq<Arg>, net: Net, first: Reply, second: Reply)
    requires Clean(l) && AllTyped(args) && !AllSmall(args) && Ask(l, args, net).1.Answered? && net.garbage == [first, second]
    ensures var (t, a) := Ask(l, args, net); a == Answered(first) && t.pending == [second] && !Clean(t)
  {
    UnderstoodIff(args);
    assert (l.pending + [first, second])[1..] == [second];
  }

  /** The world after a command that the server answers twice. */
  lemma AnsweredTwice(w: World, args: seq<Arg>, t1: Try, t: Try, first: Reply, second: Reply) returns (v: World, c: int)
    requires WorldOk(w) && !w.pool.closed && FreshDials(w, [t1]) && AllTyped(args) && FirstTryWorks(w, args, t1)
    requires !AllSmall(args) && t1.net.garbage == [first, second]
    ensures Execute(w, args, t1, t, t) == (Some(v), Some(first)) && !WorldOk(v)
    ensures LinkOf(v, c).pending == [second] && forall d :: Obtain(v, d).1 == Some(c) && Obtain(v, d).0.links == v.links
  {
    var u;
    u, c := FirstHeld(w, args, t1);
    TwoReplies(LinkOf(Obtain(w, t1.dialed).0, c), args, t1.net, first, second);
    FirstTryDecides(w, args, t1, t, t);
    Poisoned(u, c);
    v := GiveBack(u, c).value;
  }

  /**
  What goes wrong then: the server answers the bytes of such a command twice (Commands.LargestNumberSplits), the second
  reply stays on an idle connection, and the next command, harmless as it may be, is answered with it.
  */
  lemma OversizedPoisonsPool(w: World, args: seq<Arg>, next: seq<Arg>, t1: Try, t: Try, first: Reply, second: Reply)
    requires WorldOk(w) && !w.pool.closed && FreshDials(w, [t1]) && AllTyped(args) && FirstTryWorks(w, args, t1)
    requires !AllSmall(args) && t1.net.garbage == [first, second]
    requires PackCommand(next, TURNS).Some? && t.net.write == Fine && t.net.read == Fine
    ensures exists v ::
      && Execute(w, args, t1, t, t) == (Some(v), Some(first)) && !WorldOk(v)
      && Execute(v, next, t, t, t).1 == Some(second)
  {
    var v, c := AnsweredTwice(w, args, t1, t, first, second);
    StaleAnswer(LinkOf(Obtain(v, t.dialed).0, c), next, t.net);
    FirstTryDecides(v, next, t, t, t);
  }

  lemma StaleAnswer(l: Link, args: seq<Arg>, net: Net)
    requires |l.pending| > 0 && PackCommand(args, TURNS).Some? && net.write == Fine && net.read == Fine
    ensures Ask(l, args, net).1 == Answered(l.pending[0])
  {
  }

  // ----- Runs -----

  datatype ClientOp =
    | ExecuteOp(args: seq<Arg>, t1: Try, t2: Try, t3: Try)
    | OpenTxOp(t1: Try)
    | TxCommandOp(c: int, args: seq<Arg>, net: Net)
    | EndTxOp(c: int, commit: bool, net: Net)
    | CloseTxOp(c: int)
    | OpenPipeOp(dialed: Option<int>)
    | PipeCommandOp(c: int, args: seq<Arg>, net: Net)
    | PipeReceiveOp(c: int, read: Delivery)
    | ClosePipeOp(c: int)
    | ClosePoolOp

  /**
  What the callers see to: commands have names and numbers below 10^18; nobody but Transaction sends MULTI; a transaction
  is used until it has ended and closed after that; a pipeline is closed when no reply is outstanding on its connection,
  because it is drained or because the connection was lost; each is closed once. The network may do what it likes.
  */
  ghost predicate MayDo(w: World, op: ClientOp) {
    match op
    case ExecuteOp(args, t1, t2, t3) =>
      !Named(args, MULTI) && Harmless(args) && FreshDials(w, [t1, t2, t3])
    case OpenTxOp(t1) => FreshDials(w, [t1])
    case TxCommandOp(c, args, net) => c in w.txs && !w.txs[c] && Harmless(args)
    case EndTxOp(c, _, net) => c in w.txs && !w.txs[c]
    case CloseTxOp(c) => c in w.txs && w.txs[c]
    case OpenPipeOp(dialed) => dialed.Some? ==> dialed.value !in w.links
    case PipeCommandOp(c, args, net) => c in w.pipes && !Named(args, MULTI) && Harmless(args)
    case PipeReceiveOp(c, read) => c in w.pipes
    case ClosePipeOp(c) => c in w.pipes && LinkOf(w, c).pending == []
    case ClosePoolOp => true
  }

  /** None is a run-time error. */
  ghost function Step(w: World, op: ClientOp): Option<World>
    requires MayDo(w, op)
  {
    match op
    case ExecuteOp(args, t1, t2, t3) => Execute(w, args, t1, t2, t3).0
    case OpenTxOp(t1) => OpenTx(w, t1)
    case TxCommandOp(c, args, net) => Some(AskOn(w, c, args, net).0)
    case EndTxOp(c, commit, net) => Some(EndTx(w, c, commit, net))
    case CloseTxOp(c) => CloseTx(w, c)
    case OpenPipeOp(dialed) => Some(OpenPipe(w, dialed))
    case PipeCommandOp(c, args, net) => Some(PipeCommand(w, c, args, net))
    case PipeReceiveOp(c, read) => Some(PipeReceive(w, c, read))
    case ClosePipeOp(c) => ClosePipe(w, c)
    case ClosePoolOp => Some(w.(pool := w.pool.(closed := true)))
  }

  /** A run of operations from `w` to `v` without a run-time error. */
  ghost predicate Run(w: World, ops: seq<ClientOp>, v: World)
    decreases |ops|
  {
    if ops == [] then w == v
    else MayDo(w, ops[0]) && Step(w, ops[0]).Some? && Run(Step(w, ops[0]).value, ops[1..], v)
  }

  /** Changing what a borrowed connection holds, within its bounds. */
  lemma BorrowedKeeps(w: World, v: World, c: int)
    requires WorldOk(w) && Borrowed(w, c) && v.pool == w.pool && v.links.Keys == w.links.Keys
    requires v.txs.Keys == w.txs.Keys && v.pipes.Keys == w.pipes.Keys
    requires forall x :: x in w.links && x != c ==> v.links[x] == w.links[x]
    requires forall x :: x in w.txs && x != c ==> v.txs[x] == w.txs[x]
    requires forall x :: x in w.pipes && x != c ==> v.pipes[x] == w.pipes[x]
    requires v.links[c].inStep
    requires c in w.txs ==> v.links[c].pending == [] && (v.txs[c] ==> Clean(v.links[c]))
    requires c in w.pipes ==> !v.links[c].inMulti && |v.links[c].pending| <= v.pipes[c]
    ensures WorldOk(v)
  {
    forall x | Idle(v, x) ensures !Borrowed(v, x) && x in v.links && Clean(v.links[x]) {
      assert Idle(w, x) && !Borrowed(w, x);
    }
    forall x | Borrowed(v, x) ensures x in v.links { assert Borrowed(w, x); }
  }

  lemma TxSteps(w: World, c: int, args: seq<Arg>, net: Net)
    requires WorldOk(w) && c in w.txs && !w.txs[c] && Harmless(args)
    ensures WorldOk(AskOn(w, c, args, net).0)
  {
    assert Borrowed(w, c);
    AskOwnReply(w.links[c], args, net);
    BorrowedKeeps(w, AskOn(w, c, args, net).0, c);
  }

  lemma TxEnds(w: World, c: int, commit: bool, net: Net)
    requires WorldOk(w) && c in w.txs && !w.txs[c]
    ensures WorldOk(EndTx(w, c, commit, net))
  {
    assert Borrowed(w, c);
    NamesKnown();
    AskOwnReply(w.links[c], [StringArg(if commit then EXEC else DISCARD)], net);
    BorrowedKeeps(w, EndTx(w, c, commit, net), c);
  }

  /** A connection that stops being borrowed is held. */
  lemma Released(w: World, v: World, c: int)
    requires WorldOk(w) && Borrowed(w, c) && v.pool == w.pool && v.links == w.links
    requires v.txs == w.txs - {c} && v.pipes == w.pipes - {c}
    ensures Holding(v, c)
  {
    forall x | Idle(v, x) ensures !Borrowed(v, x) && x in v.links && Clean(v.links[x]) && x != c {
      assert Idle(w, x) && !Borrowed(w, x);
    }
    forall x | Borrowed(v, x) ensures x in v.links { assert Borrowed(w, x); }
  }

  /** A held connection that starts to be borrowed. */
  lemma Taken(w: World, v: World, c: int)
    requires Holding(w, c) && v.pool == w.pool && v.links == w.links
    requires w.links[c].pending == [] && w.links[c].inStep
    requires || (v.txs == w.txs[c := false] && v.pipes == w.pipes)
             || (v.txs == w.txs && v.pipes == w.pipes[c := 0] && !w.links[c].inMulti)
    ensures WorldOk(v)
  {
    forall x | Idle(v, x) ensures !Borrowed(v, x) && x in v.links && Clean(v.links[x]) {
      assert Idle(w, x) && !Borrowed(w, x) && x != c;
    }
    forall x | Borrowed(v, x) ensures x in v.links { assert x != c ==> Borrowed(w, x); }
  }

  lemma OpenTxKeeps(w: World, t: Try)
    requires WorldOk(w) && FreshDials(w, [t])
    ensures OpenTx(w, t).Some? && WorldOk(OpenTx(w, t).value)
  {
    assert [t][0] == t;
    ObtainMeans(w, t.dialed);
    var (w1, c) := Obtain(w, t.dialed);
    if c.Some? {
      AskMulti(w1, c.value, t.net);
      var (w2, a) := AskOn(w1, c.value, [StringArg(MULTI)], t.net);
      if a.Answered? {
        Taken(w2, w2.(txs := w2.txs[c.value := false]), c.value);
      } else {
        GiveBackMeans(w2, c.value);
      }
    }
  }

  /** MULTI on a clean connection that is held. */
  lemma AskMulti(w: World, c: int, net: Net)
    requires Holding(w, c) && Clean(w.links[c])
    ensures var (t, a) := AskOn(w, c, [StringArg(MULTI)], net);
      && Holding(t, c) && t.links[c].pending == [] && t.links[c].inStep && !a.Waits? && (!a.Answered? ==> Clean(t.links[c]))
  {
    NamesKnown();
    AskOwnReply(w.links[c], [StringArg(MULTI)], net);
    HoldingKeeps(w, c, Ask(w.links[c], [StringArg(MULTI)], net).0);
  }

  lemma PipeSends(w: World, c: int, args: seq<Arg>, net: Net)
    requires WorldOk(w) && c in w.pipes && !Named(args, MULTI) && Harmless(args)
    ensures WorldOk(PipeCommand(w, c, args, net))
  {
    assert Borrowed(w, c);
    HarmlessUnderstood(args);
    BorrowedKeeps(w, PipeCommand(w, c, args, net), c);
  }

  lemma PipeReceives(w: World, c: int, read: Delivery)
    requires WorldOk(w) && c in w.pipes
    ensures WorldOk(PipeReceive(w, c, read))
  {
    assert Borrowed(w, c);
    BorrowedKeeps(w, PipeReceive(w, c, read), c);
  }

  lemma CloseTxKeeps(w: World, c: int)
    requires WorldOk(w) && c in w.txs && w.txs[c]
    ensures CloseTx(w, c).Some? && WorldOk(CloseTx(w, c).value)
  {
    assert Borrowed(w, c) && w.pipes - {c} == w.pipes;
    Released(w, w.(txs := w.txs - {c}), c);
    GiveBackMeans(w.(txs := w.txs - {c}), c);
  }

  lemma OpenPipeKeeps(w: World, dialed: Option<int>)
    requires WorldOk(w) && (dialed.Some? ==> dialed.value !in w.links)
    ensures WorldOk(OpenPipe(w, dialed))
  {
    ObtainMeans(w, dialed);
    var (w1, c) := Obtain(w, dialed);
    if c.Some? { Taken(w1, w1.(pipes := w1.pipes[c.value := 0]), c.value); }
  }

  lemma ClosePipeKeeps(w: World, c: int)
    requires WorldOk(w) && c in w.pipes && LinkOf(w, c).pending == []
    ensures ClosePipe(w, c).Some? && WorldOk(ClosePipe(w, c).value)
  {
    assert Borrowed(w, c);
    assert w.txs - {c} == w.txs by { assert c !in w.txs; }
    Released(w, w.(pipes := w.pipes - {c}), c);
    GiveBackMeans(w.(pipes := w.pipes - {c}), c);
  }

  lemma StepKeeps(w: World, op: ClientOp)
    requires WorldOk(w) && MayDo(w, op)
    ensures Step(w, op).Some? && WorldOk(Step(w, op).value)
  {
    match op
    case ExecuteOp(args, t1, t2, t3) => ExecuteOwnReply(w, args, t1, t2, t3);
    case OpenTxOp(t1) => OpenTxKeeps(w, t1);
    case TxCommandOp(c, args, net) => TxSteps(w, c, args, net);
    case EndTxOp(c, commit, net) => TxEnds(w, c, commit, net);
    case CloseTxOp(c) => CloseTxKeeps(w, c);
    case OpenPipeOp(dialed) => OpenPipeKeeps(w, dialed);
    case PipeCommandOp(c, args, net) => PipeSends(w, c, args, net);
    case PipeReceiveOp(c, read) => PipeReceives(w, c, read);
    case ClosePipeOp(c) => ClosePipeKeeps(w, c);
    case ClosePoolOp => ClosingKeeps(w);
  }

  lemma ClosingKeeps(w: World)
    requires WorldOk(w)
    ensures WorldOk(w.(pool := w.pool.(closed := true)))
  {
    var v := w.(pool := w.pool.(closed := true));
    forall x | Idle(v, x) ensures !Borrowed(v, x) && x in v.links && Clean(v.links[x]) {
      assert Idle(w, x) && !Borrowed(w, x);
    }
    forall x | Borrowed(v, x) ensures x in v.links { assert Borrowed(w, x); }
  }

  /**
  Over every run the idle connections are pairwise distinct, disjoint from the borrowed ones, within the limit, without
  an unread reply, outside MULTI and in step with the server.
  */
  lemma {:induction false} RunKeepsPool(w: World, ops: seq<ClientOp>, v: World)
    requires WorldOk(w) && Run(w, ops, v)
    ensures WorldOk(v)
    decreases |ops|
  {
    if ops != [] {
      StepKeeps(w, ops[0]);
      RunKeepsPool(Step(w, ops[0]).value, ops[1..], v);
    }
  }

  /** So a command executed after any run gets its own reply. */
  lemma RunThenExecute(w: World, ops: seq<ClientOp>, v: World, args: seq<Arg>, t1: Try, t2: Try, t3: Try)
    requires WorldOk(w) && Run(w, ops, v) && MayDo(v, ExecuteOp(args, t1, t2, t3))
    requires Obtain(v, t1.dialed).1.Some? && AllSmall(args) && t1.net.write == Fine && t1.net.read == Fine
    ensures Execute(v, args, t1, t2, t3).1 == Some(t1.net.answer)
  {
    RunKeepsPool(w, ops, v);
    ExecuteOwnReply(v, args, t1, t2, t3);
  }

  /** A new client, with the one connection that Dial has put into its pool, is as it should be. */
  lemma NewClientOk(maxIdle: int)
    requires maxIdle >= 1
    ensures WorldOk(World(Pool(maxIdle, [0], false), map[0 := NEW_LINK], map[], map[]))
  {
  }
}
