/**
The parts of the Redis client as values: a link to the server with the replies that are on their way, and the pool of
idle connections. What the network and the server do is a parameter of each step.
*/
module RedisClient {
  import opened Basics
  import opened Decimal
  import opened Replies
  import opened Commands

  // ----- The server's end -----

  function Upper(b: bytes): bytes {
    seq(|b|, k requires 0 <= k < |b| => if 97 <= b[k] <= 122 then b[k] - 32 else b[k])
  }

  const MULTI: bytes := [77, 85, 76, 84, 73]
  const EXEC: bytes := [69, 88, 69, 67]
  const DISCARD: bytes := [68, 73, 83, 67, 65, 82, 68]
  const QUEUED: bytes := [81, 85, 69, 85, 69, 68]

  /** The command has that name; the server does not mind the case of the letters. */
  predicate Named(args: seq<Arg>, name: bytes) {
    args != [] && Upper(ArgText(args[0])) == name
  }

  /** Whether the connection is inside MULTI after the server has answered a command. */
  function ServerNext(inMulti: bool, args: seq<Arg>, answer: Reply): bool {
    if Named(args, MULTI) then inMulti || !answer.ErrorReply?
    else if Named(args, EXEC) || Named(args, DISCARD) then false
    else inMulti
  }

  // ----- What may be sent -----

  /** The server finds this command, and nothing else, in the bytes that are written for it. */
  predicate Understood(args: seq<Arg>) {
    args != [] && PackCommand(args, TURNS).Some? && ReadsAs(PackCommand(args, TURNS).value, args, [])
  }

  /** The command has a name, and each of its arguments is of an unknown type, which is an error, or a small number or text. */
  ghost predicate Harmless(args: seq<Arg>) {
    args != [] && AllTyped(args) && forall k :: 0 <= k < |args| ==> args[k].OtherArg? || Small(args[k])
  }

  /** A command is understood exactly when it has a name, its types are known and its numbers are below 10^18. */
  lemma UnderstoodIff(args: seq<Arg>)
    requires AllTyped(args)
    ensures Understood(args) <==> args != [] && AllSmall(args)
  {
    PackCommandIff(args, TURNS, []);
    if PackCommand(args, TURNS).Some? { assert PackCommand(args, TURNS).value + [] == PackCommand(args, TURNS).value; }
  }

  /** What is written for a harmless command is understood. */
  lemma HarmlessUnderstood(args: seq<Arg>)
    requires Harmless(args)
    ensures PackCommand(args, TURNS).Some? <==> AllSmall(args)
    ensures Understood(args) <==> AllSmall(args)
  {
    UnderstoodIff(args);
    if !AllSmall(args) {
      var i :| 0 <= i < |args| && !Small(args[i]);
      PackAllRejects(args, i);
    }
  }

  // ----- A link: one connection and the server's end of it -----

  /**
  The replies that the server has sent and nobody has read, oldest first, whether MULTI is open, and whether the server
  has found in the bytes exactly the commands that were sent.
  */
  datatype Link = Link(pending: seq<Reply>, inMulti: bool, inStep: bool)

  /** Fit for reuse: no reply is unread, no transaction is open, and the server is in step. */
  predicate Clean(l: Link) { l.pending == [] && !l.inMulti && l.inStep }

  /** A new connection, and also what is left of a lost one: nothing will come from it. */
  const NEW_LINK: Link := Link([], false, true)

  /**
  What becomes of a write or a read. Eof and any other error are the end of the connection: the program sets no
  deadline, so no error lets it live. They differ in what the program does next.
  */
  datatype Delivery = Fine | Eof | Broken

  /**
  What the network and the server do with one command: a command that the server understands is answered once; what it
  makes of other bytes is any list of replies.
  */
  datatype Net = Net(answer: Reply, garbage: seq<Reply>, write: Delivery, read: Delivery)

  predicate Works(net: Net) { net.write == Fine && net.read == Fine }
  predicate LostAtWrite(net: Net) { net.write == Eof }
  predicate LostAtRead(net: Net) { net.write == Fine && net.read == Eof }

  datatype Sent = Done | SendEof | SendError

  /** NothingComes is a read that does not return, because nothing is on its way. */
  datatype Received = Got(reply: Reply) | RecvEof | RecvError | NothingComes

  /** The bytes of the command have reached the server. Once it is out of step, nothing is known of its answers. */
  function Delivered(l: Link, args: seq<Arg>, net: Net): Link {
    if l.inStep && Understood(args) then Link(l.pending + [net.answer], ServerNext(l.inMulti, args, net.answer), true)
    else Link(l.pending + net.garbage, l.inMulti, false)
  }

  /** connection.SendCommand: a bad argument is found before anything is written. */
  function Send(l: Link, args: seq<Arg>, net: Net): (Link, Sent) {
    if PackCommand(args, TURNS).None? then (l, SendError)
    else
      match net.write
      case Fine => (Delivered(l, args, net), Done)
      case Eof => (NEW_LINK, SendEof)
      case Broken => (NEW_LINK, SendError)
  }

  /** connection.RecvReply: the oldest unread reply. */
  function Receive(l: Link, read: Delivery): (Link, Received) {
    match read
    case Fine =>
      if l.pending == [] then (l, NothingComes) else (Link(l.pending[1..], l.inMulti, l.inStep), Got(l.pending[0]))
    case Eof => (NEW_LINK, RecvEof)
    case Broken => (NEW_LINK, RecvError)
  }

  /** Send one command and read one reply. */
  datatype Asked = Answered(reply: Reply) | LostAtSend | LostAtRecv | Failed | Waits

  function Ask(l: Link, args: seq<Arg>, net: Net): (Link, Asked) {
    var (l1, sent) := Send(l, args, net);
    match sent
    case SendEof => (l1, LostAtSend)
    case SendError => (l1, Failed)
    case Done =>
      var (l2, received) := Receive(l1, net.read);
      match received
      case Got(r) => (l2, Answered(r))
      case RecvEof => (l2, LostAtRecv)
      case RecvError => (l2, Failed)
      case NothingComes => (l2, Waits)
  }

  /**
  On a link in step without unread replies, a harmless command is answered with its own answer when the network does
  its part; otherwise nothing was written, or the connection is lost. No read waits for ever.
  */
  lemma AskOwnReply(l: Link, args: seq<Arg>, net: Net)
    requires l.pending == [] && l.inStep && Harmless(args)
    ensures var (t, a) := Ask(l, args, net);
      && (a.Answered? <==> AllSmall(args) && net.write == Fine && net.read == Fine)
      && (a.Answered? ==> a.reply == net.answer && t == Link([], ServerNext(l.inMulti, args, net.answer), true))
      && (!a.Answered? ==> t == if AllSmall(args) then NEW_LINK else l)
      && (a.LostAtSend? || a.LostAtRecv? ==> t == NEW_LINK) && !a.Waits?
  {
    HarmlessUnderstood(args);
    if AllSmall(args) && net.write == Fine {
      var l1 := Link([net.answer], ServerNext(l.inMulti, args, net.answer), true);
      assert l.pending + [net.answer] == [net.answer];
      assert Send(l, args, net) == (l1, Done);
      ReadOne(l1, net.answer, net.read);
    } else {
      assert Send(l, args, net).1 != Done;
    }
  }

  /** Reading the only reply that is pending. */
  lemma ReadOne(l: Link, r: Reply, read: Delivery)
    requires l.pending == [r]
    ensures Receive(l, read) == match read
      case Fine => (Link([], l.inMulti, l.inStep), Got(r))
      case Eof => (NEW_LINK, RecvEof)
      case Broken => (NEW_LINK, RecvError)
  {
    assert [r][1..] == [];
  }

  /** A connection is lost while a command is sent exactly when the write ends it, and afterwards exactly when the read does. */
  lemma AskLostIff(l: Link, args: seq<Arg>, net: Net)
    requires l.pending == [] && l.inStep && Harmless(args) && AllSmall(args)
    ensures var a := Ask(l, args, net).1;
      (a.LostAtSend? <==> LostAtWrite(net)) && (a.LostAtRecv? <==> LostAtRead(net))
  {
    HarmlessUnderstood(args);
    if net.write == Fine {
      var l1 := Delivered(l, args, net);
      assert Send(l, args, net) == (l1, Done) && l1.pending != [];
      ReadEnds(l1, net.read);
    } else {
      assert Send(l, args, net) == (NEW_LINK, if net.write == Eof then SendEof else SendError);
    }
  }

  lemma ReadEnds(l: Link, read: Delivery)
    requires l.pending != []
    ensures var r := Receive(l, read).1; (r.Got? <==> read == Fine) && (r.RecvEof? <==> read == Eof) && !r.NothingComes?
  {
  }

  /**
  When the network does its part, a clean link stays clean exactly when the command has a name, its numbers are below
  10^18, and it does not open MULTI.
  */
  lemma AskCleanIff(l: Link, args: seq<Arg>, net: Net)
    requires Clean(l) && AllTyped(args) && PackCommand(args, TURNS).Some? && net.write == Fine && net.read == Fine
    ensures Clean(Ask(l, args, net).0) <==>
      args != [] && AllSmall(args) && !(Named(args, MULTI) && !net.answer.ErrorReply?)
  {
    UnderstoodIff(args);
    assert (l.pending + [net.answer])[1..] == [];
  }

  // ----- The pool -----

  datatype Pool<T> = Pool(maxIdle: int, idle: seq<T>, closed: bool)

  datatype Gotten<T> = Reused(c: T) | MustDial | Closed

  /** connPool.Get: the connection put back last. */
  function PoolGet<T>(p: Pool<T>): (Pool<T>, Gotten<T>) {
    if p.closed then (p, Closed)
    else if |p.idle| > 0 then (p.(idle := p.idle[..|p.idle| - 1]), Reused(p.idle[|p.idle| - 1]))
    else (p, MustDial)
  }

  /** connPool.Put: a full pool forgets its oldest connection. None is the run-time error of a full pool without one. */
  function PoolPut<T>(p: Pool<T>, c: T): Option<Pool<T>> {
    if p.closed then Some(p)
    else if |p.idle| >= p.maxIdle then if p.idle == [] then None else Some(p.(idle := p.idle[1..] + [c]))
    else Some(p.(idle := p.idle + [c]))
  }

  ghost predicate PoolOk<T>(p: Pool<T>) {
    p.maxIdle >= 1 && |p.idle| <= p.maxIdle && NoDup(p.idle)
  }

  lemma PoolGetMeans<T>(p: Pool<T>)
    requires PoolOk(p)
    ensures var (q, g) := PoolGet(p);
      && PoolOk(q) && (forall x :: x in q.idle ==> x in p.idle)
      && (g.Reused? ==> g.c in p.idle && g.c !in q.idle && p.idle == q.idle + [g.c])
      && (g.MustDial? <==> !p.closed && p.idle == []) && (g.Closed? <==> p.closed)
  {
  }

  lemma PoolPutMeans<T>(p: Pool<T>, c: T)
    requires PoolOk(p) && c !in p.idle
    ensures var q := PoolPut(p, c);
      && q.Some? && PoolOk(q.value) && q.value.maxIdle == p.maxIdle && q.value.closed == p.closed
      && (forall x :: x in q.value.idle ==> x in p.idle || x == c)
      && (!p.closed ==> q.value.idle != [] && q.value.idle[|q.value.idle| - 1] == c)
  {
  }

  /** Connections given back one after the other. */
  function PutAll<T>(p: Pool<T>, cs: seq<T>): Option<Pool<T>>
    decreases |cs|
  {
    if cs == [] then Some(p)
    else
      match PoolPut(p, cs[0])
      case None => None
      case Some(q) => PutAll(q, cs[1..])
  }

  /** The last `n` elements, or all of them. */
  function Newest<T>(s: seq<T>, n: int): (r: seq<T>)
    requires n >= 0
  {
    if |s| <= n then s else s[|s| - n..]
  }

  /** An open pool keeps the newest of the connections given back, as many as its limit. */
  lemma {:induction false} PutAllKeepsNewest<T>(p: Pool<T>, cs: seq<T>)
    requires p.maxIdle >= 1 && |p.idle| <= p.maxIdle && !p.closed
    ensures PutAll(p, cs) == Some(p.(idle := Newest(p.idle + cs, p.maxIdle)))
    decreases |cs|
  {
    if cs == [] {
      assert p.idle + [] == p.idle;
    } else {
      var q := PoolPut(p, cs[0]).value;
      PutAllKeepsNewest(q, cs[1..]);
      assert (p.idle + [cs[0]]) + cs[1..] == p.idle + cs;
      if |p.idle| == p.maxIdle { assert q.idle + cs[1..] == (p.idle + cs)[1..]; }
    }
  }

  /** Giving back to an empty open pool works exactly when the limit is at least one. */
  lemma {:induction false} PutWorksIff<T>(p: Pool<T>, cs: seq<T>)
    requires !p.closed && p.idle == [] && cs != []
    ensures PutAll(p, cs).Some? <==> p.maxIdle >= 1
  {
    if p.maxIdle >= 1 { PutAllKeepsNewest(p, cs); }
  }

  /** Connections handed out one after the other, as long as there are idle ones. */
  function GetAll<T>(p: Pool<T>, n: nat): seq<T>
    decreases n
  {
    if n == 0 || !PoolGet(p).1.Reused? then [] else [PoolGet(p).1.c] + GetAll(PoolGet(p).0, n - 1)
  }

  lemma {:induction false} GetAllReverses<T>(p: Pool<T>, n: nat)
    requires !p.closed && n <= |p.idle|
    ensures |GetAll(p, n)| == n && forall i :: 0 <= i < n ==> GetAll(p, n)[i] == p.idle[|p.idle| - 1 - i]
    decreases n
  {
    if n > 0 { GetAllReverses(PoolGet(p).0, n - 1); }
  }

  /** Last in, first out: the newest connections come back in reverse, whatever was in the pool before. */
  lemma PutThenGet<T>(p: Pool<T>, cs: seq<T>, n: nat)
    requires PoolOk(p) && !p.closed && n <= |cs| && n <= p.maxIdle
    ensures PutAll(p, cs).Some? && |GetAll(PutAll(p, cs).value, n)| == n
    ensures forall i :: 0 <= i < n ==> GetAll(PutAll(p, cs).value, n)[i] == cs[|cs| - 1 - i]
  {
    PutAllKeepsNewest(p, cs);
    GetAllReverses(PutAll(p, cs).value, n);
  }

  // ----- Transactions and pipelines on one link -----

  /** Transaction.Command: a reply other than the status QUEUED is an error. */
  function TxCommand(l: Link, args: seq<Arg>, net: Net): (Link, bool) {
    var (t, a) := Ask(l, args, net);
    (t, a.Answered? && a.reply == StatusReply(QUEUED))
  }

  /** Transaction.Exec: the replies of the queued commands; None is an error. */
  function TxExec(l: Link, net: Net): (Link, Option<Reply>) {
    var (t, a) := Ask(l, [StringArg(EXEC)], net);
    (t, if a.Answered? && (a.reply.MultiReply? || a.reply.NullMulti?) then Some(a.reply) else None)
  }

  /** Transaction.Discard */
  function TxDiscard(l: Link, net: Net): (Link, bool) {
    var (t, a) := Ask(l, [StringArg(DISCARD)], net);
    (t, a.Answered?)
  }

  lemma NamesKnown()
    ensures Named([StringArg(EXEC)], EXEC) && !Named([StringArg(EXEC)], MULTI)
    ensures Named([StringArg(DISCARD)], DISCARD) && !Named([StringArg(DISCARD)], MULTI)
    ensures Named([StringArg(MULTI)], MULTI)
    ensures OwnCommand([StringArg(EXEC)]) && OwnCommand([StringArg(DISCARD)]) && OwnCommand([StringArg(MULTI)])
  {
    assert Upper(EXEC) == EXEC && Upper(DISCARD) == DISCARD && Upper(MULTI) == MULTI;
    assert EXEC != MULTI && DISCARD != MULTI;
  }

  ghost predicate OwnCommand(args: seq<Arg>) { Harmless(args) && AllSmall(args) }

  /** Transaction.Command accepts exactly the status QUEUED. */
  lemma TxCommandMeans(l: Link, args: seq<Arg>, net: Net)
    requires l.pending == [] && l.inStep && OwnCommand(args)
    ensures TxCommand(l, args, net).1 <==> Works(net) && net.answer.StatusReply? && Chars(net.answer.status) == "QUEUED"
  {
    AskOwnReply(l, args, net);
    if net.answer.StatusReply? { IsQueued(net.answer.status); }
  }

  lemma IsQueued(status: bytes)
    ensures Chars(status) == "QUEUED" <==> status == QUEUED
  {
    assert Chars(QUEUED) == "QUEUED";
    if Chars(status) == "QUEUED" { CharsInjective(status, QUEUED); }
  }

  /**
  EXEC returns an array as it is, and for any other answer, an error reply included, an error. DISCARD works whatever the
  answer is.
  */
  lemma TxEndMeans(l: Link, net: Net)
    requires l.pending == [] && l.inStep
    ensures TxExec(l, net).1 == if Works(net) && (net.answer.MultiReply? || net.answer.NullMulti?) then Some(net.answer) else None
    ensures TxDiscard(l, net).1 <==> Works(net)
  {
    NamesKnown();
    ExecEnds(l, [StringArg(EXEC)], net);
    ExecEnds(l, [StringArg(DISCARD)], net);
  }

  lemma ExecEnds(l: Link, args: seq<Arg>, net: Net)
    requires l.pending == [] && l.inStep && OwnCommand(args)
    ensures var a := Ask(l, args, net).1; (a.Answered? <==> Works(net)) && (a.Answered? ==> a.reply == net.answer)
  {
    AskOwnReply(l, args, net);
  }

  /** A command that is only a name, on the wire. */
  lemma NameOnWire(name: bytes, turns: nat)
    requires |name| + 2 <= INT64_MAX && turns >= 17
    ensures var b := PackCommand([StringArg(name)], turns);
      b.Some? && Chars(b.value) == "*1\r\n" + ("$" + Text(|name|) + "\r\n" + (Chars(name) + "\r\n"))
  {
    var args, r := [StringArg(name)], BulkReply(name);
    PackAllEncodes(args, turns);
    assert Bulks(args) == [r];
    OneBulkOnWire(r);
  }

  lemma OneBulkOnWire(r: Reply)
    ensures Chars(Encode(MultiReply([r]))) == "*1\r\n" + Chars(Encode(r))
    ensures r.BulkReply? ==> Chars(Encode(r)) == "$" + Text(|r.bulk|) + "\r\n" + (Chars(r.bulk) + "\r\n")
  {
    WireFormat(MultiReply([r]));
    WireFormat(r);
    OneEncoded(r);
    OneText();
  }

  lemma OneText()
    ensures "*" + Text(1) + "\r\n" == "*1\r\n"
  {
  }

  lemma OneEncoded(r: Reply)
    ensures EncodeAll([r]) == Encode(r)
  {
    assert [r][1..] == [] && Encode(r) + [] == Encode(r);
  }

  /** What MULTI, EXEC and DISCARD are on the wire. */
  lemma NamesOnWire()
    ensures var b := PackCommand([StringArg(MULTI)], TURNS); b.Some? && Chars(b.value) == "*1\r\n$5\r\nMULTI\r\n"
    ensures var b := PackCommand([StringArg(EXEC)], TURNS); b.Some? && Chars(b.value) == "*1\r\n$4\r\nEXEC\r\n"
    ensures var b := PackCommand([StringArg(DISCARD)], TURNS); b.Some? && Chars(b.value) == "*1\r\n$7\r\nDISCARD\r\n"
  {
    WireTexts();
    NameTexts();
    ShortName(MULTI, "5", "MULTI", "*1\r\n$5\r\nMULTI\r\n", TURNS);
    ShortName(EXEC, "4", "EXEC", "*1\r\n$4\r\nEXEC\r\n", TURNS);
    ShortName(DISCARD, "7", "DISCARD", "*1\r\n$7\r\nDISCARD\r\n", TURNS);
  }

  lemma WireTexts()
    ensures IsWire("*1\r\n$5\r\nMULTI\r\n", "5", "MULTI")
    ensures IsWire("*1\r\n$4\r\nEXEC\r\n", "4", "EXEC")
    ensures IsWire("*1\r\n$7\r\nDISCARD\r\n", "7", "DISCARD")
  {
  }

  predicate IsWire(wire: string, length: string, text: string) { wire == "*1\r\n$" + length + "\r\n" + text + "\r\n" }

  lemma ShortName(name: bytes, length: string, text: string, wire: string, turns: nat)
    requires |name| + 2 <= INT64_MAX && turns >= 17 && Text(|name|) == length && Chars(name) == text
    requires IsWire(wire, length, text)
    ensures var b := PackCommand([StringArg(name)], turns); b.Some? && Chars(b.value) == wire
  {
    NameOnWire(name, turns);
    Parts("*1\r\n", "$", length, "\r\n", text);
  }

  lemma Parts(a: string, b: string, c: string, d: string, e: string)
    ensures a + (b + c + d + (e + d)) == a + b + c + d + e + d
  {
  }

  lemma NameTexts()
    ensures Chars(MULTI) == "MULTI" && Chars(EXEC) == "EXEC" && Chars(DISCARD) == "DISCARD"
    ensures Text(5) == "5" && Text(4) == "4" && Text(7) == "7"
  {
  }

  /**
  commit and abort end with EXEC or DISCARD and give the connection back whatever comes of it; whatever the network
  does, the connection is then clean.
  */
  lemma FinishClean(l: Link, net: Net, commit: bool)
    requires l.pending == [] && l.inStep
    ensures Clean(if commit then TxExec(l, net).0 else TxDiscard(l, net).0)
  {
    NamesKnown();
    AskOwnReply(l, if commit then [StringArg(EXEC)] else [StringArg(DISCARD)], net);
  }

  /** One step of a pipeline: a command is sent, or a reply is read. */
  datatype PipeStep = SendStep(args: seq<Arg>, answer: Reply, garbage: seq<Reply>) | RecvStep

  /** A pipeline: the link, the counter, and the replies received so far. */
  datatype Pipe = Pipe(link: Link, times: int, received: seq<Reply>)

  /** Pipelined.Command and Pipelined.Receive, when the network does its part. */
  function PipeNext(p: Pipe, step: PipeStep): Option<Pipe> {
    match step
    case SendStep(args, answer, garbage) =>
      var (l, sent) := Send(p.link, args, Net(answer, garbage, Fine, Fine));
      if sent == Done then Some(Pipe(l, p.times + 1, p.received)) else None
    case RecvStep =>
      var (l, r) := Receive(p.link, Fine);
      if r.Got? then Some(Pipe(l, p.times - 1, p.received + [r.reply])) else None
  }

  /** A sequence of steps without an error, in which no read waits for ever. */
  function PipeRun(p: Pipe, steps: seq<PipeStep>): Option<Pipe>
    decreases |steps|
  {
    if steps == [] then Some(p)
    else
      match PipeNext(p, steps[0])
      case None => None
      case Some(q) => PipeRun(q, steps[1..])
  }

  /** The commands among the steps have names and numbers below 10^18. */
  ghost predicate StepsSmall(steps: seq<PipeStep>) {
    forall k :: 0 <= k < |steps| && steps[k].SendStep? ==> steps[k].args != [] && AllSmall(steps[k].args)
  }

  ghost predicate StepsTyped(steps: seq<PipeStep>) {
    forall k :: 0 <= k < |steps| && steps[k].SendStep? ==> AllTyped(steps[k].args)
  }

  lemma StepsCons(steps: seq<PipeStep>)
    requires steps != []
    ensures StepsSmall(steps) <==> StepsSmall([steps[0]]) && StepsSmall(steps[1..])
    ensures StepsTyped(steps) ==> StepsTyped([steps[0]]) && StepsTyped(steps[1..])
  {
    assert forall k :: 0 < k < |steps| ==> steps[k] == steps[1..][k - 1];
    if StepsSmall([steps[0]]) && StepsSmall(steps[1..]) {
      assert [steps[0]][0] == steps[0];
      forall k | 0 <= k < |steps| && steps[k].SendStep? ensures steps[k].args != [] && AllSmall(steps[k].args) {
        assert k > 0 ==> steps[k] == steps[1..][k - 1];
      }
    }
  }

  /** The server stays in step exactly when every command sent has a name and numbers below 10^18. */
  lemma {:induction false} PipeInStepIff(p: Pipe, steps: seq<PipeStep>)
    requires StepsTyped(steps) && PipeRun(p, steps).Some?
    ensures PipeRun(p, steps).value.link.inStep <==> p.link.inStep && StepsSmall(steps)
    decreases |steps|
  {
    if steps != [] {
      StepsCons(steps);
      assert [steps[0]][0] == steps[0];
      if steps[0].SendStep? { UnderstoodIff(steps[0].args); }
      PipeInStepIff(PipeNext(p, steps[0]).value, steps[1..]);
    }
  }

  /** The answers of the server to the commands among the steps, in order. */
  function Answers(steps: seq<PipeStep>): seq<Reply> {
    if steps == [] then []
    else AnswerTo(steps[0]) + Answers(steps[1..])
  }

  function AnswerTo(step: PipeStep): seq<Reply> {
    match step
    case SendStep(_, answer, _) => [answer]
    case RecvStep => []
  }

  lemma PipeNextMeans(p: Pipe, step: PipeStep)
    requires PipeNext(p, step).Some? && p.link.inStep && StepsSmall([step]) && StepsTyped([step])
    ensures var q := PipeNext(p, step).value;
      && q.times == p.times + (if step.SendStep? then 1 else -1) && q.link.inStep
      && |q.received| == |p.received| + (if step.SendStep? then 0 else 1)
      && q.received + q.link.pending == p.received + p.link.pending + AnswerTo(step)
  {
    assert [step][0] == step;
    if step.SendStep? { UnderstoodIff(step.args); }
  }

  function Receives(steps: seq<PipeStep>): nat {
    if steps == [] then 0 else (if steps[0].RecvStep? then 1 else 0) + Receives(steps[1..])
  }

  /**
  After n sends and m receives without an error, the counter has changed by n - m, and the replies received are the
  first of all answers, in order: those that were pending at the start, then those to the commands of the run.
  */
  lemma {:induction false} PipeRunMeans(p: Pipe, steps: seq<PipeStep>)
    requires p.link.inStep && StepsSmall(steps) && StepsTyped(steps) && PipeRun(p, steps).Some?
    ensures var q := PipeRun(p, steps).value;
      && q.times == p.times + |Answers(steps)| - Receives(steps)
      && q.received + q.link.pending == p.received + p.link.pending + Answers(steps)
      && |q.received| == |p.received| + Receives(steps)
    decreases |steps|
  {
    if steps != [] {
      var next := PipeNext(p, steps[0]).value;
      StepsCons(steps);
      PipeNextMeans(p, steps[0]);
      PipeRunMeans(next, steps[1..]);
      Regroup(p.received, p.link.pending, AnswerTo(steps[0]), Answers(steps[1..]));
    } else {
      assert p.received + p.link.pending + [] == p.received + p.link.pending;
    }
  }

  lemma Regroup(a: seq<Reply>, b: seq<Reply>, c: seq<Reply>, d: seq<Reply>)
    ensures ((a + b) + c) + d == (a + b) + (c + d)
  {
  }

  /** So on a new pipeline the k-th reply received answers the k-th command, and the counter is what is outstanding. */
  lemma PipelineOrder(l: Link, steps: seq<PipeStep>)
    requires l.pending == [] && l.inStep && StepsSmall(steps) && StepsTyped(steps) && PipeRun(Pipe(l, 0, []), steps).Some?
    ensures var q := PipeRun(Pipe(l, 0, []), steps).value;
      && q.times == |Answers(steps)| - Receives(steps) == |q.link.pending| && |q.received| == Receives(steps)
      && (forall k :: 0 <= k < |q.received| ==> k < |Answers(steps)| && q.received[k] == Answers(steps)[k])
      && q.link.pending == Answers(steps)[|q.received|..]
  {
    PipeRunMeans(Pipe(l, 0, []), steps);
    var q := PipeRun(Pipe(l, 0, []), steps).value;
    assert q.received + q.link.pending == Answers(steps);
    assert (q.received + q.link.pending)[|q.received|..] == q.link.pending;
    forall k | 0 <= k < |q.received| ensures k < |Answers(steps)| && q.received[k] == Answers(steps)[k] {
      assert (q.received + q.link.pending)[k] == q.received[k];
    }
  }

  /**
  The loop of ReceiveAll, with what becomes of each read: the link afterwards, the replies read, and whether all were.
  */
  function ReceiveLoop(l: Link, fates: seq<Delivery>): (Link, seq<Reply>, bool)
    decreases |fates|
  {
    if fates == [] then (l, [], true)
    else
      var (l1, r) := Receive(l, fates[0]);
      if !r.Got? then (l1, [], false)
      else var (l2, more, all) := ReceiveLoop(l1, fates[1..]); (l2, [r.reply] + more, all)
  }

  ghost predicate AllFine(fates: seq<Delivery>) { forall k :: 0 <= k < |fates| ==> fates[k] == Fine }

  /** All reads succeed exactly when the network does its part and as many replies are on their way. */
  lemma {:induction false} ReceiveLoopMeans(l: Link, fates: seq<Delivery>)
    ensures var (t, rps, all) := ReceiveLoop(l, fates);
      && |rps| <= |l.pending| && rps == l.pending[..|rps|] && |rps| <= |fates|
      && (all <==> |fates| <= |l.pending| && AllFine(fates))
      && (all ==> |rps| == |fates| && t == Link(l.pending[|fates|..], l.inMulti, l.inStep))
    decreases |fates|
  {
    if fates != [] {
      var (l1, r) := Receive(l, fates[0]);
      if r.Got? {
        ReceiveLoopMeans(l1, fates[1..]);
        var (_, more, _) := ReceiveLoop(l1, fates[1..]);
        FirstTaken(l.pending, |more|);
        if |fates| <= |l.pending| { FirstTaken(l.pending, |fates| - 1); }
        FirstAndOthers(fates);
      }
    }
  }

  lemma FirstTaken(rs: seq<Reply>, n: nat)
    requires n + 1 <= |rs|
    ensures [rs[0]] + rs[1..][..n] == rs[..n + 1] && rs[1..][n..] == rs[n + 1..]
  {
  }

  lemma FirstAndOthers(fates: seq<Delivery>)
    requires fates != []
    ensures AllFine(fates) <==> fates[0] == Fine && AllFine(fates[1..])
  {
    assert forall k :: 0 < k < |fates| ==> fates[k] == fates[1..][k - 1];
    if fates[0] == Fine && AllFine(fates[1..]) {
      forall k | 0 <= k < |fates| ensures fates[k] == Fine { assert k > 0 ==> fates[k] == fates[1..][k - 1]; }
    }
  }

  /**
  ReceiveAll on a pipeline in step reads as many replies as the counter says. It succeeds exactly when no read fails,
  and then it returns precisely the outstanding replies, in order, and leaves none.
  */
  lemma ReceiveAllDrains(l: Link, steps: seq<PipeStep>, fates: seq<Delivery>)
    requires l.pending == [] && l.inStep && StepsSmall(steps) && StepsTyped(steps) && PipeRun(Pipe(l, 0, []), steps).Some?
    requires |fates| == PipeRun(Pipe(l, 0, []), steps).value.times
    ensures var q := PipeRun(Pipe(l, 0, []), steps).value; var (t, rps, all) := ReceiveLoop(q.link, fates);
      && (all <==> AllFine(fates))
      && q.received + rps <= Answers(steps)
      && (all ==> q.times - |rps| == 0 && t.pending == [] && t.inStep && q.received + rps == Answers(steps))
  {
    PipelineOrder(l, steps);
    PipeInStepIff(Pipe(l, 0, []), steps);
    PipeRunMeans(Pipe(l, 0, []), steps);
    var q := PipeRun(Pipe(l, 0, []), steps).value;
    ReceiveLoopMeans(q.link, fates);
    Continues(q.received, q.link.pending, Answers(steps), |ReceiveLoop(q.link, fates).1|);
  }

  /** What has been received, with the first of what is pending, is the first part of all answers. */
  lemma Continues(received: seq<Reply>, pending: seq<Reply>, answers: seq<Reply>, n: nat)
    requires |received| <= |answers| && pending == answers[|received|..] && n <= |pending|
    requires forall k :: 0 <= k < |received| ==> received[k] == answers[k]
    ensures received + pending[..n] <= answers
    ensures n == |pending| ==> received + pending[..n] == answers
  {
  }
}
