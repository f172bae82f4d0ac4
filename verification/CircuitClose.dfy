/**
 Closing a circuit from any number of threads. The rx half (the send buffer) and the tx half
 (the txer) close independently; whoever finds both closed closes the circuit, which in turn
 closes both halves. Close, CloseXgToClient, LinkSendBuffer.Close and closeIfRxAndTxDone call
 each other; a thread is the list of atomic instructions it still has to execute, the calls
 expanded as they are made.
 */
module CircuitClose {

  datatype Instr =
    | CasClosed        // Close: set closedFlag, or return
    | SendEnd
    | ClosePeer
    | CasTxer          // set closedTxer, or skip
    | NotifyTxer       // close(closeNotify)
    | CasBuffer        // set buffer.closed, or skip
    | NotifyBuffer     // close(buffer.closeNotify)
    | IfBuffer         // closeIfRxAndTxDone: first operand
    | IfTxer           // second operand
    | IfBufferClose    // CloseXgToClient: Close if the buffer is closed
    | PeekHandlers
    | Handlers

  type Thread = seq<Instr>

  /** What may be called from outside. */
  datatype Operation = Close | CloseXgToClient | CloseSendBuffer | Unrouted

  const BUFFER_CLOSE: Thread := [CasBuffer, IfBuffer]

  function Program(op: Operation): Thread {
    match op
    case Close => [CasClosed]
    case CloseXgToClient => [CasTxer, IfBufferClose]
    case CloseSendBuffer => BUFFER_CLOSE
    case Unrouted => [CasTxer, IfBufferClose] + BUFFER_CLOSE
  }

  /** What Close goes on to do once it has set the flag. */
  const BODY: Thread := TAKE_DOWN + BUFFER_CLOSE + CALL_HANDLERS
  const TAKE_DOWN: Thread := [SendEnd, ClosePeer, CasTxer]
  const CALL_HANDLERS: Thread := [PeekHandlers, Handlers]

  datatype State = State(
    closed: bool, txer: bool, buffer: bool,
    ends: nat, peers: nat, notified: nat, bufferNotified: nat, peeked: nat, handled: nat,
    threads: seq<Thread>)

  const INIT := State(false, false, false, 0, 0, 0, 0, 0, 0, [])

  datatype Step =
    | Call(op: Operation)
    | Run(t: nat)

  predicate Enabled(s: State, step: Step) {
    match step
    case Call(_) => true
    case Run(t) => t < |s.threads| && s.threads[t] != []
  }

  /** What an instruction puts in front of the rest of its thread. */
  function Expands(s: State, i: Instr): Thread {
    match i
    case CasClosed => if s.closed then [] else BODY
    case CasTxer => if s.txer then [] else [NotifyTxer]
    case CasBuffer => if s.buffer then [] else [NotifyBuffer]
    case IfBuffer => if s.buffer then [IfTxer] else []
    case IfTxer => if s.txer then [CasClosed] else []
    case IfBufferClose => if s.buffer then [CasClosed] else []
    case _ => []
  }

  function Effect(s: State, i: Instr): State {
    match i
    case CasClosed => s.(closed := true)
    case CasTxer => s.(txer := true)
    case CasBuffer => s.(buffer := true)
    case SendEnd => s.(ends := s.ends + 1)
    case ClosePeer => s.(peers := s.peers + 1)
    case NotifyTxer => s.(notified := s.notified + 1)
    case NotifyBuffer => s.(bufferNotified := s.bufferNotified + 1)
    case PeekHandlers => s.(peeked := s.peeked + 1)
    case Handlers => s.(handled := s.handled + 1)
    case _ => s
  }

  function Apply(s: State, step: Step): State
    requires Enabled(s, step)
  {
    match step
    case Call(op) => s.(threads := s.threads + [Program(op)])
    case Run(t) =>
      var k := s.threads[t];
      Effect(s, k[0]).(threads := s.threads[t := Expands(s, k[0]) + k[1..]])
  }

  ghost predicate IsRun(states: seq<State>, steps: seq<Step>) {
    && |states| == |steps| + 1 && states[0] == INIT
    && forall i :: 0 <= i < |steps| ==> Enabled(states[i], steps[i]) && states[i + 1] == Apply(states[i], steps[i])
  }

  predicate Quiescent(s: State) {
    forall t :: 0 <= t < |s.threads| ==> s.threads[t] == []
  }

  // ---------------------------------------------------------------- counting what is still to come

  function CountIn(k: Thread, x: Instr): nat {
    multiset(k)[x]
  }

  function Pending(threads: seq<Thread>, x: Instr): nat {
    if threads == [] then 0 else CountIn(threads[0], x) + Pending(threads[1..], x)
  }

  lemma {:induction false} PendingUpdate(threads: seq<Thread>, t: nat, k: Thread, x: Instr)
    requires t < |threads|
    ensures Pending(threads[t := k], x) == Pending(threads, x) - CountIn(threads[t], x) + CountIn(k, x)
  {
    if t > 0 {
      PendingUpdate(threads[1..], t - 1, k, x);
      assert threads[t := k][1..] == threads[1..][t - 1 := k];
    } else {
      assert threads[t := k][1..] == threads[1..];
    }
  }

  lemma {:induction false} PendingSnoc(threads: seq<Thread>, k: Thread, x: Instr)
    ensures Pending(threads + [k], x) == Pending(threads, x) + CountIn(k, x)
  {
    if threads == [] {
      assert threads + [k] == [k];
    } else {
      PendingSnoc(threads[1..], k, x);
      assert (threads + [k])[1..] == threads[1..] + [k];
    }
  }

  predicate InBody(x: Instr) {
    x.SendEnd? || x.ClosePeer? || x.CasTxer? || x.CasBuffer? || x.IfBuffer? || x.PeekHandlers? || x.Handlers?
  }

  /** How many `x` an instruction adds to its thread. */
  function Adds(s: State, i: Instr, x: Instr): nat {
    match i
    case CasClosed => if !s.closed && InBody(x) then 1 else 0
    case CasTxer => if !s.txer && x == NotifyTxer then 1 else 0
    case CasBuffer => if !s.buffer && x == NotifyBuffer then 1 else 0
    case IfBuffer => if s.buffer && x == IfTxer then 1 else 0
    case IfTxer => if s.txer && x == CasClosed then 1 else 0
    case IfBufferClose => if s.buffer && x == CasClosed then 1 else 0
    case _ => 0
  }

  lemma PartCounts(x: Instr)
    ensures CountIn(TAKE_DOWN, x) == if x.SendEnd? || x.ClosePeer? || x.CasTxer? then 1 else 0
    ensures CountIn(BUFFER_CLOSE, x) == if x.CasBuffer? || x.IfBuffer? then 1 else 0
    ensures CountIn(CALL_HANDLERS, x) == if x.PeekHandlers? || x.Handlers? then 1 else 0
  {
  }

  lemma CountJoin(a: Thread, b: Thread, x: Instr)
    ensures CountIn(a + b, x) == CountIn(a, x) + CountIn(b, x)
  {
  }

  lemma BodyCounts(x: Instr)
    ensures CountIn(BODY, x) == if InBody(x) then 1 else 0
  {
    PartCounts(x);
    CountJoin(TAKE_DOWN, BUFFER_CLOSE, x);
    CountJoin(TAKE_DOWN + BUFFER_CLOSE, CALL_HANDLERS, x);
  }

  lemma ExpandsAdds(s: State, i: Instr, x: Instr)
    ensures CountIn(Expands(s, i), x) == Adds(s, i, x)
  {
    if i.CasClosed? {
      BodyCounts(x);
    }
  }

  lemma CountNext(pre: Thread, k: Thread, x: Instr)
    requires k != []
    ensures CountIn(pre + k[1..], x) == CountIn(pre, x) + CountIn(k, x) - if k[0] == x then 1 else 0
    ensures CountIn(k, k[0]) >= 1
  {
    assert k == [k[0]] + k[1..];
    assert multiset(k) == multiset{k[0]} + multiset(k[1..]);
    assert multiset(pre + k[1..]) == multiset(pre) + multiset(k[1..]);
  }

  /** Executing one instruction removes it and adds what it expands to. */
  lemma {:induction false} RunPends(s: State, t: nat, x: Instr)
    requires Enabled(s, Run(t))
    ensures var i := s.threads[t][0];
            Pending(Apply(s, Run(t)).threads, x) == Pending(s.threads, x) - (if i == x then 1 else 0) + Adds(s, i, x)
    ensures Pending(s.threads, s.threads[t][0]) >= 1
  {
    var k := s.threads[t];
    PendingUpdate(s.threads, t, Expands(s, k[0]) + k[1..], x);
    CountNext(Expands(s, k[0]), k, x);
    ExpandsAdds(s, k[0], x);
    PendingUpdate(s.threads, t, [], k[0]);
  }

  lemma {:induction false} QuiescentPendsNothing(threads: seq<Thread>, x: Instr)
    requires forall t :: 0 <= t < |threads| ==> threads[t] == []
    ensures Pending(threads, x) == 0
  {
    if threads != [] {
      assert threads[0] == [];
      QuiescentPendsNothing(threads[1..], x);
    }
  }

  // ---------------------------------------------------------------- the invariant

  /** Every instruction that can close a half has a check behind it in the same thread. */
  predicate Checked(k: Thread) {
    forall i :: 0 <= i < |k| && (k[i] == CasTxer || k[i] == CasBuffer) ==> HasCheck(k[i + 1..])
  }

  predicate HasCheck(k: Thread) {
    IfBuffer in k || IfBufferClose in k
  }

  function Flag(b: bool): nat {
    if b then 1 else 0
  }

  /** How many instructions are still going to find both halves closed, or to close the circuit. */
  ghost function Checks(threads: seq<Thread>): nat {
    Pending(threads, IfBuffer) + Pending(threads, IfBufferClose) + Pending(threads, IfTxer) + Pending(threads, CasClosed)
  }

  /** What must happen once, and the flag that says so. */
  predicate Owed(x: Instr) {
    x.NotifyTxer? || x.NotifyBuffer? || x.Handlers? || x.PeekHandlers? || x.SendEnd? || x.ClosePeer?
  }

  function Done(s: State, x: Instr): nat {
    match x
    case NotifyTxer => s.notified
    case NotifyBuffer => s.bufferNotified
    case Handlers => s.handled
    case PeekHandlers => s.peeked
    case SendEnd => s.ends
    case ClosePeer => s.peers
    case _ => 0
  }

  predicate Due(s: State, x: Instr) {
    if x.NotifyTxer? then s.txer else if x.NotifyBuffer? then s.buffer else s.closed
  }

  ghost predicate Counted(s: State) {
    forall x :: Owed(x) ==> Done(s, x) + Pending(s.threads, x) == Flag(Due(s, x))
  }

  /** With this many instructions pending that close the tx half, close the rx half, or check. */
  predicate ConvergesWith(s: State, txers: int, buffers: int, checks: int) {
    && (s.txer && s.buffer && !s.closed ==> checks > 0)
    && (s.closed && !s.txer ==> txers > 0)
    && (s.closed && !s.buffer ==> buffers > 0)
  }

  ghost predicate Converging(s: State) {
    ConvergesWith(s, Pending(s.threads, CasTxer), Pending(s.threads, CasBuffer), Checks(s.threads))
  }

  ghost predicate Inv(s: State) {
    && (forall t :: 0 <= t < |s.threads| ==> Checked(s.threads[t]))
    && Counted(s) && Converging(s)
  }

  lemma CheckedRest(k: Thread)
    requires Checked(k) && k != []
    ensures Checked(k[1..])
    ensures k[0] == CasTxer || k[0] == CasBuffer ==> HasCheck(k[1..])
  {
    var r := k[1..];
    forall i | 0 <= i < |r| && (r[i] == CasTxer || r[i] == CasBuffer) ensures HasCheck(r[i + 1..]) {
      assert k[i + 1] == r[i] && k[i + 2..] == r[i + 1..];
    }
  }

  lemma CheckedJoin(a: Thread, b: Thread)
    requires Checked(a) && Checked(b)
    ensures Checked(a + b)
  {
    var r := a + b;
    forall i | 0 <= i < |r| && (r[i] == CasTxer || r[i] == CasBuffer) ensures HasCheck(r[i + 1..]) {
      if i < |a| {
        assert r[i + 1..] == a[i + 1..] + b;
      } else {
        assert r[i + 1..] == b[i - |a| + 1..];
      }
    }
  }

  lemma CallsAreChecked()
    ensures Checked(BUFFER_CLOSE) && forall op :: Checked(Program(op))
  {
    var toClient := Program(CloseXgToClient);
    assert toClient[1..][0] == IfBufferClose && BUFFER_CLOSE[1..][0] == IfBuffer;
    CheckedJoin(toClient, BUFFER_CLOSE);
  }

  lemma BodyIsChecked()
    ensures Checked(BODY)
  {
    CallsAreChecked();
    var start := TAKE_DOWN + BUFFER_CLOSE;
    assert start[3..][1] == IfBuffer && start[4..][0] == IfBuffer;
    CheckedJoin(start, CALL_HANDLERS);
  }

  lemma CheckIsPending(threads: seq<Thread>, t: nat)
    requires t < |threads| && HasCheck(threads[t])
    ensures Checks(threads) > 0
  {
    var x := if IfBuffer in threads[t] then IfBuffer else IfBufferClose;
    assert CountIn(threads[t], x) > 0;
    PendingUpdate(threads, t, [], x);
  }

  lemma ThreadsStayChecked(s: State, t: nat)
    requires Inv(s) && Enabled(s, Run(t))
    ensures forall u :: 0 <= u < |s.threads| ==> Checked(Apply(s, Run(t)).threads[u])
  {
    var k := s.threads[t];
    BodyIsChecked();
    CheckedRest(k);
    CheckedJoin(Expands(s, k[0]), k[1..]);
  }

  lemma OwedStep(s: State, i: Instr, x: Instr, before: nat, after: int)
    requires Owed(x) && Done(s, x) + before == Flag(Due(s, x))
    requires after == before - (if i == x then 1 else 0) + Adds(s, i, x)
    ensures Done(Effect(s, i), x) + after == Flag(Due(Effect(s, i), x))
  {
  }

  lemma {:induction false} CountKeeps(s: State, t: nat, x: Instr)
    requires Counted(s) && Enabled(s, Run(t)) && Owed(x)
    ensures var u := Apply(s, Run(t)); Done(u, x) + Pending(u.threads, x) == Flag(Due(u, x))
  {
    RunPends(s, t, x);
    OwedStep(s, s.threads[t][0], x, Pending(s.threads, x), Pending(Apply(s, Run(t)).threads, x));
  }

  lemma CountsKeep(s: State, t: nat)
    requires Counted(s) && Enabled(s, Run(t))
    ensures Counted(Apply(s, Run(t)))
  {
    forall x | Owed(x) ensures var u := Apply(s, Run(t)); Done(u, x) + Pending(u.threads, x) == Flag(Due(u, x)) {
      CountKeeps(s, t, x);
    }
  }

  lemma ChecksMove(s: State, t: nat)
    requires Enabled(s, Run(t))
    ensures var i := s.threads[t][0];
            Checks(Apply(s, Run(t)).threads) == Checks(s.threads) - (if IsCheck(i) then 1 else 0) + AddsCheck(s, i)
  {
    RunPends(s, t, IfBuffer);
    RunPends(s, t, IfBufferClose);
    RunPends(s, t, IfTxer);
    RunPends(s, t, CasClosed);
  }

  predicate IsCheck(i: Instr) {
    i.IfBuffer? || i.IfBufferClose? || i.IfTxer? || i.CasClosed?
  }

  function AddsCheck(s: State, i: Instr): nat {
    Adds(s, i, IfBuffer) + Adds(s, i, IfBufferClose) + Adds(s, i, IfTxer) + Adds(s, i, CasClosed)
  }

  /** A check that finds both halves closed is replaced by another one, up to the one that closes. */
  lemma ConvergeStep(s: State, i: Instr, txers: nat, buffers: nat, checks: nat, more: nat)
    requires ConvergesWith(s, txers, buffers, checks) && more == checks - (if IsCheck(i) then 1 else 0) + AddsCheck(s, i)
    requires i.CasTxer? || i.CasBuffer? ==> more > 0
    ensures ConvergesWith(Effect(s, i), txers - (if i.CasTxer? then 1 else 0) + Adds(s, i, CasTxer),
                          buffers - (if i.CasBuffer? then 1 else 0) + Adds(s, i, CasBuffer), more)
  {
  }

  lemma ConvergingKeeps(s: State, t: nat)
    requires Converging(s) && Enabled(s, Run(t)) && Checked(s.threads[t])
    ensures Converging(Apply(s, Run(t)))
  {
    var k := s.threads[t];
    var u := Apply(s, Run(t));
    RunPends(s, t, CasTxer);
    RunPends(s, t, CasBuffer);
    ChecksMove(s, t);
    CheckedRest(k);
    if k[0] == CasTxer || k[0] == CasBuffer {
      assert HasCheck(u.threads[t]);
      CheckIsPending(u.threads, t);
    }
    ConvergeStep(s, k[0], Pending(s.threads, CasTxer), Pending(s.threads, CasBuffer), Checks(s.threads), Checks(u.threads));
  }

  lemma CallOwesNothing(op: Operation, x: Instr)
    requires Owed(x)
    ensures CountIn(Program(op), x) == 0
  {
  }

  lemma CallKeeps(s: State, op: Operation)
    requires Inv(s)
    ensures Inv(Apply(s, Call(op)))
  {
    CallsAreChecked();
    var p := Program(op);
    forall x: Instr ensures Pending(s.threads + [p], x) >= Pending(s.threads, x)
                    ensures Owed(x) ==> Pending(s.threads + [p], x) == Pending(s.threads, x) {
      PendingSnoc(s.threads, p, x);
      if Owed(x) {
        CallOwesNothing(op, x);
      }
    }
    assert forall x :: Owed(x) ==> Done(Apply(s, Call(op)), x) == Done(s, x);
  }

  lemma StepKeeps(s: State, step: Step)
    requires Inv(s) && Enabled(s, step)
    ensures Inv(Apply(s, step))
  {
    match step
    case Call(op) => CallKeeps(s, op);
    case Run(t) =>
      ThreadsStayChecked(s, t);
      CountsKeep(s, t);
      ConvergingKeeps(s, t);
  }

  lemma {:induction false} RunKeeps(states: seq<State>, steps: seq<Step>, i: nat)
    requires IsRun(states, steps) && i < |states|
    ensures Inv(states[i])
  {
    if i > 0 {
      RunKeeps(states, steps, i - 1);
      StepKeeps(states[i - 1], steps[i - 1]);
    }
  }

  // ---------------------------------------------------------------- what was asked for

  /** Which halves, or the whole circuit, the calls so far were made to close. */
  datatype Asked = Asked(tx: bool, rx: bool, all: bool)

  const NOTHING := Asked(false, false, false)

  function Ask(a: Asked, op: Operation): Asked {
    match op
    case Close => Asked(true, true, true)
    case CloseXgToClient => a.(tx := true)
    case CloseSendBuffer => a.(rx := true)
    case Unrouted => a.(tx := true, rx := true)
  }

  /** How many instructions are pending that close the tx half, the rx half or the circuit, or look at a half. */
  datatype Counts = Counts(txers: int, buffers: int, closes: int, ifTxers: int, ifCloses: int)

  ghost function CountsOf(threads: seq<Thread>): Counts {
    Counts(Pending(threads, CasTxer), Pending(threads, CasBuffer), Pending(threads, CasClosed),
           Pending(threads, IfTxer), Pending(threads, IfBufferClose))
  }

  /** What was asked for has happened or is still to come. */
  predicate Answered(s: State, a: Asked, n: Counts) {
    && (a.tx ==> s.txer || n.txers + n.closes > 0)
    && (a.rx ==> s.buffer || n.buffers + n.closes > 0)
    && (a.all ==> s.closed || n.closes > 0)
  }

  /** Nothing else has happened or is to come. */
  predicate OnlyAsked(s: State, a: Asked, n: Counts) {
    && (s.txer || n.txers > 0 || n.ifCloses > 0 ==> a.tx)
    && (s.buffer || n.buffers > 0 || n.ifTxers > 0 ==> a.rx)
    && (s.closed || n.closes > 0 ==> a.tx && a.rx)
    && (a.all ==> a.tx && a.rx)
  }

  function Moved(n: int, s: State, i: Instr, x: Instr): int {
    n - (if i == x then 1 else 0) + Adds(s, i, x)
  }

  function MovedAll(n: Counts, s: State, i: Instr): Counts {
    Counts(Moved(n.txers, s, i, CasTxer), Moved(n.buffers, s, i, CasBuffer), Moved(n.closes, s, i, CasClosed),
           Moved(n.ifTxers, s, i, IfTxer), Moved(n.ifCloses, s, i, IfBufferClose))
  }

  lemma AnswerStep(s: State, a: Asked, i: Instr, n: Counts)
    requires Answered(s, a, n) && OnlyAsked(s, a, n)
    requires n.txers >= 0 && n.buffers >= 0 && n.closes >= 0 && n.ifTxers >= 0 && n.ifCloses >= 0
    requires (s.closed && !s.txer ==> n.txers > 0) && (s.closed && !s.buffer ==> n.buffers > 0)
    requires (i == CasTxer ==> n.txers > 0) && (i == CasBuffer ==> n.buffers > 0) && (i == CasClosed ==> n.closes > 0)
    requires (i == IfTxer ==> n.ifTxers > 0) && (i == IfBufferClose ==> n.ifCloses > 0)
    ensures Answered(Effect(s, i), a, MovedAll(n, s, i)) && OnlyAsked(Effect(s, i), a, MovedAll(n, s, i))
  {
  }

  lemma RunAnswers(s: State, a: Asked, t: nat)
    requires Inv(s) && Enabled(s, Run(t)) && Answered(s, a, CountsOf(s.threads)) && OnlyAsked(s, a, CountsOf(s.threads))
    ensures var u := Apply(s, Run(t)); Answered(u, a, CountsOf(u.threads)) && OnlyAsked(u, a, CountsOf(u.threads))
  {
    RunPends(s, t, CasTxer);
    RunPends(s, t, CasBuffer);
    RunPends(s, t, CasClosed);
    RunPends(s, t, IfTxer);
    RunPends(s, t, IfBufferClose);
    AnswerStep(s, a, s.threads[t][0], CountsOf(s.threads));
  }

  function Holds(op: Operation, x: Instr): nat {
    match x
    case CasClosed => if op.Close? then 1 else 0
    case CasTxer => if op.CloseXgToClient? || op.Unrouted? then 1 else 0
    case IfBufferClose => if op.CloseXgToClient? || op.Unrouted? then 1 else 0
    case CasBuffer => if op.CloseSendBuffer? || op.Unrouted? then 1 else 0
    case IfBuffer => if op.CloseSendBuffer? || op.Unrouted? then 1 else 0
    case _ => 0
  }

  lemma ProgramHolds(op: Operation, x: Instr)
    ensures CountIn(Program(op), x) == Holds(op, x)
  {
  }

  lemma CallAnswers(s: State, a: Asked, op: Operation)
    requires Answered(s, a, CountsOf(s.threads)) && OnlyAsked(s, a, CountsOf(s.threads))
    ensures var u := Apply(s, Call(op)); Answered(u, Ask(a, op), CountsOf(u.threads)) && OnlyAsked(u, Ask(a, op), CountsOf(u.threads))
  {
    forall x: Instr ensures Pending(s.threads + [Program(op)], x) == Pending(s.threads, x) + Holds(op, x) {
      PendingSnoc(s.threads, Program(op), x);
      ProgramHolds(op, x);
    }
  }

  function AskedBy(steps: seq<Step>, i: nat): Asked
    requires i <= |steps|
  {
    if i == 0 then NOTHING
    else if steps[i - 1].Call? then Ask(AskedBy(steps, i - 1), steps[i - 1].op) else AskedBy(steps, i - 1)
  }

  lemma {:induction false} RunIsAnswered(states: seq<State>, steps: seq<Step>, i: nat)
    requires IsRun(states, steps) && i < |states|
    ensures Answered(states[i], AskedBy(steps, i), CountsOf(states[i].threads))
    ensures OnlyAsked(states[i], AskedBy(steps, i), CountsOf(states[i].threads))
  {
    if i > 0 {
      RunIsAnswered(states, steps, i - 1);
      RunKeeps(states, steps, i - 1);
      match steps[i - 1]
      case Call(op) => CallAnswers(states[i - 1], AskedBy(steps, i - 1), op);
      case Run(t) => RunAnswers(states[i - 1], AskedBy(steps, i - 1), t);
    }
  }

  predicate Called(steps: seq<Step>, i: nat, op: Operation) {
    exists j :: 0 <= j < i && j < |steps| && steps[j] == Call(op)
  }

  predicate TxCalled(steps: seq<Step>, i: nat) {
    Called(steps, i, Close) || Called(steps, i, CloseXgToClient) || Called(steps, i, Unrouted)
  }

  predicate RxCalled(steps: seq<Step>, i: nat) {
    Called(steps, i, Close) || Called(steps, i, CloseSendBuffer) || Called(steps, i, Unrouted)
  }

  lemma CalledNext(steps: seq<Step>, i: nat, op: Operation)
    requires i < |steps|
    ensures Called(steps, i + 1, op) <==> Called(steps, i, op) || steps[i] == Call(op)
  {
  }

  lemma {:induction false} AskedMeansCalled(steps: seq<Step>, i: nat)
    requires i <= |steps|
    ensures AskedBy(steps, i) == Asked(TxCalled(steps, i), RxCalled(steps, i), Called(steps, i, Close))
  {
    if i > 0 {
      AskedMeansCalled(steps, i - 1);
      forall op: Operation ensures Called(steps, i, op) <==> Called(steps, i - 1, op) || steps[i - 1] == Call(op) {
        CalledNext(steps, i - 1, op);
      }
    }
  }

  // ---------------------------------------------------------------- the theorems

  /**
   Once no call is in flight, the tx half is closed exactly if Close, CloseXgToClient or Unrouted
   was called, the rx half exactly if Close, the buffer's Close or Unrouted was, and the circuit
   exactly if both are asked for, by one call or by two.
   */
  lemma CallsDecide(states: seq<State>, steps: seq<Step>, i: nat)
    requires IsRun(states, steps) && i < |states| && Quiescent(states[i])
    ensures states[i].txer <==> TxCalled(steps, i)
    ensures states[i].buffer <==> RxCalled(steps, i)
    ensures states[i].closed <==> TxCalled(steps, i) && RxCalled(steps, i)
  {
    RunIsAnswered(states, steps, i);
    AskedMeansCalled(steps, i);
    CloseConverges(states, steps, i);
    forall x: Instr ensures Pending(states[i].threads, x) == 0 {
      QuiescentPendsNothing(states[i].threads, x);
    }
  }

  /** At no point of any run is a half closed that no call was made for. */
  lemma ClosedOnlyIfCalled(states: seq<State>, steps: seq<Step>, i: nat)
    requires IsRun(states, steps) && i < |states|
    ensures states[i].txer ==> TxCalled(steps, i)
    ensures states[i].buffer ==> RxCalled(steps, i)
    ensures states[i].closed ==> TxCalled(steps, i) && RxCalled(steps, i)
  {
    RunIsAnswered(states, steps, i);
    AskedMeansCalled(steps, i);
  }

  /** Once no call is in flight, the circuit is closed exactly when both halves are. */
  lemma CloseConverges(states: seq<State>, steps: seq<Step>, i: nat)
    requires IsRun(states, steps) && i < |states| && Quiescent(states[i])
    ensures states[i].closed <==> states[i].txer && states[i].buffer
  {
    RunKeeps(states, steps, i);
    forall x: Instr ensures Pending(states[i].threads, x) == 0 {
      QuiescentPendsNothing(states[i].threads, x);
    }
  }

  /** Then everything a close does has happened exactly once, and not at all otherwise. */
  lemma CloseRunsOnce(states: seq<State>, steps: seq<Step>, i: nat)
    requires IsRun(states, steps) && i < |states| && Quiescent(states[i])
    ensures var s := states[i];
            && s.handled == s.peeked == s.ends == s.peers == Flag(s.closed)
            && s.notified == Flag(s.txer) && s.bufferNotified == Flag(s.buffer)
  {
    RunKeeps(states, steps, i);
    forall x: Instr ensures Pending(states[i].threads, x) == 0 {
      QuiescentPendsNothing(states[i].threads, x);
    }
    assert forall x :: Owed(x) ==> Done(states[i], x) == Flag(Due(states[i], x));
    assert Owed(Handlers) && Owed(PeekHandlers) && Owed(SendEnd) && Owed(ClosePeer) && Owed(NotifyTxer) && Owed(NotifyBuffer);
  }

  /** At no point of any run has a channel been closed twice or a handler been called twice. */
  lemma NeverTwice(states: seq<State>, steps: seq<Step>, i: nat)
    requires IsRun(states, steps) && i < |states|
    ensures forall x :: Owed(x) ==> Done(states[i], x) <= 1
  {
    RunKeeps(states, steps, i);
  }

  // ---------------------------------------------------------------- the order of a close

  /** Close sends the end of the circuit before it closes the peer, and calls handlers when peer and both halves are closed. */
  predicate Precedes(x: Instr, y: Instr) {
    || (x.SendEnd? && y.ClosePeer?)
    || ((x.ClosePeer? || x.CasTxer? || x.CasBuffer?) && y.PeekHandlers?)
    || (x.PeekHandlers? && y.Handlers?)
  }

  predicate Happened(s: State, x: Instr) {
    match x
    case CasTxer => s.txer
    case CasBuffer => s.buffer
    case CasClosed => s.closed
    case _ => Done(s, x) > 0
  }

  /** Wherever `y` is still to come in a thread, `x` has happened or comes first. */
  predicate Sequenced(s: State, k: Thread, x: Instr, y: Instr) {
    forall i :: 0 <= i < |k| && k[i] == y ==> Happened(s, x) || x in k[..i]
  }

  ghost predicate InOrder(s: State, x: Instr, y: Instr) {
    && (forall t :: 0 <= t < |s.threads| ==> Sequenced(s, s.threads[t], x, y))
    && (Happened(s, y) ==> Happened(s, x))
  }

  lemma HappenedStays(s: State, i: Instr, x: Instr, y: Instr)
    requires Precedes(x, y)
    ensures Happened(s, x) || i == x ==> Happened(Effect(s, i), x)
    ensures Happened(Effect(s, i), y) ==> Happened(s, y) || i == y
  {
  }

  lemma BodyIsSequenced(s: State, x: Instr, y: Instr)
    requires Precedes(x, y)
    ensures Sequenced(s, BODY, x, y)
  {
    assert BODY == [SendEnd, ClosePeer, CasTxer, CasBuffer, IfBuffer, PeekHandlers, Handlers];
    assert BODY[..1] == [SendEnd];
    assert BODY[..5] == [SendEnd, ClosePeer, CasTxer, CasBuffer, IfBuffer];
    assert BODY[..6][5] == PeekHandlers;
  }

  lemma SequencedJoin(s: State, a: Thread, b: Thread, x: Instr, y: Instr)
    requires Sequenced(s, a, x, y) && Sequenced(s, b, x, y)
    ensures Sequenced(s, a + b, x, y)
  {
    var k := a + b;
    forall i | 0 <= i < |k| && k[i] == y ensures Happened(s, x) || x in k[..i] {
      if i < |a| {
        assert k[..i] == a[..i];
      } else {
        assert k[..i] == a + b[..i - |a|];
      }
    }
  }

  /** The rest of a thread whose first instruction was executed. */
  lemma SequencedRest(s: State, k: Thread, x: Instr, y: Instr)
    requires k != [] && Precedes(x, y) && Sequenced(s, k, x, y)
    ensures Sequenced(Effect(s, k[0]), k[1..], x, y)
  {
    HappenedStays(s, k[0], x, y);
    forall i | 0 <= i < |k[1..]| && k[1..][i] == y ensures Happened(Effect(s, k[0]), x) || x in k[1..][..i] {
      assert k[i + 1] == y;
      assert k[..i + 1] == [k[0]] + k[1..][..i];
    }
  }

  lemma RunInOrder(s: State, t: nat, x: Instr, y: Instr)
    requires InOrder(s, x, y) && Enabled(s, Run(t)) && Precedes(x, y)
    ensures InOrder(Apply(s, Run(t)), x, y)
  {
    var k, u := s.threads[t], Apply(s, Run(t));
    HappenedStays(s, k[0], x, y);
    BodyIsSequenced(u, x, y);
    SequencedRest(s, k, x, y);
    SequencedJoin(u, Expands(s, k[0]), k[1..], x, y);
  }

  lemma CallInOrder(s: State, op: Operation, x: Instr, y: Instr)
    requires InOrder(s, x, y) && Precedes(x, y)
    ensures InOrder(Apply(s, Call(op)), x, y)
  {
    var u := Apply(s, Call(op));
    assert y !in Program(op);
    assert Happened(u, x) == Happened(s, x) && Happened(u, y) == Happened(s, y);
  }

  lemma {:induction false} RunIsInOrder(states: seq<State>, steps: seq<Step>, i: nat, x: Instr, y: Instr)
    requires IsRun(states, steps) && i < |states| && Precedes(x, y)
    ensures InOrder(states[i], x, y)
  {
    if i > 0 {
      RunIsInOrder(states, steps, i - 1, x, y);
      match steps[i - 1]
      case Call(op) => CallInOrder(states[i - 1], op, x, y);
      case Run(t) => RunInOrder(states[i - 1], t, x, y);
    }
  }

  /**
   At every point of every run: the peer is closed only after the end of the circuit was sent, and
   handlers are called only after the peer and both halves were closed, the peek handlers first.
   */
  lemma CloseInOrder(states: seq<State>, steps: seq<Step>, i: nat)
    requires IsRun(states, steps) && i < |states|
    ensures states[i].handled <= states[i].peeked <= states[i].peers <= states[i].ends <= 1
    ensures states[i].peeked > 0 ==> states[i].txer && states[i].buffer
  {
    NeverTwice(states, steps, i);
    assert Owed(Handlers) && Owed(PeekHandlers) && Owed(ClosePeer) && Owed(SendEnd);
    RunIsInOrder(states, steps, i, PeekHandlers, Handlers);
    RunIsInOrder(states, steps, i, ClosePeer, PeekHandlers);
    RunIsInOrder(states, steps, i, CasTxer, PeekHandlers);
    RunIsInOrder(states, steps, i, CasBuffer, PeekHandlers);
    RunIsInOrder(states, steps, i, SendEnd, ClosePeer);
  }

  // ---------------------------------------------------------------- the mutual recursion ends

  function Weight(i: Instr): nat {
    match i
    case IfBuffer => 3
    case CasTxer => 2
    case CasBuffer => 2
    case IfTxer => 2
    case IfBufferClose => 2
    case _ => 1
  }

  function ThreadWeight(k: Thread): nat {
    if k == [] then 0 else Weight(k[0]) + ThreadWeight(k[1..])
  }

  function TotalWeight(threads: seq<Thread>): nat {
    if threads == [] then 0 else ThreadWeight(threads[0]) + TotalWeight(threads[1..])
  }

  /** An upper bound for the steps all threads together still take. */
  function Work(s: State): nat {
    TotalWeight(s.threads) + if s.closed then 0 else 11
  }

  lemma {:induction false} WeightJoin(a: Thread, b: Thread)
    ensures ThreadWeight(a + b) == ThreadWeight(a) + ThreadWeight(b)
  {
    if a == [] {
      assert a + b == b;
    } else {
      WeightJoin(a[1..], b);
      assert (a + b)[1..] == a[1..] + b;
    }
  }

  lemma {:induction false} WeightUpdate(threads: seq<Thread>, t: nat, k: Thread)
    requires t < |threads|
    ensures TotalWeight(threads[t := k]) == TotalWeight(threads) - ThreadWeight(threads[t]) + ThreadWeight(k)
  {
    if t > 0 {
      WeightUpdate(threads[1..], t - 1, k);
      assert threads[t := k][1..] == threads[1..][t - 1 := k];
    } else {
      assert threads[t := k][1..] == threads[1..];
    }
  }

  lemma BodyWeighs()
    ensures ThreadWeight(BODY) == 11
  {
    WeightJoin(TAKE_DOWN, BUFFER_CLOSE);
    WeightJoin(TAKE_DOWN + BUFFER_CLOSE, CALL_HANDLERS);
  }

  lemma ExpandsWeighs(s: State, i: Instr)
    ensures i == CasClosed ==> ThreadWeight(Expands(s, i)) == if s.closed then 0 else 11
    ensures i != CasClosed ==> ThreadWeight(Expands(s, i)) < Weight(i)
  {
    BodyWeighs();
  }

  /** Every step of every thread leaves less work, whatever the others have done. */
  lemma WorkDecreases(s: State, t: nat)
    requires Enabled(s, Run(t))
    ensures Work(Apply(s, Run(t))) < Work(s)
  {
    var k := s.threads[t];
    var more := Expands(s, k[0]);
    WeightUpdate(s.threads, t, more + k[1..]);
    WeightJoin(more, k[1..]);
    ExpandsWeighs(s, k[0]);
  }

  /** The calls in flight end: from any state at most Work(s) more steps are possible without a new call. */
  lemma {:induction false} CallsEnd(states: seq<State>, steps: seq<Step>)
    requires |states| == |steps| + 1
    requires forall i :: 0 <= i < |steps| ==> steps[i].Run? && Enabled(states[i], steps[i]) && states[i + 1] == Apply(states[i], steps[i])
    ensures |steps| + Work(states[|steps|]) <= Work(states[0])
    decreases |steps|
  {
    if steps != [] {
      var n := |steps| - 1;
      CallsEnd(states[..n + 1], steps[..n]);
      WorkDecreases(states[n], steps[n].t);
    }
  }
}
