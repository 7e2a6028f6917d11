/** lazyIter of cmd/node/session.go: an iterator opened on the first Next after a ready
    signal, under any interleaving of Next and Close calls. Each thread is one call; a
    step is one channel operation, one lock or unlock, or one call of the inner iterator. */
module LazyIter {

  datatype Pc =
    // Next
    | NextCall          // at once.Do
    | AwaitReady        // in the select on ready and closed
    | WantLock
    | CheckClosed       // holds mu
    | Opening           // holds mu, closed was not seen
    | Unlocking         // holds mu
    | OnceReturn
    | NextRead          // about to read the iterator under mu
    | Pull(got: bool)
    // Close
    | CloseCall         // at closeOnce.Do
    | Closing           // about to close the channel
    | CloseRead
    | Shut(got: bool)
    | CloseReturn
    | Returned(byClose: bool)

  datatype Once = NotRun | Running(tid: nat) | Ran

  /** `opens` and `shuts` count the calls of open and of the inner iterator's Close. */
  datatype State = State(pcs: seq<Pc>, ready: bool, closed: bool, mu: bool, once: Once, closeOnce: Once, opens: nat,
                         shuts: nat)

  /** What a thread's next step needs; `Signal` below is the outside world's. */
  predicate Enabled(s: State, t: nat) {
    t < |s.pcs| &&
    match s.pcs[t]
    case NextCall => !s.once.Running?
    case AwaitReady => s.ready || s.closed
    case WantLock => !s.mu
    case NextRead => !s.mu
    case CloseCall => !s.closeOnce.Running?
    case CloseRead => !s.mu
    case Returned(_) => false
    case _ => true
  }

  /** The step thread `t` takes; `choice` resolves the select when both channels are ready. */
  function Step(s: State, t: nat, choice: bool): State
    requires Enabled(s, t)
  {
    match s.pcs[t]
    case NextCall =>
      if s.once == NotRun then s.(once := Running(t), pcs := s.pcs[t := AwaitReady])
      else s.(pcs := s.pcs[t := NextRead])
    case AwaitReady => s.(pcs := s.pcs[t := if s.ready && (choice || !s.closed) then WantLock else OnceReturn])
    case WantLock => s.(mu := true, pcs := s.pcs[t := CheckClosed])
    case CheckClosed => s.(pcs := s.pcs[t := if s.closed then Unlocking else Opening])
    case Opening => s.(opens := s.opens + 1, pcs := s.pcs[t := Unlocking])
    case Unlocking => s.(mu := false, pcs := s.pcs[t := OnceReturn])
    case OnceReturn => s.(once := Ran, pcs := s.pcs[t := NextRead])
    case NextRead => s.(pcs := s.pcs[t := Pull(s.opens > 0)])
    case Pull(_) => s.(pcs := s.pcs[t := Returned(false)])
    case CloseCall =>
      if s.closeOnce == NotRun then s.(closeOnce := Running(t), pcs := s.pcs[t := Closing])
      else s.(pcs := s.pcs[t := Returned(true)])
    case Closing => s.(closed := true, pcs := s.pcs[t := CloseRead])
    case CloseRead => s.(pcs := s.pcs[t := Shut(s.opens > 0)])
    case Shut(got) => s.(shuts := if got then s.shuts + 1 else s.shuts, pcs := s.pcs[t := CloseReturn])
    case CloseReturn => s.(closeOnce := Ran, pcs := s.pcs[t := Returned(true)])
    case Returned(_) => s
  }

  /** What can happen: a thread's step, the ready signal, a new call. */
  datatype Move = Thread(t: nat, choice: bool) | Signal | CallNext | CallClose

  predicate Possible(s: State, m: Move) {
    m.Thread? ==> Enabled(s, m.t)
  }

  function Apply(s: State, m: Move): State
    requires Possible(s, m)
  {
    match m
    case Thread(t, choice) => Step(s, t, choice)
    case Signal => s.(ready := true)
    case CallNext => s.(pcs := s.pcs + [NextCall])
    case CallClose => s.(pcs := s.pcs + [CloseCall])
  }

  const NEW := State([], false, false, false, NotRun, NotRun, 0, 0)

  // ------------------------------------------------------------------ invariant

  predicate InOnce(pc: Pc) {
    pc.AwaitReady? || pc.WantLock? || pc.CheckClosed? || pc.Opening? || pc.Unlocking? || pc.OnceReturn?
  }

  predicate HoldsLock(pc: Pc) {
    pc.CheckClosed? || pc.Opening? || pc.Unlocking?
  }

  predicate InClose(pc: Pc) {
    pc.Closing? || pc.CloseRead? || pc.Shut? || pc.CloseReturn?
  }

  /** The closer has read the iterator: from here on nothing can be opened. */
  predicate PastRead(pc: Pc) {
    pc.Shut? || pc.CloseReturn?
  }

  ghost predicate ThreadOk(s: State, t: nat)
    requires t < |s.pcs|
  {
    var pc := s.pcs[t];
    && (InOnce(pc) <==> s.once == Running(t))
    && (HoldsLock(pc) ==> s.mu)
    && (InClose(pc) <==> s.closeOnce == Running(t))
    && (pc == Opening ==> s.opens == 0 && !s.closeOnce.Ran?)
    && (pc == Opening && s.closeOnce.Running? && s.closeOnce.tid < |s.pcs| ==> !PastRead(s.pcs[s.closeOnce.tid]))
    && (pc.AwaitReady? || pc.WantLock? || pc.CheckClosed? ==> s.opens == 0)
    && (pc.CloseRead? || PastRead(pc) ==> s.closed)
    && (pc.Shut? ==> pc.got == (s.opens > 0) && s.shuts == 0)
    && (pc == CloseReturn ==> s.shuts == s.opens)
    && (pc.Closing? || pc.CloseRead? ==> s.shuts == 0)
    && (pc == Returned(true) ==> s.closeOnce == Ran)
  }

  ghost predicate SharedOk(s: State) {
    && (s.mu ==> s.once.Running? && s.once.tid < |s.pcs| && HoldsLock(s.pcs[s.once.tid]))
    && (s.once.Running? ==> s.once.tid < |s.pcs|) && (s.closeOnce.Running? ==> s.closeOnce.tid < |s.pcs|)
    && s.opens <= 1 && s.shuts <= s.opens && (s.once == NotRun ==> s.opens == 0)
    && (s.closeOnce == NotRun ==> !s.closed && s.shuts == 0)
    && (s.closeOnce == Ran ==> s.closed && s.shuts == s.opens)
  }

  ghost predicate Inv(s: State) {
    SharedOk(s) && forall t: nat :: t < |s.pcs| ==> ThreadOk(s, t)
  }

  lemma StepShared(s: State, t: nat, choice: bool)
    requires SharedOk(s) && Enabled(s, t) && ThreadOk(s, t)
    ensures SharedOk(Step(s, t, choice))
  {
  }

  lemma StepOwn(s: State, t: nat, choice: bool)
    requires SharedOk(s) && Enabled(s, t) && ThreadOk(s, t)
    requires s.closeOnce.Running? ==> s.closeOnce.tid < |s.pcs| && ThreadOk(s, s.closeOnce.tid)
    ensures ThreadOk(Step(s, t, choice), t)
  {
    if s.pcs[t].CheckClosed? {
      StepCheck(s, t, choice);
    } else if InOnce(s.pcs[t]) || s.pcs[t].NextCall? {
      StepNext(s, t, choice);
    }
  }

  lemma StepCheck(s: State, t: nat, choice: bool)
    requires SharedOk(s) && Enabled(s, t) && ThreadOk(s, t) && s.pcs[t].CheckClosed?
    requires s.closeOnce.Running? ==> ThreadOk(s, s.closeOnce.tid)
    ensures ThreadOk(Step(s, t, choice), t)
  {
  }

  lemma StepNext(s: State, t: nat, choice: bool)
    requires SharedOk(s) && Enabled(s, t) && ThreadOk(s, t)
    requires (InOnce(s.pcs[t]) && !s.pcs[t].CheckClosed?) || s.pcs[t].NextCall?
    ensures ThreadOk(Step(s, t, choice), t)
  {
  }

  /** A step of `t` leaves every other thread's promises alone: what it may change is shown by where it is. */
  lemma StepOther(s: State, t: nat, choice: bool, u: nat)
    requires SharedOk(s) && Enabled(s, t) && ThreadOk(s, t) && u < |s.pcs| && u != t && ThreadOk(s, u)
    ensures ThreadOk(Step(s, t, choice), u)
  {
    if InOnce(s.pcs[t]) {
      OnceOther(s, t, choice, u);
    } else if InClose(s.pcs[t]) {
      CloseOther(s, t, choice, u);
    } else {
      QuietOther(s, t, choice, u);
    }
  }

  lemma OnceOther(s: State, t: nat, choice: bool, u: nat)
    requires SharedOk(s) && Enabled(s, t) && ThreadOk(s, t) && u < |s.pcs| && u != t && ThreadOk(s, u)
    requires InOnce(s.pcs[t])
    ensures ThreadOk(Step(s, t, choice), u)
  {
    assert !InOnce(s.pcs[u]);
    if s.pcs[t].Opening? {
      OpeningOther(s, t, choice, u);
    }
  }

  lemma OpeningOther(s: State, t: nat, choice: bool, u: nat)
    requires SharedOk(s) && Enabled(s, t) && ThreadOk(s, t) && u < |s.pcs| && u != t && ThreadOk(s, u)
    requires s.pcs[t].Opening?
    ensures ThreadOk(Step(s, t, choice), u)
  {
  }

  lemma CloseOther(s: State, t: nat, choice: bool, u: nat)
    requires SharedOk(s) && Enabled(s, t) && ThreadOk(s, t) && u < |s.pcs| && u != t && ThreadOk(s, u)
    requires InClose(s.pcs[t])
    ensures ThreadOk(Step(s, t, choice), u)
  {
    assert !InClose(s.pcs[u]);
  }

  lemma QuietOther(s: State, t: nat, choice: bool, u: nat)
    requires SharedOk(s) && Enabled(s, t) && ThreadOk(s, t) && u < |s.pcs| && u != t && ThreadOk(s, u)
    requires !InOnce(s.pcs[t]) && !InClose(s.pcs[t])
    ensures ThreadOk(Step(s, t, choice), u)
  {
  }

  lemma StepLength(s: State, t: nat, choice: bool)
    requires Enabled(s, t)
    ensures |Step(s, t, choice).pcs| == |s.pcs|
  {
  }

  lemma OutsideShared(s: State, m: Move)
    requires SharedOk(s) && !m.Thread?
    ensures SharedOk(Apply(s, m))
  {
  }

  lemma OutsideThread(s: State, m: Move, u: nat)
    requires SharedOk(s) && !m.Thread? && u < |Apply(s, m).pcs| && (u < |s.pcs| ==> ThreadOk(s, u))
    ensures ThreadOk(Apply(s, m), u)
  {
  }

  lemma MoveInv(s: State, m: Move)
    requires Inv(s) && Possible(s, m)
    ensures Inv(Apply(s, m))
  {
    hide ThreadOk, SharedOk, Step;
    var s' := Apply(s, m);
    if m.Thread? {
      StepLength(s, m.t, m.choice);
      StepShared(s, m.t, m.choice);
      forall u: nat | u < |s'.pcs| ensures ThreadOk(s', u) {
        if u == m.t {
          CloserOk(s);
          StepOwn(s, m.t, m.choice);
        } else {
          StepOther(s, m.t, m.choice, u);
        }
      }
    } else {
      OutsideShared(s, m);
      forall u: nat | u < |s'.pcs| ensures ThreadOk(s', u) {
        OutsideThread(s, m, u);
      }
    }
  }

  lemma CloserOk(s: State)
    requires Inv(s)
    ensures s.closeOnce.Running? ==> s.closeOnce.tid < |s.pcs| && ThreadOk(s, s.closeOnce.tid)
  {
  }

  // ------------------------------------------------------------------- theorems

  predicate Legal(s: State, moves: seq<Move>)
    decreases |moves|
  {
    moves == [] || (Possible(s, moves[0]) && Legal(Apply(s, moves[0]), moves[1..]))
  }

  function Run(s: State, moves: seq<Move>): State
    requires Legal(s, moves)
    decreases |moves|
  {
    if moves == [] then s else Run(Apply(s, moves[0]), moves[1..])
  }

  lemma {:induction false} RunInv(s: State, moves: seq<Move>)
    requires Inv(s) && Legal(s, moves)
    ensures Inv(Run(s, moves))
    decreases |moves|
  {
    if moves != [] {
      MoveInv(s, moves[0]);
      RunInv(Apply(s, moves[0]), moves[1..]);
    }
  }

  /** Once some Close has returned nothing is opened any more. */
  lemma {:induction false} NothingOpensLate(s: State, moves: seq<Move>)
    requires Inv(s) && Legal(s, moves) && s.closeOnce == Ran
    ensures Run(s, moves).opens == s.opens && Run(s, moves).shuts == s.shuts
    decreases |moves|
  {
    if moves != [] {
      MoveInv(s, moves[0]);
      if moves[0].Thread? {
        assert ThreadOk(s, moves[0].t);
      }
      NothingOpensLate(Apply(s, moves[0]), moves[1..]);
    }
  }

  /** Any calls in any interleaving, `before` and then `after`: the inner iterator is opened at
      most once and closed at most once; and if a Close had returned after `before`, then what
      was opened had been closed, and nothing is opened later. */
  lemma NeitherLeaksNorOpensLate(before: seq<Move>, after: seq<Move>, t: nat)
    requires Legal(NEW, before) && Legal(Run(NEW, before), after)
    ensures var s, e := Run(NEW, before), Run(Run(NEW, before), after);
            && s.opens <= 1 && s.shuts <= s.opens
            && (t < |s.pcs| && s.pcs[t] == Returned(true) ==>
                  s.shuts == s.opens && e.opens == s.opens && e.shuts == s.shuts)
  {
    RunInv(NEW, before);
    var s := Run(NEW, before);
    if t < |s.pcs| && s.pcs[t] == Returned(true) {
      assert ThreadOk(s, t);
      NothingOpensLate(s, after);
    }
  }

  /** Steps a call still has ahead of it at most. */
  function Ahead(pc: Pc): nat {
    match pc
    case NextCall => 9
    case AwaitReady => 8
    case WantLock => 7
    case CheckClosed => 6
    case Opening => 5
    case Unlocking => 4
    case OnceReturn => 3
    case NextRead => 2
    case Pull(_) => 1
    case CloseCall => 5
    case Closing => 4
    case CloseRead => 3
    case Shut(_) => 2
    case CloseReturn => 1
    case Returned(_) => 0
  }

  function Work(pcs: seq<Pc>): nat {
    if pcs == [] then 0 else Ahead(pcs[0]) + Work(pcs[1..])
  }

  lemma {:induction false} WorkUpdate(pcs: seq<Pc>, t: nat, pc: Pc)
    requires t < |pcs|
    ensures Work(pcs[t := pc]) == Work(pcs) - Ahead(pcs[t]) + Ahead(pc)
  {
    if t == 0 {
      assert pcs[t := pc][1..] == pcs[1..];
    } else {
      WorkUpdate(pcs[1..], t - 1, pc);
      assert pcs[t := pc][1..] == pcs[1..][t - 1 := pc];
    }
  }

  lemma StepProgress(s: State, t: nat, choice: bool)
    requires Enabled(s, t)
    ensures Work(Step(s, t, choice).pcs) < Work(s.pcs)
  {
    StepAdvances(s, t, choice);
    hide Step, Ahead;
    WorkUpdate(s.pcs, t, Step(s, t, choice).pcs[t]);
  }

  lemma StepAdvances(s: State, t: nat, choice: bool)
    requires Enabled(s, t)
    ensures var s' := Step(s, t, choice);
            |s'.pcs| == |s.pcs| && s'.pcs == s.pcs[t := s'.pcs[t]] && Ahead(s'.pcs[t]) < Ahead(s.pcs[t])
  {
  }

  /** Close releases everyone: once the channel is closed no call waits for the ready signal;
      while any call is unfinished some thread can step, and each step shortens the work. */
  lemma CloseReleases(moves: seq<Move>, u: nat) returns (t: nat)
    requires Legal(NEW, moves) && Run(NEW, moves).closed
    requires u < |Run(NEW, moves).pcs| && !Run(NEW, moves).pcs[u].Returned?
    ensures Enabled(Run(NEW, moves), t)
    ensures forall choice :: Work(Step(Run(NEW, moves), t, choice).pcs) < Work(Run(NEW, moves).pcs)
  {
    RunInv(NEW, moves);
    var s := Run(NEW, moves);
    assert ThreadOk(s, u);
    if Enabled(s, u) {
      t := u;
    } else if s.mu || s.pcs[u].NextCall? {
      t := s.once.tid;
      assert ThreadOk(s, t);
    } else {
      t := s.closeOnce.tid;
      assert ThreadOk(s, t);
    }
    forall choice ensures Work(Step(s, t, choice).pcs) < Work(s.pcs) {
      StepProgress(s, t, choice);
    }
  }
}
