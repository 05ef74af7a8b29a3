// The transient phase and v3 context of the universal executor, when everything it calls may call back in.
//
// UniversalExecutor.dfy runs the contract against venues that behave. Here the outside world is hostile:
// whenever the executor is waiting in a call, any address may enter any external function of it, any number
// of times and nested, and any frame may revert. Two things are taken on trust: Morpho calls
// `onMorphoFlashLoan`, and the PoolManager calls `unlockCallback`, only on the contract that is calling
// them, once per call, passing back its own data.
module PhaseMachine {
  import opened Evm
  import opened Ledgers
  import opened UniversalExecutor

  datatype Transient = Transient(phase: nat, v3: V3Context)

  const IDLE := Transient(0, NO_V3_CONTEXT)

  datatype Funding = FromInventory | FromLoan(quote: bool)

  /** The external call a run of actions is waiting in: a pair, router or token; a v3 pool; or the
      PoolManager, which may already have called back. */
  datatype Site = Plain | InV3 | InV4(outerPhase: nat, calledBack: bool)

  /** An executor function waiting in an external call. A revert of the frame restores what transient
      storage held when it was entered. */
  datatype Frame =
    | Run(funding: Funding, site: Site, saved: Transient)
    | Loan(quote: bool, calledBack: bool, repaid: bool, saved: Transient)
    | Unlock(outerPhase: nat, saved: Transient)
    | V3Callback(saved: Transient)
    | Withdrawal(saved: Transient)

  /** The stack of waiting frames, innermost last; code outside the executor is running. */
  datatype State = State(stack: seq<Frame>, now: Transient)

  const INITIAL := State([], IDLE)

  /** Where a run goes next when its external call returns. */
  datatype Next = ToPlain | ToV3(context: V3Context) | ToV4 | ToEnd

  datatype Event =
    | EnterInventory(sender: Address, operator: Address, valid: bool)
    | EnterFlash(sender: Address, operator: Address, valid: bool)
    | EnterQuote(valid: bool)
    | EnterLoanCallback(sender: Address, quote: bool)
    | EnterUnlock(sender: Address, outerPhase: nat)
    | EnterV3Callback(sender: Address, deltasOk: bool)
    | EnterWithdraw(sender: Address, operator: Address, to: Address)
    | Return(next: Next)
    | Revert

  function Top(s: State): Frame
    requires s.stack != []
  {
    s.stack[|s.stack| - 1]
  }

  function Below(s: State): seq<Frame>
    requires s.stack != []
  {
    s.stack[..|s.stack| - 1]
  }

  function Push(s: State, f: Frame, t: Transient): State {
    State(s.stack + [f], t)
  }

  function Replace(s: State, f: Frame, t: Transient): State
    requires s.stack != []
  {
    State(Below(s) + [f], t)
  }

  /** A callee that reverted has not called back. */
  function Forget(stack: seq<Frame>): seq<Frame> {
    if stack == [] then stack
    else
      var n := |stack| - 1;
      match stack[n]
      case Run(funding, InV4(outer, _), saved) => stack[..n] + [Run(funding, InV4(outer, false), saved)]
      case Loan(quote, _, repaid, saved) => stack[..n] + [Loan(quote, false, repaid, saved)]
      case _ => stack
  }

  /** The top frame reverts: transient storage is as it was when the frame was entered. */
  function Unwind(s: State): State
    requires s.stack != []
  {
    State(Forget(Below(s)), Top(s).saved)
  }

  /** A run continues from its call: leaving a v3 pool clears the context, leaving the manager checks that
      the enclosing phase is back, and the end of an inventory run clears the phase. */
  function ContinueRun(s: State, f: Frame, next: Next): State
    requires s.stack != [] && f.Run?
  {
    if f.site.InV4? && s.now.phase != f.site.outerPhase then Unwind(s)
    else
      var t := if f.site.InV3? then s.now.(v3 := NO_V3_CONTEXT) else s.now;
      match next
      case ToPlain => Replace(s, f.(site := Plain), t)
      case ToV3(context) =>
        if context.pool == ZERO then Unwind(s) else Replace(s, f.(site := InV3), t.(v3 := context))
      case ToV4 => Replace(s, f.(site := InV4(t.phase, false)), t.(phase := PHASE_V4_UNLOCK))
      case ToEnd => State(Below(s), if f.funding.FromInventory? then t.(phase := 0) else t)
  }

  function Apply(s: State, e: Event): State {
    match e
    case EnterInventory(sender, operator, valid) =>
      if sender != operator || s.now.phase != 0 || !valid then s
      else Push(s, Run(FromInventory, Plain, s.now), s.now.(phase := PHASE_INVENTORY))
    case EnterFlash(sender, operator, valid) =>
      if sender != operator || s.now.phase != 0 || !valid then s
      else Push(s, Loan(false, false, false, s.now), s.now.(phase := PHASE_FLASH))
    case EnterQuote(valid) =>
      if s.now.phase != 0 || !valid then s
      else Push(s, Loan(true, false, false, s.now), s.now.(phase := PHASE_QUOTE))
    case EnterLoanCallback(sender, quote) =>
      if sender != MORPHO || (s.now.phase != PHASE_FLASH && s.now.phase != PHASE_QUOTE)
         || quote != (s.now.phase == PHASE_QUOTE) || s.stack == [] || !Top(s).Loan?
      then s
      else Push(Replace(s, Top(s).(calledBack := true), s.now), Run(FromLoan(quote), Plain, s.now), s.now)
    case EnterUnlock(sender, outerPhase) =>
      if sender != POOL_MANAGER || s.now.phase != PHASE_V4_UNLOCK
         || !(outerPhase == PHASE_INVENTORY || outerPhase == PHASE_FLASH || outerPhase == PHASE_QUOTE)
         || s.stack == [] || !Top(s).Run? || !Top(s).site.InV4?
      then s
      else Push(Replace(s, Top(s).(site := Top(s).site.(calledBack := true)), s.now), Unlock(outerPhase, s.now), s.now)
    case EnterV3Callback(sender, deltasOk) =>
      if s.now.v3.pool == ZERO || sender != s.now.v3.pool || !deltasOk then s
      else Push(s, V3Callback(s.now), s.now)
    case EnterWithdraw(sender, operator, to) =>
      if sender != operator || s.now.phase != 0 || to == ZERO then s
      else Push(s, Withdrawal(s.now), s.now)
    case Return(next) =>
      if s.stack == [] then s
      else
        match Top(s) {
          case Run(_, _, _) => ContinueRun(s, Top(s), next)
          case Loan(quote, calledBack, repaid, saved) =>
            if quote then Unwind(s)
            else if !repaid then Replace(s, Loan(quote, calledBack, true, saved), s.now)
            else State(Below(s), s.now.(phase := 0))
          case Unlock(outerPhase, _) => State(Below(s), s.now.(phase := outerPhase))
          case V3Callback(_) => State(Below(s), s.now)
          case Withdrawal(_) => State(Below(s), s.now)
        }
    case Revert => if s.stack == [] then s else Unwind(s)
  }

  /** What is trusted of Morpho and the PoolManager. */
  predicate Honest(s: State, e: Event) {
    && (e.EnterLoanCallback? && e.sender == MORPHO ==>
          s.stack != [] && Top(s).Loan? && !Top(s).calledBack && !Top(s).repaid && e.quote == Top(s).quote)
    && (e.EnterUnlock? && e.sender == POOL_MANAGER ==>
          s.stack != [] && Top(s).Run? && Top(s).site.InV4? && !Top(s).site.calledBack
          && e.outerPhase == Top(s).site.outerPhase)
  }

  function PhaseOf(f: Funding): nat {
    match f
    case FromInventory => PHASE_INVENTORY
    case FromLoan(quote) => if quote then PHASE_QUOTE else PHASE_FLASH
  }

  /** What transient storage must hold while the last frame of a stack waits. */
  predicate Holds(stack: seq<Frame>, t: Transient) {
    if stack == [] then t == IDLE
    else
      match stack[|stack| - 1]
      case Run(funding, Plain, _) => t == Transient(PhaseOf(funding), NO_V3_CONTEXT)
      case Run(funding, InV3, _) => t.phase == PhaseOf(funding) && t.v3.pool != ZERO
      case Run(funding, InV4(outer, calledBack), _) =>
        outer == PhaseOf(funding) && t == Transient(if calledBack then outer else PHASE_V4_UNLOCK, NO_V3_CONTEXT)
      case Loan(quote, _, _, _) => t == Transient(if quote then PHASE_QUOTE else PHASE_FLASH, NO_V3_CONTEXT)
      case Unlock(_, _) => t == Transient(PHASE_V4_UNLOCK, NO_V3_CONTEXT)
      case V3Callback(saved) => t == saved
      case Withdrawal(_) => t == IDLE
  }

  /** What may stand on what: withdrawals only on withdrawals; a run from inventory, or a loan, on those; a
      run from a loan on that loan; an unlock on the run that waits in the manager, remembering its phase;
      v3 callbacks on a run that waits in a pool, and on each other. */
  predicate MayStandOn(f: Frame, below: seq<Frame>) {
    match f
    case Withdrawal(_) => below == [] || below[|below| - 1].Withdrawal?
    case Loan(_, _, _, _) => below == [] || below[|below| - 1].Withdrawal?
    case Run(FromInventory, _, _) => below == [] || below[|below| - 1].Withdrawal?
    case Run(FromLoan(quote), _, _) =>
      below != [] && below[|below| - 1].Loan? && below[|below| - 1].quote == quote && below[|below| - 1].calledBack
    case Unlock(outer, _) =>
      below != [] && below[|below| - 1].Run? && below[|below| - 1].site == InV4(outer, true)
      && PhaseOf(below[|below| - 1].funding) == outer
    case V3Callback(saved) =>
      below != [] && saved.v3.pool != ZERO
      && ((below[|below| - 1].Run? && below[|below| - 1].site.InV3?)
          || (below[|below| - 1].V3Callback? && below[|below| - 1].saved == saved))
  }

  /** Every frame stands on the right frame and remembers what held when it was entered. */
  predicate WellNested(stack: seq<Frame>) {
    stack == []
    || (var n := |stack| - 1;
        && WellNested(stack[..n])
        && MayStandOn(stack[n], stack[..n])
        && Holds(Forget(stack[..n]), stack[n].saved))
  }

  predicate Inv(s: State) {
    WellNested(s.stack) && Holds(s.stack, s.now)
  }

  lemma PushNests(stack: seq<Frame>, f: Frame)
    requires WellNested(stack) && MayStandOn(f, stack) && Holds(Forget(stack), f.saved)
    ensures WellNested(stack + [f])
  {
    assert (stack + [f])[..|stack|] == stack;
  }

  lemma ForgetNests(stack: seq<Frame>)
    requires WellNested(stack)
    ensures WellNested(Forget(stack))
  {
    if stack != [] {
      var n := |stack| - 1;
      match stack[n] {
        case Run(funding, InV4(outer, _), saved) => PushNests(stack[..n], Run(funding, InV4(outer, false), saved));
        case Loan(quote, _, repaid, saved) => PushNests(stack[..n], Loan(quote, false, repaid, saved));
        case _ =>
      }
    }
  }

  lemma UnwindKeeps(s: State)
    requires Inv(s) && s.stack != []
    ensures Inv(Unwind(s))
  {
    ForgetNests(Below(s));
  }

  /** A run that moves to another call keeps its place on the stack. */
  lemma MoveKeeps(s: State, site: Site, t: Transient)
    requires Inv(s) && s.stack != [] && Top(s).Run?
    requires Holds([Top(s).(site := site)], t)
    ensures Inv(Replace(s, Top(s).(site := site), t))
  {
    var f := Top(s).(site := site);
    assert MayStandOn(f, Below(s)) by {
      assert MayStandOn(Top(s), Below(s));
    }
    PushNests(Below(s), f);
  }

  lemma ContinueKeeps(s: State, next: Next)
    requires Inv(s) && s.stack != [] && Top(s).Run?
    ensures Inv(ContinueRun(s, Top(s), next))
  {
    UnwindKeeps(s);
    var f := Top(s);
    if !(f.site.InV4? && s.now.phase != f.site.outerPhase) {
      var t := Transient(PhaseOf(f.funding), NO_V3_CONTEXT);
      match next
      case ToPlain => MoveKeeps(s, Plain, t);
      case ToV3(context) =>
        if context.pool != ZERO {
          MoveKeeps(s, InV3, t.(v3 := context));
        }
      case ToV4 => MoveKeeps(s, InV4(t.phase, false), t.(phase := PHASE_V4_UNLOCK));
      case ToEnd => EndHolds(s);
    }
  }

  /** When a run ends, what is left is what the frame below expects. */
  lemma EndHolds(s: State)
    requires Inv(s) && s.stack != [] && Top(s).Run?
    ensures Top(s).funding.FromInventory? ==> Holds(Below(s), IDLE)
    ensures Top(s).funding.FromLoan? ==> Holds(Below(s), Transient(PhaseOf(Top(s).funding), NO_V3_CONTEXT))
  {
  }

  lemma LoanCallbackKeeps(s: State, e: Event)
    requires Inv(s) && Honest(s, e) && e.EnterLoanCallback?
    ensures Inv(Apply(s, e))
  {
    if Apply(s, e) != s {
      var f := Top(s).(calledBack := true);
      PushNests(Below(s), f);
      assert (Below(s) + [f])[..|s.stack| - 1] == Below(s);
      PushNests(Below(s) + [f], Run(FromLoan(e.quote), Plain, s.now));
    }
  }

  lemma UnlockKeeps(s: State, e: Event)
    requires Inv(s) && Honest(s, e) && e.EnterUnlock?
    ensures Inv(Apply(s, e))
  {
    if Apply(s, e) != s {
      var f := Top(s).(site := Top(s).site.(calledBack := true));
      PushNests(Below(s), f);
      assert (Below(s) + [f])[..|s.stack| - 1] == Below(s);
      PushNests(Below(s) + [f], Unlock(e.outerPhase, s.now));
    }
  }

  lemma V3CallbackKeeps(s: State, e: Event)
    requires Inv(s) && e.EnterV3Callback?
    ensures Inv(Apply(s, e))
  {
    if Apply(s, e) != s {
      PhaseTellsTop(s);
      PushNests(s.stack, V3Callback(s.now));
    }
  }

  /** Entering a run, a loan or a withdrawal needs an idle executor. */
  lemma EntryKeeps(s: State, e: Event)
    requires Inv(s)
    requires e.EnterInventory? || e.EnterFlash? || e.EnterQuote? || e.EnterWithdraw?
    ensures Inv(Apply(s, e))
  {
    if Apply(s, e) != s {
      PhaseTellsTop(s);
      PushNests(s.stack, Top(Apply(s, e)));
    }
  }

  /** The phase and context say what the top frame can be. */
  lemma PhaseTellsTop(s: State)
    requires Inv(s)
    ensures s.now.phase == 0 ==> s.now == IDLE && (s.stack == [] || Top(s).Withdrawal?)
    ensures s.now.v3.pool != ZERO ==>
              s.stack != [] && (Top(s).V3Callback? || (Top(s).Run? && Top(s).site.InV3?))
    decreases |s.stack|
  {
    if s.stack != [] && Top(s).V3Callback? {
      var below := Below(s);
      if below[|below| - 1].V3Callback? {
        PhaseTellsTop(State(below, Top(s).saved));
      }
    }
  }

  lemma ReturnKeeps(s: State, next: Next)
    requires Inv(s)
    ensures Inv(Apply(s, Return(next)))
  {
    if s.stack != [] {
      UnwindKeeps(s);
      match Top(s) {
        case Run(_, _, _) => ContinueKeeps(s, next);
        case Loan(quote, calledBack, repaid, saved) =>
          if !quote && !repaid {
            PushNests(Below(s), Loan(quote, calledBack, true, saved));
          }
        case Unlock(_, _) =>
        case V3Callback(_) =>
        case Withdrawal(_) =>
      }
    }
  }

  /** One step of anyone keeps the invariant. */
  lemma StepKeeps(s: State, e: Event)
    requires Inv(s) && Honest(s, e)
    ensures Inv(Apply(s, e))
  {
    if e.Return? {
      ReturnKeeps(s, e.next);
    } else if e.Revert? {
      if s.stack != [] {
        UnwindKeeps(s);
      }
    } else if e.EnterLoanCallback? {
      LoanCallbackKeeps(s, e);
    } else if e.EnterUnlock? {
      UnlockKeeps(s, e);
    } else if e.EnterV3Callback? {
      V3CallbackKeeps(s, e);
    } else {
      EntryKeeps(s, e);
    }
  }

  function After(events: seq<Event>): State {
    if events == [] then INITIAL else Apply(After(events[..|events| - 1]), events[|events| - 1])
  }

  predicate HonestRun(events: seq<Event>) {
    events == []
    || (HonestRun(events[..|events| - 1]) && Honest(After(events[..|events| - 1]), events[|events| - 1]))
  }

  lemma {:induction false} ReachableInv(events: seq<Event>)
    requires HonestRun(events)
    ensures Inv(After(events))
  {
    if events != [] {
      ReachableInv(events[..|events| - 1]);
      StepKeeps(After(events[..|events| - 1]), events[|events| - 1]);
    }
  }

  function Runs(stack: seq<Frame>): nat {
    if stack == [] then 0
    else Runs(stack[..|stack| - 1]) + if stack[|stack| - 1].Run? then 1 else 0
  }

  /** Some waiting run is inside a call to a v3 pool. */
  predicate SwappingOnV3(stack: seq<Frame>) {
    exists i :: 0 <= i < |stack| && stack[i].Run? && stack[i].site.InV3?
  }

  lemma {:induction false} StackFacts(stack: seq<Frame>, t: Transient)
    requires WellNested(stack) && Holds(stack, t)
    ensures Runs(stack) <= 1
    ensures stack != [] && (stack[|stack| - 1].Withdrawal? || stack[|stack| - 1].Loan?) ==> Runs(stack) == 0
    ensures t.v3.pool != ZERO ==> SwappingOnV3(stack) && PHASE_INVENTORY <= t.phase <= PHASE_QUOTE
    ensures t.phase == PHASE_V4_UNLOCK ==>
              stack != [] && (stack[|stack| - 1].Unlock?
                              || (stack[|stack| - 1].Run? && stack[|stack| - 1].site.InV4?))
    decreases |stack|
  {
    if stack != [] {
      var n := |stack| - 1;
      var f := stack[n];
      if f.V3Callback? {
        StackFacts(stack[..n], f.saved);
        var i :| 0 <= i < n && stack[..n][i].Run? && stack[..n][i].site.InV3?;
        assert stack[i].Run? && stack[i].site.InV3?;
      } else if n > 0 {
        Bottom(stack[..n]);
        match f {
          case Unlock(outer, saved) =>
            OneRun(stack[..n]);
          case _ =>
        }
      }
      if f.Run? && f.site.InV3? {
        assert SwappingOnV3(stack);
      }
    }
  }

  /** Below a withdrawal or a loan there is no run. */
  lemma {:induction false} Bottom(stack: seq<Frame>)
    requires WellNested(stack)
    ensures stack != [] && (stack[|stack| - 1].Withdrawal? || stack[|stack| - 1].Loan?) ==> Runs(stack) == 0
    decreases |stack|
  {
    if stack != [] {
      Bottom(stack[..|stack| - 1]);
    }
  }

  lemma OneRun(stack: seq<Frame>)
    requires WellNested(stack) && stack != [] && stack[|stack| - 1].Run?
    ensures Runs(stack) == 1
  {
    Bottom(stack[..|stack| - 1]);
  }

  /** In every state reachable through nested, hostile and reverting calls: a v3 context is set only in the
      inventory, flash or quote phase and only while a run waits in a v3 pool; the V4 phase is current only
      directly inside a V4 action; at most one run of actions is in progress; and when the outermost call
      has returned, phase and context are empty. */
  lemma PhasesAreSafe(events: seq<Event>)
    requires HonestRun(events)
    ensures var s := After(events);
            && (s.now.v3.pool != ZERO ==> PHASE_INVENTORY <= s.now.phase <= PHASE_QUOTE && SwappingOnV3(s.stack))
            && (s.now.phase == PHASE_V4_UNLOCK ==>
                  s.stack != [] && (Top(s).Unlock? || (Top(s).Run? && Top(s).site.InV4?)))
            && Runs(s.stack) <= 1
            && (s.stack == [] ==> s.now == IDLE)
            && (s.now.phase == 0 ==> s.now.v3 == NO_V3_CONTEXT && Runs(s.stack) == 0)
  {
    ReachableInv(events);
    var s := After(events);
    StackFacts(s.stack, s.now);
    PhaseTellsTop(s);
  }

  /** An unlock callback that returns has restored the phase of the run it interrupted. */
  lemma UnlockRestoresPhase(events: seq<Event>, next: Next)
    requires HonestRun(events) && After(events).stack != [] && Top(After(events)).Unlock?
    ensures var s := After(events);
            var s' := Apply(s, Return(next));
            && s'.stack == Below(s) && s'.stack != [] && Top(s').Run?
            && s'.now == Transient(PhaseOf(Top(s').funding), NO_V3_CONTEXT)
  {
    ReachableInv(events);
    UnlockReturns(After(events), next);
  }

  lemma UnlockReturns(s: State, next: Next)
    requires Inv(s) && s.stack != [] && Top(s).Unlock?
    ensures var s' := Apply(s, Return(next));
            && s'.stack == Below(s) && s'.stack != [] && Top(s').Run?
            && s'.now == Transient(PhaseOf(Top(s').funding), NO_V3_CONTEXT)
  {
  }

  /** Whatever a frame did, its revert puts back what held when it was entered, and entries that fail their
      checks change nothing. */
  lemma UnexpectedEntriesChangeNothing(events: seq<Event>, e: Event)
    requires HonestRun(events) && Honest(After(events), e)
    ensures var s := After(events);
            && (e.EnterLoanCallback? && e.sender != MORPHO ==> Apply(s, e) == s)
            && (e.EnterUnlock? && e.sender != POOL_MANAGER ==> Apply(s, e) == s)
            && (e.EnterV3Callback? && !SwappingOnV3(s.stack) ==> Apply(s, e) == s)
            && (Runs(s.stack) > 0 && (e.EnterInventory? || e.EnterFlash? || e.EnterQuote? || e.EnterWithdraw?)
                ==> Apply(s, e) == s)
  {
    PhasesAreSafe(events);
  }
}
