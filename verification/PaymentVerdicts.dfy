/** What a verification's verdict has to do with what is saved: no transaction is confirmed, failed or credited without
    the verdict that says so, and the next save does what the verdict says. */
module PaymentVerdicts {
  import opened Options
  import opened JobQueue
  import opened JobQueueSafety
  import opened PaymentJob
  import opened PaymentSafety
  import opened PaymentProgress
  import opened PaymentCompletion

  // ----- verdicts of a run ---------------------------------------------------

  type Judgement = (Verdict, Context) -> bool

  function Confirms(): Judgement { (v: Verdict, c: Context) => v.Verified? }

  /** Not on the chain for good, or not there yet in the last attempt. */
  function Rejects(): Judgement {
    (v: Verdict, c: Context) => v == Rejected(false) || (v == Rejected(true) && c.attempt >= c.maxAttempts)
  }

  /** The action is a handler of `x`, about to verify, hearing such a verdict. */
  predicate Hears(w: World, a: Action, x: string, good: Judgement) {
    && a.Run? && a.ticket in w.phases && a.ticket in w.queue.claims && Subject(w, a.ticket) == x
    && w.phases[a.ticket].Verifying? && good(a.verdict, ContextOf(w, a.ticket))
  }

  ghost predicate Heard(w: World, actions: seq<Action>, x: string, good: Judgement)
    requires Possible(w, actions)
    decreases |actions|
  {
    actions != [] && (Hears(w, actions[0], x, good) || Heard(Do(w, actions[0]), actions[1..], x, good))
  }

  // ----- what a row owes to verdicts -----------------------------------------

  predicate PhaseOwes(p: Phase, tx: Tx, yes: bool, no: bool) {
    && (p.SavingConfirmed? ==> yes)
    && (p.SavingFailed? ==> no)
    && (Earning(p) ==> yes && !tx.donation)
    && (p.EarnCrediting? || p.EarnLogging? ==> tx.hasCreator)
  }

  predicate RowOwes(row: Option<Tx>, tx: Tx, yes: bool, no: bool) {
    row.Some? ==>
      && row.value.donation == tx.donation && row.value.hasCreator == tx.hasCreator
      && (row.value.status.Confirmed? ==> yes) && (row.value.status.Failed? ==> no)
  }

  /** Row `x`, admitted as `tx`: what it, its handlers and its credits owe to the verdicts heard so far. */
  ghost predicate Owes(w: World, x: string, tx: Tx, yes: bool, no: bool) {
    && RowOwes(RowOf(w, x), tx, yes, no)
    && (CreditsOf(w, x) > 0 ==> yes && !tx.donation && tx.hasCreator)
    && forall t :: t in w.phases && t in w.queue.claims && Subject(w, t) == x ==> PhaseOwes(w.phases[t], tx, yes, no)
  }

  lemma QueueStepOwes(w: World, step: Step, x: string, tx: Tx, yes: bool, no: bool)
    requires Numbered(w.queue) && PhasesClaimed(w) && Can(w, QueueStep(step)) && Owes(w, x, tx, yes, no)
    ensures Owes(Do(w, QueueStep(step)), x, tx, yes, no)
  {
    var w' := Do(w, QueueStep(step));
    StepClaimsFrame(w.queue, step);
    forall t | t in w'.phases && t in w'.queue.claims && Subject(w', t) == x
      ensures PhaseOwes(w'.phases[t], tx, yes, no)
    {
      if !(step.Poll? && t == w.queue.nextTicket) {
        assert t in w.phases && t in w.queue.claims;
      }
    }
  }

  lemma TableActionOwes(w: World, a: Action, x: string, tx: Tx, yes: bool, no: bool)
    requires Can(w, a) && !a.QueueStep? && !a.Run? && x in w.hashes && Owes(w, x, tx, yes, no)
    ensures Owes(Do(w, a), x, tx, yes, no)
  {
  }

  lemma OtherHandlerOwes(w: World, w': World, t: nat, x: string, tx: Tx, yes: bool, no: bool)
    requires t in w.queue.claims && OnlyOwn(w, w', t) && Subject(w, t) != x && Owes(w, x, tx, yes, no)
    ensures Owes(w', x, tx, yes, no)
  {
    assert RowOf(w', x) == RowOf(w, x) && CreditsOf(w', x) == CreditsOf(w, x);
  }

  /** A handler of `x` and the row it works on. */
  predicate OwnOwes(w: World, t: nat, x: string, tx: Tx, yes: bool, no: bool) {
    && t in w.phases && PhaseOwes(w.phases[t], tx, yes, no) && RowOwes(RowOf(w, x), tx, yes, no)
    && (CreditsOf(w, x) > 0 ==> yes && !tx.donation && tx.hasCreator)
  }

  lemma SaveOwes(w: World, t: nat, x: string, tx: Tx, yes: bool, no: bool)
    requires t in w.queue.claims && Subject(w, t) == x && OwnOwes(w, t, x, tx, yes, no) && Saving(w.phases[t])
    requires x in w.txs ==> !Settled(w.txs[x])
    ensures OwnOwes(RunSave(w, t), t, x, tx, yes, no)
  {
  }

  lemma EarnOwes(w: World, t: nat, x: string, tx: Tx, yes: bool, no: bool)
    requires t in w.queue.claims && Subject(w, t) == x && OwnOwes(w, t, x, tx, yes, no) && Earning(w.phases[t])
    ensures OwnOwes(RunEarn(w, t), t, x, tx, yes, no)
  {
  }

  /** Verifying is where verdicts come in. */
  lemma PlainOwes(w: World, t: nat, v: Verdict, x: string, tx: Tx, yes: bool, no: bool)
    requires Can(w, Run(t, v)) && Subject(w, t) == x && OwnOwes(w, t, x, tx, yes, no)
    requires !Saving(w.phases[t]) && !Earning(w.phases[t])
    ensures OwnOwes(RunHandler(w, t, v), t, x, tx, yes || Hears(w, Run(t, v), x, Confirms()),
                    no || Hears(w, Run(t, v), x, Rejects()))
  {
  }

  lemma OwnHandlerOwes(w: World, t: nat, v: Verdict, x: string, tx: Tx, yes: bool, no: bool)
    requires PhasesOk(w) && Can(w, Run(t, v)) && Subject(w, t) == x && OwnOwes(w, t, x, tx, yes, no)
    ensures OwnOwes(RunHandler(w, t, v), t, x, tx, yes || Hears(w, Run(t, v), x, Confirms()),
                    no || Hears(w, Run(t, v), x, Rejects()))
  {
    if Saving(w.phases[t]) {
      assert PhaseOk(w.phases[t], CreditsOf(w, Subject(w, t)), RowOf(w, Subject(w, t)));
      SaveOwes(w, t, x, tx, yes, no);
    } else if Earning(w.phases[t]) {
      EarnOwes(w, t, x, tx, yes, no);
    } else {
      PlainOwes(w, t, v, x, tx, yes, no);
    }
  }

  lemma HandlerOwes(w: World, w': World, t: nat, x: string, tx: Tx, yes: bool, no: bool, yes': bool, no': bool)
    requires t in w.queue.claims && t in w.phases && OnlyOwn(w, w', t) && Subject(w, t) == x
    requires Owes(w, x, tx, yes, no) && (yes ==> yes') && (no ==> no') && OwnOwes(w', t, x, tx, yes', no')
    ensures Owes(w', x, tx, yes', no')
  {
    forall u | u in w'.phases && u in w'.queue.claims && Subject(w', u) == x
      ensures PhaseOwes(w'.phases[u], tx, yes', no')
    {
      assert u != t ==> w'.phases[u] == w.phases[u];
    }
  }

  lemma ActionOwes(w: World, a: Action, x: string, tx: Tx, yes: bool, no: bool)
    requires WorldInv(w) && Can(w, a) && x in w.hashes && Owes(w, x, tx, yes, no)
    ensures Owes(Do(w, a), x, tx, yes || Hears(w, a, x, Confirms()), no || Hears(w, a, x, Rejects()))
  {
    if a.QueueStep? {
      QueueStepOwes(w, a.step, x, tx, yes, no);
    } else if !a.Run? {
      TableActionOwes(w, a, x, tx, yes, no);
    } else {
      var t, w' := a.ticket, Do(w, a);
      OwnRowOk(w, t);
      HandlerEffect(w, t, a.verdict);
      if Subject(w, t) == x {
        OwnHandlerOwes(w, t, a.verdict, x, tx, yes, no);
        HandlerOwes(w, w', t, x, tx, yes, no, yes || Hears(w, a, x, Confirms()), no || Hears(w, a, x, Rejects()));
      } else {
        OtherHandlerOwes(w, w', t, x, tx, yes, no);
      }
    }
  }

  lemma {:induction false} RunOwes(w: World, actions: seq<Action>, x: string, tx: Tx, yes: bool, no: bool)
    requires WorldInv(w) && Possible(w, actions) && x in w.hashes && Owes(w, x, tx, yes, no)
    ensures Owes(Outcome(w, actions), x, tx, yes || Heard(w, actions, x, Confirms()),
                 no || Heard(w, actions, x, Rejects()))
    decreases |actions|
  {
    if actions != [] {
      var a := actions[0];
      ActionKeeps(w, a);
      ActionOwes(w, a, x, tx, yes, no);
      IdsAreNotReused(w, a, x);
      RunOwes(Do(w, a), actions[1..], x, tx, yes || Hears(w, a, x, Confirms()), no || Hears(w, a, x, Rejects()));
    }
  }

  // ----- from the admission on -----------------------------------------------

  lemma AdmittedOwesNothing(w: World, x: string, tx: Tx)
    requires WorldInv(w) && Can(w, Admit(x, tx)) && !Settled(tx)
    ensures Owes(Do(w, Admit(x, tx)), x, tx, false, false)
  {
    var w' := Do(w, Admit(x, tx));
    if CreditsOf(w, x) > 0 { CreditedRowStands(w, x); }
    forall t | t in w'.phases && t in w'.queue.claims ensures Subject(w', t) != x {
      KnownSubject(w, t);
    }
  }

  lemma {:induction false} AdmittedOnce(w: World, actions: seq<Action>, x: string, tx: Tx)
    requires Possible(w, actions) && x in w.hashes
    ensures Admit(x, tx) !in actions
    decreases |actions|
  {
    if actions != [] {
      IdsAreNotReused(w, actions[0], x);
      AdmittedOnce(Do(w, actions[0]), actions[1..], x, tx);
    }
  }

  /** What the verdicts of a run account for. */
  ghost predicate Accounted(w: World, actions: seq<Action>, x: string, tx: Tx)
    requires Possible(w, actions)
  {
    var w' := Outcome(w, actions);
    && (x in w'.txs && w'.txs[x].status.Confirmed? ==> Heard(w, actions, x, Confirms()))
    && (x in w'.txs && w'.txs[x].status.Failed? ==> Heard(w, actions, x, Rejects()))
    && (CreditsOf(w', x) > 0 ==> Heard(w, actions, x, Confirms()) && !tx.donation && tx.hasCreator)
  }

  lemma {:induction false} AccountedFrom(w: World, actions: seq<Action>, x: string, tx: Tx)
    requires WorldInv(w) && Possible(w, actions) && Admit(x, tx) in actions && !Settled(tx)
    ensures Accounted(w, actions, x, tx)
    decreases |actions|
  {
    var a, w' := actions[0], Do(w, actions[0]);
    ActionKeeps(w, a);
    if a == Admit(x, tx) {
      AdmittedOwesNothing(w, x, tx);
      RunOwes(w', actions[1..], x, tx, false, false);
    } else {
      assert Admit(x, tx) in actions[1..];
      AccountedFrom(w', actions[1..], x, tx);
    }
  }

  /** Over every run, crashes and failing calls included: a transaction that is stored unsettled is confirmed only if a
      handler of it, verifying, was told that it is paid; failed only if one was told that it is not, for good or in its
      last attempt; and credited only if it is a purchase with a creator and one was told that it is paid. */
  lemma {:induction false} SettledOnlyByVerdict(actions: seq<Action>, x: string, tx: Tx)
    requires Possible(Begin, actions) && Admit(x, tx) in actions && !Settled(tx)
    ensures Accounted(Begin, actions, x, tx)
  {
    BeginInv();
    AccountedFrom(Begin, actions, x, tx);
  }

  // ----- and the next save does what it says ---------------------------------

  predicate LeavesTo(a: Action, t: nat) { !(a.Run? && a.ticket == t) }

  /** The handler is where it was, with the row it claimed. */
  predicate StaysAt(w: World, w': World, t: nat) {
    && t in w.phases && t in w.queue.claims && t in w'.phases && t in w'.queue.claims
    && w'.phases[t] == w.phases[t] && w'.queue.claims[t] == w.queue.claims[t]
  }

  predicate AboutToSave(w: World, t: nat) { t in w.phases && t in w.queue.claims && Saving(w.phases[t]) }

  lemma QueueStepWaits(w: World, step: Step, t: nat)
    requires Numbered(w.queue) && Smooth(w, QueueStep(step)) && AboutToSave(w, t)
    ensures StaysAt(w, Do(w, QueueStep(step)), t)
  {
    StepClaimsFrame(w.queue, step);
  }

  lemma OtherHandlerWaits(w: World, w': World, u: nat, t: nat)
    requires u in w.queue.claims && OnlyOwn(w, w', u) && u != t && AboutToSave(w, t)
    ensures StaysAt(w, w', t)
  {
  }

  /** Until it acts, a handler about to save stays where it is. */
  lemma HandlerWaits(w: World, a: Action, t: nat)
    requires WorldInv(w) && Smooth(w, a) && LeavesTo(a, t) && AboutToSave(w, t)
    ensures StaysAt(w, Do(w, a), t)
  {
    if a.QueueStep? {
      QueueStepWaits(w, a.step, t);
    } else if a.Run? {
      OwnRowOk(w, a.ticket);
      HandlerEffect(w, a.ticket, a.verdict);
      OtherHandlerWaits(w, Do(w, a), a.ticket, t);
    }
  }

  ghost predicate StepKeeps(p: World -> bool, w: World, a: Action) {
    p(w) && Smooth(w, a) ==> p(Do(w, a))
  }

  /** Whatever every allowed smooth action keeps, every run of them keeps. */
  lemma {:induction false} SmoothRunKeepsAny(w: World, actions: seq<Action>, p: World -> bool, allowed: Action -> bool)
    requires SmoothRun(w, actions) && p(w) && forall i :: 0 <= i < |actions| ==> allowed(actions[i])
    requires forall u, a :: allowed(a) ==> StepKeeps(p, u, a)
    ensures Possible(w, actions) && p(Outcome(w, actions))
    decreases |actions|
  {
    if actions != [] {
      assert allowed(actions[0]);
      assert StepKeeps(p, w, actions[0]);
      SmoothRunKeepsAny(Do(w, actions[0]), actions[1..], p, allowed);
    }
  }

  ghost predicate WaitsSince(w: World, now: World, t: nat) {
    WorldInv(now) && StaysAt(w, now, t) && AboutToSave(now, t)
  }

  lemma WaitsOn(w: World, now: World, a: Action, t: nat)
    requires WaitsSince(w, now, t) && Smooth(now, a) && LeavesTo(a, t)
    ensures WaitsSince(w, Do(now, a), t)
  {
    ActionKeeps(now, a);
    HandlerWaits(now, a, t);
  }

  lemma {:induction false} HandlerWaitsLong(w: World, actions: seq<Action>, t: nat)
    requires WorldInv(w) && SmoothRun(w, actions) && AboutToSave(w, t)
    requires forall i :: 0 <= i < |actions| ==> LeavesTo(actions[i], t)
    ensures Possible(w, actions) && WaitsSince(w, Outcome(w, actions), t)
  {
    ghost var p := (now: World) => WaitsSince(w, now, t);
    var allowed := (a: Action) => LeavesTo(a, t);
    forall now, a | allowed(a) ensures StepKeeps(p, now, a) {
      if p(now) && Smooth(now, a) { WaitsOn(w, now, a, t); }
    }
    SmoothRunKeepsAny(w, actions, p, allowed);
  }

  /** What saving after verdict `v` in attempt `c` makes of row `tx`, and what the handler goes on to. */
  predicate SavedAs(v: Verdict, c: Context, tx: Tx, saved: Tx, next: Phase) {
    && (v.Verified? ==>
          && saved == tx.(status := TxStatus.Confirmed, expiresAt := None)
          && next == if tx.donation then Pledging else EarnChecking)
    && (Rejects()(v, c) ==>
          saved == tx.(status := TxStatus.Failed, expiresAt := None, retryCount := c.attempt) && next == Returned)
    && (v == Rejected(true) && c.attempt < c.maxAttempts ==>
          saved == tx.(retryCount := c.attempt) && next == Throwing)
  }

  lemma SaveDoes(w: World, t: nat, v: Verdict, c: Context)
    requires t in w.phases && t in w.queue.claims && ContextOf(w, t) == c && NoExpiryOnceTerminal(w)
    requires w.phases[t] == AfterVerdict(v, c)
    ensures var w', x := RunSave(w, t), Subject(w, t);
      && t in w'.phases && (x in w.txs <==> x in w'.txs)
      && (x in w.txs ==> SavedAs(v, c, w.txs[x], w'.txs[x], w'.phases[t]))
      && (x !in w.txs ==> w'.phases[t] == Throwing)
  {
  }

  lemma VerdictIsHeard(w: World, t: nat, v: Verdict)
    requires Can(w, Run(t, v)) && w.phases[t].Verifying?
    ensures var w' := RunHandler(w, t, v);
      && t in w'.phases && w'.phases[t] == AfterVerdict(v, ContextOf(w, t)) && Saving(w'.phases[t])
      && w'.queue == w.queue && w'.txs == w.txs
  {
  }

  /** In a run without crashes and failing calls, whatever else happens between a verdict and the handler's next action:
      that action saves what the verdict says, if the row is still there, and throws if it is not. */
  lemma {:induction false} NextSaveObeysVerdict(w: World, t: nat, v: Verdict, between: seq<Action>, u: Verdict)
    requires WorldInv(w) && Can(w, Run(t, v)) && w.phases[t].Verifying?
    requires SmoothRun(Do(w, Run(t, v)), between)
    requires forall i :: 0 <= i < |between| ==> LeavesTo(between[i], t)
    ensures Possible(Do(w, Run(t, v)), between)
    ensures var w1 := Outcome(Do(w, Run(t, v)), between);
      && Can(w1, Run(t, u)) && Subject(w1, t) == Subject(w, t)
      && var w2, x := Do(w1, Run(t, u)), Subject(w, t);
         && t in w2.phases && (x in w1.txs <==> x in w2.txs)
         && (x in w1.txs ==> SavedAs(v, ContextOf(w, t), w1.txs[x], w2.txs[x], w2.phases[t]))
         && (x !in w1.txs ==> w2.phases[t] == Throwing)
  {
    var heard := Do(w, Run(t, v));
    ActionKeeps(w, Run(t, v));
    VerdictIsHeard(w, t, v);
    HandlerWaitsLong(heard, between, t);
    SaveDoes(Outcome(heard, between), t, v, ContextOf(w, t));
  }
}
