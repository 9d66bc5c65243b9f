/** The bale-full attention latch: the countdown restated over the whole history. */
module FullLatch {
  import opened Prelude
  import opened Ipc
  import opened Ports
  import opened Control
  import opened Runs
  import IC = InputConditioner

  /** Step n saw a healthy bus and a bale-full input whose latest three equal samples were high. */
  ghost predicate Armed(r: Scenario, n: nat) {
    r.steps(n).inputs.healthy && IC.LatestWindow(FullBits(r), 3, false, n + 1)
  }

  /** Command i of the batch is a wrap that the mode machine grants. */
  ghost predicate WrapGranted(s: Sys, cmds: seq<Command>, answers: Answers, i: nat)
    requires i < |cmds|
  {
    && cmds[i] == Wrap && s.ctl.manual.left == 0
    && Commanded(s, cmds, answers, i).ctl.machine.mode == Operational
  }

  /** Step n accepted a wrap, whether or not its pulse was already running. */
  ghost predicate WrapAccepted(r: Scenario, n: nat) {
    exists i: nat :: i < |r.steps(n).cmds| && WrapGranted(Sensing(r, n), r.steps(n).cmds, r.answers, i)
  }

  lemma DispatchOnLatch(s: Sys, cmd: Command, answers: Answers)
    ensures Dispatched(s, cmd, answers).ctl.fullLatch
         == if cmd == Wrap && s.ctl.manual.left == 0 && s.ctl.machine.mode == Operational then 0 else s.ctl.fullLatch
  {
  }

  /** A batch clears the latch iff it holds a granted wrap, and otherwise leaves it alone. */
  lemma {:induction false} BatchOnLatch(s: Sys, cmds: seq<Command>, answers: Answers, i: nat)
    requires i <= |cmds|
    ensures Commanded(s, cmds, answers, i).ctl.fullLatch
         == if exists j: nat :: j < i && WrapGranted(s, cmds, answers, j) then 0 else s.ctl.fullLatch
  {
    hide Dispatched;
    if i == 0 {
    } else {
      var last: nat := i - 1;
      BatchOnLatch(s, cmds, answers, last);
      CommandsKeepSenses(s, cmds, answers, last);
      DispatchOnLatch(Commanded(s, cmds, answers, last), cmds[last], answers);
      assert WrapGranted(s, cmds, answers, last)
        <==> cmds[last] == Wrap && s.ctl.manual.left == 0
             && Commanded(s, cmds, answers, last).ctl.machine.mode == Operational;
    }
  }

  /** One step's effect on the latch countdown. */
  lemma StepOnLatch(r: Scenario, n: nat)
    ensures At(r, n + 1).ctl.fullLatch
         == if WrapAccepted(r, n) then 0
            else if Armed(r, n) then FULL_LATCH_CYCLES
            else Max(0, At(r, n).ctl.fullLatch - 1)
  {
    SensesFollowInputs(r, n);
    IC.LevelIsLatestWindow(DEBOUNCE, false, FullBits(r), n + 1);
    BatchOnLatch(Sensing(r, n), r.steps(n).cmds, r.answers, |r.steps(n).cmds|);
  }

  /** Step k armed the latch and nothing has cleared it up to and including step n. */
  ghost predicate HeldSince(r: Scenario, k: nat, n: nat) {
    Armed(r, k) && forall j: nat :: k <= j <= n ==> !WrapAccepted(r, j)
  }

  /** A running countdown was started by an arming step that nothing has cleared since. */
  lemma {:induction false} CountdownHasOrigin(r: Scenario, n: nat) returns (k: nat)
    requires At(r, n + 1).ctl.fullLatch > 0
    ensures k <= n && HeldSince(r, k, n)
    ensures At(r, n + 1).ctl.fullLatch == FULL_LATCH_CYCLES - (n - k)
  {
    hide Stepped;
    StepOnLatch(r, n);
    if Armed(r, n) {
      k := n;
    } else {
      assert n > 0;
      k := CountdownHasOrigin(r, n - 1);
    }
  }

  /** An arming step that nothing has cleared keeps the countdown up. */
  lemma {:induction false} OriginHoldsCountdown(r: Scenario, k: nat, n: nat)
    requires k <= n && HeldSince(r, k, n)
    ensures At(r, n + 1).ctl.fullLatch >= FULL_LATCH_CYCLES - (n - k)
    decreases n
  {
    hide Stepped;
    StepOnLatch(r, n);
    if k == n {
    } else {
      OriginHoldsCountdown(r, k, n - 1);
    }
  }

  /**
   The latch shows at the end of step n exactly if one of the last 2000 steps armed it and no wrap
   has been accepted from that step on: 20 s after the last full sample, cut short by a wrap.
  */
  lemma LatchIsHistory(r: Scenario, n: nat)
    ensures Snapshot(At(r, n + 1).ctl).fullLatched
       <==> exists k: nat :: k <= n && n - k < 2000 && HeldSince(r, k, n)
  {
    hide Stepped;
    if At(r, n + 1).ctl.fullLatch > 0 {
      var k := CountdownHasOrigin(r, n);
    }
    forall k: nat | k <= n && n - k < 2000 && HeldSince(r, k, n)
      ensures At(r, n + 1).ctl.fullLatch > 0
    {
      OriginHoldsCountdown(r, k, n);
    }
  }
}
