/** The IO test mode over whole runs: its time window, its bits, and what it cannot influence. */
module ManualMode {
  import opened Prelude
  import opened Ipc
  import opened Ports
  import opened Control
  import opened Runs

  predicate ManualBatch(r: Scenario, n: nat) {
    HasManual(r.steps(n).cmds)
  }

  /** The bits of the last ManualIo in a batch that has one. */
  function LastBits(cmds: seq<Command>): Outputs
    requires HasManual(cmds)
  {
    var last := |cmds| - 1;
    if cmds[last].ManualIo? then cmds[last].bits
    else
      assert exists i :: 0 <= i < last && cmds[..last][i].ManualIo? by {
        var i :| 0 <= i < |cmds| && cmds[i].ManualIo?;
        assert cmds[..last][i] == cmds[i];
      }
      LastBits(cmds[..last])
  }

  lemma DispatchOnBits(s: Sys, cmd: Command, answers: Answers)
    ensures Dispatched(s, cmd, answers).ctl.manual.bits == if cmd.ManualIo? then cmd.bits else s.ctl.manual.bits
  {
  }

  /** A batch leaves the bits of its last ManualIo, or the bits that were there. */
  lemma {:induction false} BatchSetsBits(s: Sys, cmds: seq<Command>, answers: Answers, i: nat)
    requires i <= |cmds|
    ensures Commanded(s, cmds, answers, i).ctl.manual.bits
         == if HasManual(cmds[..i]) then LastBits(cmds[..i]) else s.ctl.manual.bits
  {
    hide Dispatched;
    if i == 0 {
    } else {
      BatchSetsBits(s, cmds, answers, i - 1);
      DispatchOnBits(Commanded(s, cmds, answers, i - 1), cmds[i - 1], answers);
      var front := cmds[..i - 1];
      assert cmds[..i][..i - 1] == front && cmds[..i][i - 1] == cmds[i - 1];
      if HasManual(front) {
        var j :| 0 <= j < |front| && front[j].ManualIo?;
        assert cmds[..i][j].ManualIo?;
      }
    }
  }

  /** One step's effect on the manual-IO countdown and bits. */
  lemma ManualStepEffect(r: Scenario, n: nat)
    ensures var before, after, cmds := At(r, n).ctl.manual, At(r, n + 1).ctl.manual, r.steps(n).cmds;
            && after.left == Rearmed(before.left, ManualBatch(r, n))
            && after.bits == (if ManualBatch(r, n) then LastBits(cmds) else before.bits)
            && (after.left > 0 ==> OutputsOf(r, n) == ManualLevels(after.bits, r.steps(n).inputs.healthy))
  {
    var cmds := r.steps(n).cmds;
    CommandsKeepSenses(Sensing(r, n), cmds, r.answers, |cmds|);
    BatchSetsBits(Sensing(r, n), cmds, r.answers, |cmds|);
    assert cmds[..|cmds|] == cmds;
  }

  /** The most recent manual batch before step n. */
  ghost predicate LatestManual(r: Scenario, n: nat, k: nat) {
    k < n && ManualBatch(r, k) && forall j: nat :: k < j < n ==> !ManualBatch(r, j)
  }

  ghost predicate NoManual(r: Scenario, n: nat) {
    forall j: nat :: j < n ==> !ManualBatch(r, j)
  }

  /** The countdown is the time since the latest manual batch, and the bits are that batch's. */
  lemma {:induction false} CountdownIsAge(r: Scenario, n: nat) returns (k: nat)
    ensures NoManual(r, n) || LatestManual(r, n, k)
    ensures var m := At(r, n).ctl.manual;
            if NoManual(r, n) then m.left == 0
            else m.left == Max(0, MANUAL_IO_WATCHDOG - (n - 1 - k)) && m.bits == LastBits(r.steps(k).cmds)
  {
    hide Stepped;
    k := 0;
    if n == 0 {
    } else {
      k := CountdownIsAge(r, n - 1);
      ManualStepEffect(r, n - 1);
      if ManualBatch(r, n - 1) {
        k := n - 1;
      }
    }
  }

  /** Step n is driven by hand iff a manual batch arrived in its last 30 steps, itself included. */
  lemma ManualWindow(r: Scenario, n: nat)
    ensures ManualStep(r, n) <==> exists k: nat :: k <= n && n - k < 30 && ManualBatch(r, k)
  {
    var k := CountdownIsAge(r, n + 1);
  }

  /** A step driven by hand shows the bits of the last ManualIo of the latest manual batch: each output
      only on a healthy bus, and of the two knife outputs the inward one wins. */
  lemma ManualOutputs(r: Scenario, n: nat, k: nat)
    requires LatestManual(r, n + 1, k) && n - k < 30
    ensures var out, bits, healthy := OutputsOf(r, n), LastBits(r.steps(k).cmds), r.steps(n).inputs.healthy;
            && (out.wrap <==> healthy && bits.wrap)
            && (out.knivesIn <==> healthy && bits.knivesIn)
            && (out.knivesOut <==> healthy && bits.knivesOut && !bits.knivesIn)
  {
    hide Stepped;
    var j := CountdownIsAge(r, n + 1);
    assert j == k by {
      assert ManualBatch(r, j) && ManualBatch(r, k);
    }
    ManualStepEffect(r, n);
  }

  /** The machine commands of step n are dropped. */
  ghost predicate BatchIgnored(r: Scenario, n: nat) {
    forall cmd: Command, i: nat | !cmd.ManualIo? && i <= |r.steps(n).cmds| ::
      Dispatched(Mid(r, n, i), cmd, r.answers) == Mid(r, n, i)
  }

  lemma SensingKeepsManual(r: Scenario, n: nat)
    ensures Sensing(r, n).ctl.manual == At(r, n).ctl.manual
  {
  }

  /** They are dropped iff a manual batch arrived in one of the 30 steps before; commands that share
      a batch with the first ManualIo are still served. */
  lemma IgnoredWindow(r: Scenario, n: nat)
    ensures BatchIgnored(r, n)
       <==> exists k: nat :: k < n && n - k <= 30 && ManualBatch(r, k)
  {
    hide Stepped, Sensed;
    assert Sensing(r, n).ctl.manual == At(r, n).ctl.manual by {
      SensingKeepsManual(r, n);
    }
    var k := CountdownIsAge(r, n);
    if At(r, n).ctl.manual.left > 0 {
      forall i: nat | i <= |r.steps(n).cmds|
        ensures Mid(r, n, i).ctl.manual.left > 0
      {
        CommandsKeepSenses(Sensing(r, n), r.steps(n).cmds, r.answers, i);
      }
      assert BatchIgnored(r, n);
    } else {
      var s, t := Mid(r, n, 0), Dispatched(Mid(r, n, 0), AdjustSession(1), r.answers);
      if s.ctl.counters.session < U64_MAX {
        assert t.ctl.counters.session == s.ctl.counters.session + 1;
      } else {
        assert Dispatched(s, ResetSession, r.answers).ctl.counters.session == 0;
      }
      assert !BatchIgnored(r, n);
    }
  }

  /** A step whose batch is ignored hands the pulses to the output phase as they were. */
  lemma IgnoredStep(r: Scenario, n: nat)
    requires At(r, n).ctl.manual.left > 0
    ensures Served(r, n).ctl.pulses == At(r, n).ctl.pulses
    ensures ManualStep(r, n) ==> At(r, n + 1).ctl.pulses == At(r, n).ctl.pulses
    ensures !ManualStep(r, n) ==>
      At(r, n + 1).ctl.pulses == PulsesTicked(At(r, n).ctl.pulses, r.steps(n).inputs.healthy)
  {
    CommandsIgnored(Sensing(r, n), r.steps(n).cmds, r.answers, |r.steps(n).cmds|);
  }

  /** No pulse starts while batches are ignored and manual mode freezes the ones that run. */
  lemma {:induction false} ManualFreezesPulses(r: Scenario, k: nat, n: nat)
    requires ManualBatch(r, k) && k < n <= k + 30
    requires forall j: nat :: k < j < n ==> !ManualBatch(r, j)
    ensures At(r, n).ctl.pulses == At(r, k + 1).ctl.pulses
    ensures At(r, n).ctl.manual.left == 30 - (n - 1 - k)
    decreases n
  {
    hide Stepped;
    ManualStepEffect(r, n - 1);
    if n == k + 1 {
    } else {
      ManualFreezesPulses(r, k, n - 1);
      IgnoredStep(r, n - 1);
    }
  }

  /** Dead-man property: 30 steps after the stream stops every output is low, unless a pulse was
      running when it stopped. */
  lemma DeadMan(r: Scenario, k: nat)
    requires ManualBatch(r, k)
    requires forall j: nat :: k < j <= k + 30 ==> !ManualBatch(r, j)
    requires !At(r, k + 1).ctl.pulses.AnyActive()
    ensures !ManualStep(r, k + 30) && OutputsOf(r, k + 30) == ALL_LOW
  {
    var n := k + 30;
    ManualFreezesPulses(r, k, n);
    ManualStepEffect(r, n);
    CommandsIgnored(Sensing(r, n), r.steps(n).cmds, r.answers, |r.steps(n).cmds|);
  }

  // ---- Noninterference -------------------------------------------------------------------------

  function Blind(s: Sys): Sys {
    s.(ctl := s.ctl.(manual := s.ctl.manual.(bits := ALL_LOW)))
  }

  predicate AlikeCommands(a: Command, b: Command) {
    a == b || (a.ManualIo? && b.ManualIo?)
  }

  ghost predicate AlikeBatches(a: seq<Command>, b: seq<Command>) {
    |a| == |b| && forall i :: 0 <= i < |a| ==> AlikeCommands(a[i], b[i])
  }

  /** Scenarios that differ only in the bits inside their ManualIo commands. */
  ghost predicate AlikeScenarios(r: Scenario, q: Scenario) {
    && r.loaded == q.loaded && r.bus == q.bus && r.answers == q.answers
    && forall n: nat :: r.steps(n).inputs == q.steps(n).inputs && AlikeBatches(r.steps(n).cmds, q.steps(n).cmds)
  }

  lemma DispatchBlind(s: Sys, cmd: Command, answers: Answers)
    ensures Blind(Dispatched(s, cmd, answers)) == Blind(Dispatched(Blind(s), cmd, answers))
    ensures cmd.ManualIo? ==> Blind(Dispatched(s, cmd, answers)) == Blind(s)
  {
  }

  lemma {:induction false} AlikeBatchesServeAlike(
    s: Sys, t: Sys, a: seq<Command>, b: seq<Command>, answers: Answers, i: nat)
    requires Blind(s) == Blind(t) && AlikeBatches(a, b) && i <= |a|
    ensures Blind(Commanded(s, a, answers, i)) == Blind(Commanded(t, b, answers, i))
  {
    if i == 0 {
    } else {
      AlikeBatchesServeAlike(s, t, a, b, answers, i - 1);
      assert AlikeCommands(a[i - 1], b[i - 1]);
      DispatchBlind(Commanded(s, a, answers, i - 1), a[i - 1], answers);
      DispatchBlind(Commanded(t, b, answers, i - 1), b[i - 1], answers);
    }
  }

  lemma StepAlike(r: Scenario, q: Scenario, n: nat)
    requires AlikeScenarios(r, q) && Blind(At(r, n)) == Blind(At(q, n))
    ensures Blind(At(r, n + 1)) == Blind(At(q, n + 1))
    ensures ManualStep(r, n) == ManualStep(q, n)
    ensures !ManualStep(r, n) ==> OutputsOf(r, n) == OutputsOf(q, n)
  {
    var a, b := r.steps(n).cmds, q.steps(n).cmds;
    assert AlikeBatches(a, b);
    AlikeBatchesServeAlike(Sensing(r, n), Sensing(q, n), a, b, r.answers, |a|);
    assert HasManual(a) == HasManual(b) by {
      assert forall i :: 0 <= i < |a| ==> AlikeCommands(a[i], b[i]) && a[i].ManualIo? == b[i].ManualIo?;
    }
  }

  /** Noninterference: the held bits reach the outputs of steps driven by hand and nothing else -
      no counter, mode, latch, pulse, port call or snapshot ever depends on them. */
  lemma {:induction false} HeldBitsReachOnlyManualOutputs(r: Scenario, q: Scenario, n: nat)
    requires AlikeScenarios(r, q)
    ensures Blind(At(r, n)) == Blind(At(q, n))
    ensures Snapshot(At(r, n).ctl) == Snapshot(At(q, n).ctl)
    ensures ManualStep(r, n) == ManualStep(q, n)
    ensures !ManualStep(r, n) ==> OutputsOf(r, n) == OutputsOf(q, n)
  {
    hide Stepped;
    if n == 0 {
    } else {
      HeldBitsReachOnlyManualOutputs(r, q, n - 1);
      StepAlike(r, q, n - 1);
    }
    StepAlike(r, q, n);
  }
}
