/** `admin/reset_cluster.py`: wipe k3s from every node of the fleet,
    reinstall the master, read its node token and join the workers with
    it, collecting error messages instead of stopping at the first
    failure. */
module ResetCluster {
  import opened Fleet
  import opened Text

  /** `run_ssh_command` (and the other `check_output` calls) succeed only
      on exit status zero; anything else raises. */
  predicate Succeeded(r: Reply) {
    r.Exited? && r.code == 0
  }

  method RunSsh(o: Oracle, t: seq<Event>, ip: string, cmd: string)
    returns (t': seq<Event>, ok: bool)
    ensures t' == t + [Run(Remote(ip), cmd)]
    ensures ok == Succeeded(o(|t|))
  {
    var r;
    t', r := Exec(o, t, Remote(ip), cmd);
    ok := Succeeded(r);
  }

  /** Number of failed replies among the `n` positions from `start`. */
  function Failures(o: Oracle, start: nat, n: nat): nat
    decreases n
  {
    if n == 0 then 0
    else Failures(o, start, n - 1) + (if Succeeded(o(start + n - 1)) then 0 else 1)
  }

  // --------------------------------------------------------- cleanup_node

  const CleanupCommands: seq<string> := [
    "sudo systemctl stop k3s k3s-agent || true",
    "sudo rm -rf /var/lib/rancher/k3s || true",
    "sudo rm -rf /etc/rancher/k3s || true",
    "sudo rm -rf /var/lib/longhorn || true",
    "sudo rm -rf /var/lib/kubelet || true",
    "sudo rm -rf /opt/longhorn || true",
    "sudo rm -rf /var/lib/cni || true",
    "sudo rm -rf /var/run/k3s || true",
    "sudo ip link delete flannel.1 || true",
    "sudo ip link delete cni0 || true"
  ]

  /** The server uninstaller on the master, the agent one elsewhere. */
  function UninstallScript(isMaster: bool): (path: string)
    ensures path == "/usr/local/bin/k3s-uninstall.sh" <==> isMaster
    ensures path == "/usr/local/bin/k3s-agent-uninstall.sh" <==> !isMaster
  {
    if isMaster then "/usr/local/bin/k3s-uninstall.sh"
    else "/usr/local/bin/k3s-agent-uninstall.sh"
  }

  /** The eleven commands `cleanup_node` sends to a node. */
  function NodeScript(isMaster: bool): seq<string> {
    CleanupCommands + ["sudo " + UninstallScript(isMaster)]
  }

  function CommandMessage(cmd: string, hostname: string): string {
    "Failed to run '" + cmd + "' on " + hostname
  }

  function UninstallMessage(hostname: string): string {
    "Failed to run uninstall script on " + hostname
  }

  /** The messages of the failures among `msgs`, in order, where the
      `j`-th message stands for the command issued at position
      `start + j`. */
  function Failed(o: Oracle, start: nat, msgs: seq<string>): seq<string>
    decreases |msgs|
  {
    if msgs == [] then []
    else
      var n := |msgs| - 1;
      Failed(o, start, msgs[..n]) + (if Succeeded(o(start + n)) then [] else [msgs[n]])
  }

  /** One message per failed reply. */
  lemma {:induction false} FailedCount(o: Oracle, start: nat, msgs: seq<string>)
    ensures |Failed(o, start, msgs)| == Failures(o, start, |msgs|)
    decreases |msgs|
  {
    if msgs != [] {
      FailedCount(o, start, msgs[..|msgs| - 1]);
    }
  }

  lemma {:induction false} FailedAppend(o: Oracle, start: nat, a: seq<string>, b: seq<string>)
    ensures Failed(o, start, a + b) == Failed(o, start, a) + Failed(o, start + |a|, b)
    decreases |b|
  {
    if b == [] {
      assert a + b == a;
    } else {
      var n := |b| - 1;
      FailedAppend(o, start, a, b[..n]);
      assert (a + b)[..|a| + n] == a + b[..n];
    }
  }

  lemma {:induction false} FailuresBound(o: Oracle, start: nat, n: nat)
    ensures Failures(o, start, n) <= n
  {
    if n > 0 {
      FailuresBound(o, start, n - 1);
    }
  }

  /** `cleanup_node`'s message for each command of `cmds`. */
  function CommandMessages(cmds: seq<string>, hostname: string): (msgs: seq<string>)
    ensures |msgs| == |cmds|
  {
    seq(|cmds|, i requires 0 <= i < |cmds| => CommandMessage(cmds[i], hostname))
  }

  /** The eleven messages `cleanup_node` can report, one per command of
      `NodeScript`. */
  function NodeMessages(hostname: string): (msgs: seq<string>)
    ensures |msgs| == 11
  {
    CommandMessages(CleanupCommands, hostname) + [UninstallMessage(hostname)]
  }

  /** The `for cmd in commands` loop of `cleanup_node`: every command is
      sent, and each failure adds its message. */
  method RunEach(o: Oracle, t: seq<Event>, hostname: string, ip: string, cmds: seq<string>)
    returns (t': seq<Event>, errors: seq<string>)
    ensures t' == t + Runs(Remote(ip), cmds)
    ensures errors == Failed(o, |t|, CommandMessages(cmds, hostname))
  {
    ghost var msgs := CommandMessages(cmds, hostname);
    t', errors := t, [];
    for i := 0 to |cmds|
      invariant t' == t + Runs(Remote(ip), cmds[..i])
      invariant errors == Failed(o, |t|, msgs[..i])
    {
      var ok;
      RunsSnoc(Remote(ip), cmds, i);
      assert |t'| == |t| + i;
      FailedSnoc(o, |t|, msgs, i);
      t', ok := RunSsh(o, t', ip, cmds[i]);
      if !ok {
        errors := errors + [CommandMessage(cmds[i], hostname)];
      }
    }
    assert cmds[..|cmds|] == cmds;
    assert msgs[..|cmds|] == msgs;
  }

  /** One more message is reported exactly when its reply failed. */
  lemma FailedSnoc(o: Oracle, start: nat, msgs: seq<string>, i: nat)
    requires i < |msgs|
    ensures Failed(o, start, msgs[..i + 1])
      == Failed(o, start, msgs[..i]) + (if Succeeded(o(start + i)) then [] else [msgs[i]])
  {
    assert msgs[..i + 1][..i] == msgs[..i];
  }

  /** All ten cleanup commands and then the uninstaller are sent whatever
      fails on the way, and there is one error per failed command. */
  method CleanupNode(o: Oracle, t: seq<Event>, hostname: string, ip: string, isMaster: bool)
    returns (t': seq<Event>, errors: seq<string>)
    ensures t' == t + Runs(Remote(ip), NodeScript(isMaster))
    ensures errors == Failed(o, |t|, NodeMessages(hostname))
    ensures |errors| == Failures(o, |t|, 11) <= 11
  {
    NodeScriptSplit(o, |t|, hostname, ip, isMaster);
    t', errors := RunEach(o, t, hostname, ip, CleanupCommands);
    var uninstall := "sudo " + UninstallScript(isMaster);
    var ok;
    t', ok := RunSsh(o, t', ip, uninstall);
    if !ok {
      errors := errors + [UninstallMessage(hostname)];
    }
  }

  /** The node script is the ten cleanup commands and then the
      uninstaller; one error per failure, at most eleven. */
  lemma NodeScriptSplit(o: Oracle, start: nat, hostname: string, ip: string, isMaster: bool)
    ensures Runs(Remote(ip), NodeScript(isMaster))
      == Runs(Remote(ip), CleanupCommands) + [Run(Remote(ip), "sudo " + UninstallScript(isMaster))]
    ensures Failed(o, start, NodeMessages(hostname))
      == Failed(o, start, CommandMessages(CleanupCommands, hostname))
         + (if Succeeded(o(start + 10)) then [] else [UninstallMessage(hostname)])
    ensures |Failed(o, start, NodeMessages(hostname))| == Failures(o, start, 11) <= 11
  {
    RunsAppend(Remote(ip), CleanupCommands, ["sudo " + UninstallScript(isMaster)]);
    FailedAppend(o, start, CommandMessages(CleanupCommands, hostname), [UninstallMessage(hostname)]);
    assert [UninstallMessage(hostname)][..0] == [];
    FailedCount(o, start, NodeMessages(hostname));
    FailuresBound(o, start, 11);
  }

  // ------------------------------------------------- reinstall_k3s_master

  const ReinstallCleanup: seq<string> := [
    "sudo killall -9 k3s-server k3s agent containerd || true",
    "sudo systemctl stop k3s k3s-agent containerd",
    "sudo systemctl disable k3s k3s-agent",
    "sudo rm -rf /var/lib/rancher /etc/rancher",
    "sudo rm -rf /etc/systemd/system/k3s*",
    "sudo rm -rf /var/lib/containerd",
    "sudo systemctl daemon-reload",
    "sudo systemctl reset-failed"
  ]

  /** The install one-liner, with the backslash-newlines of the source's
      triple-quoted string folded away as Python does. */
  const InstallCommand: string :=
    "\n    curl -sfL https://get.k3s.io |     INSTALL_K3S_EXEC=\"server     --write-kubeconfig-mode 644     --tls-san $(hostname -I | cut -d' ' -f1)\" sh -\n    "

  const ServiceCheck: string := "sudo systemctl is-active k3s"
  const ApiCheck: string := "sudo k3s kubectl get --raw '/healthz'"
  const HealthChecks: seq<string> := [ServiceCheck, ApiCheck]

  /** Each command followed by `time.sleep(1)`; their results are ignored. */
  function Paused(ip: string, cmds: seq<string>): (es: seq<Event>)
    ensures |es| == 2 * |cmds|
  {
    Spaced(Runs(Remote(ip), cmds), 1)
  }

  /** A health check passes when its stripped output is either word. */
  predicate Good(out: string) {
    out == "active" || out == "ok"
  }

  datatype Verdict = AllGood | NotGood | Threw

  datatype ChecksRun = ChecksRun(events: seq<Event>, verdict: Verdict)

  /** What `check_output(...).decode().strip()` gives for a reply: `None`
      when it raises (any non-zero exit raises `CalledProcessError`). */
  function CheckOutput(r: Reply): Option<string> {
    if Succeeded(r) then Some(Strip(r.stdout)) else None
  }

  /** The checks' outputs at every trace position. */
  function CheckOutputs(o: Oracle): nat -> Option<string> {
    (k: nat) => CheckOutput(o(k))
  }

  function VerdictOf(out: Option<string>): Verdict {
    if out.None? then Threw else if Good(out.value) then AllGood else NotGood
  }

  /** The inner `for check in checks` loop begun at position `k`: it stops
      at the first check that raises or whose output is not good. */
  function Checks(outs: nat -> Option<string>, ip: string, k: nat, checks: seq<string>): ChecksRun
    decreases |checks|
  {
    if checks == [] then ChecksRun([], AllGood)
    else
      var v := VerdictOf(outs(k));
      if v != AllGood then ChecksRun([Run(Remote(ip), checks[0])], v)
      else
        var c := Checks(outs, ip, k + 1, checks[1..]);
        ChecksRun([Run(Remote(ip), checks[0])] + c.events, c.verdict)
  }

  datatype PollRun = PollRun(events: seq<Event>, healthy: bool)

  /** One iteration of the verification loop: the checks, then
      `time.sleep(2)` when one of them raised. */
  function Round(outs: nat -> Option<string>, ip: string, k: nat, checks: seq<string>): PollRun {
    var c := Checks(outs, ip, k, checks);
    PollRun(if c.verdict == Threw then c.events + [Delay(2)] else c.events,
            c.verdict == AllGood)
  }

  /** At most `rounds` iterations, stopping after the first healthy one. */
  function Poll(outs: nat -> Option<string>, ip: string, k: nat, checks: seq<string>, rounds: nat): PollRun
    decreases rounds
  {
    if rounds == 0 then PollRun([], false)
    else
      var r := Round(outs, ip, k, checks);
      if r.healthy then r
      else
        var rest := Poll(outs, ip, k + |r.events|, checks, rounds - 1);
        PollRun(r.events + rest.events, rest.healthy)
  }

  datatype Phase = Phase(events: seq<Event>, errors: seq<string>)

  /** `reinstall_k3s_master` begun at position `k`, for the given cleanup
      commands, install command and health checks: the paced cleanup, the
      install and, only if the install succeeded, the health poll of at
      most `rounds` iterations. */
  function ReinstallBy(o: Oracle, ip: string, k: nat, cleanup: seq<string>, install: string,
                       checks: seq<string>, rounds: nat): Phase
  {
    var pre := Paused(ip, cleanup) + [Run(Remote(ip), install)];
    if !Succeeded(o(k + |pre| - 1)) then Phase(pre, ["Failed to install k3s"])
    else
      var p := Poll(CheckOutputs(o), ip, k + |pre|, checks, rounds);
      Phase(pre + p.events, if p.healthy then [] else ["k3s failed to start properly"])
  }

  /** `reinstall_k3s_master` with the source's own command lists. */
  function Reinstall(o: Oracle, ip: string, k: nat): Phase {
    ReinstallBy(o, ip, k, ReinstallCleanup, InstallCommand, HealthChecks, 30)
  }

  /** One pass of `for check in checks` inside the `try`. */
  method RunChecks(outs: nat -> Option<string>, t: seq<Event>, ip: string, checks: seq<string>)
    returns (t': seq<Event>, verdict: Verdict)
    ensures t' == t + Checks(outs, ip, |t|, checks).events
    ensures verdict == Checks(outs, ip, |t|, checks).verdict
  {
    t', verdict := t, AllGood;
    var j := 0;
    while j < |checks|
      invariant 0 <= j <= |checks|
      invariant t' == t + Runs(Remote(ip), checks[..j])
      invariant forall m :: |t| <= m < |t| + j ==> VerdictOf(outs(m)) == AllGood
    {
      var out := outs(|t'|);
      RunsSnoc(Remote(ip), checks, j);
      t' := t' + [Run(Remote(ip), checks[j])];
      if out.None? {
        verdict := Threw;
        ChecksStop(outs, ip, |t|, checks, j);
        break;
      }
      if !Good(out.value) {
        verdict := NotGood;
        ChecksStop(outs, ip, |t|, checks, j);
        break;
      }
      j := j + 1;
    }
    if verdict == AllGood {
      ChecksPass(outs, ip, |t|, checks);
      assert checks[..|checks|] == checks;
    }
  }

  /** When the first `j` checks passed and check `j` did not, the pass
      stops right after check `j`. */
  lemma {:induction false} ChecksStop(outs: nat -> Option<string>, ip: string, k: nat, checks: seq<string>, j: nat)
    requires j < |checks| && VerdictOf(outs(k + j)) != AllGood
    requires forall m :: k <= m < k + j ==> VerdictOf(outs(m)) == AllGood
    ensures Checks(outs, ip, k, checks) == ChecksRun(Runs(Remote(ip), checks[..j + 1]), VerdictOf(outs(k + j)))
    decreases j
  {
    if j > 0 {
      ChecksStop(outs, ip, k + 1, checks[1..], j - 1);
      assert checks[1..][..j] == checks[1..j + 1];
      assert Runs(Remote(ip), checks[..j + 1]) == [Run(Remote(ip), checks[0])] + Runs(Remote(ip), checks[1..j + 1]);
    }
  }

  /** When every check passed, the pass ran them all. */
  lemma {:induction false} ChecksPass(outs: nat -> Option<string>, ip: string, k: nat, checks: seq<string>)
    requires forall m :: k <= m < k + |checks| ==> VerdictOf(outs(m)) == AllGood
    ensures Checks(outs, ip, k, checks) == ChecksRun(Runs(Remote(ip), checks), AllGood)
    decreases |checks|
  {
    if checks != [] {
      ChecksPass(outs, ip, k + 1, checks[1..]);
      assert Runs(Remote(ip), checks) == [Run(Remote(ip), checks[0])] + Runs(Remote(ip), checks[1..]);
    }
  }

  /** One iteration of the `for i in range(rounds)` loop: the checks, and
      the two-second sleep of the `except` branch when one raised. */
  method PollRound(outs: nat -> Option<string>, t: seq<Event>, ip: string, checks: seq<string>)
    returns (t': seq<Event>, healthy: bool)
    ensures t' == t + Round(outs, ip, |t|, checks).events
    ensures healthy == Round(outs, ip, |t|, checks).healthy
  {
    var verdict;
    t', verdict := RunChecks(outs, t, ip, checks);
    if verdict == Threw {
      t' := t' + [Delay(2)];
    }
    healthy := verdict == AllGood;
  }

  /** The `for i in range(rounds)` loop: it returns as soon as a round is
      all good. */
  method PollChecks(outs: nat -> Option<string>, t: seq<Event>, ip: string, checks: seq<string>, rounds: nat)
    returns (t': seq<Event>, healthy: bool)
    ensures t' == t + Poll(outs, ip, |t|, checks, rounds).events
    ensures healthy == Poll(outs, ip, |t|, checks, rounds).healthy
  {
    ghost var whole := Poll(outs, ip, |t|, checks, rounds);
    t' := t;
    var i := 0;
    while i < rounds
      invariant 0 <= i <= rounds
      invariant PollLeft(outs, ip, checks, rounds - i, t, whole, t')
    {
      ghost var before := t';
      var good;
      t', good := PollRound(outs, t', ip, checks);
      if good {
        PollHealthyLeft(outs, ip, checks, rounds - i, t, whole, before, t');
        return t', true;
      }
      PollAdvance(outs, ip, checks, rounds - i, t, whole, before, t');
      i := i + 1;
    }
    PollLeftDone(outs, ip, checks, t, whole, t');
    healthy := false;
  }

  /** With no round left, what has been sent is the whole poll, which
      never became healthy. */
  lemma PollLeftDone(outs: nat -> Option<string>, ip: string, checks: seq<string>,
                     t: seq<Event>, whole: PollRun, t': seq<Event>)
    requires PollLeft(outs, ip, checks, 0, t, whole, t')
    ensures t' == t + whole.events && !whole.healthy
  {
    assert t + whole.events == t' + [];
  }

  /** What the poll still has to send once `t'` has been sent, `n` rounds
      being left, completes the whole poll begun after `t`. */
  ghost predicate PollLeft(outs: nat -> Option<string>, ip: string, checks: seq<string>, n: nat,
                           t: seq<Event>, whole: PollRun, t': seq<Event>)
  {
    var rest := Poll(outs, ip, |t'|, checks, n);
    t + whole.events == t' + rest.events && whole.healthy == rest.healthy
  }

  /** A healthy round is the last: it completes the whole poll. */
  lemma PollHealthyLeft(outs: nat -> Option<string>, ip: string, checks: seq<string>, n: nat,
                        t: seq<Event>, whole: PollRun, before: seq<Event>, after: seq<Event>)
    requires n > 0 && Round(outs, ip, |before|, checks).healthy
    requires after == before + Round(outs, ip, |before|, checks).events
    requires PollLeft(outs, ip, checks, n, t, whole, before)
    ensures after == t + whole.events && whole.healthy
  {
    PollHealthyStep(outs, ip, |before|, checks, n);
  }

  lemma PollAdvance(outs: nat -> Option<string>, ip: string, checks: seq<string>, n: nat,
                    t: seq<Event>, whole: PollRun, before: seq<Event>, after: seq<Event>)
    requires n > 0 && !Round(outs, ip, |before|, checks).healthy
    requires after == before + Round(outs, ip, |before|, checks).events
    requires PollLeft(outs, ip, checks, n, t, whole, before)
    ensures PollLeft(outs, ip, checks, n - 1, t, whole, after)
  {
    var r := Round(outs, ip, |before|, checks);
    PollStep(outs, ip, |before|, checks, n);
    AppendAssoc(before, r.events, Poll(outs, ip, |after|, checks, n - 1).events);
  }

  /** A healthy round ends the poll. */
  lemma PollHealthyStep(outs: nat -> Option<string>, ip: string, k: nat, checks: seq<string>, n: nat)
    requires n > 0 && Round(outs, ip, k, checks).healthy
    ensures Poll(outs, ip, k, checks, n) == Round(outs, ip, k, checks)
  {
  }


  /** The aggressive cleanup: each command, its result ignored, then
      `time.sleep(1)`. */
  method RunPaused(o: Oracle, t: seq<Event>, ip: string, cmds: seq<string>) returns (t': seq<Event>)
    ensures t' == t + Paused(ip, cmds)
  {
    t' := t;
    for i := 0 to |cmds|
      invariant t' == t + Paused(ip, cmds[..i])
    {
      RunsSnoc(Remote(ip), cmds, i);
      SpacedSnoc(Runs(Remote(ip), cmds[..i]), Run(Remote(ip), cmds[i]), 1);
      var ignored;
      t', ignored := RunSsh(o, t', ip, cmds[i]);
      t' := t' + [Delay(1)];
    }
    assert cmds[..|cmds|] == cmds;
  }

  method ReinstallSteps(o: Oracle, t: seq<Event>, ip: string, cleanup: seq<string>, install: string,
                        checks: seq<string>, rounds: nat)
    returns (t': seq<Event>, errors: seq<string>)
    ensures t' == t + ReinstallBy(o, ip, |t|, cleanup, install, checks, rounds).events
    ensures errors == ReinstallBy(o, ip, |t|, cleanup, install, checks, rounds).errors
  {
    ghost var pre := Paused(ip, cleanup) + [Run(Remote(ip), install)];
    t' := RunPaused(o, t, ip, cleanup);
    var installed;
    t', installed := RunSsh(o, t', ip, install);
    AppendAssoc(t, Paused(ip, cleanup), [Run(Remote(ip), install)]);
    assert t' == t + pre && |t'| == |t| + |pre|;
    assert installed == Succeeded(o(|t| + |pre| - 1));
    if !installed {
      assert ReinstallBy(o, ip, |t|, cleanup, install, checks, rounds) == Phase(pre, ["Failed to install k3s"]);
      errors := ["Failed to install k3s"];
      return;
    }
    ghost var mid := t';
    var healthy;
    t', healthy := PollChecks(CheckOutputs(o), t', ip, checks, rounds);
    ghost var p := Poll(CheckOutputs(o), ip, |mid|, checks, rounds);
    assert t' == mid + p.events && healthy == p.healthy;
    AppendAssoc(t, pre, p.events);
    assert t' == t + (pre + p.events);
    assert ReinstallBy(o, ip, |t|, cleanup, install, checks, rounds)
      == Phase(pre + p.events, if p.healthy then [] else ["k3s failed to start properly"]);
    errors := if healthy then [] else ["k3s failed to start properly"];
  }

  method ReinstallMaster(o: Oracle, t: seq<Event>, ip: string)
    returns (t': seq<Event>, errors: seq<string>)
    ensures t' == t + Reinstall(o, ip, |t|).events
    ensures errors == Reinstall(o, ip, |t|).errors
  {
    t', errors := ReinstallSteps(o, t, ip, ReinstallCleanup, InstallCommand, HealthChecks, 30);
  }

  /** A failed install ends the reinstall right after the install command,
      with that one error and no health check at all. */
  lemma InstallFailureSkipsPoll(o: Oracle, ip: string, k: nat)
    requires !Succeeded(o(k + 16))
    ensures Reinstall(o, ip, k).errors == ["Failed to install k3s"]
    ensures Reinstall(o, ip, k).events == Paused(ip, ReinstallCleanup) + [Run(Remote(ip), InstallCommand)]
  {
  }

  /** The reinstall reports one of its three outcomes. */
  lemma ReinstallOutcomes(o: Oracle, ip: string, k: nat)
    ensures Reinstall(o, ip, k).errors in {[], ["Failed to install k3s"], ["k3s failed to start properly"]}
  {
  }

  /** Each round opens with exactly one run of the first check. */
  lemma RoundOpens(outs: nat -> Option<string>, ip: string, k: nat, checks: seq<string>)
    requires checks != [] && checks[0] !in checks[1..]
    ensures Occurrences(Run(Remote(ip), checks[0]), Round(outs, ip, k, checks).events) == 1
    ensures 1 <= |Round(outs, ip, k, checks).events| <= |checks| + 1
  {
    var c := Checks(outs, ip, k, checks);
    ChecksRuns(outs, ip, k, checks);
    var j := |c.events|;
    assert j >= 1;
    var ran := checks[..j];
    assert ran[1..] == checks[1..j];
    assert forall x :: x in ran[1..] ==> x in checks[1..];
    OccurrencesAbsent(Remote(ip), checks[0], ran[1..]);
    assert Runs(Remote(ip), ran) == [Run(Remote(ip), checks[0])] + Runs(Remote(ip), ran[1..]);
    assert Occurrences(Run(Remote(ip), checks[0]), c.events) == 1;
    if c.verdict == Threw {
      OccurrencesAppend(Run(Remote(ip), checks[0]), c.events, [Delay(2)]);
    }
  }

  /** The commands a pass of the checks issues are a prefix of `checks`. */
  lemma {:induction false} ChecksRuns(outs: nat -> Option<string>, ip: string, k: nat, checks: seq<string>)
    ensures var es := Checks(outs, ip, k, checks).events;
      |es| <= |checks| && es == Runs(Remote(ip), checks[..|es|])
    decreases |checks|
  {
    if checks != [] && VerdictOf(outs(k)) == AllGood {
      ChecksRuns(outs, ip, k + 1, checks[1..]);
      var es := Checks(outs, ip, k + 1, checks[1..]).events;
      assert checks[..|es| + 1] == [checks[0]] + checks[1..][..|es|];
    }
  }

  lemma MulStep(n: nat, r: nat)
    requires r > 0
    ensures n * r == n + n * (r - 1) && n * (r - 1) >= 0
  {
  }

  /** The poll is bounded: it runs at most one round per allowed
      iteration, and when it gives up it has used all of them. */
  lemma {:induction false} PollBound(outs: nat -> Option<string>, ip: string, k: nat, checks: seq<string>, rounds: nat)
    requires checks != [] && checks[0] !in checks[1..]
    ensures var p := Poll(outs, ip, k, checks, rounds);
      && Occurrences(Run(Remote(ip), checks[0]), p.events) <= rounds
      && |p.events| <= (|checks| + 1) * rounds
      && (!p.healthy ==> Occurrences(Run(Remote(ip), checks[0]), p.events) == rounds)
    decreases rounds
  {
    if rounds > 0 {
      var e := Run(Remote(ip), checks[0]);
      var r := Round(outs, ip, k, checks);
      RoundOpens(outs, ip, k, checks);
      MulStep(|checks| + 1, rounds);
      if !r.healthy {
        var k' := k + |r.events|;
        PollBound(outs, ip, k', checks, rounds - 1);
        PollStep(outs, ip, k, checks, rounds);
        var rest := Poll(outs, ip, k', checks, rounds - 1);
        OccurrencesAppend(e, r.events, rest.events);
      }
    }
  }

  /** The two health checks differ, so the fleet's poll sends the service
      check at most 30 times and exactly 30 times when k3s never came up. */
  lemma HealthPollBound(o: Oracle, ip: string, k: nat)
    ensures var p := Poll(CheckOutputs(o), ip, k, HealthChecks, 30);
      && Occurrences(Run(Remote(ip), ServiceCheck), p.events) <= 30
      && |p.events| <= 90
      && (!p.healthy ==> Occurrences(Run(Remote(ip), ServiceCheck), p.events) == 30)
  {
    assert |ServiceCheck| != |ApiCheck|;
    PollBound(CheckOutputs(o), ip, k, HealthChecks, 30);
  }

  /** A healthy verdict means the poll ended right after every check of
      one round answered good output, in order. */
  lemma {:induction false} PollHealthyEnd(outs: nat -> Option<string>, ip: string, k: nat, checks: seq<string>, rounds: nat)
    requires Poll(outs, ip, k, checks, rounds).healthy
    ensures var es := Poll(outs, ip, k, checks, rounds).events;
      var p := k + |es| - |checks|;
      && |es| >= |checks|
      && es[|es| - |checks|..] == Runs(Remote(ip), checks)
      && forall m :: p <= m < p + |checks| ==> VerdictOf(outs(m)) == AllGood
    decreases rounds
  {
    var r := Round(outs, ip, k, checks);
    if r.healthy {
      ChecksAllGood(outs, ip, k, checks);
    } else {
      var k' := k + |r.events|;
      PollHealthyEnd(outs, ip, k', checks, rounds - 1);
      PollStep(outs, ip, k, checks, rounds);
      var rest := Poll(outs, ip, k', checks, rounds - 1).events;
      var es := r.events + rest;
      assert es[|es| - |checks|..] == rest[|rest| - |checks|..];
    }
  }

  /** An unhealthy round is followed by the rest of the poll. */
  lemma PollStep(outs: nat -> Option<string>, ip: string, k: nat, checks: seq<string>, rounds: nat)
    requires rounds > 0 && !Round(outs, ip, k, checks).healthy
    ensures var r := Round(outs, ip, k, checks);
      var rest := Poll(outs, ip, k + |r.events|, checks, rounds - 1);
      Poll(outs, ip, k, checks, rounds) == PollRun(r.events + rest.events, rest.healthy)
  {
  }

  /** An all-good pass ran every check and each answered good output. */
  lemma {:induction false} ChecksAllGood(outs: nat -> Option<string>, ip: string, k: nat, checks: seq<string>)
    requires Checks(outs, ip, k, checks).verdict == AllGood
    ensures Checks(outs, ip, k, checks).events == Runs(Remote(ip), checks)
    ensures forall m :: k <= m < k + |checks| ==> VerdictOf(outs(m)) == AllGood
    decreases |checks|
  {
    if checks != [] {
      ChecksAllGood(outs, ip, k + 1, checks[1..]);
    }
  }

  // ------------------------------------------------------ get_node_token

  const TokenCommand: string := "sudo cat /var/lib/rancher/k3s/server/node-token"

  /** `get_node_token`'s value for a reply: the stripped output, or "" on
      any failure. */
  function TokenOf(r: Reply): (token: string)
    ensures !Succeeded(r) ==> token == ""
    ensures token == [] || (!IsSpace(token[0]) && !IsSpace(token[|token| - 1]))
  {
    StripShape(if r.Exited? then r.stdout else "");
    if Succeeded(r) then Strip(r.stdout) else ""
  }

  method GetNodeToken(o: Oracle, t: seq<Event>, ip: string) returns (t': seq<Event>, token: string)
    ensures t' == t + [Run(Remote(ip), TokenCommand)]
    ensures token == TokenOf(o(|t|))
  {
    var r;
    t', r := Exec(o, t, Remote(ip), TokenCommand);
    token := if Succeeded(r) then Strip(r.stdout) else "";
  }

  // --------------------------------------------------------- join_worker

  function JoinCommand(masterIp: string, token: string): string {
    "curl -sfL https://get.k3s.io | K3S_URL=\"https://" + masterIp + ":6443\" K3S_TOKEN=\"" + token + "\" sh -"
  }

  function JoinMessage(workerIp: string): string {
    "Failed to join worker " + workerIp
  }

  method JoinWorker(o: Oracle, t: seq<Event>, workerIp: string, masterIp: string, token: string)
    returns (t': seq<Event>, errors: seq<string>)
    ensures t' == t + [Run(Remote(workerIp), JoinCommand(masterIp, token))]
    ensures errors == (if Succeeded(o(|t|)) then [] else [JoinMessage(workerIp)])
  {
    var ok;
    t', ok := RunSsh(o, t, workerIp, JoinCommand(masterIp, token));
    errors := if ok then [] else [JoinMessage(workerIp)];
  }

  // ---------------------------------------------------------------- main

  /** Step 1 of `main`: `cleanup_node` on every entry, in `HOSTS` order;
      the `j`-th command sent to the `i`-th entry stands at position
      `11 * i + j`. */
  function CleanupTrace(hosts: seq<Node>): (es: seq<Event>)
    ensures |es| == 11 * |hosts|
  {
    seq(11 * |hosts|, p requires 0 <= p < 11 * |hosts| =>
      Run(Remote(hosts[p / 11].ip), NodeScript(hosts[p / 11].role == Master)[p % 11]))
  }

  lemma CleanupTraceSnoc(hosts: seq<Node>, i: nat)
    requires i < |hosts|
    ensures CleanupTrace(hosts[..i + 1])
      == CleanupTrace(hosts[..i]) + Runs(Remote(hosts[i].ip), NodeScript(hosts[i].role == Master))
  {
    var a := CleanupTrace(hosts[..i + 1]);
    var b := CleanupTrace(hosts[..i]) + Runs(Remote(hosts[i].ip), NodeScript(hosts[i].role == Master));
    forall p | 0 <= p < |a| ensures a[p] == b[p] {
      if p < 11 * i {
        assert p / 11 < i;
      } else {
        assert p / 11 == i && p % 11 == p - 11 * i;
      }
    }
  }

  /** Every message step 1 can report, node after node. */
  function CleanupMessages(hosts: seq<Node>): (msgs: seq<string>)
    ensures |msgs| == 11 * |hosts|
  {
    seq(11 * |hosts|, p requires 0 <= p < 11 * |hosts| => NodeMessages(hosts[p / 11].name)[p % 11])
  }

  lemma CleanupMessagesSnoc(hosts: seq<Node>, i: nat)
    requires i < |hosts|
    ensures CleanupMessages(hosts[..i + 1]) == CleanupMessages(hosts[..i]) + NodeMessages(hosts[i].name)
  {
    var a := CleanupMessages(hosts[..i + 1]);
    var b := CleanupMessages(hosts[..i]) + NodeMessages(hosts[i].name);
    forall p | 0 <= p < |a| ensures a[p] == b[p] {
      if p < 11 * i {
        assert p / 11 < i;
      } else {
        assert p / 11 == i && p % 11 == p - 11 * i;
      }
    }
  }

  /** What step 1 collects: the messages of the commands that failed. */
  function CleanupErrors(o: Oracle, hosts: seq<Node>): seq<string> {
    Failed(o, 0, CleanupMessages(hosts))
  }

  /** Cleaning the next node extends step 1's errors with that node's. */
  lemma CleanupErrorsSnoc(o: Oracle, hosts: seq<Node>, i: nat)
    requires i < |hosts|
    ensures CleanupErrors(o, hosts[..i + 1])
      == CleanupErrors(o, hosts[..i]) + Failed(o, 11 * i, NodeMessages(hosts[i].name))
  {
    var front, node := CleanupMessages(hosts[..i]), NodeMessages(hosts[i].name);
    CleanupMessagesSnoc(hosts, i);
    assert |front| == 11 * i;
    FailedAppend(o, 0, front, node);
    assert CleanupErrors(o, hosts[..i + 1]) == Failed(o, 0, front + node);
  }

  /** Step 4 of `main`: one join per worker, in order. */
  function JoinTrace(workers: seq<Node>, masterIp: string, token: string): (es: seq<Event>)
    ensures |es| == |workers|
  {
    seq(|workers|, i requires 0 <= i < |workers| => Run(Remote(workers[i].ip), JoinCommand(masterIp, token)))
  }

  function JoinMessages(workers: seq<Node>): (msgs: seq<string>)
    ensures |msgs| == |workers|
  {
    seq(|workers|, i requires 0 <= i < |workers| => JoinMessage(workers[i].ip))
  }

  function JoinErrors(o: Oracle, start: nat, workers: seq<Node>): seq<string> {
    Failed(o, start, JoinMessages(workers))
  }

  /** Joining the next worker extends step 4's trace and errors. */
  lemma JoinStep(o: Oracle, t: seq<Event>, workers: seq<Node>, masterIp: string, token: string, i: nat)
    requires i < |workers|
    ensures JoinTrace(workers[..i + 1], masterIp, token)
      == JoinTrace(workers[..i], masterIp, token) + [Run(Remote(workers[i].ip), JoinCommand(masterIp, token))]
    ensures JoinErrors(o, |t|, workers[..i + 1])
      == JoinErrors(o, |t|, workers[..i])
         + (if Succeeded(o(|t| + i)) then [] else [JoinMessage(workers[i].ip)])
  {
    var msg := JoinMessage(workers[i].ip);
    assert JoinMessages(workers[..i + 1]) == JoinMessages(workers[..i]) + [msg];
    FailedAppend(o, |t|, JoinMessages(workers[..i]), [msg]);
    assert [msg][..0] == [];
  }

  /** Step 1 of `main`. */
  method CleanupAll(o: Oracle, hosts: seq<Node>) returns (t: seq<Event>, errors: seq<string>)
    ensures t == CleanupTrace(hosts)
    ensures errors == CleanupErrors(o, hosts)
  {
    t, errors := [], [];
    for i := 0 to |hosts|
      invariant t == CleanupTrace(hosts[..i])
      invariant errors == CleanupErrors(o, hosts[..i])
    {
      var h := hosts[i];
      var es;
      CleanupTraceSnoc(hosts, i);
      CleanupErrorsSnoc(o, hosts, i);
      t, es := CleanupNode(o, t, h.name, h.ip, h.role == Master);
      errors := errors + es;
    }
    assert hosts[..|hosts|] == hosts;
  }

  /** Step 4 of `main`: a failed join is recorded and the next worker is
      joined all the same. */
  method JoinAll(o: Oracle, t: seq<Event>, workers: seq<Node>, masterIp: string, token: string)
    returns (t': seq<Event>, errors: seq<string>)
    ensures t' == t + JoinTrace(workers, masterIp, token)
    ensures errors == JoinErrors(o, |t|, workers)
  {
    t', errors := t, [];
    for i := 0 to |workers|
      invariant t' == t + JoinTrace(workers[..i], masterIp, token)
      invariant errors == JoinErrors(o, |t|, workers[..i])
    {
      JoinStep(o, t, workers, masterIp, token, i);
      var es;
      t', es := JoinWorker(o, t', workers[i].ip, masterIp, token);
      errors := errors + es;
    }
    assert workers[..|workers|] == workers;
  }

  /** Steps 3 and 4 of `main`, the token read standing at position `p`:
      the joins only when a token came back, and otherwise the one error. */
  function TokenJoin(o: Oracle, ip: string, workers: seq<Node>, p: nat): Phase {
    var token := TokenOf(o(p));
    if token == "" then Phase([Run(Remote(ip), TokenCommand)], ["Failed to get node token"])
    else Phase([Run(Remote(ip), TokenCommand)] + JoinTrace(workers, ip, token), JoinErrors(o, p + 1, workers))
  }

  /** Steps 3 and 4 of `main`. */
  method TokenAndJoin(o: Oracle, t: seq<Event>, ip: string, workers: seq<Node>)
    returns (t': seq<Event>, errors: seq<string>)
    ensures t' == t + TokenJoin(o, ip, workers, |t|).events
    ensures errors == TokenJoin(o, ip, workers, |t|).errors
  {
    var token;
    t', token := GetNodeToken(o, t, ip);
    if token == "" {
      return t', ["Failed to get node token"];
    }
    t', errors := JoinAll(o, t', workers, ip, token);
    AppendAssoc(t, [Run(Remote(ip), TokenCommand)], JoinTrace(workers, ip, token));
  }

  /** `main`, starting from an empty trace. `confirm` is the `--confirm`
      flag; `status` is the process exit status (1 for the uncaught
      `StopIteration` when `HOSTS` has no master). */
  method Reset(o: Oracle, hosts: seq<Node>, confirm: bool)
    returns (t: seq<Event>, errors: seq<string>, status: int)
    ensures !confirm ==> t == [] && errors == [] && status == 0
    ensures confirm && FirstMaster(hosts).None? ==>
      t == CleanupTrace(hosts) && errors == CleanupErrors(o, hosts) && status == 1
    ensures confirm && FirstMaster(hosts).Some? ==>
      var ip := FirstMaster(hosts).value.ip;
      var c := CleanupTrace(hosts);
      var re := Reinstall(o, ip, |c|);
      var tj := TokenJoin(o, ip, Workers(hosts), |c| + |re.events|);
      && status == 0
      && t == c + re.events + tj.events
      && errors == CleanupErrors(o, hosts) + re.errors + tj.errors
  {
    t, errors, status := [], [], 0;
    if !confirm {
      return;
    }
    t, errors := CleanupAll(o, hosts);
    var master := FirstMaster(hosts);
    if master.None? {
      status := 1;
      return;
    }
    var ip := master.value.ip;
    ghost var c := t;
    ghost var re := Reinstall(o, ip, |c|);
    var es;
    t, es := ReinstallMaster(o, t, ip);
    errors := errors + es;
    ghost var tj := TokenJoin(o, ip, Workers(hosts), |c| + |re.events|);
    assert |t| == |c| + |re.events|;
    t, es := TokenAndJoin(o, t, ip, Workers(hosts));
    assert t == c + re.events + tj.events && es == tj.errors;
    errors := errors + es;
  }

  /** However many commands fail, step 1 reports one error per failure
      and at most eleven per node. */
  lemma CleanupErrorsCount(o: Oracle, hosts: seq<Node>)
    ensures |CleanupErrors(o, hosts)| == Failures(o, 0, 11 * |hosts|) <= 11 * |hosts|
  {
    FailedCount(o, 0, CleanupMessages(hosts));
    FailuresBound(o, 0, 11 * |hosts|);
  }

  /** With the fleet's `HOSTS`, cleanup starts on the master: its first
      eleven commands go to `adama` and end with the server uninstaller,
      and each worker's eleven end with the agent uninstaller. */
  lemma FleetCleanupOrder()
    ensures var c := CleanupTrace(Galactica);
      && |c| == 44
      && (forall j :: 0 <= j < 11 ==> c[j].Run? && c[j].target == Remote(Galactica[0].ip))
      && c[10] == Run(Remote(Galactica[0].ip), "sudo " + UninstallScript(true))
      && c[21] == Run(Remote(Galactica[1].ip), "sudo " + UninstallScript(false))
      && c[32] == Run(Remote(Galactica[2].ip), "sudo " + UninstallScript(false))
      && c[43] == Run(Remote(Galactica[3].ip), "sudo " + UninstallScript(false))
  {
    var c := CleanupTrace(Galactica);
    forall j | 0 <= j < 11 ensures c[j].Run? && c[j].target == Remote(Galactica[0].ip) {
      assert j / 11 == 0;
    }
    assert 21 / 11 == 1 && 21 % 11 == 10;
    assert 32 / 11 == 2 && 32 % 11 == 10;
    assert 43 / 11 == 3 && 43 % 11 == 10;
  }
}
