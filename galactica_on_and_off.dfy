/** `admin-scripts/galactica_on_and_off.py`: power the fleet off (cordon
    the workers, shut them down, pause, shut the master down) and bring it
    back (wait until the master answers, then uncordon the workers). */
module PowerCycle {
  import opened Fleet
  import opened Text

  /** `SUDO_PASSWORD`: an opaque credential the model never inspects. */
  const SudoPassword: string

  // ------------------------------------------------------ run_ssh_command

  /** What `run_ssh_command` returns: a success flag and the standard
      output, `None` when the call into `subprocess` raised. */
  datatype SshResult = SshResult(success: bool, stdout: Option<string>)

  /** The result rule of `run_ssh_command`. Without `quiet` a command
      succeeds exactly when it exits with status zero; with `quiet` every
      command that ran at all reports success, whatever its exit status. */
  function SshOutcome(r: Reply, quiet: bool): (res: SshResult)
    ensures !quiet ==> (res.success <==> r.Exited? && r.code == 0)
    ensures quiet ==> (res.success <==> r.Exited?)
    ensures res.stdout.None? <==> r.Raised?
    ensures r.Exited? ==> res.stdout == Some(r.stdout)
  {
    match r
    case Raised => SshResult(false, None)
    case Exited(code, out) => SshResult(code == 0 || quiet, Some(out))
  }

  method RunSsh(o: Oracle, t: seq<Event>, ip: string, cmd: string, quiet: bool)
    returns (t': seq<Event>, res: SshResult)
    ensures t' == t + [Run(Remote(ip), cmd)]
    ensures res == SshOutcome(o(|t|), quiet)
  {
    var r;
    t', r := Exec(o, t, Remote(ip), cmd);
    res := SshOutcome(r, quiet);
  }

  // ------------------------------------------------------------- commands

  /** A command run through `sudo -S` with the password piped in. */
  const SudoPrefix: string := "echo '" + SudoPassword + "' | sudo -S "

  function Sudo(cmd: string): string {
    SudoPrefix + cmd
  }

  /** Two `Sudo` commands are the same only when what they run is. */
  lemma SudoInjective(a: string, b: string)
    requires Sudo(a) == Sudo(b)
    ensures a == b
  {
    var n := |SudoPrefix|;
    assert a == Sudo(a)[n..];
    assert b == Sudo(b)[n..];
  }

  const StatusCommand: string := Sudo("kubectl get nodes -o wide")
  const ShutdownCommand: string := Sudo("shutdown -h now")
  const ProbeCommand: string := "echo 'connected'"

  /** `kubectl cordon <hostname>` or `kubectl uncordon <hostname>`. */
  function KubectlNode(verb: string, hostname: string): string {
    Sudo("kubectl " + verb + " " + hostname)
  }

  /** Different nodes get different commands, and neither a cordon nor an
      uncordon is ever the shutdown command. */
  lemma KubectlNodeDistinct(verb: string, a: string, b: string)
    ensures KubectlNode(verb, a) == KubectlNode(verb, b) ==> a == b
    ensures KubectlNode(verb, a) != ShutdownCommand
  {
    var p := "kubectl " + verb + " ";
    if KubectlNode(verb, a) == KubectlNode(verb, b) {
      SudoInjective(p + a, p + b);
      assert a == (p + a)[|p|..];
      assert b == (p + b)[|p|..];
    }
    var n := |SudoPrefix|;
    assert KubectlNode(verb, a)[n] == 'k' && ShutdownCommand[n] == 's';
  }

  // ------------------------------------------------------- the master's ip

  /** `next((ip ... if role == "master"), None)` followed by the scripts'
      `if not master_ip` test: an empty address counts as no master. */
  function MasterIp(hosts: seq<Node>): (ip: Option<string>)
    ensures ip.Some? ==> FirstMaster(hosts).Some? && ip.value == FirstMaster(hosts).value.ip != ""
    ensures FirstMaster(hosts).Some? && FirstMaster(hosts).value.ip != "" ==> ip.Some?
  {
    var m := FirstMaster(hosts);
    if m.Some? && m.value.ip != "" then Some(m.value.ip) else None
  }

  /** The event of a kubectl command sent to the master: none at all when
      there is no master. */
  function OnMaster(hosts: seq<Node>, cmd: string): seq<Event> {
    if MasterIp(hosts).Some? then [Run(Remote(MasterIp(hosts).value), cmd)] else []
  }

  /** `cordon_node` and `uncordon_node`: the command goes to the master,
      and the answer is true whenever there is a master, even when the
      command failed; false, with nothing sent, only when there is none. */
  method KubectlOnMaster(o: Oracle, t: seq<Event>, hosts: seq<Node>, verb: string, hostname: string)
    returns (t': seq<Event>, ok: bool)
    ensures ok <==> MasterIp(hosts).Some?
    ensures t' == t + OnMaster(hosts, KubectlNode(verb, hostname))
  {
    var ip := MasterIp(hosts);
    if ip.None? {
      return t, false;
    }
    var ignored;
    t', ignored := RunSsh(o, t, ip.value, KubectlNode(verb, hostname), false);
    ok := true;
  }

  method CordonNode(o: Oracle, t: seq<Event>, hosts: seq<Node>, hostname: string)
    returns (t': seq<Event>, ok: bool)
    ensures ok <==> MasterIp(hosts).Some?
    ensures t' == t + OnMaster(hosts, KubectlNode("cordon", hostname))
  {
    t', ok := KubectlOnMaster(o, t, hosts, "cordon", hostname);
  }

  method UncordonNode(o: Oracle, t: seq<Event>, hosts: seq<Node>, hostname: string)
    returns (t': seq<Event>, ok: bool)
    ensures ok <==> MasterIp(hosts).Some?
    ensures t' == t + OnMaster(hosts, KubectlNode("uncordon", hostname))
  {
    t', ok := KubectlOnMaster(o, t, hosts, "uncordon", hostname);
  }

  /** `check_node_status`: one `kubectl get nodes` on the master; what it
      prints is not modelled. */
  method CheckNodeStatus(o: Oracle, t: seq<Event>, hosts: seq<Node>) returns (t': seq<Event>)
    ensures t' == t + OnMaster(hosts, StatusCommand)
  {
    t' := t;
    var ip := MasterIp(hosts);
    if ip.Some? {
      var ignored;
      t', ignored := RunSsh(o, t, ip.value, StatusCommand, false);
    }
  }

  // ------------------------------------------------------ shutdown_machine

  /** `shutdown_machine` ignores the exit status (the connection drops as
      the machine halts): it fails only when the call itself raised. */
  method ShutdownMachine(o: Oracle, t: seq<Event>, ip: string) returns (t': seq<Event>, ok: bool)
    ensures t' == t + [Run(Remote(ip), ShutdownCommand)]
    ensures ok <==> !o(|t|).Raised?
  {
    var r;
    t', r := Exec(o, t, Remote(ip), ShutdownCommand);
    ok := !r.Raised?;
  }

  // --------------------------------------------------------- wait_for_node

  /** `range(max_attempts)` has no element for a negative count. */
  function Attempts(maxAttempts: int): nat {
    if maxAttempts < 0 then 0 else maxAttempts
  }

  /** A quiet probe is answered unless the call raised. */
  predicate Answered(r: Reply) {
    SshOutcome(r, true).success
  }

  /** The reply to probe `j` of a wait whose first probe stands at trace
      position `k`: each unanswered probe is followed by its pause. */
  function Attempt(o: Oracle, k: nat, j: nat): Reply {
    o(k + 2 * j)
  }

  /** How many probes go unanswered before the first answered one, out of
      at most `n`. */
  function FailedProbes(o: Oracle, k: nat, n: nat): (f: nat)
    ensures f <= n
    decreases n
  {
    if n == 0 || Answered(o(k)) then 0 else 1 + FailedProbes(o, k + 2, n - 1)
  }

  /** `FailedProbes` counts exactly the unanswered probes before the first
      answered one. */
  lemma {:induction false} FailedProbesSpec(o: Oracle, k: nat, n: nat)
    ensures var f := FailedProbes(o, k, n);
      && (forall j :: 0 <= j < f ==> !Answered(Attempt(o, k, j)))
      && (f < n ==> Answered(Attempt(o, k, f)))
    decreases n
  {
    if n > 0 && !Answered(o(k)) {
      FailedProbesSpec(o, k + 2, n - 1);
      var f := FailedProbes(o, k, n);
      forall j | 0 <= j < f ensures !Answered(Attempt(o, k, j)) {
        if j > 0 {
          assert Attempt(o, k, j) == Attempt(o, k + 2, j - 1);
        }
      }
      if f < n {
        assert Attempt(o, k, f) == Attempt(o, k + 2, f - 1);
      }
    }
  }

  /** Those two facts determine the count. */
  lemma FailedProbesUnique(o: Oracle, k: nat, n: nat, i: nat)
    requires i <= n
    requires forall j :: 0 <= j < i ==> !Answered(Attempt(o, k, j))
    requires i < n ==> Answered(Attempt(o, k, i))
    ensures FailedProbes(o, k, n) == i
  {
    FailedProbesSpec(o, k, n);
  }

  /** `n` probes of `ip`. */
  function Probes(ip: string, n: nat): (es: seq<Event>)
    ensures |es| == n
  {
    seq(n, _ => Run(Remote(ip), ProbeCommand))
  }

  datatype Waited = Waited(events: seq<Event>, reached: bool)

  /** `wait_for_node` begun at trace position `k` with `n` attempts: each
      unanswered probe followed by `time.sleep(3)`, then the answered
      probe if there was one. */
  function WaitFor(o: Oracle, ip: string, k: nat, n: nat): Waited {
    var f := FailedProbes(o, k, n);
    Waited(Spaced(Probes(ip, f), 3) + (if f < n then [Run(Remote(ip), ProbeCommand)] else []), f < n)
  }

  method WaitForNode(o: Oracle, t: seq<Event>, ip: string, maxAttempts: int)
    returns (t': seq<Event>, reached: bool)
    ensures t' == t + WaitFor(o, ip, |t|, Attempts(maxAttempts)).events
    ensures reached == WaitFor(o, ip, |t|, Attempts(maxAttempts)).reached
  {
    var n := Attempts(maxAttempts);
    var probe := Run(Remote(ip), ProbeCommand);
    t' := t;
    var i := 0;
    while i < maxAttempts
      invariant 0 <= i <= n
      invariant t' == t + Spaced(Probes(ip, i), 3)
      invariant forall j :: 0 <= j < i ==> !Answered(Attempt(o, |t|, j))
    {
      assert |t'| == |t| + 2 * i;
      var res;
      t', res := RunSsh(o, t', ip, ProbeCommand, true);
      if res.success {
        assert Answered(Attempt(o, |t|, i));
        FailedProbesUnique(o, |t|, n, i);
        return t', true;
      }
      assert Probes(ip, i + 1) == Probes(ip, i) + [probe];
      SpacedSnoc(Probes(ip, i), probe, 3);
      t' := t' + [Delay(3)];
      i := i + 1;
    }
    FailedProbesUnique(o, |t|, n, i);
    reached := false;
  }

  lemma {:induction false} ProbesCount(ip: string, n: nat)
    ensures Occurrences(Run(Remote(ip), ProbeCommand), Probes(ip, n)) == n
  {
    if n > 0 {
      ProbesCount(ip, n - 1);
      assert Probes(ip, n) == [Run(Remote(ip), ProbeCommand)] + Probes(ip, n - 1);
    }
  }

  /** The wait sends at most `n` probes and stops at the first answered
      one; when it gives up it has sent exactly `n`, none answered, each
      followed by a three-second pause. */
  lemma WaitProbeCount(o: Oracle, ip: string, k: nat, n: nat)
    ensures var w := WaitFor(o, ip, k, n);
      var sent := Occurrences(Run(Remote(ip), ProbeCommand), w.events);
      var f := FailedProbes(o, k, n);
      && sent <= n
      && (w.reached ==> sent == f + 1 && Answered(Attempt(o, k, f))
                        && w.events[|w.events| - 1] == Run(Remote(ip), ProbeCommand))
      && (!w.reached ==> sent == n && (forall j :: 0 <= j < n ==> !Answered(Attempt(o, k, j))))
      && (forall j :: 0 <= j < f ==> w.events[2 * j + 1] == Delay(3))
  {
    var f := FailedProbes(o, k, n);
    var probe := Run(Remote(ip), ProbeCommand);
    FailedProbesSpec(o, k, n);
    ProbesCount(ip, f);
    OccurrencesSpaced(probe, Probes(ip, f), 3);
    var w := WaitFor(o, ip, k, n);
    OccurrencesAppend(probe, Spaced(Probes(ip, f), 3), if f < n then [probe] else []);
    forall j | 0 <= j < f ensures w.events[2 * j + 1] == Delay(3) {
      SpacedAt(Probes(ip, f), 3, j);
    }
  }

  /** A wait sends nothing but probes of `ip` and three-second pauses. */
  lemma WaitEventsShape(o: Oracle, ip: string, k: nat, n: nat)
    ensures forall e :: e in WaitFor(o, ip, k, n).events ==>
      e == Run(Remote(ip), ProbeCommand) || e == Delay(3)
  {
    var ps := Probes(ip, FailedProbes(o, k, n));
    var es := Spaced(ps, 3);
    forall e | e in es ensures e == Run(Remote(ip), ProbeCommand) || e == Delay(3) {
      var m :| 0 <= m < |es| && es[m] == e;
      SpacedAt(ps, 3, m / 2);
    }
  }

  // ----------------------------------------------------------- the phases

  /** `cordon_node` (or `uncordon_node`) for each node of `ws`, each
      followed by `time.sleep(1)`. */
  function KubectlPhase(hosts: seq<Node>, ws: seq<Node>, verb: string): (es: seq<Event>)
    decreases |ws|
  {
    if ws == [] then []
    else
      var n := |ws| - 1;
      KubectlPhase(hosts, ws[..n], verb) + OnMaster(hosts, KubectlNode(verb, ws[n].name)) + [Delay(1)]
  }

  /** How many entries of `ws` carry the hostname `name`. */
  function Named(ws: seq<Node>, name: string): (c: nat)
    ensures c <= |ws|
    decreases |ws|
  {
    if ws == [] then 0
    else Named(ws[..|ws| - 1], name) + (if ws[|ws| - 1].name == name then 1 else 0)
  }

  /** The phase acts on a node once per entry of `ws` with its name, and
      never on any other node. */
  lemma {:induction false} KubectlPhaseCount(hosts: seq<Node>, ws: seq<Node>, verb: string, name: string)
    requires MasterIp(hosts).Some?
    ensures Occurrences(Run(Remote(MasterIp(hosts).value), KubectlNode(verb, name)), KubectlPhase(hosts, ws, verb))
      == Named(ws, name)
    decreases |ws|
  {
    if ws != [] {
      var n := |ws| - 1;
      var e := Run(Remote(MasterIp(hosts).value), KubectlNode(verb, name));
      KubectlPhaseCount(hosts, ws[..n], verb, name);
      KubectlNodeDistinct(verb, ws[n].name, name);
      var step := OnMaster(hosts, KubectlNode(verb, ws[n].name));
      OccurrencesAppend(e, KubectlPhase(hosts, ws[..n], verb), step);
      OccurrencesAppend(e, KubectlPhase(hosts, ws[..n], verb) + step, [Delay(1)]);
    }
  }

  /** `shutdown_machine` for each worker, each followed by `time.sleep(2)`. */
  function ShutdownPhase(ws: seq<Node>): (es: seq<Event>)
    ensures |es| == 2 * |ws|
    decreases |ws|
  {
    if ws == [] then []
    else
      var n := |ws| - 1;
      ShutdownPhase(ws[..n]) + [Run(Remote(ws[n].ip), ShutdownCommand), Delay(2)]
  }

  /** The `(hostname, success)` entries the worker shutdowns add to
      `results`, the phase having begun at trace position `k`. */
  function ShutdownResults(o: Oracle, k: nat, ws: seq<Node>): (rs: seq<(string, bool)>)
    ensures |rs| == |ws|
    decreases |ws|
  {
    if ws == [] then []
    else
      var n := |ws| - 1;
      ShutdownResults(o, k, ws[..n]) + [(ws[n].name, !o(k + 2 * n).Raised?)]
  }

  /** One entry per worker, in order, carrying its hostname and whether
      its shutdown call went through. */
  lemma {:induction false} ShutdownResultsAt(o: Oracle, k: nat, ws: seq<Node>)
    ensures forall i :: 0 <= i < |ws| ==> ShutdownResults(o, k, ws)[i] == (ws[i].name, !o(k + 2 * i).Raised?)
    decreases |ws|
  {
    if ws != [] {
      ShutdownResultsAt(o, k, ws[..|ws| - 1]);
    }
  }

  /** How many entries of `ws` have the address `ip`. */
  function AtIp(ws: seq<Node>, ip: string): (c: nat)
    ensures c <= |ws|
    decreases |ws|
  {
    if ws == [] then 0
    else AtIp(ws[..|ws| - 1], ip) + (if ws[|ws| - 1].ip == ip then 1 else 0)
  }

  /** Each worker gets one shutdown per entry at its address. */
  lemma {:induction false} ShutdownPhaseCount(ws: seq<Node>, ip: string)
    ensures Occurrences(Run(Remote(ip), ShutdownCommand), ShutdownPhase(ws)) == AtIp(ws, ip)
    decreases |ws|
  {
    if ws != [] {
      var n := |ws| - 1;
      ShutdownPhaseCount(ws[..n], ip);
      OccurrencesAppend(Run(Remote(ip), ShutdownCommand), ShutdownPhase(ws[..n]),
                        [Run(Remote(ws[n].ip), ShutdownCommand), Delay(2)]);
    }
  }

  // ----------------------------------------------------------- cluster_off

  /** The `off` subcommand's arguments. */
  datatype OffArgs = OffArgs(force: bool, noCordon: bool, wait: int)

  /** `--force` and `--no-cordon` unset, `--wait 7`. */
  const OffDefaults: OffArgs := OffArgs(false, false, 7)

  /** What `cluster_off` does and how the process ends. */
  datatype OffRun = OffRun(events: seq<Event>, results: seq<(string, bool)>, status: int)

  /** `cluster_off` once past the confirmation: the status check, the
      cordons unless skipped, every worker's shutdown, the pause of
      `--wait` seconds, then the master's shutdown. A negative `--wait`
      makes `time.sleep` raise, which ends the process with status 1
      before the master is touched. */
  function Off(o: Oracle, hosts: seq<Node>, args: OffArgs): OffRun {
    if FirstMaster(hosts).None? then OffRun([], [], 1)
    else
      var m := FirstMaster(hosts).value;
      var ws := Workers(hosts);
      var pre := OnMaster(hosts, StatusCommand) + (if args.noCordon then [] else KubectlPhase(hosts, ws, "cordon"));
      var down := pre + ShutdownPhase(ws);
      var rs := ShutdownResults(o, |pre|, ws);
      if args.wait < 0 then OffRun(down, rs, 1)
      else
        OffRun(down + [Delay(args.wait), Run(Remote(m.ip), ShutdownCommand)],
               rs + [(m.name, !o(|down| + 1).Raised?)], 0)
  }

  /** The `for hostname, _ in worker_nodes` loops of `cluster_off` and
      `cluster_on`: cordon (or uncordon) each worker, then pause. */
  method KubectlEach(o: Oracle, t: seq<Event>, hosts: seq<Node>, ws: seq<Node>, verb: string)
    returns (t': seq<Event>)
    ensures t' == t + KubectlPhase(hosts, ws, verb)
  {
    t' := t;
    for i := 0 to |ws|
      invariant t' == t + KubectlPhase(hosts, ws[..i], verb)
    {
      assert ws[..i + 1][..i] == ws[..i];
      var ignored;
      t', ignored := KubectlOnMaster(o, t', hosts, verb, ws[i].name);
      t' := t' + [Delay(1)];
    }
    assert ws[..|ws|] == ws;
  }

  /** The worker loop of `cluster_off`: shut each worker down, record
      `(hostname, success)`, pause; a failure does not stop the loop. */
  method ShutdownWorkers(o: Oracle, t: seq<Event>, ws: seq<Node>)
    returns (t': seq<Event>, results: seq<(string, bool)>)
    ensures t' == t + ShutdownPhase(ws)
    ensures results == ShutdownResults(o, |t|, ws)
  {
    t', results := t, [];
    for i := 0 to |ws|
      invariant t' == t + ShutdownPhase(ws[..i])
      invariant results == ShutdownResults(o, |t|, ws[..i])
    {
      assert ws[..i + 1][..i] == ws[..i];
      assert |t'| == |t| + 2 * i;
      var ok;
      t', ok := ShutdownMachine(o, t', ws[i].ip);
      results := results + [(ws[i].name, ok)];
      t' := t' + [Delay(2)];
    }
    assert ws[..|ws|] == ws;
  }

  /** `cluster_off` past its confirmation. */
  method PowerOff(o: Oracle, hosts: seq<Node>, args: OffArgs)
    returns (t: seq<Event>, results: seq<(string, bool)>, status: int)
    ensures OffRun(t, results, status) == Off(o, hosts, args)
  {
    t := CheckNodeStatus(o, [], hosts);
    assert t == OnMaster(hosts, StatusCommand);
    var ws := Workers(hosts);
    var master := FirstMaster(hosts);
    if master.None? {
      return [], [], 1;
    }
    ghost var pre := OnMaster(hosts, StatusCommand) + (if args.noCordon then [] else KubectlPhase(hosts, ws, "cordon"));
    if !args.noCordon {
      t := KubectlEach(o, t, hosts, ws, "cordon");
    }
    assert t == pre;
    t, results := ShutdownWorkers(o, t, ws);
    ghost var down := pre + ShutdownPhase(ws);
    assert t == down && results == ShutdownResults(o, |pre|, ws);
    if args.wait < 0 {
      status := 1;
      return;
    }
    t := t + [Delay(args.wait)];
    assert |t| == |down| + 1;
    var ok;
    t, ok := ShutdownMachine(o, t, master.value.ip);
    AppendAssoc(down, [Delay(args.wait)], [Run(Remote(master.value.ip), ShutdownCommand)]);
    results := results + [(master.value.name, ok)];
    status := 0;
  }

  /** `cluster_off`: without `--force`, an answer other than "yes" (in any
      case) ends the process with status 0 before anything is sent. */
  method ClusterOff(o: Oracle, hosts: seq<Node>, args: OffArgs, answer: string)
    returns (t: seq<Event>, results: seq<(string, bool)>, status: int)
    ensures !args.force && Lower(answer) != "yes" ==> t == [] && results == [] && status == 0
    ensures args.force || Lower(answer) == "yes" ==> OffRun(t, results, status) == Off(o, hosts, args)
  {
    if !args.force && Lower(answer) != "yes" {
      return [], [], 0;
    }
    t, results, status := PowerOff(o, hosts, args);
  }

  /** Once confirmed, with a master and a non-negative `--wait`, every
      address receives one shutdown per worker entry at it plus one if it
      is the master's, the master's shutdown is the very last command, sent
      right after the `--wait` pause, and `results` holds one entry per
      worker in `HOSTS` order and then the master's. */
  lemma OffShutdowns(o: Oracle, hosts: seq<Node>, args: OffArgs, ip: string)
    requires FirstMaster(hosts).Some? && args.wait >= 0
    ensures var r := Off(o, hosts, args);
      var m := FirstMaster(hosts).value;
      var ws := Workers(hosts);
      && r.status == 0
      && Occurrences(Run(Remote(ip), ShutdownCommand), r.events) == AtIp(ws, ip) + (if ip == m.ip then 1 else 0)
      && r.events[|r.events| - 2..] == [Delay(args.wait), Run(Remote(m.ip), ShutdownCommand)]
      && |r.results| == |ws| + 1
      && (forall i :: 0 <= i < |ws| ==> r.results[i].0 == ws[i].name)
      && r.results[|ws|].0 == m.name
  {
    OffCount(o, hosts, args, ip);
    OffTail(o, hosts, args);
  }

  /** The shutdowns at one address: one per worker entry there, plus the
      master's own. */
  lemma OffCount(o: Oracle, hosts: seq<Node>, args: OffArgs, ip: string)
    requires FirstMaster(hosts).Some? && args.wait >= 0
    ensures Occurrences(Run(Remote(ip), ShutdownCommand), Off(o, hosts, args).events)
      == AtIp(Workers(hosts), ip) + (if ip == FirstMaster(hosts).value.ip then 1 else 0)
  {
    var m := FirstMaster(hosts).value;
    var ws := Workers(hosts);
    var e := Run(Remote(ip), ShutdownCommand);
    var status := OnMaster(hosts, StatusCommand);
    var cordons := if args.noCordon then [] else KubectlPhase(hosts, ws, "cordon");
    var pre := status + cordons;
    var last := [Delay(args.wait), Run(Remote(m.ip), ShutdownCommand)];
    var down := pre + ShutdownPhase(ws);
    assert Off(o, hosts, args).events == down + last;
    StatusNeverShutDown(hosts, ip);
    if !args.noCordon {
      CordonsNeverShutDown(hosts, ws, ip);
    }
    OccurrencesAppend(e, status, cordons);
    assert Occurrences(e, pre) == 0;
    ShutdownPhaseCount(ws, ip);
    OccurrencesAppend(e, pre, ShutdownPhase(ws));
    OccurrencesAppend(e, down, last);
  }

  /** The status listing sent to the master is not a shutdown. */
  lemma StatusNeverShutDown(hosts: seq<Node>, ip: string)
    ensures Occurrences(Run(Remote(ip), ShutdownCommand), OnMaster(hosts, StatusCommand)) == 0
  {
    var n := |SudoPrefix|;
    assert StatusCommand[n] == 'k' && ShutdownCommand[n] == 's';
  }

  /** The run ends with the `--wait` pause and the master's shutdown, and
      the results name the workers in order and then the master. */
  lemma OffTail(o: Oracle, hosts: seq<Node>, args: OffArgs)
    requires FirstMaster(hosts).Some? && args.wait >= 0
    ensures var r := Off(o, hosts, args);
      var m := FirstMaster(hosts).value;
      var ws := Workers(hosts);
      && r.status == 0
      && r.events[|r.events| - 2..] == [Delay(args.wait), Run(Remote(m.ip), ShutdownCommand)]
      && |r.results| == |ws| + 1
      && (forall i :: 0 <= i < |ws| ==> r.results[i].0 == ws[i].name)
      && r.results[|ws|].0 == m.name
  {
    var ws := Workers(hosts);
    var status := OnMaster(hosts, StatusCommand);
    var cordons := if args.noCordon then [] else KubectlPhase(hosts, ws, "cordon");
    ShutdownResultsAt(o, |status + cordons|, ws);
  }

  /** In a fleet of the shape of `HOSTS`, each worker's address belongs
      to exactly one worker, and the master's to none. */
  lemma ShapeWorkerIps(hosts: seq<Node>, k: nat)
    requires FleetShape(hosts) && k < 4
    ensures AtIp(hosts[1..], hosts[k].ip) == (if k == 0 then 0 else 1)
  {
    var ws, ip := hosts[1..], hosts[k].ip;
    var w2 := ws[..2];
    var w1 := w2[..1];
    assert ws[..|ws| - 1] == w2 && w1[..0] == [];
    assert forall j :: 0 <= j < 3 ==> (ws[j].ip == ip <==> j + 1 == k);
    assert AtIp(w2, ip) == AtIp(w1, ip) + (if ws[1].ip == ip then 1 else 0);
  }

  /** Likewise each worker's name belongs to exactly one worker, and the
      master's to none. */
  lemma ShapeWorkerNames(hosts: seq<Node>, k: nat)
    requires FleetShape(hosts) && k < 4
    ensures Named(hosts[1..], hosts[k].name) == (if k == 0 then 0 else 1)
  {
    var ws, name := hosts[1..], hosts[k].name;
    var w2 := ws[..2];
    var w1 := w2[..1];
    assert ws[..|ws| - 1] == w2 && w1[..0] == [];
    assert forall j :: 0 <= j < 3 ==> (ws[j].name == name <==> j + 1 == k);
    assert Named(w2, name) == Named(w1, name) + (if ws[1].name == name then 1 else 0);
  }

  /** In a fleet of that shape, powering off shuts each host down once. */
  lemma ShapeOffOnce(o: Oracle, hosts: seq<Node>, args: OffArgs, k: nat)
    requires FleetShape(hosts) && args.wait >= 0 && k < 4
    ensures Occurrences(Run(Remote(hosts[k].ip), ShutdownCommand), Off(o, hosts, args).events) == 1
  {
    FleetShapeRoles(hosts);
    ShapeWorkerIps(hosts, k);
    OffShutdowns(o, hosts, args, hosts[k].ip);
  }

  /** In a fleet of that shape, every host receives exactly one shutdown,
      and the results name the workers in order and then the master. */
  lemma ShapeOff(o: Oracle, hosts: seq<Node>, args: OffArgs)
    requires FleetShape(hosts) && args.wait >= 0
    ensures var r := Off(o, hosts, args);
      && (forall k :: 0 <= k < 4 ==> Occurrences(Run(Remote(hosts[k].ip), ShutdownCommand), r.events) == 1)
      && |r.results| == 4
      && (forall i :: 0 <= i < 3 ==> r.results[i].0 == hosts[i + 1].name)
      && r.results[3].0 == hosts[0].name
  {
    forall k | 0 <= k < 4
      ensures Occurrences(Run(Remote(hosts[k].ip), ShutdownCommand), Off(o, hosts, args).events) == 1
    {
      ShapeOffOnce(o, hosts, args, k);
    }
    FleetShapeRoles(hosts);
    OffShutdowns(o, hosts, args, "");
  }

  /** With the fleet's `HOSTS`, every host, `adama` included, receives
      exactly one shutdown, and the results name `boomer`, `apollo`,
      `starbuck` and then `adama`. */
  lemma GalacticaOff(o: Oracle, hosts: seq<Node>, args: OffArgs)
    requires hosts == Galactica && args.wait >= 0
    ensures var r := Off(o, hosts, args);
      && (forall h :: h in hosts ==> Occurrences(Run(Remote(h.ip), ShutdownCommand), r.events) == 1)
      && |r.results| == 4
      && (forall i :: 0 <= i < 3 ==> r.results[i].0 == hosts[i + 1].name)
      && r.results[3].0 == "adama"
  {
    GalacticaShape();
    ShapeOff(o, hosts, args);
  }

  /** The cordon phase sends no shutdown. */
  lemma {:induction false} CordonsNeverShutDown(hosts: seq<Node>, ws: seq<Node>, ip: string)
    ensures Occurrences(Run(Remote(ip), ShutdownCommand), KubectlPhase(hosts, ws, "cordon")) == 0
    decreases |ws|
  {
    if ws != [] {
      var n := |ws| - 1;
      var e := Run(Remote(ip), ShutdownCommand);
      CordonsNeverShutDown(hosts, ws[..n], ip);
      KubectlNodeDistinct("cordon", ws[n].name, ws[n].name);
      var step := OnMaster(hosts, KubectlNode("cordon", ws[n].name));
      OccurrencesAppend(e, KubectlPhase(hosts, ws[..n], "cordon"), step);
      OccurrencesAppend(e, KubectlPhase(hosts, ws[..n], "cordon") + step, [Delay(1)]);
    }
  }

  // ------------------------------------------------------------ cluster_on

  /** The `on` subcommand's arguments. */
  datatype OnArgs = OnArgs(wait: int, maxAttempts: int, force: bool)

  /** `--wait 15`, `--max-attempts 10`, `--force` unset. */
  const OnDefaults: OnArgs := OnArgs(15, 10, false)

  datatype OnRun = OnRun(events: seq<Event>, status: int)

  /** `cluster_on`: wait for the master; give up with status 1 when it
      never answered and `--force` is unset; otherwise pause `--wait`
      seconds, check the status, uncordon each worker, pause three seconds
      and check the status again. */
  function On(o: Oracle, hosts: seq<Node>, args: OnArgs): OnRun {
    if FirstMaster(hosts).None? then OnRun([], 1)
    else
      var w := WaitFor(o, FirstMaster(hosts).value.ip, 0, Attempts(args.maxAttempts));
      if !w.reached && !args.force then OnRun(w.events, 1)
      else if args.wait < 0 then OnRun(w.events, 1)
      else
        OnRun(w.events + [Delay(args.wait)] + OnMaster(hosts, StatusCommand)
                + KubectlPhase(hosts, Workers(hosts), "uncordon")
                + [Delay(3)] + OnMaster(hosts, StatusCommand), 0)
  }

  method ClusterOn(o: Oracle, hosts: seq<Node>, args: OnArgs) returns (t: seq<Event>, status: int)
    ensures OnRun(t, status) == On(o, hosts, args)
  {
    var master := FirstMaster(hosts);
    if master.None? {
      return [], 1;
    }
    var reached;
    t, reached := WaitForNode(o, [], master.value.ip, args.maxAttempts);
    assert t == WaitFor(o, master.value.ip, 0, Attempts(args.maxAttempts)).events;
    if !reached && !args.force {
      return t, 1;
    }
    if args.wait < 0 {
      return t, 1;
    }
    t := t + [Delay(args.wait)];
    t := CheckNodeStatus(o, t, hosts);
    t := KubectlEach(o, t, hosts, Workers(hosts), "uncordon");
    t := t + [Delay(3)];
    t := CheckNodeStatus(o, t, hosts);
    status := 0;
  }

  /** When the master never answers and `--force` is unset, nothing but
      the probes and their pauses is sent: no worker is uncordoned. */
  lemma UnreachableMasterStops(o: Oracle, hosts: seq<Node>, args: OnArgs)
    requires FirstMaster(hosts).Some? && !args.force
    requires !WaitFor(o, FirstMaster(hosts).value.ip, 0, Attempts(args.maxAttempts)).reached
    ensures On(o, hosts, args).status == 1
    ensures forall e :: e in On(o, hosts, args).events ==>
      e == Run(Remote(FirstMaster(hosts).value.ip), ProbeCommand) || e == Delay(3)
  {
    WaitEventsShape(o, FirstMaster(hosts).value.ip, 0, Attempts(args.maxAttempts));
  }

  /** Once past the wait, each node is uncordoned once per worker entry
      with its name, and the master, which is not a worker, never is. */
  lemma OnUncordons(o: Oracle, hosts: seq<Node>, args: OnArgs, name: string)
    requires MasterIp(hosts).Some? && On(o, hosts, args).status == 0
    ensures Occurrences(Run(Remote(MasterIp(hosts).value), KubectlNode("uncordon", name)), On(o, hosts, args).events)
      == Named(Workers(hosts), name)
  {
    var ip := MasterIp(hosts).value;
    var ws := Workers(hosts);
    var e := Run(Remote(ip), KubectlNode("uncordon", name));
    var w := WaitFor(o, ip, 0, Attempts(args.maxAttempts));
    var status := OnMaster(hosts, StatusCommand);
    var a := w.events + ([Delay(args.wait)] + status);
    var b := KubectlPhase(hosts, ws, "uncordon");
    var c := [Delay(3)] + status;
    assert On(o, hosts, args).events == a + b + c;
    assert Occurrences(e, status) == 0 by {
      var n := |SudoPrefix|;
      assert StatusCommand[n + 8] == 'g' && KubectlNode("uncordon", name)[n + 8] == 'u';
    }
    assert Occurrences(e, [Delay(args.wait)] + status) == 0;
    assert Occurrences(e, c) == 0;
    WaitEventsShape(o, ip, 0, Attempts(args.maxAttempts));
    ProbesNeverUncordon(w.events, ip, name);
    OccurrencesAppend(e, w.events, [Delay(args.wait)] + status);
    KubectlPhaseCount(hosts, ws, "uncordon", name);
    OccurrencesAppend(e, a, b);
    OccurrencesAppend(e, a + b, c);
  }

  /** In a fleet of that shape, powering on uncordons each worker once and
      the master never. */
  lemma ShapeOnOnce(o: Oracle, hosts: seq<Node>, args: OnArgs, k: nat)
    requires FleetShape(hosts) && On(o, hosts, args).status == 0 && k < 4
    ensures MasterIp(hosts) == Some(hosts[0].ip)
    ensures Occurrences(Run(Remote(hosts[0].ip), KubectlNode("uncordon", hosts[k].name)), On(o, hosts, args).events)
      == (if k == 0 then 0 else 1)
  {
    FleetShapeRoles(hosts);
    ShapeWorkerNames(hosts, k);
    OnUncordons(o, hosts, args, hosts[k].name);
  }

  /** With the fleet's `HOSTS`, `boomer`, `apollo` and `starbuck` are each
      uncordoned exactly once and `adama` never is. */
  lemma GalacticaOn(o: Oracle, hosts: seq<Node>, args: OnArgs)
    requires hosts == Galactica && On(o, hosts, args).status == 0
    ensures forall h :: h in hosts ==>
      Occurrences(Run(Remote(hosts[0].ip), KubectlNode("uncordon", h.name)), On(o, hosts, args).events)
        == (if h.role == Worker then 1 else 0)
  {
    GalacticaShape();
    ShapeOn(o, hosts, args);
  }

  /** In a fleet of that shape, each worker is uncordoned once and the
      master never. */
  lemma ShapeOn(o: Oracle, hosts: seq<Node>, args: OnArgs)
    requires FleetShape(hosts) && On(o, hosts, args).status == 0
    ensures forall h :: h in hosts ==>
      Occurrences(Run(Remote(hosts[0].ip), KubectlNode("uncordon", h.name)), On(o, hosts, args).events)
        == (if h.role == Worker then 1 else 0)
  {
    forall h | h in hosts
      ensures Occurrences(Run(Remote(hosts[0].ip), KubectlNode("uncordon", h.name)), On(o, hosts, args).events)
        == (if h.role == Worker then 1 else 0)
    {
      var k :| 0 <= k < 4 && hosts[k] == h;
      ShapeOnOnce(o, hosts, args, k);
    }
  }

  /** The wait's probes and pauses are never an uncordon. */
  lemma {:induction false} ProbesNeverUncordon(es: seq<Event>, ip: string, name: string)
    requires forall e :: e in es ==> e == Run(Remote(ip), ProbeCommand) || e.Delay?
    ensures Occurrences(Run(Remote(ip), KubectlNode("uncordon", name)), es) == 0
    decreases |es|
  {
    if es != [] {
      assert |KubectlNode("uncordon", name)| > |ProbeCommand|;
      assert es[0] in es;
      assert forall e :: e in es[1..] ==> e in es;
      ProbesNeverUncordon(es[1..], ip, name);
    }
  }

  // ------------------------------------------------------------------ main

  /** The subcommand `main` dispatches on. */
  datatype Command = PowerOn(onArgs: OnArgs) | PowerOff(offArgs: OffArgs) | ShowStatus | NoCommand

  /** `main`: `on`, `off` and `status` run their function; no subcommand
      only prints the help. `answer` is what `input()` would read. */
  method Dispatch(o: Oracle, hosts: seq<Node>, cmd: Command, answer: string)
    returns (t: seq<Event>, status: int)
    ensures cmd.PowerOn? ==> OnRun(t, status) == On(o, hosts, cmd.onArgs)
    ensures cmd.PowerOff? && !cmd.offArgs.force && Lower(answer) != "yes" ==> t == [] && status == 0
    ensures cmd.PowerOff? && (cmd.offArgs.force || Lower(answer) == "yes") ==>
      t == Off(o, hosts, cmd.offArgs).events && status == Off(o, hosts, cmd.offArgs).status
    ensures cmd.ShowStatus? ==> t == OnMaster(hosts, StatusCommand) && status == 0
    ensures cmd.NoCommand? ==> t == [] && status == 0
  {
    match cmd
    case PowerOn(args) =>
      t, status := ClusterOn(o, hosts, args);
    case PowerOff(args) =>
      var results;
      t, results, status := ClusterOff(o, hosts, args, answer);
    case ShowStatus =>
      t := CheckNodeStatus(o, [], hosts);
      status := 0;
    case NoCommand =>
      t, status := [], 0;
  }
}
