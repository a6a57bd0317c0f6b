/** `admin/shutdown_cluster.py`: after a typed confirmation, drain every
    node (the control plane `adama` last) and then shut every machine
    down in the same order. Failures only print warnings, so what is sent
    never depends on the replies. */
module ShutdownCluster {
  import opened Fleet
  import opened Text

  /** One `(hostname, ip)` entry of this script's `HOSTS`. */
  datatype Host = Host(name: string, ip: string)

  /** This script's `HOSTS`: the workers first, the control plane last. */
  const ShutdownOrder: seq<Host> := [
    Host("boomer", "192.168.1.21"),
    Host("apollo", "192.168.1.22"),
    Host("starbuck", "192.168.1.23"),
    Host("adama", "192.168.1.20")
  ]

  const DrainFlags: string := " --ignore-daemonsets --delete-emptydir-data"
  const NoEviction: string := " --disable-eviction"

  /** The halt `shutdown_host` runs on a machine over ssh. */
  const HaltCommand: string := "sudo shutdown -h now"

  /** `drain_node`'s command: the control plane's drain bypasses the
      eviction API. */
  function DrainCommand(nodeName: string): string {
    "kubectl drain " + nodeName + DrainFlags + (if nodeName == "adama" then NoEviction else "")
  }

  predicate EndsWith(s: string, suffix: string) {
    |suffix| <= |s| && s[|s| - |suffix|..] == suffix
  }

  /** The drain carries `--disable-eviction` exactly for `adama`. */
  lemma DrainFlagIffControlPlane(nodeName: string)
    ensures EndsWith(DrainCommand(nodeName), NoEviction) <==> nodeName == "adama"
  {
    var c := DrainCommand(nodeName);
    if nodeName != "adama" {
      assert c[|c| - 1] == 'a';
      assert NoEviction[|NoEviction| - 1] == 'n';
      assert c[|c| - |NoEviction|..][|NoEviction| - 1] == c[|c| - 1];
    } else {
      assert c == "kubectl drain " + nodeName + DrainFlags + NoEviction;
    }
  }

  /** Different nodes get different drains. */
  lemma DrainCommandInjective(a: string, b: string)
    requires DrainCommand(a) == DrainCommand(b)
    ensures a == b
  {
    DrainFlagIffControlPlane(a);
    DrainFlagIffControlPlane(b);
    var p := |"kubectl drain "|;
    if a != "adama" {
      assert a == DrainCommand(a)[p..|DrainCommand(a)| - |DrainFlags|];
      assert b == DrainCommand(b)[p..|DrainCommand(b)| - |DrainFlags|];
    }
  }

  /** The drains, one per host in order. */
  function Drains(hosts: seq<Host>): (es: seq<Event>)
    ensures |es| == |hosts|
  {
    seq(|hosts|, i requires 0 <= i < |hosts| => Run(Local, DrainCommand(hosts[i].name)))
  }

  /** The halts, one per host in order. */
  function Halts(hosts: seq<Host>): (es: seq<Event>)
    ensures |es| == |hosts|
  {
    seq(|hosts|, i requires 0 <= i < |hosts| => Run(Remote(hosts[i].ip), HaltCommand))
  }

  datatype Outcome = Outcome(events: seq<Event>, status: int)

  /** `main` once confirmed: every drain followed by `time.sleep(5)`, the
      ten-second pause, then every halt followed by `time.sleep(2)`. With
      no host at all, `HOSTS[-1]` raises and the process ends with status 1. */
  function Shutdown(hosts: seq<Host>): Outcome {
    if hosts == [] then Outcome([], 1)
    else Outcome(Spaced(Drains(hosts), 5) + [Delay(10)] + Spaced(Halts(hosts), 2), 0)
  }

  /** `drain_node`: the drain, whatever it answers, then five seconds. */
  method DrainNode(o: Oracle, t: seq<Event>, nodeName: string) returns (t': seq<Event>)
    ensures t' == t + [Run(Local, DrainCommand(nodeName)), Delay(5)]
  {
    var ignored;
    t', ignored := Exec(o, t, Local, DrainCommand(nodeName));
    t' := t' + [Delay(5)];
  }

  /** `shutdown_host`: the halt, whatever it answers. */
  method ShutdownHost(o: Oracle, t: seq<Event>, ip: string) returns (t': seq<Event>)
    ensures t' == t + [Run(Remote(ip), HaltCommand)]
  {
    var ignored;
    t', ignored := Exec(o, t, Remote(ip), HaltCommand);
  }

  /** `main`: unless the answer is "yes" in any case, nothing is sent and
      the process ends with status 0. */
  method ShutdownAll(o: Oracle, hosts: seq<Host>, answer: string) returns (t: seq<Event>, status: int)
    ensures Lower(answer) != "yes" ==> t == [] && status == 0
    ensures Lower(answer) == "yes" ==> Outcome(t, status) == Shutdown(hosts)
  {
    t, status := [], 0;
    if Lower(answer) != "yes" {
      return;
    }
    var n := |hosts|;
    // the workers: `HOSTS[:-1]`
    for i := 0 to if n == 0 then 0 else n - 1
      invariant t == Spaced(Drains(hosts[..i]), 5)
    {
      t := DrainStep(o, t, hosts, i);
    }
    if n == 0 {
      return [], 1;
    }
    // the control plane: `HOSTS[-1]`
    t := DrainStep(o, t, hosts, n - 1);
    assert hosts[..n] == hosts;
    t := t + [Delay(10)];
    ghost var drained := t;
    for i := 0 to n
      invariant t == drained + Spaced(Halts(hosts[..i]), 2)
    {
      ghost var before := t;
      t := HaltStep(o, t, hosts, i);
      AppendAssoc(drained, Spaced(Halts(hosts[..i]), 2), [Run(Remote(hosts[i].ip), HaltCommand), Delay(2)]);
    }
  }

  /** One more drain extends the drained prefix of `HOSTS`. */
  method DrainStep(o: Oracle, t: seq<Event>, hosts: seq<Host>, i: nat) returns (t': seq<Event>)
    requires i < |hosts| && t == Spaced(Drains(hosts[..i]), 5)
    ensures t' == Spaced(Drains(hosts[..i + 1]), 5)
  {
    assert Drains(hosts[..i + 1]) == Drains(hosts[..i]) + [Run(Local, DrainCommand(hosts[i].name))];
    SpacedSnoc(Drains(hosts[..i]), Run(Local, DrainCommand(hosts[i].name)), 5);
    t' := DrainNode(o, t, hosts[i].name);
  }

  /** One more halt, and its pause, extends the halted prefix of `HOSTS`. */
  method HaltStep(o: Oracle, t: seq<Event>, hosts: seq<Host>, i: nat) returns (t': seq<Event>)
    requires i < |hosts|
    ensures t' == t + [Run(Remote(hosts[i].ip), HaltCommand), Delay(2)]
    ensures Spaced(Halts(hosts[..i + 1]), 2) == Spaced(Halts(hosts[..i]), 2) + [Run(Remote(hosts[i].ip), HaltCommand), Delay(2)]
  {
    assert Halts(hosts[..i + 1]) == Halts(hosts[..i]) + [Run(Remote(hosts[i].ip), HaltCommand)];
    SpacedSnoc(Halts(hosts[..i]), Run(Remote(hosts[i].ip), HaltCommand), 2);
    t' := ShutdownHost(o, t, hosts[i].ip);
    t' := t' + [Delay(2)];
  }

  /** The `m`-th event once confirmed: a drain or its pause, the
      ten-second pause, then a halt or its pause. */
  lemma ShutdownAt(hosts: seq<Host>, m: nat)
    requires hosts != [] && m < |Shutdown(hosts).events|
    ensures var n, e := |hosts|, Shutdown(hosts).events[m];
      if m < 2 * n then
        e == if m % 2 == 0 then Run(Local, DrainCommand(hosts[m / 2].name)) else Delay(5)
      else if m == 2 * n then e == Delay(10)
      else
        e == if (m - 2 * n - 1) % 2 == 0 then Run(Remote(hosts[(m - 2 * n - 1) / 2].ip), HaltCommand) else Delay(2)
  {
    var n := |hosts|;
    var d, h := Spaced(Drains(hosts), 5), Spaced(Halts(hosts), 2);
    assert Shutdown(hosts).events == d + [Delay(10)] + h;
    if m < 2 * n {
      SpacedAt(Drains(hosts), 5, m / 2);
    } else if m > 2 * n {
      SpacedAt(Halts(hosts), 2, (m - 2 * n - 1) / 2);
    }
  }

  /** Every drain comes before every halt; the drains and the halts both
      follow `HOSTS` order, so the last machine halted is the last entry. */
  lemma DrainsBeforeHalts(hosts: seq<Host>)
    requires hosts != []
    ensures var es := Shutdown(hosts).events;
      && (forall i, j ::
            (0 <= i < |es| && 0 <= j < |es| && es[i].Run? && es[i].target == Local
             && es[j].Run? && es[j].cmd == HaltCommand) ==> i < j)
      && (forall k :: 0 <= k < |hosts| ==> es[2 * k] == Run(Local, DrainCommand(hosts[k].name)))
      && (forall k :: 0 <= k < |hosts| ==> es[2 * |hosts| + 1 + 2 * k] == Run(Remote(hosts[k].ip), HaltCommand))
      && es[|es| - 2] == Run(Remote(hosts[|hosts| - 1].ip), HaltCommand)
  {
    var n, es := |hosts|, Shutdown(hosts).events;
    LocalsFirst(hosts);
    HaltsLast(hosts);
    forall k | 0 <= k < n
      ensures es[2 * k] == Run(Local, DrainCommand(hosts[k].name))
      ensures es[2 * n + 1 + 2 * k] == Run(Remote(hosts[k].ip), HaltCommand)
    {
      ShutdownAt(hosts, 2 * k);
      ShutdownAt(hosts, 2 * n + 1 + 2 * k);
    }
  }

  /** Only the drains, in the first `2 * |hosts|` events, run locally. */
  lemma LocalsFirst(hosts: seq<Host>)
    requires hosts != []
    ensures var es := Shutdown(hosts).events;
      forall m :: 0 <= m < |es| && es[m].Run? && es[m].target == Local ==> m < 2 * |hosts|
  {
    var es := Shutdown(hosts).events;
    forall m | 2 * |hosts| <= m < |es| && es[m].Run?
      ensures es[m].target != Local
    {
      ShutdownAt(hosts, m);
    }
  }

  /** No drain is a halt, so every halt lies after the drains. */
  lemma HaltsLast(hosts: seq<Host>)
    requires hosts != []
    ensures var es := Shutdown(hosts).events;
      forall m :: 0 <= m < |es| && es[m].Run? && es[m].cmd == HaltCommand ==> m >= 2 * |hosts|
  {
    var es := Shutdown(hosts).events;
    assert HaltCommand[0] == 's';
    forall m | 0 <= m < 2 * |hosts| && es[m].Run?
      ensures es[m].cmd != HaltCommand
    {
      ShutdownAt(hosts, m);
      assert es[m].cmd[0] == 'k';
    }
  }

  /** Each host is drained exactly once and halted exactly once when the
      names and addresses of `HOSTS` are distinct. */
  lemma EachHostOnce(hosts: seq<Host>, k: nat)
    requires k < |hosts|
    requires forall i, j :: 0 <= i < j < |hosts| ==> hosts[i].name != hosts[j].name && hosts[i].ip != hosts[j].ip
    ensures var es := Shutdown(hosts).events;
      && Occurrences(Run(Local, DrainCommand(hosts[k].name)), es) == 1
      && Occurrences(Run(Remote(hosts[k].ip), HaltCommand), es) == 1
  {
    var ds, hs := Drains(hosts), Halts(hosts);
    var drain, halt := ds[k], hs[k];
    forall j | 0 <= j < |ds| && j != k ensures ds[j] != drain {
      if ds[j] == drain {
        DrainCommandInjective(hosts[j].name, hosts[k].name);
      }
    }
    OccurrencesOnce(ds, k);
    OccurrencesOnce(hs, k);
    assert forall j :: 0 <= j < |hs| ==> hs[j].target != Local;
    assert forall j :: 0 <= j < |ds| ==> ds[j].target == Local;
    OccurrencesNone(drain, hs);
    OccurrencesNone(halt, ds);
    OccurrencesSpaced(drain, ds, 5);
    OccurrencesSpaced(drain, hs, 2);
    OccurrencesSpaced(halt, ds, 5);
    OccurrencesSpaced(halt, hs, 2);
    var a := Spaced(ds, 5) + [Delay(10)];
    OccurrencesAppend(drain, Spaced(ds, 5), [Delay(10)]);
    OccurrencesAppend(drain, a, Spaced(hs, 2));
    OccurrencesAppend(halt, Spaced(ds, 5), [Delay(10)]);
    OccurrencesAppend(halt, a, Spaced(hs, 2));
  }

  /** With this script's `HOSTS`, `adama` alone is drained without eviction,
      its drain comes last of the drains and its halt last of the halts. */
  lemma ControlPlaneLast(hosts: seq<Host>)
    requires hosts == ShutdownOrder
    ensures forall k :: 0 <= k < |hosts| ==>
      (EndsWith(DrainCommand(hosts[k].name), NoEviction) <==> k == |hosts| - 1)
    ensures var es := Shutdown(hosts).events;
      es[2 * (|hosts| - 1)] == Run(Local, DrainCommand("adama"))
      && es[|es| - 2] == Run(Remote("192.168.1.20"), HaltCommand)
  {
    DrainsBeforeHalts(hosts);
    forall k | 0 <= k < |hosts|
      ensures EndsWith(DrainCommand(hosts[k].name), NoEviction) <==> k == |hosts| - 1
    {
      DrainFlagIffControlPlane(hosts[k].name);
    }
  }
}
