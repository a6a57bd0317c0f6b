/** `admin/cleanup_longhorn.py`: after a typed confirmation, lazily unmount
    the stale Longhorn mount points on every node and restart its k3s
    service, wait for the cluster to settle, then delete every pod of the
    application namespace so that the volumes are mounted afresh. Failures
    only print warnings, so what is sent never depends on the replies. */
module LonghornCleanup {
  import opened Fleet
  import opened Text

  /** The shell line `cleanup_node` runs first on a node: both kinds of
      Longhorn mount point are unmounted lazily, errors discarded. */
  const UnmountScript: string :=
    "sudo umount -l /var/lib/kubelet/plugins/kubernetes.io/csi/driver.longhorn.io/*/globalmount 2>/dev/null; "
    + "sudo umount -l /var/lib/kubelet/pods/*/volumes/kubernetes.io~csi/pvc-*/mount 2>/dev/null; echo Done"

  /** The final local command that forces every pod to remount. */
  const DeletePods: string := "kubectl delete pods -n glasgow-prod --all --ignore-not-found=true"

  /** The control plane runs the `k3s` service, a worker `k3s-agent`. */
  function ServiceName(role: Role): (s: string)
    ensures s == "k3s" <==> role.Master?
    ensures s == "k3s-agent" <==> role.Worker?
  {
    if role == Master then "k3s" else "k3s-agent"
  }

  function RestartCommand(role: Role): string {
    "sudo systemctl restart " + ServiceName(role)
  }

  /** What `cleanup_node` sends to one node, with its two pauses. */
  function NodeCleanup(node: Node): seq<Event> {
    [Run(Remote(node.ip), UnmountScript), Delay(2), Run(Remote(node.ip), RestartCommand(node.role)), Delay(5)]
  }

  /** Every node's cleanup in `HOSTS` order. */
  function NodeCleanups(hosts: seq<Node>): (es: seq<Event>)
    ensures |es| == 4 * |hosts|
    decreases |hosts|
  {
    if hosts == [] then [] else NodeCleanups(hosts[..|hosts| - 1]) + NodeCleanup(hosts[|hosts| - 1])
  }

  /** `main` once confirmed: the node cleanups, thirty seconds, the pod deletion. */
  function Cleanup(hosts: seq<Node>): seq<Event> {
    NodeCleanups(hosts) + [Delay(30), Run(Local, DeletePods)]
  }

  /** `cleanup_node`: the unmount and the restart, each followed by its pause,
      whatever either answers. */
  method CleanupNode(o: Oracle, t: seq<Event>, node: Node) returns (t': seq<Event>)
    ensures t' == t + NodeCleanup(node)
  {
    var ignored;
    t', ignored := Exec(o, t, Remote(node.ip), UnmountScript);
    t' := t' + [Delay(2)];
    t', ignored := Exec(o, t', Remote(node.ip), RestartCommand(node.role));
    t' := t' + [Delay(5)];
  }

  /** `main`: unless the answer is "yes" in any case, nothing is sent; the
      process ends with status 0 either way. */
  method CleanupCluster(o: Oracle, hosts: seq<Node>, answer: string) returns (t: seq<Event>, status: int)
    ensures status == 0
    ensures Lower(answer) != "yes" ==> t == []
    ensures Lower(answer) == "yes" ==> t == Cleanup(hosts)
  {
    t, status := [], 0;
    if Lower(answer) != "yes" {
      return;
    }
    for i := 0 to |hosts|
      invariant t == NodeCleanups(hosts[..i])
    {
      assert hosts[..i + 1][..i] == hosts[..i];
      t := CleanupNode(o, t, hosts[i]);
    }
    assert hosts[..|hosts|] == hosts;
    t := t + [Delay(30)];
    var ignored;
    t, ignored := Exec(o, t, Local, DeletePods);
  }

  /** The `k`-th node's cleanup occupies events `4k` to `4k + 3`. */
  lemma {:induction false} NodeCleanupsAt(hosts: seq<Node>, k: nat)
    requires k < |hosts|
    ensures NodeCleanups(hosts)[4 * k..4 * k + 4] == NodeCleanup(hosts[k])
    decreases |hosts|
  {
    var n := |hosts|;
    var init := hosts[..n - 1];
    var front := NodeCleanups(init);
    assert NodeCleanups(hosts) == front + NodeCleanup(hosts[n - 1]);
    assert |front| == 4 * (n - 1) == 4 * n - 4;
    if k < n - 1 {
      assert 4 * k + 4 <= 4 * n - 4;
      NodeCleanupsAt(init, k);
      assert NodeCleanups(hosts)[4 * k..4 * k + 4] == front[4 * k..4 * k + 4];
    } else {
      assert 4 * k == |front|;
      assert NodeCleanups(hosts)[4 * k..4 * k + 4] == NodeCleanups(hosts)[|front|..];
    }
  }

  /** Each node is unmounted before its service is restarted, two seconds
      apart, and the restart names the node's own service. */
  lemma UnmountBeforeRestart(hosts: seq<Node>, k: nat)
    requires k < |hosts|
    ensures var es := Cleanup(hosts);
      && es[4 * k] == Run(Remote(hosts[k].ip), UnmountScript)
      && es[4 * k + 1] == Delay(2)
      && es[4 * k + 2] == Run(Remote(hosts[k].ip), "sudo systemctl restart " + ServiceName(hosts[k].role))
  {
    var es, front, c := Cleanup(hosts), NodeCleanups(hosts), NodeCleanup(hosts[k]);
    assert es == front + [Delay(30), Run(Local, DeletePods)];
    assert 4 * k + 4 <= |front|;
    NodeCleanupsAt(hosts, k);
    assert front[4 * k..4 * k + 4] == c;
    assert es[4 * k] == front[4 * k] == c[0];
    assert es[4 * k + 1] == front[4 * k + 1] == c[1];
    assert es[4 * k + 2] == front[4 * k + 2] == c[2];
  }

  /** The pod deletion is the last event, after every node's restart and
      after the thirty-second pause, and it is the only local command. */
  lemma DeleteComesLast(hosts: seq<Node>)
    ensures var es := Cleanup(hosts);
      && es[|es| - 1] == Run(Local, DeletePods)
      && es[|es| - 2] == Delay(30)
      && forall m :: 0 <= m < |es| - 1 && es[m].Run? ==> es[m].target != Local
  {
    var es := Cleanup(hosts);
    var front := NodeCleanups(hosts);
    assert es == front + [Delay(30), Run(Local, DeletePods)];
    CleanupsRemote(hosts);
    forall m | 0 <= m < |es| - 1 && es[m].Run?
      ensures es[m].target != Local
    {
      assert es[m] == front[m];
    }
  }

  /** Every command of the node cleanups goes to a node. */
  lemma {:induction false} CleanupsRemote(hosts: seq<Node>)
    ensures forall m :: 0 <= m < |NodeCleanups(hosts)| && NodeCleanups(hosts)[m].Run? ==>
      NodeCleanups(hosts)[m].target.Remote?
    decreases |hosts|
  {
    if hosts != [] {
      var init := hosts[..|hosts| - 1];
      CleanupsRemote(init);
      var a: seq<Event>, b: seq<Event> := NodeCleanups(init), NodeCleanup(hosts[|hosts| - 1]);
      assert NodeCleanups(hosts) == a + b;
      forall m | 0 <= m < |a + b| && (a + b)[m].Run?
        ensures (a + b)[m].target.Remote?
      {
        if m < |a| {
          assert (a + b)[m] == a[m];
        } else {
          var j := m - |a|;
          assert (a + b)[m] == b[j];
          assert b[0].target.Remote? && b[1].Delay? && b[2].target.Remote? && b[3].Delay?;
          assert j == 0 || j == 1 || j == 2 || j == 3;
        }
      }
    }
  }

  /** With the fleet's hosts, only the control plane restarts `k3s`; the
      three workers restart `k3s-agent`. */
  lemma FleetServices(hosts: seq<Node>)
    requires hosts == Galactica
    ensures Cleanup(hosts)[2] == Run(Remote("192.168.1.20"), "sudo systemctl restart k3s")
    ensures forall k :: 1 <= k < 4 ==>
      Cleanup(hosts)[4 * k + 2] == Run(Remote(hosts[k].ip), "sudo systemctl restart k3s-agent")
  {
    GalacticaShape();
    ShapeServices(hosts);
  }

  /** On any fleet of the same shape, the first host restarts `k3s` and the
      other three `k3s-agent`. */
  lemma ShapeServices(hosts: seq<Node>)
    requires FleetShape(hosts)
    ensures Cleanup(hosts)[2] == Run(Remote(hosts[0].ip), "sudo systemctl restart k3s")
    ensures forall k :: 1 <= k < 4 ==>
      Cleanup(hosts)[4 * k + 2] == Run(Remote(hosts[k].ip), "sudo systemctl restart k3s-agent")
  {
    UnmountBeforeRestart(hosts, 0);
    forall k | 1 <= k < 4
      ensures Cleanup(hosts)[4 * k + 2] == Run(Remote(hosts[k].ip), "sudo systemctl restart k3s-agent")
    {
      UnmountBeforeRestart(hosts, k);
    }
  }
}
