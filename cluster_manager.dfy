/** `admin/cluster_manager.py`: one action per run on the application
    namespace `glasgow-prod` (scale every app down or up, restart apps by
    deleting their pods, force an Argo CD sync, reset the namespace,
    uncordon the nodes, show the status). Every command is local; only
    the sync reads a reply. */
module AppManager {
  import opened Fleet
  import opened Text

  datatype Outcome = Outcome(events: seq<Event>, status: int)

  // ------------------------------------------------------------- scaling

  const ScalePrefix: string := "kubectl scale deployment "

  function ScaleSuffix(replicas: nat): string {
    " --replicas=" + NatToString(replicas) + " -n glasgow-prod"
  }

  /** The `kubectl scale` both `stop_all_apps` and `start_all_apps` issue. */
  function ScaleCommand(app: string, replicas: nat): string {
    ScalePrefix + app + ScaleSuffix(replicas)
  }

  /** Two apps scaled to the same count get different commands. */
  lemma ScaleCommandInjective(a: string, b: string, replicas: nat)
    requires ScaleCommand(a, replicas) == ScaleCommand(b, replicas)
    ensures a == b
  {
    var p, q := |ScalePrefix|, |ScaleSuffix(replicas)|;
    assert a == ScaleCommand(a, replicas)[p..|ScaleCommand(a, replicas)| - q];
    assert b == ScaleCommand(b, replicas)[p..|ScaleCommand(b, replicas)| - q];
  }

  /** `stop_all_apps`'s list. */
  const StopOrder: seq<string> := ["postgres", "minio", "fastapi", "n8n"]

  /** `start_all_apps`'s `(app, replicas)` list, database first. */
  const StartOrder: seq<(string, nat)> := [("postgres", 1), ("minio", 1), ("fastapi", 1), ("n8n", 1)]

  function ScaleCommands(apps: seq<string>, replicas: nat): (cmds: seq<string>)
    ensures |cmds| == |apps|
  {
    seq(|apps|, i requires 0 <= i < |apps| => ScaleCommand(apps[i], replicas))
  }

  /** The loop of `stop_all_apps`: one scale per app, whatever it answers. */
  method ScaleEach(o: Oracle, t: seq<Event>, apps: seq<string>, replicas: nat) returns (t': seq<Event>)
    ensures t' == t + Runs(Local, ScaleCommands(apps, replicas))
  {
    t' := t;
    for i := 0 to |apps|
      invariant t' == t + Runs(Local, ScaleCommands(apps[..i], replicas))
    {
      assert ScaleCommands(apps[..i + 1], replicas) == ScaleCommands(apps[..i], replicas) + [ScaleCommand(apps[i], replicas)];
      RunsAppend(Local, ScaleCommands(apps[..i], replicas), [ScaleCommand(apps[i], replicas)]);
      var ignored;
      t', ignored := Exec(o, t', Local, ScaleCommand(apps[i], replicas));
    }
    assert apps[..|apps|] == apps;
  }

  /** `stop_all_apps`. */
  method StopAllApps(o: Oracle, t: seq<Event>) returns (t': seq<Event>)
    ensures t' == t + Runs(Local, ScaleCommands(StopOrder, 0))
  {
    t' := ScaleEach(o, t, StopOrder, 0);
  }

  /** With distinct apps, each app's scale is sent exactly once, at its
      own position. */
  lemma ScaledOnceEach(apps: seq<string>, replicas: nat, k: nat)
    requires k < |apps|
    requires forall i, j :: 0 <= i < j < |apps| ==> apps[i] != apps[j]
    ensures var es := Runs(Local, ScaleCommands(apps, replicas));
      es[k] == Run(Local, ScaleCommand(apps[k], replicas))
      && Occurrences(es[k], es) == 1
  {
    var es := Runs(Local, ScaleCommands(apps, replicas));
    forall j | 0 <= j < |es| && j != k
      ensures es[j] != es[k]
    {
      if es[j] == es[k] {
        ScaleCommandInjective(apps[j], apps[k], replicas);
      }
    }
    OccurrencesOnce(es, k);
  }

  /** `stop_all_apps` scales postgres, minio, fastapi and n8n to zero,
      exactly once each, in that order. */
  lemma StopSequence(apps: seq<string>)
    requires apps == StopOrder
    ensures var es := Runs(Local, ScaleCommands(apps, 0));
      && |es| == 4
      && forall k :: 0 <= k < 4 ==>
           es[k] == Run(Local, ScaleCommand(apps[k], 0)) && Occurrences(es[k], es) == 1
  {
    forall k | 0 <= k < 4
      ensures var es := Runs(Local, ScaleCommands(apps, 0));
        es[k] == Run(Local, ScaleCommand(apps[k], 0)) && Occurrences(es[k], es) == 1
    {
      ScaledOnceEach(apps, 0, k);
    }
  }

  /** The pause after starting `app`: longer after the database. */
  function StartPause(app: string): nat {
    if app == "postgres" then 10 else 3
  }

  /** `start_all_apps`: each scale followed by its pause. */
  function StartTrace(order: seq<(string, nat)>): (es: seq<Event>)
    ensures |es| == 2 * |order|
    decreases |order|
  {
    if order == [] then []
    else
      var last := order[|order| - 1];
      StartTrace(order[..|order| - 1]) + [Run(Local, ScaleCommand(last.0, last.1)), Delay(StartPause(last.0))]
  }

  /** The `k`-th app's scale and pause sit at events `2k` and `2k + 1`. */
  lemma {:induction false} StartTraceAt(order: seq<(string, nat)>, k: nat)
    requires k < |order|
    ensures StartTrace(order)[2 * k] == Run(Local, ScaleCommand(order[k].0, order[k].1))
    ensures StartTrace(order)[2 * k + 1] == Delay(StartPause(order[k].0))
    decreases |order|
  {
    if k < |order| - 1 {
      StartTraceAt(order[..|order| - 1], k);
    }
  }

  /** The loop of `start_all_apps`. */
  method StartEach(o: Oracle, t: seq<Event>, order: seq<(string, nat)>) returns (t': seq<Event>)
    ensures t' == t + StartTrace(order)
  {
    t' := t;
    for i := 0 to |order|
      invariant t' == t + StartTrace(order[..i])
    {
      assert order[..i + 1][..i] == order[..i];
      var (app, replicas) := order[i];
      var ignored;
      t', ignored := Exec(o, t', Local, ScaleCommand(app, replicas));
      t' := t' + [Delay(StartPause(app))];
    }
    assert order[..|order|] == order;
  }

  /** `start_all_apps`. */
  method StartAllApps(o: Oracle, t: seq<Event>) returns (t': seq<Event>)
    ensures t' == t + StartTrace(StartOrder)
  {
    t' := StartEach(o, t, StartOrder);
  }

  /** `start_all_apps` scales the same four apps as `stop_all_apps`, in the
      same order, to one replica each; ten seconds pass after postgres and
      three after each other app. */
  lemma StartSequence(order: seq<(string, nat)>)
    requires order == StartOrder
    ensures |StartTrace(order)| == 8
    ensures forall k :: 0 <= k < 4 ==>
      && StartTrace(order)[2 * k] == Run(Local, ScaleCommand(StopOrder[k], 1))
      && StartTrace(order)[2 * k + 1] == Delay(if k == 0 then 10 else 3)
  {
    forall k | 0 <= k < 4
      ensures StartTrace(order)[2 * k] == Run(Local, ScaleCommand(StopOrder[k], 1))
      ensures StartTrace(order)[2 * k + 1] == Delay(if k == 0 then 10 else 3)
    {
      StartTraceAt(order, k);
      assert |StopOrder[k]| != |"postgres"| || k == 0;
    }
  }

  // ----------------------------------------------------------- restarting

  /** `restart_app`'s pod deletion by label. */
  function RestartCommand(app: string): string {
    "kubectl delete pods -n glasgow-prod -l app=" + app
  }

  /** `restart_all`'s list: the start order reversed. */
  const RestartOrder: seq<string> := ["n8n", "fastapi", "minio", "postgres"]

  function RestartCommands(apps: seq<string>): (cmds: seq<string>)
    ensures |cmds| == |apps|
  {
    seq(|apps|, i requires 0 <= i < |apps| => RestartCommand(apps[i]))
  }

  /** `restart_app`: the deletion, whatever it answers. */
  method RestartApp(o: Oracle, t: seq<Event>, app: string) returns (t': seq<Event>)
    ensures t' == t + [Run(Local, RestartCommand(app))]
  {
    var ignored;
    t', ignored := Exec(o, t, Local, RestartCommand(app));
  }

  /** The loop of `restart_all`: a restart then five seconds, per app. */
  method RestartEach(o: Oracle, t: seq<Event>, apps: seq<string>) returns (t': seq<Event>)
    ensures t' == t + Spaced(Runs(Local, RestartCommands(apps)), 5)
  {
    t' := t;
    for i := 0 to |apps|
      invariant t' == t + Spaced(Runs(Local, RestartCommands(apps[..i])), 5)
    {
      assert RestartCommands(apps[..i + 1]) == RestartCommands(apps[..i]) + [RestartCommand(apps[i])];
      RunsAppend(Local, RestartCommands(apps[..i]), [RestartCommand(apps[i])]);
      SpacedSnoc(Runs(Local, RestartCommands(apps[..i])), Run(Local, RestartCommand(apps[i])), 5);
      t' := RestartApp(o, t', apps[i]);
      t' := t' + [Delay(5)];
    }
    assert apps[..|apps|] == apps;
  }

  /** `restart_all`. */
  method RestartAll(o: Oracle, t: seq<Event>) returns (t': seq<Event>)
    ensures t' == t + Spaced(Runs(Local, RestartCommands(RestartOrder)), 5)
  {
    t' := RestartEach(o, t, RestartOrder);
  }

  /** `restart_all` deletes the pods of n8n, fastapi, minio and postgres,
      the reverse of the start order, five seconds apart. */
  lemma RestartSequence(apps: seq<string>)
    requires apps == RestartOrder
    ensures var es := Spaced(Runs(Local, RestartCommands(apps)), 5);
      && |es| == 8
      && forall k :: 0 <= k < 4 ==>
           es[2 * k] == Run(Local, RestartCommand(StopOrder[3 - k])) && es[2 * k + 1] == Delay(5)
  {
    forall k | 0 <= k < 4
      ensures var es := Spaced(Runs(Local, RestartCommands(apps)), 5);
        es[2 * k] == Run(Local, RestartCommand(StopOrder[3 - k])) && es[2 * k + 1] == Delay(5)
    {
      SpacedAt(Runs(Local, RestartCommands(apps)), 5, k);
    }
  }

  // -------------------------------------------------------------- syncing

  const ListApps: string := "kubectl get applications -n argocd -o name"

  /** The resource-kind prefix of each line `kubectl get -o name` prints. */
  const KindPrefix: string := "application.argoproj.io/"

  /** The merge patch that asks Argo CD to sync one application to HEAD. */
  const PatchSuffix: string :=
    " -n argocd --type merge -p='{\"operation\":{\"initiatedBy\":{\"username\":\"admin\"},\"sync\":{\"revision\":\"HEAD\"}}}'"

  function PatchCommand(name: string): string {
    "kubectl patch application " + name + PatchSuffix
  }

  /** The application named by one output line: every occurrence of the
      kind prefix deleted, the rest kept as it is. */
  function AppName(line: string): string {
    RemoveAll(line, KindPrefix)
  }

  /** The names `force_sync_argocd` patches: one per line that is not
      blank, in output order. */
  function Names(lines: seq<string>): (names: seq<string>)
    ensures |names| <= |lines|
    decreases |lines|
  {
    if lines == [] then []
    else
      var last := lines[|lines| - 1];
      Names(lines[..|lines| - 1]) + LineNames(last)
  }

  function PatchCommands(names: seq<string>): (cmds: seq<string>)
    ensures |cmds| == |names|
  {
    seq(|names|, i requires 0 <= i < |names| => PatchCommand(names[i]))
  }

  /** The output lines: `run_command` strips the output before the split. */
  function OutputLines(stdout: string): seq<string> {
    Split(Strip(stdout), '\n')
  }

  /** `force_sync_argocd`, given the listing's reply. A failed listing
      patches nothing. If the listing raises, `run_command` returns a bare
      `False`, the three-way unpacking raises in turn and the process ends
      with status 1. */
  function SyncOutcome(r: Reply): Outcome {
    match r
    case Raised => Outcome([Run(Local, ListApps)], 1)
    case Exited(code, stdout) =>
      var names := if code == 0 then Names(OutputLines(stdout)) else [];
      Outcome([Run(Local, ListApps)] + Runs(Local, PatchCommands(names)), 0)
  }

  lemma PatchCommandsAppend(a: seq<string>, b: seq<string>)
    ensures PatchCommands(a + b) == PatchCommands(a) + PatchCommands(b)
  {
  }

  /** The names of one more line: its application, if it is not blank. */
  function LineNames(line: string): seq<string> {
    if Strip(line) != [] then [AppName(line)] else []
  }

  /** One more line adds its patch, if it is not blank. */
  lemma PatchRunsSnoc(lines: seq<string>, i: nat)
    requires i < |lines|
    ensures Runs(Local, PatchCommands(Names(lines[..i + 1]))) == Runs(Local, PatchCommands(Names(lines[..i])))
      + Runs(Local, PatchCommands(LineNames(lines[i])))
  {
    assert lines[..i + 1][..i] == lines[..i];
    var a, b := Names(lines[..i]), LineNames(lines[i]);
    assert Names(lines[..i + 1]) == a + b;
    PatchCommandsAppend(a, b);
    RunsAppend(Local, PatchCommands(a), PatchCommands(b));
  }

  /** One iteration of the loop of `force_sync_argocd`: a line that is not
      blank is patched, whatever the patch answers. */
  method PatchLine(o: Oracle, t: seq<Event>, line: string) returns (t': seq<Event>)
    ensures t' == t + Runs(Local, PatchCommands(LineNames(line)))
  {
    t' := t;
    if Strip(line) != [] {
      var ignored;
      t', ignored := Exec(o, t, Local, PatchCommand(AppName(line)));
      assert Runs(Local, PatchCommands(LineNames(line))) == [Run(Local, PatchCommand(AppName(line)))];
    } else {
      assert Runs(Local, PatchCommands(LineNames(line))) == [];
    }
  }

  lemma SyncListed(r: Reply)
    requires r.Exited? && r.code == 0
    ensures SyncOutcome(r) == Outcome([Run(Local, ListApps)] + Runs(Local, PatchCommands(Names(OutputLines(r.stdout)))), 0)
  {
  }

  lemma SyncUnlisted(r: Reply)
    requires r.Exited? && r.code != 0
    ensures SyncOutcome(r) == Outcome([Run(Local, ListApps)], 0)
  {
    assert Runs(Local, PatchCommands([])) == [];
  }

  /** The loop of `force_sync_argocd`. */
  method PatchEach(o: Oracle, t: seq<Event>, lines: seq<string>) returns (t': seq<Event>)
    ensures t' == t + Runs(Local, PatchCommands(Names(lines)))
  {
    t' := t;
    assert Names(lines[..0]) == [];
    assert Runs(Local, PatchCommands([])) == [];
    for i := 0 to |lines|
      invariant t' == t + Runs(Local, PatchCommands(Names(lines[..i])))
    {
      PatchRunsSnoc(lines, i);
      t' := PatchLine(o, t', lines[i]);
    }
    assert lines[..|lines|] == lines;
  }


  /** `force_sync_argocd`. */
  method ForceSyncArgocd(o: Oracle, t: seq<Event>) returns (t': seq<Event>, status: int)
    ensures t' == t + SyncOutcome(o(|t|)).events
    ensures status == SyncOutcome(o(|t|)).status
  {
    var r;
    t', r := Exec(o, t, Local, ListApps);
    if r.Raised? {
      return t', 1;
    }
    status := 0;
    if r.code == 0 {
      t' := PatchEach(o, t', OutputLines(r.stdout));
      SyncListed(r);
      AppendAssoc(t, [Run(Local, ListApps)], Runs(Local, PatchCommands(Names(OutputLines(r.stdout)))));
    } else {
      SyncUnlisted(r);
    }
  }

  /** A prefixed line names the application after the prefix, provided the
      name does not itself contain the prefix. */
  lemma AppNameOfLine(name: string)
    requires Count(name, KindPrefix) == 0
    ensures AppName(KindPrefix + name) == name
  {
    RemoveAllLeading(KindPrefix, name);
    RemoveAllAbsent(name, KindPrefix);
  }

  /** Names is empty exactly when every line is blank. */
  lemma {:induction false} NamesEmptyIffBlank(lines: seq<string>)
    ensures Names(lines) == [] <==> forall i :: 0 <= i < |lines| ==> Strip(lines[i]) == []
    decreases |lines|
  {
    if lines != [] {
      var init := lines[..|lines| - 1];
      NamesEmptyIffBlank(init);
      assert forall i :: 0 <= i < |init| ==> init[i] == lines[i];
    }
  }

  function Prefixed(names: seq<string>): (lines: seq<string>)
    ensures |lines| == |names|
  {
    seq(|names|, i requires 0 <= i < |names| => KindPrefix + names[i])
  }

  /** A prefixed line is not blank, and it names the application after
      the prefix. */
  lemma LineNamesOfPrefixed(name: string)
    requires Count(name, KindPrefix) == 0
    ensures LineNames(KindPrefix + name) == [name]
  {
    var line := KindPrefix + name;
    assert line[0] == 'a' && !IsSpace(line[0]);
    StripShape(line);
    AppNameOfLine(name);
  }

  /** The lines of a listing, each the kind prefix then a name, give back
      exactly those names, one patch per application. */
  lemma {:induction false} NamesOfPrefixed(names: seq<string>)
    requires forall i :: 0 <= i < |names| ==> Count(names[i], KindPrefix) == 0
    ensures Names(Prefixed(names)) == names
    decreases |names|
  {
    if names != [] {
      var n := |names|;
      var lines := Prefixed(names);
      var init := names[..n - 1];
      assert lines[..n - 1] == Prefixed(init);
      assert Names(lines) == Names(Prefixed(init)) + LineNames(KindPrefix + names[n - 1]);
      NamesOfPrefixed(init);
      LineNamesOfPrefixed(names[n - 1]);
      assert names == init + [names[n - 1]];
    }
  }

  /** A listing joined by newlines is split back into its lines, so every
      listed application is patched once, in listing order. */
  lemma SyncPatchesListing(names: seq<string>)
    requires forall i :: 0 <= i < |names| ==> Count(names[i], KindPrefix) == 0 && '\n' !in names[i]
    ensures Names(Split(Join('\n', Prefixed(names)), '\n')) == names
  {
    var lines := Prefixed(names);
    if names == [] {
      return;
    }
    forall i | 0 <= i < |lines|
      ensures '\n' !in lines[i]
    {
      assert lines[i] == KindPrefix + names[i];
    }
    SplitJoin(lines, '\n');
    NamesOfPrefixed(names);
  }

  // ------------------------------------------------------------ resetting

  const DeleteNamespace: string := "kubectl delete namespace glasgow-prod"

  /** `reset_namespace`: only the exact answer `RESET` deletes the
      namespace, then after ten seconds the sync runs on the reply that
      stands at position 2. */
  function ResetOutcome(o: Oracle, answer: string): Outcome {
    if answer == "RESET" then
      var sync := SyncOutcome(o(2));
      Outcome([Run(Local, DeleteNamespace), Delay(10)] + sync.events, sync.status)
    else Outcome([], 0)
  }

  /** `reset_namespace` at the start of a run. */
  method ResetNamespace(o: Oracle, answer: string) returns (t: seq<Event>, status: int)
    ensures Outcome(t, status) == ResetOutcome(o, answer)
  {
    t, status := [], 0;
    if answer == "RESET" {
      var ignored;
      t, ignored := Exec(o, t, Local, DeleteNamespace);
      t := t + [Delay(10)];
      t, status := ForceSyncArgocd(o, t);
    }
  }

  /** The namespace is deleted iff the answer is exactly `RESET`, case
      included, and nothing at all is sent otherwise. */
  lemma ResetGate(o: Oracle, answer: string)
    ensures var es := ResetOutcome(o, answer).events;
      && (answer == "RESET" <==> es != [])
      && (answer == "RESET" <==> (es != [] && es[0] == Run(Local, DeleteNamespace)))
      && (answer != "RESET" ==> ResetOutcome(o, answer).status == 0)
  {
  }

  // ----------------------------------------------------- nodes and status

  /** `uncordon_all_nodes`'s list, alphabetical. */
  const UncordonNodes: seq<string> := ["adama", "apollo", "boomer", "starbuck"]

  const UncordonPrefix: string := "kubectl uncordon "

  /** One `kubectl uncordon` naming every node, separated by spaces. */
  function UncordonCommand(nodes: seq<string>): string {
    UncordonPrefix + Join(' ', nodes)
  }

  /** The command names exactly the listed nodes, in order: splitting its
      argument part on spaces gives them back. */
  lemma UncordonNamesNodes(nodes: seq<string>)
    requires nodes != []
    requires forall i :: 0 <= i < |nodes| ==> ' ' !in nodes[i]
    ensures var c := UncordonCommand(nodes);
      |UncordonPrefix| <= |c| && c[..|UncordonPrefix|] == UncordonPrefix
      && Split(c[|UncordonPrefix|..], ' ') == nodes
  {
    var c := UncordonCommand(nodes);
    assert c[|UncordonPrefix|..] == Join(' ', nodes);
    SplitJoin(nodes, ' ');
  }

  /** `uncordon_all_nodes`. */
  method UncordonAllNodes(o: Oracle, t: seq<Event>) returns (t': seq<Event>)
    ensures t' == t + [Run(Local, UncordonCommand(UncordonNodes))]
  {
    var ignored;
    t', ignored := Exec(o, t, Local, UncordonCommand(UncordonNodes));
  }

  /** `show_status`'s five listings, in order. */
  const StatusCommands: seq<string> := [
    "kubectl get nodes",
    "kubectl get applications -n argocd",
    "kubectl get pods -n glasgow-prod",
    "kubectl get pvc -n glasgow-prod",
    "kubectl get ingress -n glasgow-prod"
  ]

  /** `show_status`. */
  method ShowStatus(o: Oracle, t: seq<Event>) returns (t': seq<Event>)
    ensures t' == t + Runs(Local, StatusCommands)
  {
    t' := t;
    for i := 0 to |StatusCommands|
      invariant t' == t + Runs(Local, StatusCommands[..i])
    {
      RunsSnoc(Local, StatusCommands, i);
      var ignored;
      t', ignored := Exec(o, t', Local, StatusCommands[i]);
    }
    assert StatusCommands[..|StatusCommands|] == StatusCommands;
  }

  // ------------------------------------------------------------- dispatch

  /** The parsed `action` positional argument. */
  datatype Action = Stop | Start | Restart | RestartOne | Sync | Reset | Status | Uncordon

  /** `main`: the chosen action. `restart-app` without a non-empty `--app`
      exits with status 1 before sending anything. */
  method Manage(o: Oracle, action: Action, app: Option<string>, answer: string) returns (t: seq<Event>, status: int)
    ensures action == Stop ==> t == Runs(Local, ScaleCommands(StopOrder, 0)) && status == 0
    ensures action == Start ==> t == StartTrace(StartOrder) && status == 0
    ensures action == Restart ==> t == Spaced(Runs(Local, RestartCommands(RestartOrder)), 5) && status == 0
    ensures action == RestartOne && (app == None || app == Some("")) ==> t == [] && status == 1
    ensures action == RestartOne && app.Some? && app.value != "" ==>
      t == [Run(Local, RestartCommand(app.value))] && status == 0
    ensures action == Sync ==> Outcome(t, status) == SyncOutcome(o(0))
    ensures action == Reset ==> Outcome(t, status) == ResetOutcome(o, answer)
    ensures action == Status ==> t == Runs(Local, StatusCommands) && status == 0
    ensures action == Uncordon ==> t == [Run(Local, UncordonCommand(UncordonNodes))] && status == 0
  {
    t, status := [], 0;
    match action
    case Stop => t := StopAllApps(o, t);
    case Start => t := StartAllApps(o, t);
    case Restart => t := RestartAll(o, t);
    case RestartOne =>
      if app == None || app.value == "" {
        return [], 1;
      }
      t := RestartApp(o, t, app.value);
    case Sync => t, status := ForceSyncArgocd(o, t);
    case Reset => t, status := ResetNamespace(o, answer);
    case Status => t := ShowStatus(o, t);
    case Uncordon => t := UncordonAllNodes(o, t);
  }
}
