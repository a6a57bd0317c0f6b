/** `admin/quick_check.py`: a read-only health check. It makes sure
    `kubectl` answers, then lists the nodes, the Argo CD applications,
    the pods, the volume claims, the sealed secrets and the ingresses, and
    parses each table the listing prints. */
module HealthCheck {
  import opened Fleet
  import opened Text

  datatype Outcome = Outcome(events: seq<Event>, status: int)

  /** `run_command`: the stripped output of a command that exits with
      status 0, and nothing for one that fails or raises. */
  function Output(r: Reply): (out: Option<string>)
    ensures out.Some? <==> r.Exited? && r.code == 0
    ensures out.Some? ==> out.value == Strip(r.stdout)
  {
    if r.Exited? && r.code == 0 then Some(Strip(r.stdout)) else None
  }

  // --------------------------------------------------------------- tables

  /** `output.split('\n')[1:]`: the rows of a table without its header. */
  function Rows(output: string): (rows: seq<string>)
    ensures |rows| == CountChar(output, '\n')
  {
    SplitLength(output, '\n');
    Split(output, '\n')[1..]
  }

  /** Whatever the header line holds, the rows are the lines after it. */
  lemma RowsDropHeader(header: string, body: string)
    requires '\n' !in header
    ensures Rows(header + "\n" + body) == Split(body, '\n')
  {
    SplitAppend(header, body, '\n');
  }

  /** `line.strip()` is not empty. */
  predicate Filled(line: string) {
    Strip(line) != []
  }

  /** How many rows pass the `line.strip()` test. */
  function FilledCount(rows: seq<string>): (n: nat)
    ensures n <= |rows|
    decreases |rows|
  {
    if rows == [] then 0
    else FilledCount(rows[..|rows| - 1]) + (if Filled(rows[|rows| - 1]) then 1 else 0)
  }

  /** `line.split()` of every filled row, in order: each has a first field. */
  function Records(rows: seq<string>): (records: seq<seq<string>>)
    ensures |records| == FilledCount(rows)
    ensures forall i :: 0 <= i < |records| ==> records[i] != []
    decreases |rows|
  {
    if rows == [] then []
    else
      var line := rows[|rows| - 1];
      StripNonEmptyIffWords(line);
      Records(rows[..|rows| - 1]) + (if Filled(line) then [Words(line)] else [])
  }

  /** `parts[i]` when the row has it, the default otherwise. */
  function Field(parts: seq<string>, i: nat, default: string): string {
    if i < |parts| then parts[i] else default
  }

  // ---------------------------------------------------------------- nodes

  const VersionCommand: string := "kubectl version --client"
  const NodesCommand: string := "kubectl get nodes"

  /** `output.count("Ready")`: non-overlapping occurrences, so five
      characters at least per node counted. */
  function ReadyCount(output: string): (n: nat)
    ensures 5 * n <= |output|
  {
    CountBound(output, "Ready");
    Count(output, "Ready")
  }

  /** The count does not tell `NotReady` from `Ready`: wherever a row's
      status sits in the listing, `NotReady` adds one to the count exactly
      as `Ready` does. */
  lemma NotReadyCounted(s: string, u: string)
    ensures ReadyCount(s + "NotReady" + u) == ReadyCount(s) + 1 + ReadyCount(u)
    ensures ReadyCount(s + "Ready" + u) == ReadyCount(s) + 1 + ReadyCount(u)
  {
    var ready, notReady := "Ready" + u, "NotReady" + u;
    assert s + "NotReady" + u == s + notReady;
    assert s + "Ready" + u == s + ready;
    ReadyCountJoin(s, notReady);
    ReadyCountJoin(s, ready);
    ReadyLeads(u);
  }

  /** A listing that starts with `Ready` or `NotReady` counts one for it
      and then goes on counting after it. */
  lemma ReadyLeads(u: string)
    ensures Count("Ready" + u, "Ready") == 1 + Count(u, "Ready")
    ensures Count("NotReady" + u, "Ready") == 1 + Count(u, "Ready")
  {
    var ready, notReady := "Ready" + u, "NotReady" + u;
    assert ready[..5] == "Ready" && ready[5..] == u;
    var n1, n2 := notReady[1..], notReady[2..];
    assert notReady[..5][0] == 'N' && n1[..5][0] == 'o' && n2[..5][0] == 't';
    assert n1 == notReady[1..] && n2 == n1[1..] && n2[1..] == ready;
    assert Count(n2, "Ready") == Count(ready, "Ready");
    assert Count(n1, "Ready") == Count(n2, "Ready");
  }

  /** No occurrence of "Ready" straddles the seam when the second part
      does not go on with a letter of "eady", so the counts add up. */
  lemma {:induction false} ReadyCountJoin(s: string, w: string)
    requires w == [] || w[0] !in "eady"
    ensures Count(s + w, "Ready") == Count(s, "Ready") + Count(w, "Ready")
    decreases |s|
  {
    var sw := s + w;
    if s == [] {
      assert sw == w;
    } else if |s| < 5 {
      if |sw| >= 5 {
        assert w != [] && sw[..5][|s|] == w[0];
        assert "Ready"[|s|] in "eady";
        assert sw[..5] != "Ready";
      }
      ReadyCountJoin(s[1..], w);
      assert sw[1..] == s[1..] + w;
    } else if s[..5] == "Ready" {
      assert sw[..5] == s[..5];
      ReadyCountJoin(s[5..], w);
      assert sw[5..] == s[5..] + w;
    } else {
      assert sw[..5] == s[..5];
      ReadyCountJoin(s[1..], w);
      assert sw[1..] == s[1..] + w;
    }
  }

  /** `check_nodes`: the ready count, when the listing succeeded. */
  function NodesReport(r: Reply): (ready: Option<nat>)
    ensures ready.Some? <==> Output(r).Some?
    ensures ready.Some? ==> 5 * ready.value <= |Output(r).value|
  {
    match Output(r)
    case None => None
    case Some(out) => Some(ReadyCount(out))
  }

  method CheckNodes(o: Oracle, t: seq<Event>) returns (t': seq<Event>, ready: Option<nat>)
    ensures t' == t + [Run(Local, NodesCommand)]
    ensures ready == NodesReport(o(|t|))
  {
    var r;
    t', r := Exec(o, t, Local, NodesCommand);
    ready := NodesReport(r);
  }

  // --------------------------------------------------------- applications

  const AppsCommand: string := "kubectl get applications -n argocd"

  /** One application row: missing columns read "Unknown"; the marks are
      the check icons. */
  datatype AppRow = AppRow(name: string, sync: string, health: string, synced: bool, healthy: bool)

  function AppRowOf(parts: seq<string>): (row: AppRow)
    requires parts != []
    ensures row.name == parts[0]
    ensures row.synced <==> row.sync == "Synced"
    ensures row.healthy <==> row.health == "Healthy"
  {
    var sync, health := Field(parts, 1, "Unknown"), Field(parts, 2, "Unknown");
    AppRow(parts[0], sync, health, sync == "Synced", health == "Healthy")
  }

  /** A row with only a name reads "Unknown" twice and gets two warnings. */
  lemma AppRowDefaults(parts: seq<string>)
    requires |parts| == 1
    ensures AppRowOf(parts) == AppRow(parts[0], "Unknown", "Unknown", false, false)
  {
    assert "Unknown"[0] != "Synced"[0] && "Unknown"[0] != "Healthy"[0];
  }

  /** `check_applications`: one row per filled line after the header. */
  function AppsReport(r: Reply): (apps: Option<seq<AppRow>>)
    ensures apps.Some? <==> Output(r).Some?
    ensures apps.Some? ==> |apps.value| == FilledCount(Rows(Output(r).value))
  {
    match Output(r)
    case None => None
    case Some(out) =>
      var records := Records(Rows(out));
      Some(seq(|records|, i requires 0 <= i < |records| => AppRowOf(records[i])))
  }

  method CheckApplications(o: Oracle, t: seq<Event>) returns (t': seq<Event>, apps: Option<seq<AppRow>>)
    ensures t' == t + [Run(Local, AppsCommand)]
    ensures apps == AppsReport(o(|t|))
  {
    var r;
    t', r := Exec(o, t, Local, AppsCommand);
    apps := AppsReport(r);
  }

  // ------------------------------------------------------ pods and claims

  const PodsCommand: string := "kubectl get pods -n glasgow-prod"
  const ClaimsCommand: string := "kubectl get pvc -n glasgow-prod"

  /** The two counters of `check_pods` and `check_storage`. */
  datatype Tally = Tally(good: nat, total: nat)

  /** The counting loop over the rows: each filled row adds one to the
      total, and one to the good count when `good` holds of its fields. A
      filled row with fewer than `width` fields makes `parts[...]` raise,
      which ends the run (`None`). */
  function Tallied(rows: seq<string>, width: nat, good: seq<string> -> bool): Option<Tally>
    decreases |rows|
  {
    if rows == [] then Some(Tally(0, 0))
    else
      var prev := Tallied(rows[..|rows| - 1], width, good);
      var line := rows[|rows| - 1];
      if prev.None? then None
      else if !Filled(line) then prev
      else if |Words(line)| < width then None
      else Some(Tally(prev.value.good + (if good(Words(line)) then 1 else 0), prev.value.total + 1))
  }

  /** Once a row has raised, later rows change nothing. */
  lemma {:induction false} TalliedCrashPersists(rows: seq<string>, width: nat, good: seq<string> -> bool, i: nat)
    requires i <= |rows| && Tallied(rows[..i], width, good) == None
    ensures Tallied(rows, width, good) == None
    decreases |rows| - i
  {
    if i == |rows| {
      assert rows[..i] == rows;
    } else {
      assert rows[..i + 1][..i] == rows[..i];
      TalliedCrashPersists(rows, width, good, i + 1);
    }
  }

  /** The total is the number of filled rows, and the good count never
      exceeds it. */
  lemma {:induction false} TallyCounts(rows: seq<string>, width: nat, good: seq<string> -> bool)
    requires Tallied(rows, width, good).Some?
    ensures Tallied(rows, width, good).value.total == FilledCount(rows)
    ensures Tallied(rows, width, good).value.good <= Tallied(rows, width, good).value.total
    decreases |rows|
  {
    if rows != [] {
      TallyCounts(rows[..|rows| - 1], width, good);
    }
  }

  /** A filled row too short for the fields the loop reads. */
  predicate Raises(line: string, width: nat) {
    Filled(line) && |Words(line)| < width
  }

  /** The count raises exactly when some filled row is too short. */
  lemma {:induction false} TallyCrashIff(rows: seq<string>, width: nat, good: seq<string> -> bool)
    ensures Tallied(rows, width, good).None? <==> exists i :: 0 <= i < |rows| && Raises(rows[i], width)
    decreases |rows|
  {
    if rows != [] {
      var n := |rows|;
      var init := rows[..n - 1];
      TallyCrashIff(init, width, good);
      assert forall i :: 0 <= i < n - 1 ==> init[i] == rows[i];
      if Tallied(rows, width, good).None? {
        if Tallied(init, width, good).None? {
          var i :| 0 <= i < |init| && Raises(init[i], width);
          assert Raises(rows[i], width);
        } else {
          assert Raises(rows[n - 1], width);
        }
      }
      if exists i :: 0 <= i < n && Raises(rows[i], width) {
        var i :| 0 <= i < n && Raises(rows[i], width);
        if i < n - 1 {
          assert Raises(init[i], width);
        }
      }
    }
  }

  /** The counting loop of `check_pods` and `check_storage`. */
  method TallyRows(rows: seq<string>, width: nat, good: seq<string> -> bool) returns (r: Option<Tally>)
    ensures r == Tallied(rows, width, good)
  {
    var goodCount, total := 0, 0;
    for i := 0 to |rows|
      invariant Tallied(rows[..i], width, good) == Some(Tally(goodCount, total))
    {
      assert rows[..i + 1][..i] == rows[..i];
      var line := rows[i];
      if Filled(line) {
        var parts := Words(line);
        if |parts| < width {
          TalliedCrashPersists(rows, width, good, i + 1);
          return None;
        }
        total := total + 1;
        if good(parts) {
          goodCount := goodCount + 1;
        }
      }
    }
    assert rows[..|rows|] == rows;
    r := Some(Tally(goodCount, total));
  }

  /** A pod runs properly when its status is `Running` and the two first
      halves of its `READY` column (`ready/desired`) agree. */
  function PodRunning(ready: string, status: string): bool {
    if status == "Running" && '/' in ready then
      SplitAtSep(ready, '/');
      var halves := Split(ready, '/');
      halves[0] == halves[1]
    else false
  }

  /** For a `READY` value `a/b`, the pod counts exactly when it is
      `Running` with `a == b`. */
  lemma PodRunningIff(a: string, b: string, status: string)
    requires '/' !in a && '/' !in b
    ensures PodRunning(a + "/" + b, status) <==> status == "Running" && a == b
  {
    SplitAppend(a, b, '/');
    SplitNoSep(b, '/');
    assert (a + "/" + b)[|a|] == '/';
  }

  /** `check_pods`'s row rule on `NAME READY STATUS ...`. */
  function PodGood(parts: seq<string>): bool {
    |parts| >= 3 && PodRunning(parts[1], parts[2])
  }

  /** `check_storage`'s row rule on `NAME STATUS ...`: exactly `Bound`. */
  function ClaimBound(parts: seq<string>): bool {
    |parts| >= 2 && parts[1] == "Bound"
  }

  /** A counting check's result: the listing failed, a row raised, or the
      two counters. */
  datatype Counted = Unavailable | Crashed | Counts(tally: Tally)

  function CountedOf(r: Reply, width: nat, good: seq<string> -> bool): (c: Counted)
    ensures c.Unavailable? <==> Output(r).None?
    ensures c.Counts? ==> c.tally.good <= c.tally.total
  {
    match Output(r)
    case None => Unavailable
    case Some(out) =>
      match Tallied(Rows(out), width, good)
      case None => Crashed
      case Some(tally) =>
        TallyCounts(Rows(out), width, good);
        Counts(tally)
  }

  /** `check_pods`. */
  method CheckPods(o: Oracle, t: seq<Event>) returns (t': seq<Event>, pods: Counted)
    ensures t' == t + [Run(Local, PodsCommand)]
    ensures pods == CountedOf(o(|t|), 3, PodGood)
  {
    var r;
    t', r := Exec(o, t, Local, PodsCommand);
    match Output(r)
    case None => pods := Unavailable;
    case Some(out) =>
      var tally := TallyRows(Rows(out), 3, PodGood);
      pods := if tally.None? then Crashed else Counts(tally.value);
  }

  /** `check_storage`. */
  method CheckStorage(o: Oracle, t: seq<Event>) returns (t': seq<Event>, claims: Counted)
    ensures t' == t + [Run(Local, ClaimsCommand)]
    ensures claims == CountedOf(o(|t|), 2, ClaimBound)
  {
    var r;
    t', r := Exec(o, t, Local, ClaimsCommand);
    match Output(r)
    case None => claims := Unavailable;
    case Some(out) =>
      var tally := TallyRows(Rows(out), 2, ClaimBound);
      claims := if tally.None? then Crashed else Counts(tally.value);
  }

  // -------------------------------------------------- secrets and ingress

  const SealedCommand: string := "kubectl get sealedsecrets -n glasgow-prod"
  const SecretsCommand: string := "kubectl get secrets -n glasgow-prod"
  const IngressCommand: string := "kubectl get ingress -n glasgow-prod"

  /** A sealed secret's name and age, "Unknown" when the age is missing. */
  datatype SecretRow = SecretRow(name: string, age: string)

  /** `len(output2.split('\n')) - 1`: the line breaks of the stripped
      listing, which is its number of rows below the header. */
  function SecretCount(output: string): (n: int)
    ensures n == CountChar(output, '\n')
  {
    SplitLength(output, '\n');
    |Split(output, '\n')| - 1
  }

  datatype SecretsReport = SecretsReport(sealed: seq<SecretRow>, count: Option<int>)

  /** `check_secrets`, given both replies: the regular secrets are listed
      only after the sealed ones were. */
  function SecretsOf(sealed: Reply, plain: Reply): (rep: Option<SecretsReport>)
    ensures rep.Some? <==> Output(sealed).Some?
    ensures rep.Some? ==> (rep.value.count.Some? <==> Output(plain).Some?)
  {
    match Output(sealed)
    case None => None
    case Some(out) =>
      var records := Records(Rows(out));
      var rows := seq(|records|, i requires 0 <= i < |records| =>
        SecretRow(records[i][0], Field(records[i], 1, "Unknown")));
      var count := match Output(plain) case None => None case Some(out2) => Some(SecretCount(out2));
      Some(SecretsReport(rows, count))
  }

  method CheckSecrets(o: Oracle, t: seq<Event>) returns (t': seq<Event>, secrets: Option<SecretsReport>)
    ensures Output(o(|t|)).None? ==> t' == t + [Run(Local, SealedCommand)]
    ensures Output(o(|t|)).Some? ==> t' == t + [Run(Local, SealedCommand), Run(Local, SecretsCommand)]
    ensures secrets == SecretsOf(o(|t|), o(|t| + 1))
  {
    var r;
    t', r := Exec(o, t, Local, SealedCommand);
    if Output(r).None? {
      return t', None;
    }
    var r2;
    t', r2 := Exec(o, t', Local, SecretsCommand);
    secrets := SecretsOf(r, r2);
  }

  /** An ingress's name and host, "No host" when the column is missing. */
  datatype IngressRow = IngressRow(name: string, host: string)

  function IngressOf(r: Reply): (ingress: Option<seq<IngressRow>>)
    ensures ingress.Some? <==> Output(r).Some?
    ensures ingress.Some? ==> |ingress.value| == FilledCount(Rows(Output(r).value))
  {
    match Output(r)
    case None => None
    case Some(out) =>
      var records := Records(Rows(out));
      Some(seq(|records|, i requires 0 <= i < |records| =>
        IngressRow(records[i][0], Field(records[i], 2, "No host"))))
  }

  /** A row with fewer than three fields has no host. */
  lemma IngressHostDefault(r: Reply, k: nat)
    requires IngressOf(r).Some? && k < |IngressOf(r).value|
    ensures var records := Records(Rows(Output(r).value));
      IngressOf(r).value[k].name == records[k][0]
      && (|records[k]| < 3 ==> IngressOf(r).value[k].host == "No host")
      && (|records[k]| >= 3 ==> IngressOf(r).value[k].host == records[k][2])
  {
  }

  method CheckIngress(o: Oracle, t: seq<Event>) returns (t': seq<Event>, ingress: Option<seq<IngressRow>>)
    ensures t' == t + [Run(Local, IngressCommand)]
    ensures ingress == IngressOf(o(|t|))
  {
    var r;
    t', r := Exec(o, t, Local, IngressCommand);
    ingress := IngressOf(r);
  }

  // ----------------------------------------------------------------- main

  /** The claim, secret and ingress checks, the claim listing being the
      `k`-th command of the run: a claim row that raises ends the run. */
  function LaterChecks(o: Oracle, k: nat): Outcome {
    if CountedOf(o(k), 2, ClaimBound).Crashed? then Outcome([Run(Local, ClaimsCommand)], 1)
    else
      var secrets := if Output(o(k + 1)).Some? then [Run(Local, SealedCommand), Run(Local, SecretsCommand)]
                     else [Run(Local, SealedCommand)];
      Outcome([Run(Local, ClaimsCommand)] + secrets + [Run(Local, IngressCommand)], 0)
  }

  /** The six checks in order, the node listing being the `k`-th command
      of the run: a pod row that raises ends the run. */
  function Checks(o: Oracle, k: nat): Outcome {
    var head := [Run(Local, NodesCommand), Run(Local, AppsCommand), Run(Local, PodsCommand)];
    if CountedOf(o(k + 2), 3, PodGood).Crashed? then Outcome(head, 1)
    else
      var later := LaterChecks(o, k + 3);
      Outcome(head + later.events, later.status)
  }

  /** `main`: without a working `kubectl` the run stops with status 1;
      otherwise the six checks run. */
  function QuickCheck(o: Oracle): Outcome {
    if Output(o(0)).None? then Outcome([Run(Local, VersionCommand)], 1)
    else
      var checks := Checks(o, 1);
      Outcome([Run(Local, VersionCommand)] + checks.events, checks.status)
  }

  method RunLaterChecks(o: Oracle, t: seq<Event>) returns (t': seq<Event>, status: int)
    ensures t' == t + LaterChecks(o, |t|).events
    ensures status == LaterChecks(o, |t|).status
  {
    var claims, secrets, ingress;
    t', claims := CheckStorage(o, t);
    if claims.Crashed? {
      return t', 1;
    }
    ghost var stored := t';
    assert |stored| == |t| + 1;
    t', secrets := CheckSecrets(o, t');
    ghost var sealed := t'[|stored|..];
    assert t' == stored + sealed;
    t', ingress := CheckIngress(o, t');
    AppendAssoc(stored, sealed, [Run(Local, IngressCommand)]);
    status := 0;
  }

  method RunChecks(o: Oracle, t: seq<Event>) returns (t': seq<Event>, status: int)
    ensures t' == t + Checks(o, |t|).events
    ensures status == Checks(o, |t|).status
  {
    var ready, apps, pods;
    t', ready := CheckNodes(o, t);
    t', apps := CheckApplications(o, t');
    t', pods := CheckPods(o, t');
    ghost var head := [Run(Local, NodesCommand), Run(Local, AppsCommand), Run(Local, PodsCommand)];
    assert t' == t + head;
    assert |t'| == |t| + 3;
    if pods.Crashed? {
      return t', 1;
    }
    t', status := RunLaterChecks(o, t');
    AppendAssoc(t, head, LaterChecks(o, |t| + 3).events);
  }

  method QuickCheckMain(o: Oracle) returns (t: seq<Event>, status: int)
    ensures Outcome(t, status) == QuickCheck(o)
  {
    var r;
    t, r := Exec(o, [], Local, VersionCommand);
    if Output(r).None? {
      return t, 1;
    }
    t, status := RunChecks(o, t);
  }

  /** A failed `kubectl version --client` is the only command of its run;
      a working one is followed by at least the node, application and pod
      listings, and the run ends cleanly exactly when no row raised, in
      which case the ingress listing comes last. */
  lemma VersionGate(o: Oracle)
    ensures var out := QuickCheck(o);
      && out.events[0] == Run(Local, VersionCommand)
      && (|out.events| == 1 <==> Output(o(0)).None?)
      && (Output(o(0)).None? ==> out.status == 1)
      && (Output(o(0)).Some? ==>
            && out.events[1..4] == [Run(Local, NodesCommand), Run(Local, AppsCommand), Run(Local, PodsCommand)]
            && (out.status == 0 <==> !CountedOf(o(3), 3, PodGood).Crashed? && !CountedOf(o(4), 2, ClaimBound).Crashed?)
            && (out.status == 0 ==> out.events[|out.events| - 1] == Run(Local, IngressCommand)))
  {
  }
}
