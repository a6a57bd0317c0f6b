/** The fixed four-node k3s fleet and the abstract transport every script
    talks through.

    A run of a script is described by its trace: the commands it issues,
    each to a remote host or to the local shell, and the pauses
    (`time.sleep`) between them. What a command answers is not modelled
    by executing anything: an oracle gives the reply of the event that
    stands at each position of the trace. */
module Fleet {

  datatype Option<T> = None | Some(value: T)

  datatype Role = Master | Worker

  /** One `(hostname, ip, role)` entry of a script's `HOSTS` list. */
  datatype Node = Node(name: string, ip: string, role: Role)

  /** `HOSTS` as `reset_cluster.py`, `galactica_on_and_off.py` and
      `cleanup_longhorn.py` define it: the master `adama` first. */
  const Galactica: seq<Node> := [
    Node("adama", "192.168.1.20", Master),
    Node("boomer", "192.168.1.21", Worker),
    Node("apollo", "192.168.1.22", Worker),
    Node("starbuck", "192.168.1.23", Worker)
  ]

  /** Position of the first master entry, `|hosts|` when there is none
      (Python's `next(... if role == "master")`). */
  function MasterIndex(hosts: seq<Node>): (k: nat)
    ensures k <= |hosts|
    ensures k < |hosts| ==> hosts[k].role == Master
    ensures forall j :: 0 <= j < k ==> hosts[j].role != Master
  {
    if hosts == [] then 0
    else if hosts[0].role == Master then 0
    else 1 + MasterIndex(hosts[1..])
  }

  function FirstMaster(hosts: seq<Node>): Option<Node> {
    var k := MasterIndex(hosts);
    if k < |hosts| then Some(hosts[k]) else None
  }

  /** The `role == "worker"` entries, in `HOSTS` order. */
  function Workers(hosts: seq<Node>): (ws: seq<Node>)
    ensures |ws| <= |hosts|
    ensures forall i :: 0 <= i < |ws| ==> ws[i].role == Worker && ws[i] in hosts
  {
    if hosts == [] then []
    else
      var rest := Workers(hosts[1..]);
      if hosts[0].role == Worker then [hosts[0]] + rest else rest
  }

  /** Every worker entry of `HOSTS` is among the workers. */
  lemma {:induction false} WorkersComplete(hosts: seq<Node>, i: nat)
    requires i < |hosts| && hosts[i].role == Worker
    ensures hosts[i] in Workers(hosts)
  {
    if i > 0 {
      WorkersComplete(hosts[1..], i - 1);
    }
  }

  /** In the fleet, `adama` is the master and the workers are `boomer`,
      `apollo` and `starbuck`, in that order. */
  lemma GalacticaRoles()
    ensures FirstMaster(Galactica) == Some(Galactica[0])
    ensures Workers(Galactica) == Galactica[1..]
  {
    assert Galactica[1..][1..][1..][1..] == [];
  }

  /** The shape of the fleet's `HOSTS`: four entries, the master first and
      then three workers, each with an address, no two sharing an address
      or a name. */
  predicate FleetShape(hosts: seq<Node>) {
    && |hosts| == 4
    && (forall i :: 0 <= i < 4 ==> hosts[i].ip != "")
    && hosts[0].role == Master
    && (forall i :: 1 <= i < 4 ==> hosts[i].role == Worker)
    && (forall i, j :: 0 <= i < j < 4 ==> hosts[i].ip != hosts[j].ip && hosts[i].name != hosts[j].name)
  }

  lemma GalacticaShape()
    ensures FleetShape(Galactica)
  {
    var hs := Galactica;
    var last := seq(4, i requires 0 <= i < 4 => hs[i].ip[11]);
    var second := seq(4, i requires 0 <= i < 4 => hs[i].name[1]);
    assert last == "0123" && second == "dopt";
    forall i, j | 0 <= i < j < 4
      ensures hs[i].ip != hs[j].ip && hs[i].name != hs[j].name
    {
      assert last[i] != last[j] && second[i] != second[j];
    }
  }

  /** In a fleet of that shape the first entry is the master and the
      other three are the workers, in order. */
  lemma FleetShapeRoles(hosts: seq<Node>)
    requires FleetShape(hosts)
    ensures FirstMaster(hosts) == Some(hosts[0])
    ensures Workers(hosts) == hosts[1..]
  {
    var w := hosts[1..];
    assert w[1..][1..][1..] == [];
    assert Workers(w[1..][1..]) == w[1..][1..];
    assert Workers(w[1..]) == w[1..];
    assert Workers(w) == w;
  }

  // ------------------------------------------------------------ transport

  datatype Target = Local | Remote(ip: string)

  /** A command sent to a target, or a `time.sleep(seconds)`. */
  datatype Event = Run(target: Target, cmd: string) | Delay(seconds: nat)

  /** What a command answers: it ran to an exit status with some standard
      output, or the call into `subprocess` raised. */
  datatype Reply = Exited(code: int, stdout: string) | Raised

  /** The reply to the event at each trace position. */
  type Oracle = nat -> Reply

  /** Issue one command: it is appended to the trace and answered by the
      oracle at the position it takes. */
  method Exec(o: Oracle, t: seq<Event>, target: Target, cmd: string)
    returns (t': seq<Event>, r: Reply)
    ensures t' == t + [Run(target, cmd)]
    ensures r == o(|t|)
  {
    r := o(|t|);
    t' := t + [Run(target, cmd)];
  }

  /** The same target receiving each command of `cmds` in turn. */
  function Runs(target: Target, cmds: seq<string>): (es: seq<Event>)
    ensures |es| == |cmds|
  {
    seq(|cmds|, i requires 0 <= i < |cmds| => Run(target, cmds[i]))
  }

  /** Appending to a trace in two steps or in one gives the same trace. */
  lemma AppendAssoc(t: seq<Event>, a: seq<Event>, b: seq<Event>)
    ensures (t + a) + b == t + (a + b)
  {
  }

  lemma RunsAppend(target: Target, a: seq<string>, b: seq<string>)
    ensures Runs(target, a + b) == Runs(target, a) + Runs(target, b)
  {
  }

  lemma RunsSnoc(target: Target, cmds: seq<string>, i: nat)
    requires i < |cmds|
    ensures Runs(target, cmds[..i + 1]) == Runs(target, cmds[..i]) + [Run(target, cmds[i])]
  {
  }

  /** Each event of `es` followed by a `time.sleep(seconds)`: the shape of
      every `for` loop in the scripts that issues a command and then
      pauses. */
  function Spaced(es: seq<Event>, seconds: nat): (r: seq<Event>)
    ensures |r| == 2 * |es|
    decreases |es|
  {
    if es == [] then []
    else Spaced(es[..|es| - 1], seconds) + [es[|es| - 1], Delay(seconds)]
  }

  lemma SpacedSnoc(es: seq<Event>, e: Event, seconds: nat)
    ensures Spaced(es + [e], seconds) == Spaced(es, seconds) + [e, Delay(seconds)]
  {
    assert (es + [e])[..|es|] == es;
  }

  /** The `i`-th event sits at position `2 * i`, each followed by its pause. */
  lemma {:induction false} SpacedAt(es: seq<Event>, seconds: nat, i: nat)
    requires i < |es|
    ensures Spaced(es, seconds)[2 * i] == es[i]
    ensures Spaced(es, seconds)[2 * i + 1] == Delay(seconds)
    decreases |es|
  {
    if i < |es| - 1 {
      SpacedAt(es[..|es| - 1], seconds, i);
    }
  }

  /** How many times the event `e` stands in `es`. */
  function Occurrences(e: Event, es: seq<Event>): (n: nat)
    ensures n <= |es|
    decreases |es|
  {
    if es == [] then 0
    else (if es[0] == e then 1 else 0) + Occurrences(e, es[1..])
  }

  lemma {:induction false} OccurrencesAppend(e: Event, a: seq<Event>, b: seq<Event>)
    ensures Occurrences(e, a + b) == Occurrences(e, a) + Occurrences(e, b)
    decreases |a|
  {
    if a == [] {
      assert a + b == b;
    } else {
      OccurrencesAppend(e, a[1..], b);
      assert (a + b)[1..] == a[1..] + b;
    }
  }

  /** A command that is not among `cmds` is never sent by running them. */
  lemma {:induction false} OccurrencesAbsent(target: Target, cmd: string, cmds: seq<string>)
    requires cmd !in cmds
    ensures Occurrences(Run(target, cmd), Runs(target, cmds)) == 0
    decreases |cmds|
  {
    if cmds != [] {
      OccurrencesAbsent(target, cmd, cmds[1..]);
      assert Runs(target, cmds)[1..] == Runs(target, cmds[1..]);
    }
  }

  /** Pauses do not change how often a command was sent. */
  lemma {:induction false} OccurrencesSpaced(e: Event, es: seq<Event>, seconds: nat)
    requires e.Run?
    ensures Occurrences(e, Spaced(es, seconds)) == Occurrences(e, es)
    decreases |es|
  {
    if es != [] {
      var n := |es| - 1;
      assert es == es[..n] + [es[n]];
      SpacedSnoc(es[..n], es[n], seconds);
      OccurrencesSpaced(e, es[..n], seconds);
      OccurrencesAppend(e, Spaced(es[..n], seconds), [es[n], Delay(seconds)]);
      OccurrencesAppend(e, es[..n], [es[n]]);
      assert Occurrences(e, [es[n], Delay(seconds)]) == Occurrences(e, [es[n]]);
    }
  }

  lemma {:induction false} OccurrencesNone(e: Event, es: seq<Event>)
    requires e !in es
    ensures Occurrences(e, es) == 0
    decreases |es|
  {
    if es != [] {
      assert forall x :: x in es[1..] ==> x in es;
      OccurrencesNone(e, es[1..]);
    }
  }

  /** An event that no other position repeats stands in `es` exactly once. */
  lemma {:induction false} OccurrencesOnce(es: seq<Event>, i: nat)
    requires i < |es|
    requires forall j :: 0 <= j < |es| && j != i ==> es[j] != es[i]
    ensures Occurrences(es[i], es) == 1
    decreases |es|
  {
    if i == 0 {
      assert forall x :: x in es[1..] ==> x != es[0];
      OccurrencesNone(es[0], es[1..]);
    } else {
      OccurrencesOnce(es[1..], i - 1);
    }
  }

  /** What stands at each position of a spaced sequence. */
  lemma SpacedElements(es: seq<Event>, seconds: nat)
    ensures forall m :: 0 <= m < |Spaced(es, seconds)| ==>
      Spaced(es, seconds)[m] == if m % 2 == 0 then es[m / 2] else Delay(seconds)
  {
    forall m | 0 <= m < |Spaced(es, seconds)|
      ensures Spaced(es, seconds)[m] == if m % 2 == 0 then es[m / 2] else Delay(seconds)
    {
      SpacedAt(es, seconds, m / 2);
    }
  }
}
