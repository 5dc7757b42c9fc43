/** The loop over the processes policy: each target scans one enumeration of the process
    table, matching its pattern case-insensitively against every readable process name. */
module ProcessAudit {
  import opened Policy
  import opened Text

  /** One entry of the processes policy: a name pattern and its `present` token. */
  datatype ProcessTarget = ProcessTarget(entry: string, present: string)

  /** The three exceptions the scan catches while reading a process name. */
  datatype NameError = NoSuchProcess | AccessDenied | ZombieProcess

  /** One process of an enumeration: its name, or the exception reading it raised. */
  datatype ProcEntry = Named(name: string) | Unreadable(error: NameError)

  /** `entry.lower() in name.lower()`, for a process whose name could be read: an
      unreadable process never matches, the empty pattern matches every readable one, and
      a pattern longer than the name never matches it. */
  predicate Hit(pattern: string, p: ProcEntry): (r: bool)
    ensures r ==> p.Named?
    ensures p.Named? && pattern == [] ==> r
    ensures p.Named? && |p.name| < |pattern| ==> !r
  {
    p.Named? && Contains(Lower(pattern), Lower(p.name))
  }

  /** How many processes of `snap` the pattern matches. */
  function HitCount(pattern: string, snap: seq<ProcEntry>): nat
  {
    if snap == [] then 0
    else HitCount(pattern, snap[..|snap| - 1]) + (if Hit(pattern, snap[|snap| - 1]) then 1 else 0)
  }

  /** The positions of the processes the pattern matches. */
  ghost function Hits(pattern: string, snap: seq<ProcEntry>): set<nat>
  {
    set i: nat | i < |snap| && Hit(pattern, snap[i])
  }

  lemma {:induction false} HitCountIsHits(pattern: string, snap: seq<ProcEntry>)
    ensures HitCount(pattern, snap) == |Hits(pattern, snap)|
    decreases |snap|
  {
    if snap != [] {
      var n := |snap| - 1;
      var init := snap[..n];
      HitCountIsHits(pattern, init);
      var before := Hits(pattern, init);
      assert forall i: nat :: i < n ==> init[i] == snap[i];
      if Hit(pattern, snap[n]) {
        assert Hits(pattern, snap) == before + {n};
      } else {
        assert Hits(pattern, snap) == before;
      }
    }
  }

  lemma {:induction false} HitCountAppend(pattern: string, a: seq<ProcEntry>, b: seq<ProcEntry>)
    ensures HitCount(pattern, a + b) == HitCount(pattern, a) + HitCount(pattern, b)
    decreases |b|
  {
    if b == [] {
      assert a + b == a;
    } else {
      assert (a + b)[..|a + b| - 1] == a + b[..|b| - 1];
      HitCountAppend(pattern, a, b[..|b| - 1]);
    }
  }

  /** The alerts one target's scan logs: a rogue alert per matching process when the
      process must be absent, then a missing alert when it must be present. */
  function ProcessVerdict(t: ProcessTarget, snap: seq<ProcEntry>): (r: seq<Alert>)
    ensures Count(RogueProcess, r) == (if t.present == "no" then HitCount(t.entry, snap) else 0)
    ensures Count(MissingProcess, r) == (if t.present == "yes" then 1 else 0)
    ensures forall a :: a in r ==> a == RogueProcess || a == MissingProcess
  {
    var rogue := Repeat(RogueProcess, if t.present == "no" then HitCount(t.entry, snap) else 0);
    var missing := if t.present == "yes" then [MissingProcess] else [];
    CountAppend(RogueProcess, rogue, missing);
    CountAppend(MissingProcess, rogue, missing);
    CountRepeat(RogueProcess, RogueProcess, |rogue|);
    CountRepeat(MissingProcess, RogueProcess, |rogue|);
    rogue + missing
  }

  /** A process whose name cannot be read contributes nothing, wherever it stands. */
  lemma {:induction false} UnreadableIgnored(t: ProcessTarget, a: seq<ProcEntry>, e: NameError, b: seq<ProcEntry>)
    ensures ProcessVerdict(t, a + [Unreadable(e)] + b) == ProcessVerdict(t, a + b)
  {
    HitCountAppend(t.entry, a + [Unreadable(e)], b);
    HitCountAppend(t.entry, a, [Unreadable(e)]);
    HitCountAppend(t.entry, a, b);
    assert [Unreadable(e)][..0] == [];
  }

  /** A target that must be absent logs one rogue alert per matching process and nothing else. */
  lemma {:induction false} AbsentTargetAlerts(t: ProcessTarget, snap: seq<ProcEntry>)
    requires t.present == "no"
    ensures ProcessVerdict(t, snap) == Repeat(RogueProcess, |Hits(t.entry, snap)|)
  {
    HitCountIsHits(t.entry, snap);
  }

  /** A target that must be present logs exactly one missing alert, matched or not. */
  lemma PresentTargetAlerts(t: ProcessTarget, snap: seq<ProcEntry>)
    requires t.present == "yes"
    ensures ProcessVerdict(t, snap) == [MissingProcess]
  {
  }

  /** A process matches exactly when the lower-cased pattern occurs at some offset of
      its lower-cased name. */
  lemma HitMeansOccurs(pattern: string, name: string)
    ensures Hit(pattern, Named(name)) <==> exists i: nat :: OccursAt(Lower(pattern), Lower(name), i)
  {
    ContainsOccurs(Lower(pattern), Lower(name));
  }

  /** The whole loop, each target paired with its own enumeration of the process table:
      it logs nothing but rogue and missing alerts, and at most one missing alert per target. */
  function ProcessVerdicts(targets: seq<ProcessTarget>, snaps: seq<seq<ProcEntry>>): (r: seq<Alert>)
    requires |snaps| == |targets|
    ensures forall a :: a in r ==> a == RogueProcess || a == MissingProcess
    ensures Count(MissingProcess, r) <= |targets|
  {
    if targets == [] then []
    else
      var init := ProcessVerdicts(targets[..|targets| - 1], snaps[..|snaps| - 1]);
      var last := ProcessVerdict(targets[|targets| - 1], snaps[|snaps| - 1]);
      CountAppend(MissingProcess, init, last);
      init + last
  }

  /** One missing alert per target whose `present` token is `yes`, however the scans went. */
  function PresentCount(targets: seq<ProcessTarget>): nat
  {
    if targets == [] then 0
    else PresentCount(targets[..|targets| - 1]) + (if targets[|targets| - 1].present == "yes" then 1 else 0)
  }

  lemma {:induction false} MissingAlertsCount(targets: seq<ProcessTarget>, snaps: seq<seq<ProcEntry>>)
    requires |snaps| == |targets|
    ensures Count(MissingProcess, ProcessVerdicts(targets, snaps)) == PresentCount(targets)
    decreases |targets|
  {
    if targets != [] {
      var n := |targets| - 1;
      MissingAlertsCount(targets[..n], snaps[..n]);
      CountAppend(MissingProcess, ProcessVerdicts(targets[..n], snaps[..n]), ProcessVerdict(targets[n], snaps[n]));
    }
  }

  /** The inner loop: scan one enumeration for one target. */
  method ScanTarget(t: ProcessTarget, snap: seq<ProcEntry>) returns (log: seq<Alert>)
    ensures log == ProcessVerdict(t, snap)
  {
    log := [];
    for j := 0 to |snap|
      invariant log == Repeat(RogueProcess, if t.present == "no" then HitCount(t.entry, snap[..j]) else 0)
    {
      assert snap[..j + 1][..j] == snap[..j];
      match snap[j]
      case Unreadable(_) =>
      case Named(name) =>
        if Contains(Lower(t.entry), Lower(name)) {
          if t.present == "no" {
            log := log + [RogueProcess];
          }
        }
    }
    assert snap[..|snap|] == snap;
    if t.present == "yes" {
      log := log + [MissingProcess];
    }
  }

  /** The outer loop over the processes policy. */
  method AuditProcesses(targets: seq<ProcessTarget>, snaps: seq<seq<ProcEntry>>) returns (log: seq<Alert>)
    requires |snaps| == |targets|
    ensures log == ProcessVerdicts(targets, snaps)
  {
    log := [];
    for k := 0 to |targets|
      invariant log == ProcessVerdicts(targets[..k], snaps[..k])
    {
      var found := ScanTarget(targets[k], snaps[k]);
      assert targets[..k + 1][..k] == targets[..k];
      assert snaps[..k + 1][..k] == snaps[..k];
      log := log + found;
    }
    assert targets[..|targets|] == targets && snaps[..|snaps|] == snaps;
  }

  /** An `sshd` target that must be absent, against a table holding one `SSHD`. */
  lemma SshdExample()
    ensures ProcessVerdict(ProcessTarget("sshd", "no"), [Named("init"), Unreadable(AccessDenied), Named("SSHD")]) == [RogueProcess]
    ensures ProcessVerdict(ProcessTarget("sshd", "no"), [Named("init"), Unreadable(AccessDenied)]) == []
  {
    var snap := [Named("init"), Unreadable(AccessDenied), Named("SSHD")];
    assert Lower("sshd") == "sshd";
    assert Lower("SSHD") == "sshd";
    assert Lower("init") == "init";
    assert !Contains("sshd", "init") by {
      assert "init"[..4] == "init" && "init"[0] != "sshd"[0];
      assert "init"[1..] == "nit";
      assert !Contains("sshd", "nit");
    }
    assert Contains("sshd", "sshd") by {
      assert HasPrefix("sshd", "sshd");
    }
    assert !Hit("sshd", Named("init")) && Hit("sshd", Named("SSHD"));
    assert snap[..2][..1][..0] == [] && snap[..2][..1] == [Named("init")] && snap[..2] == [Named("init"), Unreadable(AccessDenied)];
    assert HitCount("sshd", [Named("init")]) == 0;
    assert HitCount("sshd", [Named("init"), Unreadable(AccessDenied)]) == 0;
    assert HitCount("sshd", snap[..2]) == 0;
    assert HitCount("sshd", snap) == 1;
  }
}
