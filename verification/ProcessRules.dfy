/** How a single process is judged: product roots, roles, and the control plane. */
module ProcessRules {
  import opened Wrappers
  import opened Text
  import opened ProcessTree

  /** isAntigravityRoot; `self` is the control plane's own PID. */
  predicate IsRoot(p: ProcessInfo, self: int) {
    var name, exe, cmd := Lower(TrimSpace(p.name)), Lower(p.exe), Lower(p.cmd);
    if p.pid > 0 && p.pid == self then false
    else if Contains(name, "antigraviti-pro") || Contains(exe, "antigraviti-pro") then false
    else if Contains(name, "antigravity") || Contains(exe, "antigravity") then true
    else Contains(cmd, "antigravity") && !Contains(cmd, "antigraviti-pro")
  }

  function Classify(p: ProcessInfo, self: int): (string, bool) {
    var name, exe, cmd := Lower(TrimSpace(p.name)), Lower(p.exe), Lower(p.cmd);
    var joined := name + " " + exe + " " + cmd;
    if p.pid > 0 && p.pid == self then ("control-plane", false)
    else if Contains(name, "antigraviti-pro") || Contains(exe, "antigraviti-pro") then ("control-plane", false)
    else if Contains(name, "antigravity") then ("ide", true)
    else if Contains(name, "language_server") || Contains(name, "language-server") then ("language-server", true)
    else if name == "agy" || name == "agy.exe" then ("agent-helper", true)
    else if (name == "node" || name == "node.exe") && Contains(joined, "antigravity") then ("bundled-node", true)
    else if Contains(exe, "antigravity") || Contains(cmd, "antigravity") then ("product-helper", true)
    else ("unknown-descendant", false)
  }

  function Classified(p: ProcessInfo, self: int): ProcessInfo {
    p.(role := Classify(p, self).0, known := Classify(p, self).1)
  }

  predicate IsCommonHost(host: string) {
    Lower(host) in ["localhost", "example.com", "example.org", "example.net"]
  }

  /** A root is always a known process: only descendants can be unknown helpers,
      and the control plane itself is neither. */
  lemma RootsAreKnown(p: ProcessInfo, self: int)
    ensures IsRoot(p, self) ==> Classified(p, self).known && Classified(p, self).role != "control-plane"
    ensures Classified(p, self).role == "control-plane" ==> !IsRoot(p, self) && !Classified(p, self).known
  {
  }

  /** `hosts` stands for the endpoint pattern, which is not part of this model. */
  function ProductRules(self: int, hosts: string -> seq<string>): Rules {
    Rules(p => IsRoot(p, self), p => Classified(p, self), hosts, IsCommonHost)
  }

  lemma ProductRulesKeepIdentity(self: int, hosts: string -> seq<string>)
    ensures KeepsIdentity(ProductRules(self, hosts))
  {
    forall p ensures ProductRules(self, hosts).judge(p).pid == p.pid {
      assert Classified(p, self).pid == p.pid;
    }
  }

  /** Only descendants are ever reported as unknown helpers, and every one of them
      is reached from a root. */
  lemma UnknownHelpersAreDescendants(all: seq<ProcessInfo>, self: int, hosts: string -> seq<string>, r: Report, p: ProcessInfo)
    requires IsTree(all, ProductRules(self, hosts), r) && p in r.unknown
    ensures !IsRoot(p, self) && !p.known && Reached(all, ProductRules(self, hosts), p.pid)
  {
    UnknownMembers(r.processes, p);
    assert HasPid(r.processes, p.pid);
    var q :| q in all && q.pid == p.pid && p == ProductRules(self, hosts).judge(q);
    assert p == Classified(q, self);
    RootsAreKnown(q, self);
    RootIgnoresLabels(q, self);
  }

  lemma RootIgnoresLabels(p: ProcessInfo, self: int)
    ensures IsRoot(Classified(p, self), self) <==> IsRoot(p, self)
  {
  }

  /** No listing stands for one that failed: an empty report that is not complete. */
  method DiscoverAgentProcessTree(listing: Option<seq<ProcessInfo>>, self: int, hosts: string -> seq<string>) returns (r: Report)
    ensures r.complete <==> listing.Some?
    ensures listing.Some? ==> IsTree(listing.value, ProductRules(self, hosts), r)
    ensures listing.None? ==> r == Report([], [], [], false, [])
  {
    match listing
    case None =>
      r := Report([], [], [], false, []);
    case Some(all) =>
      ProductRulesKeepIdentity(self, hosts);
      r := BuildAgentProcessTree(all, ProductRules(self, hosts));
  }
}
