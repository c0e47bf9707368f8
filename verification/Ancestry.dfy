// How the broker identifies the process asking for a password
// (internal/privileged/peer_darwin.go): a bounded walk up the process tree, read
// from a kernel whose answers may change between any two reads, and an independent
// verifier of what the walk brought back.

module AncestrySpec {
  import opened Packages
  import opened Bytes

  const SUDO := "/usr/bin/sudo"
  const LIMIT := 64

  datatype ProcessEvidence = ProcessEvidence(
    pid: int,
    parent: int,
    group: int,
    path: string,
    argv: seq<string>,
    restricted: bool)

  datatype PeerEvidence = PeerEvidence(
    expectedUid: int,
    peerUid: int,
    peerPid: int,
    expectedPath: string,
    peerPath: string,
    expectedIdentity: seq<Byte>,
    peerIdentity: seq<Byte>,
    trackedPid: int,
    trackedGroup: int,
    chain: seq<ProcessEvidence>)

  // What the kernel tells of a process. One it will not describe in the ordinary
  // way may still be described with its effective and real user.
  datatype Reading =
    | Ordinary(parent: int, group: int, path: string, argv: Option<seq<string>>)
    | Guarded(parent: int, group: int, path: string, euid: int, ruid: int)
    | Unreadable

  datatype Peer = Peer(uid: int, pid: int)

  // Every answer may depend on when it is asked.
  datatype Kernel = Kernel(
    peer: nat -> Option<Peer>,
    process: (nat, int) -> Reading,
    identity: (nat, int) -> Option<seq<Byte>>,
    uid: int,
    euid: int)

  predicate RestrictedAllowed(euid: int, ruid: int, self: int) {
    euid == 0 && ruid == self
  }

  // acquireProcess, with its fallback for a setuid process this user started.
  function Acquire(r: Reading, pid: int, withArgv: bool, self: int): Option<ProcessEvidence> {
    match r
    case Ordinary(parent, group, path, argv) =>
      if !withArgv then Some(ProcessEvidence(pid, parent, group, path, [], false))
      else if argv.None? then None
      else Some(ProcessEvidence(pid, parent, group, path, argv.value, false))
    case Guarded(parent, group, path, euid, ruid) =>
      if RestrictedAllowed(euid, ruid, self) then Some(ProcessEvidence(pid, parent, group, path, [], true)) else None
    case Unreadable => None
  }

  function Look(k: Kernel, now: nat, pid: int, withArgv: bool): Option<ProcessEvidence> {
    Acquire(k.process(now, pid), pid, withArgv, k.uid)
  }

  function Top(chain: seq<ProcessEvidence>): ProcessEvidence
    requires chain != []
  {
    chain[|chain| - 1]
  }

  function Pids(chain: seq<ProcessEvidence>): set<int> {
    set i | 0 <= i < |chain| :: chain[i].pid
  }

  // The walk: from the last process of `chain`, one parent at a time.
  function Climb(k: Kernel, now: nat, chain: seq<ProcessEvidence>, tracked: int, left: nat): Option<seq<ProcessEvidence>>
    requires chain != []
    decreases left
  {
    var current := Top(chain);
    if left == 0 then None
    else if current.pid == tracked then Some(chain)
    else if current.parent <= 1 || current.parent in Pids(chain) then None
    else
      var above := Look(k, now, current.parent, |chain| == 1);
      if above.None? then None else Climb(k, now + 1, chain + [above.value], tracked, left - 1)
  }

  predicate Same(a: ProcessEvidence, b: ProcessEvidence, compareArgv: bool) {
    a.(argv := []) == b.(argv := []) && (compareArgv ==> a.argv == b.argv)
  }

  predicate SameAgain(a: ProcessEvidence, b: Option<ProcessEvidence>, compareArgv: bool) {
    b.Some? && Same(a, b.value, compareArgv)
  }

  // The second reads, once the walk has arrived: the socket's peer, the peer's
  // process and code, its parent, and the tracked child are as they were.
  predicate Unchanged(k: Kernel, now: nat, peer: Peer, identity: seq<Byte>, chain: seq<ProcessEvidence>)
    requires chain != []
  {
    && k.peer(now) == Some(peer)
    && SameAgain(chain[0], Look(k, now + 1, peer.pid, false), false)
    && k.identity(now + 2, peer.pid) == Some(identity)
    && (|chain| > 1 ==> SameAgain(chain[1], Look(k, now + 3, chain[1].pid, true), true))
    && SameAgain(Top(chain), Look(k, now + 4, Top(chain).pid, false), false)
  }

  // What acquirePeerEvidence returns; None stands for each of its errors.
  function Gather(k: Kernel, trackedPid: int, trackedGroup: int, path: string, identity: seq<Byte>): Option<PeerEvidence> {
    if k.peer(0).None? then None
    else
      var peer := k.peer(0).value;
      var first := Look(k, 1, peer.pid, false);
      var code := k.identity(2, peer.pid);
      if first.None? || code.None? then None
      else
        var chain := Climb(k, 3, [first.value], trackedPid, LIMIT);
        if chain.None? || chain.value == [] || !Unchanged(k, 2 + |chain.value|, peer, code.value, chain.value) then None
        else
          Some(PeerEvidence(k.euid, peer.uid, peer.pid, path, first.value.path, identity, code.value,
                            trackedPid, trackedGroup, chain.value))
  }

  // ---- the verifier's meaning ----

  // Each process is the parent of the one before it, and none occurs twice.
  ghost predicate Linked(chain: seq<ProcessEvidence>) {
    && (forall i :: 0 < i < |chain| ==> chain[i].pid == chain[i - 1].parent)
    && (forall i, j :: 0 <= i < j < |chain| ==> chain[i].pid != chain[j].pid)
  }

  // It ends at the tracked process, which it meets nowhere else.
  ghost predicate EndsAt(chain: seq<ProcessEvidence>, tracked: int) {
    forall i :: 0 <= i < |chain| ==> (chain[i].pid == tracked <==> i == |chain| - 1)
  }

  ghost predicate OnlySudoRestricted(chain: seq<ProcessEvidence>) {
    forall i :: 0 <= i < |chain| && chain[i].restricted ==> i == 1
  }

  ghost predicate RealPids(chain: seq<ProcessEvidence>) {
    forall i :: 0 <= i < |chain| ==> chain[i].pid > 1
  }

  // What does not concern the shape of the chain: the peer is this program, run by
  // this user, its parent is sudo asking for a password, and the group is the job's.
  ghost predicate Identified(e: PeerEvidence)
    requires |e.chain| >= 2
  {
    && e.expectedUid >= 0 && e.peerUid == e.expectedUid && e.peerPid > 1 && e.trackedPid > 1 && e.trackedGroup > 1
    && e.peerPath != "" && e.peerPath == e.expectedPath
    && e.expectedIdentity != [] && e.peerIdentity == e.expectedIdentity
    && e.chain[0].pid == e.peerPid && e.chain[0].path == e.peerPath
    && e.chain[1].path == SUDO && (e.chain[1].restricted || "-A" in e.chain[1].argv)
    && e.chain[0].group == e.trackedGroup && e.chain[1].group == e.trackedGroup && Top(e.chain).group == e.trackedGroup
  }

  ghost predicate Authentic(e: PeerEvidence) {
    && 3 <= |e.chain| <= LIMIT && Identified(e)
    && Linked(e.chain) && RealPids(e.chain) && EndsAt(e.chain, e.trackedPid) && OnlySudoRestricted(e.chain)
  }
}

module Ancestry {
  import opened Packages
  import opened Bytes
  import opened AncestrySpec

  method ContainsArgument(argv: seq<string>, target: string) returns (found: bool)
    ensures found <==> target in argv
  {
    for n := 0 to |argv|
      invariant target !in argv[..n]
    {
      if argv[n] == target {
        return true;
      }
    }
    return false;
  }

  method SameProcessEvidence(left: ProcessEvidence, right: ProcessEvidence, compareArgv: bool) returns (same: bool)
    ensures same <==> Same(left, right, compareArgv)
  {
    if left.pid != right.pid || left.parent != right.parent || left.group != right.group || left.path != right.path
       || left.restricted != right.restricted {
      return false;
    }
    if !compareArgv {
      return true;
    }
    if |left.argv| != |right.argv| {
      return false;
    }
    for n := 0 to |left.argv|
      invariant left.argv[..n] == right.argv[..n]
    {
      if left.argv[n] != right.argv[n] {
        return false;
      }
    }
    return true;
  }

  method ReadAgain(k: Kernel, now: nat, peer: Peer, identity: seq<Byte>, chain: seq<ProcessEvidence>) returns (ok: bool)
    requires chain != []
    ensures ok <==> Unchanged(k, now, peer, identity, chain)
  {
    if k.peer(now) != Some(peer) {
      return false;
    }
    var peerAgain := Look(k, now + 1, peer.pid, false);
    if peerAgain.None? {
      return false;
    }
    var same := SameProcessEvidence(chain[0], peerAgain.value, false);
    if !same || k.identity(now + 2, peer.pid) != Some(identity) {
      return false;
    }
    if |chain| > 1 {
      var sudoAgain := Look(k, now + 3, chain[1].pid, true);
      if sudoAgain.None? {
        return false;
      }
      same := SameProcessEvidence(chain[1], sudoAgain.value, true);
      if !same {
        return false;
      }
    }
    var trackedAgain := Look(k, now + 4, Top(chain).pid, false);
    if trackedAgain.None? {
      return false;
    }
    ok := SameProcessEvidence(Top(chain), trackedAgain.value, false);
  }

  method AcquirePeerEvidence(k: Kernel, trackedPid: int, trackedGroup: int, path: string, identity: seq<Byte>)
    returns (r: Option<PeerEvidence>)
    ensures r == Gather(k, trackedPid, trackedGroup, path, identity)
  {
    var socket := k.peer(0);
    if socket.None? {
      return None;
    }
    var pid := socket.value.pid;
    var peer := Look(k, 1, pid, false);
    if peer.None? {
      return None;
    }
    var code := k.identity(2, pid);
    if code.None? {
      return None;
    }
    var chain := [peer.value];
    var seen := {pid};
    var current := peer.value;
    for n := 0 to LIMIT
      invariant |chain| == n + 1 && current == Top(chain) && seen == Pids(chain) && chain[0] == peer.value
      invariant Climb(k, 3, [peer.value], trackedPid, LIMIT) == Climb(k, 3 + n, chain, trackedPid, LIMIT - n)
    {
      if current.pid == trackedPid {
        var ok := ReadAgain(k, 2 + |chain|, socket.value, code.value, chain);
        if !ok {
          return None;
        }
        return Some(PeerEvidence(k.euid, socket.value.uid, pid, path, peer.value.path, identity, code.value,
                                 trackedPid, trackedGroup, chain));
      }
      if current.parent <= 1 {
        return None;
      }
      if current.parent in seen {
        return None;
      }
      var above := Look(k, 3 + n, current.parent, |chain| == 1);
      if above.None? {
        return None;
      }
      seen := seen + {current.parent};
      PidsGrow(chain, above.value);
      chain := chain + [above.value];
      current := above.value;
    }
    return None;
  }

  lemma PidsGrow(chain: seq<ProcessEvidence>, p: ProcessEvidence)
    ensures Pids(chain + [p]) == Pids(chain) + {p.pid}
  {
    forall pid | pid in Pids(chain) + {p.pid}
      ensures pid in Pids(chain + [p])
    {
      if pid == p.pid {
        assert (chain + [p])[|chain|].pid == pid;
      } else {
        var i :| 0 <= i < |chain| && chain[i].pid == pid;
        assert (chain + [p])[i].pid == pid;
      }
    }
  }

  // The verifier's loop over the chain, with the tracked child found at its end.
  method CheckChain(chain: seq<ProcessEvidence>, tracked: int) returns (ok: bool)
    ensures ok <==> chain != [] && Linked(chain) && RealPids(chain) && OnlySudoRestricted(chain) && EndsAt(chain, tracked)
  {
    var seen: set<int> := {};
    var foundTracked := false;
    for n := 0 to |chain|
      invariant seen == Pids(chain[..n])
      invariant Linked(chain[..n]) && RealPids(chain[..n]) && OnlySudoRestricted(chain[..n])
      invariant foundTracked ==> n == |chain| && n > 0 && Top(chain).pid == tracked
      invariant forall i :: 0 <= i < n && chain[i].pid == tracked ==> foundTracked && i == |chain| - 1
    {
      var proc := chain[n];
      if proc.pid <= 1 {
        return false;
      }
      if proc.pid in seen {
        return false;
      }
      if proc.restricted && n != 1 {
        return false;
      }
      PidsGrow(chain[..n], proc);
      assert chain[..n + 1] == chain[..n] + [proc];
      seen := seen + {proc.pid};
      if n > 0 && chain[n - 1].parent != proc.pid {
        return false;
      }
      if proc.pid == tracked {
        foundTracked := true;
        if n != |chain| - 1 {
          return false;
        }
      }
    }
    assert chain[..|chain|] == chain;
    assert chain != [] && EndsAt(chain, tracked) ==> chain[|chain| - 1].pid == tracked;
    return foundTracked;
  }

  method VerifyPeerEvidence(e: PeerEvidence) returns (ok: bool)
    ensures ok <==> Authentic(e)
  {
    if e.expectedUid < 0 || e.peerUid != e.expectedUid || e.peerPid <= 1 || e.trackedPid <= 1 || e.trackedGroup <= 1 {
      return false;
    }
    if e.peerPath == "" || e.peerPath != e.expectedPath || |e.expectedIdentity| == 0 || e.peerIdentity != e.expectedIdentity {
      return false;
    }
    assert |e.chain| >= 2 && Linked(e.chain) ==> e.chain[1].pid == e.chain[1 - 1].parent;
    if |e.chain| < 3 || e.chain[0].pid != e.peerPid || e.chain[0].path != e.peerPath || e.chain[0].parent != e.chain[1].pid {
      return false;
    }
    var sudo := e.chain[1];
    if sudo.path != SUDO {
      return false;
    }
    if !sudo.restricted {
      var asked := ContainsArgument(sudo.argv, "-A");
      if !asked {
        return false;
      }
    }
    if e.chain[0].group != e.trackedGroup || sudo.group != e.trackedGroup {
      return false;
    }
    var sound := CheckChain(e.chain, e.trackedPid);
    if !sound || |e.chain| > 64 || e.chain[|e.chain| - 1].group != e.trackedGroup {
      return false;
    }
    return true;
  }

  method PeerRemainsAuthenticated(k: Kernel, now: nat, e: PeerEvidence) returns (ok: bool)
    ensures ok <==>
              && e.peerPid > 1 && e.chain != [] && e.peerIdentity != []
              && SameAgain(e.chain[0], Look(k, now, e.peerPid, false), false)
              && k.identity(now + 1, e.peerPid) == Some(e.peerIdentity)
  {
    if e.peerPid <= 1 || |e.chain| == 0 || |e.peerIdentity| == 0 {
      return false;
    }
    var peer := Look(k, now, e.peerPid, false);
    if peer.None? {
      return false;
    }
    var same := SameProcessEvidence(e.chain[0], peer.value, false);
    if !same {
      return false;
    }
    var identity := k.identity(now + 1, e.peerPid);
    if identity.None? {
      return false;
    }
    return identity.value == e.peerIdentity;
  }
}

module AncestryProperties {
  import opened Packages
  import opened Bytes
  import opened AncestrySpec

  // ---- against any kernel ----

  // Whatever the kernel answers, a walk that arrives has climbed a simple line of
  // parents to the first sight of the tracked process, within its bound.
  lemma {:induction false} ClimbShape(k: Kernel, now: nat, chain: seq<ProcessEvidence>, tracked: int, left: nat)
    requires chain != [] && Linked(chain) && Climb(k, now, chain, tracked, left).Some?
    requires forall i :: 0 <= i < |chain| - 1 ==> chain[i].pid != tracked
    ensures
      var line := Climb(k, now, chain, tracked, left).value;
      && chain <= line && |line| < |chain| + left
      && Linked(line) && EndsAt(line, tracked)
      && forall i :: |chain| <= i < |line| ==> line[i].pid > 1
    decreases left
  {
    var current := Top(chain);
    if current.pid != tracked {
      var above := Look(k, now, current.parent, |chain| == 1).value;
      LinkedMore(chain, above);
      ClimbShape(k, now + 1, chain + [above], tracked, left - 1);
    }
  }

  lemma LinkedMore(chain: seq<ProcessEvidence>, above: ProcessEvidence)
    requires chain != [] && Linked(chain) && above.pid == Top(chain).parent && above.pid !in Pids(chain)
    ensures Linked(chain + [above])
  {
    assert forall i :: 0 <= i < |chain| ==> chain[i].pid in Pids(chain);
  }

  lemma GatherShape(k: Kernel, tracked: int, group: int, path: string, identity: seq<Byte>)
    requires Gather(k, tracked, group, path, identity).Some?
    ensures
      var e := Gather(k, tracked, group, path, identity).value;
      && 1 <= |e.chain| <= LIMIT && Linked(e.chain) && EndsAt(e.chain, tracked)
      && e.chain[0].pid == e.peerPid && e.chain[0].path == e.peerPath && e.trackedPid == tracked
      && forall i :: 1 <= i < |e.chain| ==> e.chain[i].pid > 1
  {
    var first := Look(k, 1, k.peer(0).value.pid, false).value;
    ClimbShape(k, 3, [first], tracked, LIMIT);
    assert [first] <= Climb(k, 3, [first], tracked, LIMIT).value;
  }

  // On a chain the walk brought back, every check the verifier makes of the chain's
  // shape passes but one: that only the parent of the peer may be restricted.
  lemma OnlyRestrictionIsChecked(k: Kernel, tracked: int, group: int, path: string, identity: seq<Byte>)
    requires Gather(k, tracked, group, path, identity).Some?
    ensures
      var e := Gather(k, tracked, group, path, identity).value;
      Authentic(e) <==> |e.chain| >= 3 && Identified(e) && OnlySudoRestricted(e.chain)
  {
    GatherShape(k, tracked, group, path, identity);
  }

  // ---- what the kernel said ----

  // The kernel's answer is that of this process. One described only with its users is
  // taken when it runs as root and this user started it.
  predicate Describes(k: Kernel, answer: Reading, p: ProcessEvidence) {
    match answer
    case Ordinary(parent, group, path, _) =>
      !p.restricted && p.parent == parent && p.group == group && p.path == path
    case Guarded(parent, group, path, euid, ruid) =>
      p.restricted && p.parent == parent && p.group == group && p.path == path && euid == 0 && ruid == k.uid
    case Unreadable => false
  }

  // Its arguments too, where the kernel tells them.
  predicate Argues(answer: Reading, p: ProcessEvidence) {
    if answer.Ordinary? then answer.argv == Some(p.argv) else p.argv == []
  }

  // Which processes can be described at all: those whose arguments are told when they
  // are asked for, and, of the others, what runs as root at this user's own start.
  lemma WhoIsDescribed(k: Kernel, now: nat, pid: int, withArgv: bool)
    ensures
      var answer := k.process(now, pid);
      Look(k, now, pid, withArgv).Some? <==>
        || (answer.Ordinary? && (withArgv ==> answer.argv.Some?))
        || (answer.Guarded? && answer.euid == 0 && answer.ruid == k.uid)
    ensures
      var seen := Look(k, now, pid, withArgv);
      seen.Some? ==>
        && seen.value.pid == pid && Describes(k, k.process(now, pid), seen.value)
        && (if withArgv then Argues(k.process(now, pid), seen.value) else seen.value.argv == [])
  {
  }

  // The i-th process of the line is what the kernel said, when asked, of the parent of
  // the one before.
  ghost predicate ReadAt(k: Kernel, start: int, line: seq<ProcessEvidence>, i: nat)
    requires 0 < i < |line| && start + i >= 0
  {
    var answer := k.process(start + i, line[i - 1].parent);
    && line[i].pid == line[i - 1].parent && Describes(k, answer, line[i])
    && (if i == 1 then Argues(answer, line[i]) else line[i].argv == [])
  }

  lemma {:induction false} ClimbReads(k: Kernel, start: int, now: nat, chain: seq<ProcessEvidence>, tracked: int, left: nat)
    requires chain != [] && now == start + |chain| && Climb(k, now, chain, tracked, left).Some?
    ensures
      var line := Climb(k, now, chain, tracked, left).value;
      chain <= line && forall i :: |chain| <= i < |line| ==> ReadAt(k, start, line, i)
    decreases left
  {
    var current := Top(chain);
    if current.pid != tracked {
      var above := Look(k, now, current.parent, |chain| == 1).value;
      ClimbReads(k, start, now + 1, chain + [above], tracked, left - 1);
      var line := Climb(k, now, chain, tracked, left).value;
      assert line[|chain|] == above && line[|chain| - 1] == current;
      assert ReadAt(k, start, line, |chain|);
    }
  }

  // The answers of the second reads are those of the first.
  ghost predicate AnswersAgain(k: Kernel, now: nat, e: PeerEvidence)
    requires e.chain != []
  {
    var top := Top(e.chain);
    && k.peer(now) == Some(Peer(e.peerUid, e.peerPid))
    && Describes(k, k.process(now + 1, e.peerPid), e.chain[0])
    && k.identity(now + 2, e.peerPid) == Some(e.peerIdentity)
    && (|e.chain| > 1 ==>
          var answer := k.process(now + 3, e.chain[1].pid);
          Describes(k, answer, e.chain[1]) && Argues(answer, e.chain[1]))
    && Describes(k, k.process(now + 4, top.pid), top)
  }

  // The evidence says what the kernel said, against what the caller expected, and the
  // kernel said it twice.
  lemma EvidenceIsRead(k: Kernel, tracked: int, group: int, path: string, identity: seq<Byte>)
    requires Gather(k, tracked, group, path, identity).Some?
    ensures
      var e := Gather(k, tracked, group, path, identity).value;
      && e.expectedUid == k.euid && e.expectedPath == path && e.expectedIdentity == identity
      && e.trackedPid == tracked && e.trackedGroup == group
      && k.peer(0) == Some(Peer(e.peerUid, e.peerPid)) && k.identity(2, e.peerPid) == Some(e.peerIdentity)
      && e.chain != [] && e.chain[0].pid == e.peerPid && e.peerPath == e.chain[0].path && e.chain[0].argv == []
      && Describes(k, k.process(1, e.peerPid), e.chain[0])
      && (forall i :: 1 <= i < |e.chain| ==> ReadAt(k, 2, e.chain, i))
      && AnswersAgain(k, 2 + |e.chain|, e)
  {
    var e := Gather(k, tracked, group, path, identity).value;
    Walked(k, tracked, group, path, identity, e);
    ChainIsRead(k, tracked, e);
    AgainMeans(k, 2 + |e.chain|, e);
  }

  lemma Walked(k: Kernel, tracked: int, group: int, path: string, identity: seq<Byte>, e: PeerEvidence)
    requires Gather(k, tracked, group, path, identity) == Some(e)
    ensures FirstReads(k, tracked, e) && e.chain != []
    ensures Unchanged(k, 2 + |e.chain|, Peer(e.peerUid, e.peerPid), e.peerIdentity, e.chain)
  {
    var peer, first := k.peer(0).value, Look(k, 1, e.peerPid, false).value;
    assert peer == Peer(e.peerUid, e.peerPid);
    assert Climb(k, 3, [first], tracked, LIMIT) == Some(e.chain);
  }

  // What the walk was given, and where it led.
  ghost predicate FirstReads(k: Kernel, tracked: int, e: PeerEvidence) {
    && k.peer(0) == Some(Peer(e.peerUid, e.peerPid)) && k.identity(2, e.peerPid) == Some(e.peerIdentity)
    && Look(k, 1, e.peerPid, false).Some?
    && Climb(k, 3, [Look(k, 1, e.peerPid, false).value], tracked, LIMIT) == Some(e.chain)
  }

  lemma ChainIsRead(k: Kernel, tracked: int, e: PeerEvidence)
    requires FirstReads(k, tracked, e)
    ensures e.chain != [] && e.chain[0] == Look(k, 1, e.peerPid, false).value
    ensures forall i :: 1 <= i < |e.chain| ==> ReadAt(k, 2, e.chain, i)
    ensures |e.chain| > 1 && e.chain[1].restricted ==> e.chain[1].argv == []
  {
    ClimbReads(k, 2, 3, [Look(k, 1, e.peerPid, false).value], tracked, LIMIT);
    assert |e.chain| > 1 ==> ReadAt(k, 2, e.chain, 1);
  }

  // The program's comparison of the second reads, for evidence it built.
  lemma AgainMeans(k: Kernel, now: nat, e: PeerEvidence)
    requires e.chain != [] && e.chain[0].pid == e.peerPid
    requires |e.chain| > 1 && e.chain[1].restricted ==> e.chain[1].argv == []
    ensures AnswersAgain(k, now, e) <==> Unchanged(k, now, Peer(e.peerUid, e.peerPid), e.peerIdentity, e.chain)
  {
  }

  // So a change the second reads see is always seen: when the walk arrives, evidence
  // is returned exactly if the socket, the peer, its code, its parent, and the tracked
  // child all answer as before.
  lemma ChangeIsSeen(k: Kernel, tracked: int, group: int, path: string, identity: seq<Byte>, e: PeerEvidence)
    requires FirstReads(k, tracked, e)
    ensures e.chain != []
    ensures Gather(k, tracked, group, path, identity).Some? <==> AnswersAgain(k, 2 + |e.chain|, e)
  {
    ChainIsRead(k, tracked, e);
    AgainMeans(k, 2 + |e.chain|, e);
  }

  // An accepted peer is this user's, runs this program's code from this program's path,
  // and was started by sudo asking for a password in the job's group, all by the
  // kernel's own word.
  lemma AcceptedPeer(k: Kernel, tracked: int, group: int, path: string, identity: seq<Byte>)
    requires Gather(k, tracked, group, path, identity).Some?
    requires Authentic(Gather(k, tracked, group, path, identity).value)
    ensures AcceptedBy(k, group, path, identity)
  {
    EvidenceIsRead(k, tracked, group, path, identity);
    AuthenticMeans(k, Gather(k, tracked, group, path, identity).value);
  }

  ghost predicate AcceptedBy(k: Kernel, group: int, path: string, identity: seq<Byte>) {
    && k.peer(0).Some? && k.peer(0).value.uid == k.euid
    && var pid := k.peer(0).value.pid;
       var self := k.process(1, pid);
       && identity != [] && k.identity(2, pid) == Some(identity) && !self.Unreadable?
       && path != "" && self.path == path && self.group == group && self.parent > 1
       && var sudo := k.process(3, self.parent);
          && !sudo.Unreadable? && sudo.path == "/usr/bin/sudo" && sudo.group == group
          && (if sudo.Ordinary? then sudo.argv.Some? && "-A" in sudo.argv.value else sudo.euid == 0 && sudo.ruid == k.uid)
  }

  lemma AuthenticMeans(k: Kernel, e: PeerEvidence)
    requires Authentic(e) && e.expectedUid == k.euid
    requires k.peer(0) == Some(Peer(e.peerUid, e.peerPid)) && k.identity(2, e.peerPid) == Some(e.peerIdentity)
    requires Describes(k, k.process(1, e.peerPid), e.chain[0]) && ReadAt(k, 2, e.chain, 1)
    ensures AcceptedBy(k, e.trackedGroup, e.expectedPath, e.expectedIdentity)
  {
  }

  // ---- against a kernel that stands still ----

  ghost predicate Stable(k: Kernel) {
    && (forall n: nat, pid :: k.process(n, pid) == k.process(0, pid))
    && (forall n: nat, pid :: k.identity(n, pid) == k.identity(0, pid))
    && (forall n: nat :: k.peer(n) == k.peer(0))
  }

  // Each process of the line is what the kernel says of its child's parent.
  ghost predicate Parentage(k: Kernel, line: seq<ProcessEvidence>) {
    forall i :: 0 < i < |line| ==> ParentAt(k, line, i)
  }

  ghost predicate ParentAt(k: Kernel, line: seq<ProcessEvidence>, i: nat)
    requires 0 < i < |line|
  {
    line[i - 1].parent > 1 && Look(k, 0, line[i - 1].parent, i == 1) == Some(line[i])
  }

  ghost predicate Route(k: Kernel, line: seq<ProcessEvidence>, tracked: int) {
    line != [] && Parentage(k, line) && Linked(line) && EndsAt(line, tracked)
  }

  lemma {:induction false} ClimbFollows(k: Kernel, now: nat, chain: seq<ProcessEvidence>, tracked: int, left: nat)
    requires Stable(k) && chain != [] && Parentage(k, chain) && Climb(k, now, chain, tracked, left).Some?
    ensures Parentage(k, Climb(k, now, chain, tracked, left).value)
    decreases left
  {
    var current := Top(chain);
    if current.pid != tracked {
      var above := Look(k, now, current.parent, |chain| == 1).value;
      var longer := chain + [above];
      assert ParentAt(k, longer, |chain|);
      assert forall i :: 0 < i < |chain| ==> ParentAt(k, chain, i) ==> ParentAt(k, longer, i);
      ClimbFollows(k, now + 1, longer, tracked, left - 1);
    }
  }

  lemma {:induction false} ClimbFinds(k: Kernel, now: nat, line: seq<ProcessEvidence>, tracked: int, n: nat, left: nat)
    requires Stable(k) && Route(k, line, tracked) && 0 < n <= |line| < n + left
    ensures Climb(k, now, line[..n], tracked, left) == Some(line)
    decreases left
  {
    var chain := line[..n];
    assert Top(chain) == line[n - 1];
    if n == |line| {
      assert chain == line;
    } else {
      assert line[n].pid !in Pids(chain) && ParentAt(k, line, n);
      assert chain + [line[n]] == line[..n + 1];
      ClimbFinds(k, now + 1, line, tracked, n + 1, left - 1);
    }
  }

  lemma StableUnchanged(k: Kernel, now: nat, peer: Peer, identity: seq<Byte>, line: seq<ProcessEvidence>)
    requires Stable(k) && line != [] && Parentage(k, line) && Linked(line)
    requires k.peer(0) == Some(peer) && k.identity(0, peer.pid) == Some(identity)
    requires Look(k, 0, peer.pid, false) == Some(line[0])
    ensures Unchanged(k, now, peer, identity, line)
  {
    if |line| > 1 {
      assert ParentAt(k, line, 1) && ParentAt(k, line, |line| - 1);
    }
  }

  // Completeness: when nothing changes meanwhile, evidence is gathered exactly when
  // the peer can be read and a line of at most 64 distinct readable processes, none
  // of its parents PID 1 or less, leads from it to the tracked child; and that line
  // is the evidence.
  lemma GatherFinds(k: Kernel, tracked: int, group: int, path: string, identity: seq<Byte>, line: seq<ProcessEvidence>)
    requires Stable(k) && k.peer(0).Some? && k.identity(0, k.peer(0).value.pid).Some?
    ensures
      var found := Gather(k, tracked, group, path, identity);
      (found.Some? && found.value.chain == line)
      <==> (Route(k, line, tracked) && |line| <= LIMIT && Look(k, 0, k.peer(0).value.pid, false) == Some(line[0]))
  {
    var peer := k.peer(0).value;
    var first := Look(k, 1, peer.pid, false);
    assert k.process(1, peer.pid) == k.process(0, peer.pid);
    assert k.identity(2, peer.pid) == k.identity(0, peer.pid);
    if Gather(k, tracked, group, path, identity).Some? {
      ClimbShape(k, 3, [first.value], tracked, LIMIT);
      ClimbFollows(k, 3, [first.value], tracked, LIMIT);
      assert [first.value] <= Climb(k, 3, [first.value], tracked, LIMIT).value;
    }
    if Route(k, line, tracked) && |line| <= LIMIT && first == Some(line[0]) {
      ClimbFinds(k, 3, line, tracked, 1, LIMIT);
      assert line[..1] == [first.value];
      StableUnchanged(k, 2 + |line|, peer, k.identity(0, peer.pid).value, line);
    }
  }
}
