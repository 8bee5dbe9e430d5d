/**
 Who owns the unix socket path (cli/internal/ipc/ipc.go): any number of host processes run
 `Listen` and `Close`, each system call a step of its own, each process free to die before any of
 them. The setup lock is an `flock`, which the kernel gives up for a process that dies.

 A dial is refused only when no live listener serves the file at the path, which is how the code
 reads a refusal; an inode number is not given out again while its file or a socket bound to it is
 still there.
 */
module SocketOwner {
  import opened Base

  type Inode = nat

  datatype File = File(ino: Inode, isSocket: bool)

  datatype Failure = NoLock | StatFailed | NotSocket | AlreadyRunning | RemoveFailed | BindFailed | SetupFailed

  /** A process between two system calls. `ino` is the file its open socket was bound to, `ident`
      what `statIdentity` found at the path. */
  datatype Proc =
    | WantLock
    | Checking                      // RemoveStale: before Lstat
    | Probing                       // before the dial
    | Removing(ino: Inode)          // the dial of this file was refused
    | Binding
    | Bound(ino: Inode)             // bind made the file, listen has not run
    | Listening(ino: Inode)         // before chmod
    | Identifying(ino: Inode)       // before statIdentity
    | Starting(ino: Inode, ident: Inode)    // Listen is done but for its lock
    | Failing(error: Failure)               // the same, with an error
    | Failed(error: Failure)
    | Serving(ino: Inode, ident: Inode)
    | WantLockToClose(ino: Inode, ident: Inode)
    | Shutting(ino: Inode, ident: Inode)    // Close has the lock
    | Comparing(ident: Inode)               // its socket is closed
    | Unlinking(ident: Inode)               // the file at the path is the one it made
    | Ending
    | Closed
    | Dead

  /** The file its open socket is bound to. */
  function Open(p: Proc): Option<Inode> {
    match p
    case Bound(i) => Some(i)
    case Listening(i) => Some(i)
    case Identifying(i) => Some(i)
    case Starting(i, _) => Some(i)
    case Serving(i, _) => Some(i)
    case WantLockToClose(i, _) => Some(i)
    case Shutting(i, _) => Some(i)
    case _ => None
  }

  /** It accepts connections. */
  predicate Live(p: Proc) {
    Open(p).Some? && !p.Bound?
  }

  /** Between taking the setup lock and giving it back. */
  predicate Inside(p: Proc) {
    !p.WantLock? && !p.Failed? && !p.Serving? && !p.WantLockToClose? && !p.Closed? && !p.Dead?
  }

  datatype State = State(path: Option<File>, holder: Option<nat>, procs: seq<Proc>)

  predicate Served(procs: seq<Proc>, i: Inode) {
    exists p :: 0 <= p < |procs| && Live(procs[p]) && Open(procs[p]) == Some(i)
  }

  predicate InUse(s: State, i: Inode) {
    || (s.path.Some? && s.path.value.ino == i)
    || exists p :: 0 <= p < |s.procs| && Open(s.procs[p]) == Some(i)
  }

  /** `ok`: a system call that could fail does not; `ino`: what `bind` gets. */
  datatype Event =
    | Start
    | Go(p: nat, ok: bool, ino: Inode)
    | Crash(p: nat)
    | Vanish        // something else removes the file at the path

  // ----- one process -----

  /** The next system call of a process that need not wait. `served`: a live listener is bound to
      the file at the path. */
  function Next(pc: Proc, path: Option<File>, served: bool, ok: bool, ino: Inode): Proc {
    match pc
    case WantLock => if ok then Checking else Failed(NoLock)
    case Checking =>
      if path.None? then Binding
      else if !ok then Failing(StatFailed)
      else if !path.value.isSocket then Failing(NotSocket)
      else Probing
    case Probing => if ok && path.Some? && !served then Removing(path.value.ino) else Failing(AlreadyRunning)
    case Removing(_) => if ok && path.Some? then Binding else Failing(RemoveFailed)
    case Binding => if ok && path.None? then Bound(ino) else Failing(BindFailed)
    case Bound(i) => if ok then Listening(i) else Failing(BindFailed)
    case Listening(i) => if ok && path.Some? then Identifying(i) else Failing(SetupFailed)
    case Identifying(i) => if ok && path.Some? then Starting(i, path.value.ino) else Failing(SetupFailed)
    case Starting(i, ident) => Serving(i, ident)
    case Failing(error) => Failed(error)
    case Serving(i, ident) => WantLockToClose(i, ident)
    case WantLockToClose(i, ident) => if ok then Shutting(i, ident) else Closed
    case Shutting(_, ident) => Comparing(ident)
    case Comparing(ident) => if ok && path.Some? && path.value.ino == ident then Unlinking(ident) else Ending
    case Unlinking(_) => Ending
    case Ending => Closed
    case _ => pc
  }

  function NextPath(pc: Proc, path: Option<File>, ok: bool, ino: Inode): Option<File> {
    if (pc.Removing? || pc.Unlinking?) && ok then None
    else if pc.Binding? && ok && path.None? then Some(File(ino, true))
    else path
  }

  /** It waits for the lock, or `bind` cannot get this inode. */
  predicate Blocked(s: State, p: nat, ok: bool, ino: Inode)
    requires p < |s.procs|
  {
    || ((s.procs[p].WantLock? || s.procs[p].WantLockToClose?) && ok && s.holder.Some?)
    || (s.procs[p].Binding? && InUse(s, ino))
  }

  function NextHolder(holder: Option<nat>, p: nat, was: Proc, now: Proc): Option<nat> {
    if !Inside(was) && Inside(now) then Some(p)
    else if Inside(was) && !Inside(now) then None
    else holder
  }

  function Put(s: State, p: nat, now: Proc): State
    requires p < |s.procs|
  {
    State(s.path, NextHolder(s.holder, p, s.procs[p], now), s.procs[p := now])
  }

  function Step(s: State, e: Event): State {
    match e
    case Start => s.(procs := s.procs + [WantLock])
    case Go(p, ok, ino) =>
      if p >= |s.procs| || Blocked(s, p, ok, ino) then s
      else
        var served := s.path.Some? && Served(s.procs, s.path.value.ino);
        Put(s, p, Next(s.procs[p], s.path, served, ok, ino)).(path := NextPath(s.procs[p], s.path, ok, ino))
    case Crash(p) => if p < |s.procs| then Put(s, p, Dead) else s
    case Vanish => s.(path := None)
  }

  /** From any file, or none, left at the path before the first host starts. */
  function Steps(path: Option<File>, es: seq<Event>): State {
    if es == [] then State(path, None, []) else Step(Steps(path, es[..|es| - 1]), es[|es| - 1])
  }

  // ----- the invariant -----

  ghost predicate ProcOk(s: State, p: nat)
    requires p < |s.procs|
  {
    var pc := s.procs[p];
    && (Inside(pc) <==> s.holder == Some(p))
    && (Open(pc).Some? && s.path.Some? && s.path.value.ino == Open(pc).value ==> s.path.value.isSocket)
    && (pc.Starting? || pc.Serving? || pc.WantLockToClose? || pc.Shutting? ==> pc.ident == pc.ino)
    && (pc.Probing? && s.path.Some? ==> s.path.value.isSocket)
    && (pc.Removing? && s.path.Some? ==> s.path.value == File(pc.ino, true) && Unowned(s.procs, pc.ino))
    && (pc.Comparing? && s.path.Some? && s.path.value.ino == pc.ident ==>
          s.path.value.isSocket && Unowned(s.procs, pc.ident))
    && (pc.Unlinking? && s.path.Some? ==> s.path.value == File(pc.ident, true) && Unowned(s.procs, pc.ident))
    && ((pc.Bound? || pc.Listening? || pc.Identifying?) && s.path.Some? ==> s.path.value.ino == pc.ino)
  }

  ghost predicate Unowned(procs: seq<Proc>, i: Inode) {
    forall q :: 0 <= q < |procs| ==> Open(procs[q]) != Some(i)
  }

  ghost predicate Distinct(procs: seq<Proc>) {
    forall p, q :: 0 <= p < q < |procs| && Open(procs[p]).Some? ==> Open(procs[p]) != Open(procs[q])
  }

  ghost predicate Inv(s: State) {
    && (forall p: nat :: p < |s.procs| ==> ProcOk(s, p))
    && (s.holder.Some? ==> s.holder.value < |s.procs|)
    && Distinct(s.procs)
  }

  /** A refused dial means that nobody has a socket on that file: not a live one, and one that is
      bound but not listening yet is inside the lock. */
  lemma RefusedIsStale(s: State, p: nat)
    requires Inv(s) && p < |s.procs| && s.procs[p].Probing? && s.path.Some?
    requires !Served(s.procs, s.path.value.ino)
    ensures Unowned(s.procs, s.path.value.ino)
  {
    assert ProcOk(s, p);
    forall q | 0 <= q < |s.procs| ensures Open(s.procs[q]) != Some(s.path.value.ino) { assert ProcOk(s, q); }
  }

  lemma GoKeepsOther(s: State, p: nat, ok: bool, ino: Inode, q: nat)
    requires Inv(s) && p < |s.procs| && q < |s.procs| && p != q && !Blocked(s, p, ok, ino)
    ensures ProcOk(Step(s, Go(p, ok, ino)), q)
  {
    assert ProcOk(s, p) && ProcOk(s, q);
  }

  lemma GoKeepsSelf(s: State, p: nat, ok: bool, ino: Inode)
    requires Inv(s) && p < |s.procs| && !Blocked(s, p, ok, ino)
    ensures ProcOk(Step(s, Go(p, ok, ino)), p)
  {
    assert ProcOk(s, p);
    if s.procs[p].Probing? && Step(s, Go(p, ok, ino)).procs[p].Removing? { RefusedIsStale(s, p); }
  }

  lemma GoKeeps(s: State, p: nat, ok: bool, ino: Inode)
    requires Inv(s) && p < |s.procs| && !Blocked(s, p, ok, ino)
    ensures Inv(Step(s, Go(p, ok, ino)))
  {
    var n := Step(s, Go(p, ok, ino));
    forall q: nat | q < |n.procs| ensures ProcOk(n, q) {
      if q == p { GoKeepsSelf(s, p, ok, ino); } else { GoKeepsOther(s, p, ok, ino, q); }
    }
  }

  lemma StartKeeps(s: State)
    requires Inv(s)
    ensures Inv(Step(s, Start))
  {
    var n := Step(s, Start);
    forall q: nat | q < |n.procs| ensures ProcOk(n, q) {
      if q < |s.procs| { assert ProcOk(s, q); } else { assert s.holder != Some(q); }
    }
  }

  lemma CrashKeeps(s: State, p: nat)
    requires Inv(s) && p < |s.procs|
    ensures Inv(Step(s, Crash(p)))
  {
    var n := Step(s, Crash(p));
    assert ProcOk(s, p);
    forall q: nat | q < |n.procs| ensures ProcOk(n, q) { assert ProcOk(s, q); }
  }

  lemma VanishKeeps(s: State)
    requires Inv(s)
    ensures Inv(Step(s, Vanish))
  {
    var n := Step(s, Vanish);
    forall q: nat | q < |n.procs| ensures ProcOk(n, q) { assert ProcOk(s, q); }
  }

  lemma StepKeeps(s: State, e: Event)
    requires Inv(s)
    ensures Inv(Step(s, e))
  {
    match e
    case Start => StartKeeps(s);
    case Go(p, ok, ino) => if p < |s.procs| && !Blocked(s, p, ok, ino) { GoKeeps(s, p, ok, ino); }
    case Crash(p) => if p < |s.procs| { CrashKeeps(s, p); }
    case Vanish => VanishKeeps(s);
  }

  lemma {:induction false} RunKeeps(path: Option<File>, es: seq<Event>)
    ensures Inv(Steps(path, es))
  {
    if es != [] {
      RunKeeps(path, es[..|es| - 1]);
      StepKeeps(Steps(path, es[..|es| - 1]), es[|es| - 1]);
    }
  }

  // ----- the theorems -----

  /** Whatever the hosts do and wherever they die, a host that unlinks the file at the path unlinks
      a socket that no process has open, and it does so inside the setup lock. */
  lemma NoLiveFileUnlinked(path: Option<File>, es: seq<Event>, p: nat, ok: bool, ino: Inode)
    requires var s := Steps(path, es);
      s.path.Some? && Step(s, Go(p, ok, ino)).path != s.path
    ensures var s := Steps(path, es);
      && p < |s.procs| && s.holder == Some(p)
      && s.path.value.isSocket && Unowned(s.procs, s.path.value.ino)
      && Step(s, Go(p, ok, ino)).path == None
  {
    RunKeeps(path, es);
    assert ProcOk(Steps(path, es), p);
  }

  /** The file at the path belongs to one process at most, and one process is inside the lock. */
  lemma OneOwner(path: Option<File>, es: seq<Event>, p: nat, q: nat)
    requires var procs := Steps(path, es).procs; p < |procs| && q < |procs|
    ensures var procs := Steps(path, es).procs;
      && (Open(procs[p]).Some? && Open(procs[p]) == Open(procs[q]) ==> p == q)
      && (Inside(procs[p]) && Inside(procs[q]) ==> p == q)
  {
    RunKeeps(path, es);
    assert ProcOk(Steps(path, es), p) && ProcOk(Steps(path, es), q);
  }

  /** Its `Listen` has found its file at the path, and its `Close` does not have the lock yet. */
  predicate Lasting(p: Proc) {
    p.Starting? || p.Serving? || p.WantLockToClose?
  }

  predicate HasListener(s: State) {
    exists p :: 0 <= p < |s.procs| && Lasting(s.procs[p])
  }

  predicate TwoLive(s: State) {
    exists p, q :: 0 <= p < q < |s.procs| && Live(s.procs[p]) && Live(s.procs[q])
  }

  /** One open socket at most. */
  ghost predicate Lone(procs: seq<Proc>) {
    forall p, q :: 0 <= p < q < |procs| && Open(procs[p]).Some? ==> Open(procs[q]).None?
  }

  /** The path leads to every listener. */
  ghost predicate Found(s: State) {
    forall p :: 0 <= p < |s.procs| && Lasting(s.procs[p]) ==> s.path == Some(File(s.procs[p].ino, true))
  }

  ghost predicate OneOpen(s: State) {
    Lone(s.procs) && Found(s)
  }

  lemma GoStaysLone(s: State, p: nat, ok: bool, ino: Inode)
    requires Inv(s) && OneOpen(s) && p < |s.procs| && !Blocked(s, p, ok, ino)
    ensures Lone(Step(s, Go(p, ok, ino)).procs)
  {
    assert ProcOk(s, p);
    forall q: nat | q < |s.procs| && q != p && Open(s.procs[q]).Some? ensures !s.procs[p].Binding? || s.path.Some? {
      assert ProcOk(s, q);
    }
  }

  lemma GoStaysFound(s: State, p: nat, ok: bool, ino: Inode)
    requires Inv(s) && OneOpen(s) && p < |s.procs| && !Blocked(s, p, ok, ino)
    ensures Found(Step(s, Go(p, ok, ino)))
  {
    assert ProcOk(s, p);
    forall q: nat | q < |s.procs| && q != p && Lasting(s.procs[q])
      ensures !(s.procs[p].Removing? || s.procs[p].Unlinking?) || s.path.None?
    {
      assert ProcOk(s, q);
    }
  }

  lemma StepStaysOneOpen(s: State, e: Event)
    requires Inv(s) && OneOpen(s) && (e.Vanish? ==> !HasListener(s))
    ensures OneOpen(Step(s, e))
  {
    if e.Go? && e.p < |s.procs| && !Blocked(s, e.p, e.ok, e.ino) {
      GoStaysLone(s, e.p, e.ok, e.ino);
      GoStaysFound(s, e.p, e.ok, e.ino);
    }
  }

  /** Whoever else removes the file does so while no host has it for its listener. */
  ghost predicate Harmless(path: Option<File>, es: seq<Event>) {
    forall k :: 0 <= k < |es| && es[k].Vanish? ==> !HasListener(Steps(path, es[..k]))
  }

  lemma HarmlessBefore(path: Option<File>, es: seq<Event>)
    requires es != [] && Harmless(path, es)
    ensures Harmless(path, es[..|es| - 1])
    ensures es[|es| - 1].Vanish? ==> !HasListener(Steps(path, es[..|es| - 1]))
  {
    var before := es[..|es| - 1];
    forall k | 0 <= k < |before| && before[k].Vanish? ensures !HasListener(Steps(path, before[..k])) {
      assert before[..k] == es[..k] && es[k].Vanish?;
    }
  }

  lemma {:induction false} StaysOneOpen(path: Option<File>, es: seq<Event>)
    requires Harmless(path, es)
    ensures OneOpen(Steps(path, es))
  {
    if es != [] {
      HarmlessBefore(path, es);
      StaysOneOpen(path, es[..|es| - 1]);
      RunKeeps(path, es[..|es| - 1]);
      StepStaysOneOpen(Steps(path, es[..|es| - 1]), es[|es| - 1]);
    }
  }

  /** Every open socket is the one the path leads to. */
  ghost predicate AllAtPath(s: State) {
    forall p :: 0 <= p < |s.procs| && Open(s.procs[p]).Some? ==> s.path == Some(File(Open(s.procs[p]).value, true))
  }

  predicate NoneOpen(s: State) {
    forall p :: 0 <= p < |s.procs| ==> Open(s.procs[p]).None?
  }

  lemma StepStaysAtPath(s: State, e: Event)
    requires Inv(s) && AllAtPath(s) && (e.Vanish? ==> NoneOpen(s))
    ensures AllAtPath(Step(s, e))
  {
    if e.Go? && e.p < |s.procs| { assert ProcOk(s, e.p); }
  }

  /** Whoever else removes the file removes one that no process has open. */
  ghost predicate OnlyStale(path: Option<File>, es: seq<Event>) {
    forall k :: 0 <= k < |es| && es[k].Vanish? ==> NoneOpen(Steps(path, es[..k]))
  }

  lemma {:induction false} StaysAtPath(path: Option<File>, es: seq<Event>)
    requires OnlyStale(path, es)
    ensures AllAtPath(Steps(path, es))
  {
    if es != [] {
      var before := es[..|es| - 1];
      assert OnlyStale(path, before) by {
        forall k | 0 <= k < |before| && before[k].Vanish? ensures NoneOpen(Steps(path, before[..k])) {
          assert before[..k] == es[..k] && es[k].Vanish?;
        }
      }
      StaysAtPath(path, before);
      RunKeeps(path, before);
      StepStaysAtPath(Steps(path, before), es[|es| - 1]);
    }
  }

  /** Unless something else removes the file of a listener, there is one live listener at most, and
      from the end of its `Listen` to its `Close` the path leads to it; always, if nothing else removes
      any but stale files. */
  lemma OneListener(path: Option<File>, es: seq<Event>, p: nat, q: nat)
    requires Harmless(path, es)
    requires var procs := Steps(path, es).procs;
      p < |procs| && q < |procs| && Live(procs[p]) && Live(procs[q])
    ensures p == q
    ensures var s := Steps(path, es);
      Lasting(s.procs[p]) || OnlyStale(path, es) ==> s.path == Some(File(Open(s.procs[p]).value, true))
  {
    StaysOneOpen(path, es);
    if OnlyStale(path, es) { StaysAtPath(path, es); }
  }

  /** `p` alone takes `n` steps, and no system call fails. */
  function Goes(s: State, p: nat, ino: Inode, n: nat): State
    decreases n
  {
    if n == 0 then s else Goes(Step(s, Go(p, true, ino)), p, ino, n - 1)
  }

  predicate MayStart(s: State, p: nat, ino: Inode) {
    && p < |s.procs| && s.procs[p].WantLock? && s.holder.None?
    && !InUse(s, ino)
    && (s.path.Some? ==> s.path.value.isSocket && !Served(s.procs, s.path.value.ino))
  }

  lemma FromBinding(procs: seq<Proc>, p: nat, ino: Inode)
    requires p < |procs| && procs[p].Binding?
    requires !InUse(State(None, Some(p), procs), ino)
    ensures Goes(State(None, Some(p), procs), p, ino, 5)
         == State(Some(File(ino, true)), None, procs[p := Serving(ino, ino)])
  {
    var file := Some(File(ino, true));
    var s1 := State(file, Some(p), procs[p := Bound(ino)]);
    var s2 := State(file, Some(p), procs[p := Listening(ino)]);
    var s3 := State(file, Some(p), procs[p := Identifying(ino)]);
    var s4 := State(file, Some(p), procs[p := Starting(ino, ino)]);
    assert Step(State(None, Some(p), procs), Go(p, true, ino)) == s1;
    assert Step(s1, Go(p, true, ino)) == s2;
    assert Step(s2, Go(p, true, ino)) == s3;
    assert Step(s3, Go(p, true, ino)) == s4;
    assert Step(s4, Go(p, true, ino)) == State(file, None, procs[p := Serving(ino, ino)]);
    assert Goes(State(None, Some(p), procs), p, ino, 5) == Goes(s1, p, ino, 4) == Goes(s2, p, ino, 3);
    assert Goes(s2, p, ino, 3) == Goes(s3, p, ino, 2) == Goes(s4, p, ino, 1);
  }

  /** Beside a live listener a second host does not start: it ends with `AlreadyRunning`, and beside a file
      that is no socket with `NotSocket`. Either way the path and the other processes are as they were. */
  lemma SecondHostsGiveUp(s: State, p: nat, ino: Inode)
    requires p < |s.procs| && s.procs[p].WantLock? && s.holder.None? && s.path.Some?
    ensures s.path.value.isSocket && Served(s.procs, s.path.value.ino) ==>
      Goes(s, p, ino, 4) == s.(procs := s.procs[p := Failed(AlreadyRunning)])
    ensures !s.path.value.isSocket ==> Goes(s, p, ino, 3) == s.(procs := s.procs[p := Failed(NotSocket)])
  {
    var s1 := s.(holder := Some(p), procs := s.procs[p := Checking]);
    assert Step(s, Go(p, true, ino)) == s1;
    if s.path.value.isSocket && Served(s.procs, s.path.value.ino) {
      var q :| 0 <= q < |s.procs| && Live(s.procs[q]) && Open(s.procs[q]) == Some(s.path.value.ino);
      var s2 := s1.(procs := s.procs[p := Probing]);
      assert s2.procs[q] == s.procs[q];
      assert Step(s1, Go(p, true, ino)) == s2;
      GivesUp(s2, p, AlreadyRunning, ino);
    } else if !s.path.value.isSocket {
      GivesUpChecking(s1, p, ino);
    }
  }

  lemma GivesUp(s: State, p: nat, error: Failure, ino: Inode)
    requires p < |s.procs| && s.procs[p].Probing? && s.holder == Some(p) && error == AlreadyRunning
    requires s.path.Some? && Served(s.procs, s.path.value.ino)
    ensures Goes(s, p, ino, 2) == State(s.path, None, s.procs[p := Failed(error)])
  {
    var s1 := s.(procs := s.procs[p := Failing(error)]);
    assert Step(s, Go(p, true, ino)) == s1;
    assert Step(s1, Go(p, true, ino)) == State(s.path, None, s.procs[p := Failed(error)]);
    assert Goes(s1, p, ino, 1) == Step(s1, Go(p, true, ino));
  }

  lemma GivesUpChecking(s: State, p: nat, ino: Inode)
    requires p < |s.procs| && s.procs[p].Checking? && s.holder == Some(p) && s.path.Some? && !s.path.value.isSocket
    ensures Goes(s, p, ino, 2) == State(s.path, None, s.procs[p := Failed(NotSocket)])
  {
    var s1 := s.(procs := s.procs[p := Failing(NotSocket)]);
    assert Step(s, Go(p, true, ino)) == s1;
    assert Step(s1, Go(p, true, ino)) == State(s.path, None, s.procs[p := Failed(NotSocket)]);
    assert Goes(s1, p, ino, 1) == Step(s1, Go(p, true, ino));
  }

  /** The error that a failing system call ends `Listen` with, if it does. */
  function ErrorOf(pc: Proc): Option<Failure> {
    match pc
    case WantLock => Some(NoLock)
    case Checking => Some(StatFailed)
    case Probing => Some(AlreadyRunning)
    case Removing(_) => Some(RemoveFailed)
    case Binding => Some(BindFailed)
    case Bound(_) => Some(BindFailed)
    case Listening(_) => Some(SetupFailed)
    case Identifying(_) => Some(SetupFailed)
    case _ => None
  }

  /** A call that fails ends `Listen` with its own error, gives up the socket and the lock, and leaves the
      file at the path alone; a `Close` that cannot get the lock closes the socket and leaves the file. */
  lemma FailedCallsEnd(s: State, p: nat, ino: Inode)
    requires Inv(s) && p < |s.procs| && !Blocked(s, p, false, ino)
    ensures var pc := s.procs[p]; var n := Step(Step(s, Go(p, false, ino)), Go(p, false, ino));
      && (ErrorOf(pc).Some? && (pc.Checking? ==> s.path.Some?) ==>
            n.path == s.path && n.procs == s.procs[p := Failed(ErrorOf(pc).value)] && n.holder != Some(p))
      && (pc.WantLockToClose? ==> n.path == s.path && n.procs == s.procs[p := Closed])
  {
    assert ProcOk(s, p);
    var pc := s.procs[p];
    if pc.WantLock? || pc.WantLockToClose? {
      assert Step(s, Go(p, false, ino)).procs[p] == Next(pc, s.path, false, false, ino);
    }
  }

  /** A stale socket in the way is probed and removed. */
  lemma ClearsStale(s: State, p: nat, ino: Inode)
    requires MayStart(s, p, ino) && s.path.Some?
    ensures Goes(State(s.path, Some(p), s.procs[p := Checking]), p, ino, 8)
         == Goes(State(None, Some(p), s.procs[p := Binding]), p, ino, 5)
  {
    var s1 := State(s.path, Some(p), s.procs[p := Checking]);
    var s2 := State(s.path, Some(p), s.procs[p := Probing]);
    var s3 := State(s.path, Some(p), s.procs[p := Removing(s.path.value.ino)]);
    assert Step(s1, Go(p, true, ino)) == s2;
    assert Step(s2, Go(p, true, ino)) == s3;
    assert Step(s3, Go(p, true, ino)) == State(None, Some(p), s.procs[p := Binding]);
  }

  /** A host that died at any step keeps nobody out: a new one with the lock free and nobody serving
      the path takes it over, whether it finds a socket left behind or nothing. */
  lemma TakesOver(s: State, p: nat, ino: Inode)
    requires MayStart(s, p, ino)
    ensures Goes(s, p, ino, if s.path.None? then 7 else 9)
         == State(Some(File(ino, true)), None, s.procs[p := Serving(ino, ino)])
  {
    var s1 := State(s.path, Some(p), s.procs[p := Checking]);
    assert Step(s, Go(p, true, ino)) == s1;
    var procs := s.procs[p := Binding];
    if s.path.None? {
      assert Step(s1, Go(p, true, ino)) == State(None, Some(p), procs);
      assert Goes(s, p, ino, 7) == Goes(State(None, Some(p), procs), p, ino, 5);
    } else {
      ClearsStale(s, p, ino);
      assert Goes(s, p, ino, 9) == Goes(s1, p, ino, 8);
    }
    assert procs[p := Serving(ino, ino)] == s.procs[p := Serving(ino, ino)];
    FromBinding(procs, p, ino);
  }

  /** What stands at the path and is no socket stays there until something else removes it. */
  lemma {:induction false} OtherFilesStay(file: File, es: seq<Event>)
    requires !file.isSocket && Vanish !in es
    ensures Steps(Some(file), es).path == Some(file)
  {
    if es != [] {
      OtherFilesStay(file, es[..|es| - 1]);
      RunKeeps(Some(file), es[..|es| - 1]);
      var s, e := Steps(Some(file), es[..|es| - 1]), es[|es| - 1];
      if e.Go? && e.p < |s.procs| { assert ProcOk(s, e.p); }
    }
  }

  /** Where a run goes on to from a state. */
  function Onward(s: State, es: seq<Event>): State {
    if es == [] then s else Step(Onward(s, es[..|es| - 1]), es[|es| - 1])
  }

  lemma {:induction false} OnwardAdd(s: State, es: seq<Event>, more: seq<Event>)
    ensures Onward(s, es + more) == Onward(Onward(s, es), more)
    decreases |more|
  {
    if more == [] {
      assert es + more == es;
    } else {
      OnwardAdd(s, es, more[..|more| - 1]);
      assert (es + more)[..|es + more| - 1] == es + more[..|more| - 1];
    }
  }

  lemma {:induction false} StepsOnward(path: Option<File>, es: seq<Event>)
    ensures Steps(path, es) == Onward(State(path, None, []), es)
  {
    if es != [] { StepsOnward(path, es[..|es| - 1]); }
  }

  lemma StepsAdd(path: Option<File>, es: seq<Event>, more: seq<Event>)
    ensures Steps(path, es + more) == Onward(Steps(path, es), more)
  {
    StepsOnward(path, es);
    StepsOnward(path, es + more);
    OnwardAdd(State(path, None, []), es, more);
  }

  lemma OnwardOne(s: State, e: Event)
    ensures Onward(s, [e]) == Step(s, e)
  {
    assert [e][..0] == [];
    assert Onward(s, []) == s;
  }

  /** The same run as events. */
  lemma {:induction false} GoesAsRun(s: State, p: nat, ino: Inode, n: nat) returns (es: seq<Event>)
    ensures Vanish !in es && Onward(s, es) == Goes(s, p, ino, n)
    decreases n
  {
    if n == 0 {
      es := [];
    } else {
      var g := Go(p, true, ino);
      var rest := GoesAsRun(Step(s, g), p, ino, n - 1);
      es := [g] + rest;
      OnwardOne(s, g);
      OnwardAdd(s, [g], rest);
    }
  }

  lemma {:induction false} SomeInodeIsFree(procs: seq<Proc>) returns (ino: Inode)
    ensures forall p :: 0 <= p < |procs| && Open(procs[p]).Some? ==> Open(procs[p]).value < ino
  {
    if procs == [] {
      ino := 0;
    } else {
      ino := SomeInodeIsFree(procs[..|procs| - 1]);
      var last := Open(procs[|procs| - 1]);
      if last.Some? && last.value >= ino { ino := last.value + 1; }
    }
  }

  /** With the file gone, the lock comes free under a listener: whoever holds it dies, or is the
      listener itself on its way out of `Listen`. */
  lemma LockComesFree(s: State, p: nat) returns (es: seq<Event>)
    requires Inv(s) && s.path.None? && p < |s.procs| && Lasting(s.procs[p])
    ensures Vanish !in es
    ensures var n := Onward(s, es); n.path.None? && n.holder.None? && p < |n.procs| && Live(n.procs[p])
  {
    assert ProcOk(s, p);
    if s.procs[p].Starting? {
      es := [Go(p, true, 0)];
      OnwardOne(s, Go(p, true, 0));
    } else if s.holder.Some? {
      assert ProcOk(s, s.holder.value);
      es := [Crash(s.holder.value)];
      OnwardOne(s, Crash(s.holder.value));
    } else {
      es := [];
    }
  }

  /** A new host then finds nothing at the path, and listens beside the one that is there. */
  lemma SecondListens(s: State, p: nat) returns (es: seq<Event>)
    requires s.path.None? && s.holder.None? && p < |s.procs| && Live(s.procs[p])
    ensures Vanish !in es && TwoLive(Onward(s, es))
  {
    var q, n := |s.procs|, Step(s, Start);
    var ino := SomeInodeIsFree(n.procs);
    TakesOver(n, q, ino);
    var rest := GoesAsRun(n, q, ino, 7);
    OnwardOne(s, Start);
    OnwardAdd(s, [Start], rest);
    es := [Start] + rest;
    BesideIt(n, p, q, ino);
  }

  lemma BesideIt(s: State, p: nat, q: nat, ino: Inode)
    requires p < q < |s.procs| && Live(s.procs[p])
    ensures TwoLive(State(Some(File(ino, true)), None, s.procs[q := Serving(ino, ino)]))
  {
    var procs := s.procs[q := Serving(ino, ino)];
    assert Live(procs[p]) && Live(procs[q]);
  }

  /** A removal that strikes a listener's file can end with two of them. */
  lemma RemovalLetsAnotherIn(s: State) returns (es: seq<Event>)
    requires Inv(s) && HasListener(s)
    ensures Vanish !in es && TwoLive(Onward(Step(s, Vanish), es))
  {
    var p: nat :| p < |s.procs| && Lasting(s.procs[p]);
    VanishKeeps(s);
    var gone := Step(s, Vanish);
    var first := LockComesFree(gone, p);
    var rest := SecondListens(Onward(gone, first), p);
    OnwardAdd(gone, first, rest);
    es := first + rest;
  }

  /** No run goes on from a removal of the file to two live listeners, unless by another removal. */
  ghost predicate RemovalIsSafe(path: Option<File>, es: seq<Event>) {
    forall more :: Vanish !in more ==> !TwoLive(Steps(path, es + [Vanish] + more))
  }

  lemma HarmlessOn(path: Option<File>, es: seq<Event>, more: seq<Event>)
    requires Harmless(path, es) && !HasListener(Steps(path, es)) && Vanish !in more
    ensures Harmless(path, es + [Vanish] + more)
  {
    var all := es + [Vanish] + more;
    forall k | |es| < k < |all| ensures !all[k].Vanish? { assert all[k] == more[k - |es| - 1]; }
    forall k | 0 <= k < |all| && all[k].Vanish? ensures !HasListener(Steps(path, all[..k])) {
      if k < |es| {
        assert all[..k] == es[..k] && es[k].Vanish?;
      } else {
        assert all[..k] == es;
      }
    }
  }

  /** A removal from outside is safe if and only if it strikes while no host has the file for its
      listener: a stale file may go, and so may that of a host still inside `Listen` or already in
      `Close`, which gives its socket up before the lock. */
  lemma RemovalIsSafeExactly(path: Option<File>, es: seq<Event>)
    requires Harmless(path, es)
    ensures RemovalIsSafe(path, es) <==> !HasListener(Steps(path, es))
  {
    if HasListener(Steps(path, es)) {
      RunKeeps(path, es);
      var more := RemovalLetsAnotherIn(Steps(path, es));
      OnwardOne(Steps(path, es), Vanish);
      StepsAdd(path, es, [Vanish]);
      StepsAdd(path, es + [Vanish], more);
    } else {
      forall more | Vanish !in more ensures !TwoLive(Steps(path, es + [Vanish] + more)) {
        HarmlessOn(path, es, more);
        StaysOneOpen(path, es + [Vanish] + more);
      }
    }
  }

  lemma Starts(path: Option<File>)
    ensures Steps(path, [Start]) == State(path, None, [WantLock])
  {
    OnwardOne(State(path, None, []), Start);
    StepsAdd(path, [], [Start]);
    assert [] + [Start] == [Start];
  }

  lemma FirstListens() returns (es: seq<Event>)
    ensures HasListener(Steps(None, es))
  {
    Starts(None);
    var s := State(None, None, [WantLock]);
    TakesOver(s, 0, 0);
    var rest := GoesAsRun(s, 0, 0, 7);
    StepsAdd(None, [Start], rest);
    es := [Start] + rest;
    Listens(Goes(s, 0, 0, 7));
  }

  lemma Listens(s: State)
    requires s == State(Some(File(0, true)), None, [Serving(0, 0)])
    ensures HasListener(s)
  {
    assert Lasting(s.procs[0]);
  }

  /** A concrete run: a host listens, its file is removed, and with another two do. */
  lemma RemovalAllowsTwo()
    ensures exists es :: TwoLive(Steps(None, es))
  {
    var es := FirstListens();
    var s := Steps(None, es);
    RunKeeps(None, es);
    var more := RemovalLetsAnotherIn(s);
    OnwardOne(s, Vanish);
    StepsAdd(None, es, [Vanish]);
    StepsAdd(None, es + [Vanish], more);
    assert TwoLive(Steps(None, es + [Vanish] + more));
  }

  lemma FromComparing(s: State, p: nat, ino: Inode)
    requires p < |s.procs| && s.procs[p].Comparing? && s.holder == Some(p)
    ensures var own := s.path.Some? && s.path.value.ino == s.procs[p].ident;
      Goes(s, p, ino, if own then 3 else 2) == State(if own then None else s.path, None, s.procs[p := Closed])
  {
    var ident := s.procs[p].ident;
    var own := s.path.Some? && s.path.value.ino == ident;
    var left := if own then None else s.path;
    var s2 := State(left, Some(p), s.procs[p := Ending]);
    if own {
      var s1 := State(s.path, Some(p), s.procs[p := Unlinking(ident)]);
      assert Step(s, Go(p, true, ino)) == s1;
      assert Step(s1, Go(p, true, ino)) == s2;
      assert Goes(s, p, ino, 3) == Goes(s1, p, ino, 2) == Goes(s2, p, ino, 1);
    } else {
      assert Step(s, Go(p, true, ino)) == s2;
      assert Goes(s, p, ino, 2) == Goes(s2, p, ino, 1);
    }
    assert Step(s2, Go(p, true, ino)) == State(left, None, s.procs[p := Closed]);
  }

  /** A host that closes with the lock free takes away the file it made, and no other. */
  lemma CloseUnlinksOwn(s: State, p: nat, ino: Inode)
    requires p < |s.procs| && s.procs[p].Serving? && s.holder.None?
    ensures var own := s.path.Some? && s.path.value.ino == s.procs[p].ident;
      Goes(s, p, ino, if own then 6 else 5) == State(if own then None else s.path, None, s.procs[p := Closed])
  {
    var i, ident := s.procs[p].ino, s.procs[p].ident;
    var s1 := State(s.path, None, s.procs[p := WantLockToClose(i, ident)]);
    var s2 := State(s.path, Some(p), s.procs[p := Shutting(i, ident)]);
    var s3 := State(s.path, Some(p), s.procs[p := Comparing(ident)]);
    assert Step(s, Go(p, true, ino)) == s1;
    assert Step(s1, Go(p, true, ino)) == s2;
    assert Step(s2, Go(p, true, ino)) == s3;
    var n := if s.path.Some? && s.path.value.ino == ident then 3 else 2;
    assert Goes(s, p, ino, n + 3) == Goes(s1, p, ino, n + 2) == Goes(s2, p, ino, n + 1) == Goes(s3, p, ino, n);
    FromComparing(s3, p, ino);
    assert s3.procs[p := Closed] == s.procs[p := Closed];
  }

  // ----- the code -----

  /** The path, its lock file and the processes; each method is what one process does between two
      system calls, and `ok` whether the call succeeds. */
  class Hosts {
    var path: Option<File>
    var holder: Option<nat>
    var procs: seq<Proc>

    constructor (left: Option<File>)
      ensures View() == State(left, None, []) && Inv(View())
    {
      path, holder, procs := left, None, [];
    }

    function View(): State
      reads this
    {
      State(path, holder, procs)
    }

    /** `acquireSetupLock`, for `Listen` and for `Close`; a `Close` without it shuts its socket and
        leaves the file. */
    method AcquireSetupLock(p: nat, ok: bool)
      requires Inv(View())
      requires p < |procs| && (procs[p].WantLock? || procs[p].WantLockToClose?) && (ok ==> holder.None?)
      modifies `holder, `procs
      ensures View() == Step(old(View()), Go(p, ok, 0)) && Inv(View())
    {
      GoKeeps(View(), p, ok, 0);
      var pc := procs[p];
      if ok {
        holder := Some(p);
        procs := procs[p := if pc.WantLock? then Checking else Shutting(pc.ino, pc.ident)];
      } else {
        procs := procs[p := if pc.WantLock? then Failed(NoLock) else Closed];
      }
    }

    method ReleaseSetupLock(p: nat)
      requires Inv(View())
      requires p < |procs| && (procs[p].Starting? || procs[p].Failing? || procs[p].Ending?)
      modifies `holder, `procs
      ensures View() == Step(old(View()), Go(p, true, 0)) && Inv(View())
    {
      GoKeeps(View(), p, true, 0);
      holder := None;
      match procs[p]
      case Starting(ino, ident) => procs := procs[p := Serving(ino, ident)];
      case Failing(error) => procs := procs[p := Failed(error)];
      case Ending => procs := procs[p := Closed];
    }

    /** `RemoveStale`: nothing there, something else there, or a socket to probe. */
    method StatStale(p: nat, ok: bool)
      requires Inv(View())
      requires p < |procs| && procs[p].Checking?
      modifies `procs
      ensures View() == Step(old(View()), Go(p, ok, 0)) && Inv(View())
    {
      GoKeeps(View(), p, ok, 0);
      if path.None? {
        procs := procs[p := Binding];
      } else if !ok {
        procs := procs[p := Failing(StatFailed)];
      } else if !path.value.isSocket {
        procs := procs[p := Failing(NotSocket)];
      } else {
        procs := procs[p := Probing];
      }
    }

    /** `isServing`: only a refused dial says that nobody listens. */
    method ProbeStale(p: nat, refused: bool)
      requires Inv(View())
      requires p < |procs| && procs[p].Probing?
      requires refused ==> path.Some? && !Served(procs, path.value.ino)
      modifies `procs
      ensures View() == Step(old(View()), Go(p, refused, 0)) && Inv(View())
    {
      GoKeeps(View(), p, refused, 0);
      procs := procs[p := if refused then Removing(path.value.ino) else Failing(AlreadyRunning)];
    }

    method RemoveStale(p: nat, ok: bool)
      requires Inv(View())
      requires p < |procs| && procs[p].Removing?
      modifies `path, `procs
      ensures View() == Step(old(View()), Go(p, ok, 0)) && Inv(View())
    {
      GoKeeps(View(), p, ok, 0);
      procs := procs[p := if ok && path.Some? then Binding else Failing(RemoveFailed)];
      if ok { path := None; }
    }

    method Bind(p: nat, ok: bool, ino: Inode)
      requires Inv(View())
      requires p < |procs| && procs[p].Binding? && !InUse(View(), ino)
      modifies `path, `procs
      ensures View() == Step(old(View()), Go(p, ok, ino)) && Inv(View())
    {
      GoKeeps(View(), p, ok, ino);
      if ok && path.None? {
        path := Some(File(ino, true));
        procs := procs[p := Bound(ino)];
      } else {
        procs := procs[p := Failing(BindFailed)];
      }
    }

    /** The rest of `Listen`: `listen`, `chmod` and `statIdentity`. A failure closes the socket and
        leaves its file to be found stale. */
    method SetUp(p: nat, ok: bool)
      requires Inv(View())
      requires p < |procs| && (procs[p].Bound? || procs[p].Listening? || procs[p].Identifying?)
      modifies `procs
      ensures View() == Step(old(View()), Go(p, ok, 0)) && Inv(View())
    {
      GoKeeps(View(), p, ok, 0);
      match procs[p]
      case Bound(i) => procs := procs[p := if ok then Listening(i) else Failing(BindFailed)];
      case Listening(i) => procs := procs[p := if ok && path.Some? then Identifying(i) else Failing(SetupFailed)];
      case Identifying(i) =>
        procs := procs[p := if ok && path.Some? then Starting(i, path.value.ino) else Failing(SetupFailed)];
    }

    /** `Close` runs once: a process that is past it never comes back here. */
    method Close(p: nat)
      requires Inv(View())
      requires p < |procs| && (procs[p].Serving? || procs[p].Shutting?)
      modifies `procs
      ensures View() == Step(old(View()), Go(p, true, 0)) && Inv(View())
    {
      GoKeeps(View(), p, true, 0);
      var pc := procs[p];
      procs := procs[p := if pc.Serving? then WantLockToClose(pc.ino, pc.ident) else Comparing(pc.ident)];
    }

    method UnlinkOwn(p: nat, ok: bool)
      requires Inv(View())
      requires p < |procs| && (procs[p].Comparing? || procs[p].Unlinking?)
      modifies `path, `procs
      ensures View() == Step(old(View()), Go(p, ok, 0)) && Inv(View())
    {
      GoKeeps(View(), p, ok, 0);
      var pc := procs[p];
      if pc.Comparing? {
        procs := procs[p := if ok && path.Some? && path.value.ino == pc.ident then Unlinking(pc.ident) else Ending];
      } else {
        if ok { path := None; }
        procs := procs[p := Ending];
      }
    }
  }
}
