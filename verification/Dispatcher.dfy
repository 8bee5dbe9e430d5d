/**
 The objects behind the two machines of Preamble and Pool: `Dispatcher` of
 extension/src/dispatch.ts with its three memos, its lock, the session and the attachments.
 A method down to `Listen` is one stretch of code between two awaits, and its contract is the step
 of the machine it takes. The methods of the event loop run a stretch and promise the invariant of
 the machine as well; `React` takes any event, and `Live` any run of them.
 */
module Dispatching {
  import opened Base
  import opened Tabs
  import opened Preamble
  import Pool
  import L = Lock
  import M = Memo

  class Dispatcher {
    const preamble: M.RestoreMemo
    const sessionMemo: M.RestoreMemo
    const attachedMemo: M.RestoreMemo
    const lock: L.StateLock
    const session: Session
    const attached: AttachedTabs

    var preEpochs: seq<nat>
    var attempts: seq<Attempt>
    var sesEpochs: seq<nat>
    var sesRuns: seq<SPhase>
    var attEpochs: seq<nat>
    var attRuns: seq<TPhase>
    var restores: Option<nat>
    var cmds: seq<Cmd>
    var swept: bool
    var objects: nat
    var runs: map<nat, Pool.Run>

    constructor ()
      ensures Valid() && fresh(Footprint())
      ensures View() == Pool.START && Sound()
    {
      preamble := new M.RestoreMemo();
      sessionMemo := new M.RestoreMemo();
      attachedMemo := new M.RestoreMemo();
      lock := new L.StateLock();
      session := new Session();
      attached := new AttachedTabs();
      preEpochs, attempts, sesEpochs, sesRuns, attEpochs, attRuns := [], [], [], [], [], [];
      restores, cmds, swept, objects, runs := None, [], false, 0, map[];
      new;
      Pool.RunKeeps([]);
    }

    ghost function Footprint(): set<object>
    {
      {this, preamble, sessionMemo, attachedMemo, lock, session, attached}
    }

    ghost predicate Valid()
      reads this
    {
      && preamble != sessionMemo && preamble != attachedMemo && sessionMemo != attachedMemo
      && |preEpochs| == |attempts| && |sesEpochs| == |sesRuns| && |attEpochs| == |attRuns|
    }

    function Mem(): Tabs.Mem
      reads this, session, attached
    {
      session.View(attached.entries, objects)
    }

    function View(): Pool.State
      reads Footprint()
    {
      Pool.State(
        Preamble.Core(M.Layer(preamble.View(), preEpochs, attempts),
             M.Layer(sessionMemo.View(), sesEpochs, sesRuns),
             M.Layer(attachedMemo.View(), attEpochs, attRuns),
             restores, cmds, Mem(), swept),
        lock.View(), runs)
    }

    function Core(): Preamble.Core
      reads Footprint()
    {
      View().core
    }

    // ----- extension/src/dispatch.ts -----

    method RestoreSession(tracked: bool) returns (r: nat)
      requires Valid()
      modifies this`sesEpochs, this`sesRuns, sessionMemo
      ensures Valid()
      ensures View() == old(View()).(core := Preamble.RestoreSession(old(Core()), tracked))
      ensures r == old(Core()).ses.Shared()
    {
      var started;
      r, started := sessionMemo.Run(|sesRuns|, tracked);
      if started {
        sesEpochs := sesEpochs + [sessionMemo.generation];
        sesRuns := sesRuns + [if session.state.Some? then Read else AtStorage];
      }
    }

    method Handle()
      requires Valid()
      modifies Footprint()
      ensures Valid()
      ensures View() == old(View()).(core := Preamble.Handle(old(Core())))
    {
      var a, started := preamble.Run(|attempts|, true);
      if started {
        var r := RestoreSession(true);
        preEpochs := preEpochs + [preamble.generation];
        attempts := attempts + [Attempt(AtSession, r, 0)];
        restores := Some(a);
      }
      cmds := cmds + [Cmd(a, Some(a), false, false, true, Waiting)];
    }

    method Deadline(i: nat)
      requires Valid() && i < |cmds|
      modifies this`cmds
      ensures Valid() && View() == old(View()).(core := Preamble.Deadline(old(Core()), i))
    {
      cmds := cmds[i := cmds[i].(expired := true)];
    }

    /** `abandonPreamble`, reached once per command whose deadline answered for it. */
    method AbandonPreamble(i: nat)
      requires Valid() && i < |cmds| && cmds[i].expired && !cmds[i].gaveUp
      modifies Footprint()
      ensures Valid() && View() == old(View()).(core := GiveUp(old(Core()), i))
    {
      var attempt := cmds[i].preamble;
      var counts := attempt.Some? && preamble.promise == attempt;
      cmds := cmds[i := cmds[i].(gaveUp := true, counted := cmds[i].counted && !counts)];
      if attempt.None? {
        return;
      }
      var abandoned := preamble.Abandon(attempt.value);
      if !abandoned || restores.None? || restores.value >= |attempts| {
        return;
      }
      var record := attempts[restores.value];
      if record.phase.AtSession? {
        var _ := sessionMemo.Abandon(record.session);
      } else if record.phase.AtAttached? {
        var _ := attachedMemo.Abandon(record.attached);
      }
    }

    method SettleAttempt(a: nat, p: APhase)
      requires Valid() && a < |attempts|
      modifies this`attempts, preamble
      ensures Valid()
      ensures View() == old(View()).(core := if p.AFailed? then AFail(old(Core()), a) else AAt(old(Core()), a, p))
    {
      attempts := attempts[a := attempts[a].(phase := p)];
      if p.AFailed? {
        preamble.Evict(a);
      }
    }

    /** `restores.attached = attached.restore()`. */
    method StartAttached(a: nat)
      requires Valid() && a < |attempts|
      modifies this`attempts, this`attEpochs, this`attRuns, attachedMemo
      ensures Valid() && View() == old(View()).(core := Preamble.StartAttached(old(Core()), a))
    {
      var t, started := attachedMemo.Run(|attRuns|, true);
      if started {
        attEpochs := attEpochs + [attachedMemo.generation];
        attRuns := attRuns + [AtItems];
      }
      attempts := attempts[a := attempts[a].(phase := AtAttached, attached := t)];
    }

    /** `prepareOnce` once the session restore it awaits settled. */
    method AfterSession(a: nat, ans: Answer)
      requires Valid() && a < |attempts| && attempts[a].phase.AtSession?
      requires attempts[a].session < |sesRuns| && sesRuns[attempts[a].session].Settled()
      modifies this`attempts, preamble, this`attEpochs, this`attRuns, attachedMemo
      ensures Valid() && View() == old(View()).(core := ResumeAttempt(old(Core()), a, ans))
    {
      if sesRuns[attempts[a].session].SFailed? {
        SettleAttempt(a, AFailed);
      } else if preEpochs[a] != preamble.generation {
        SettleAttempt(a, AStale);
      } else {
        StartAttached(a);
      }
    }

    /** `prepareOnce` once the restore of the attachments settled: the pool drop starts here. */
    method AfterAttached(a: nat, ans: Answer)
      requires Valid() && a < |attempts| && attempts[a].phase.AtAttached?
      requires attempts[a].attached < |attRuns| && attRuns[attempts[a].attached].Settled()
      modifies this`attempts, preamble, attached
      ensures Valid() && View() == old(View()).(core := ResumeAttempt(old(Core()), a, ans))
    {
      if attRuns[attempts[a].attached].TFailed? {
        SettleAttempt(a, AFailed);
      } else if preEpochs[a] != preamble.generation {
        SettleAttempt(a, AStale);
      } else {
        var changed := attached.DropPoolTabs(Mem());
        SettleAttempt(a, AtDrop(changed));
      }
    }

    /** `prepareOnce` after a write of `dropPoolTabs`. */
    method AfterDrop(a: nat, ans: Answer)
      requires Valid() && a < |attempts| && (attempts[a].phase.AtDrop? || attempts[a].phase.AtDropAgain?)
      modifies this`attempts, preamble
      ensures Valid() && View() == old(View()).(core := ResumeAttempt(old(Core()), a, ans))
    {
      var wrote := attempts[a].phase.AtDropAgain? || attempts[a].phase.writes;
      if wrote && ans.Fails? {
        SettleAttempt(a, AFailed);
      } else if wrote && attempts[a].phase.AtDrop? && preEpochs[a] != preamble.generation {
        SettleAttempt(a, AtDropAgain);
      } else {
        SettleAttempt(a, ADone);
      }
    }

    /** `run` after its preamble settled: the failure and deadline checks, then the lock. */
    method Run(i: nat, plan: Pool.Plan)
      requires Valid() && CanContinue(Core(), i)
      modifies Footprint()
      ensures Valid() && View() == Pool.Pass(old(View()), i, plan)
    {
      var cmd := cmds[i];
      if cmd.expired || attempts[cmd.joined].phase.AFailed? {
        cmds := cmds[i := cmd.(preamble := None, stage := Over)];
        return;
      }
      cmds := cmds[i := cmd.(preamble := None, stage := Passed)];
      if !plan.Free? {
        var ticket := lock.Acquire();
        runs := runs[i := Pool.Run(plan, ticket, Pool.Queued)];
      }
    }

    // ----- extension/src/session.ts -----

    method AssignState(r: nat, saved: Saved, kept: seq<TabId>)
      requires Valid() && r < |sesRuns| && Core().ses.Current(r)
      modifies this`sesRuns, this`objects, session
      ensures Valid()
      ensures View() == old(View()).(core := old(Core()).(
        ses := old(Core()).ses.At(r, AfterTrim(saved, kept, true)), mem := Assigned(old(Core()).mem, saved, kept)))
    {
      if |kept| > MAX_TABS {
        sesRuns := sesRuns[r := AtTrim(saved, kept[1..])];
        return;
      }
      session.state := Some(SessionState(objects, saved.windowId, kept, false, saved.adopted));
      objects := objects + 1;
      session.activeTabId := if |kept| > 0 then Some(kept[|kept| - 1]) else None;
      sesRuns := sesRuns[r := AtPersist];
    }

    method RejectSession(r: nat)
      requires Valid() && r < |sesRuns|
      modifies this`sesRuns, sessionMemo
      ensures Valid()
      ensures View() == old(View()).(core := old(Core()).(ses := old(Core()).ses.Fail(r, SFailed)))
    {
      sesRuns := sesRuns[r := SFailed];
      sessionMemo.Evict(r);
    }

    method SessionAt(r: nat, p: SPhase)
      requires Valid() && r < |sesRuns|
      modifies this`sesRuns
      ensures Valid() && View() == old(View()).(core := old(Core()).(ses := old(Core()).ses.At(r, p)))
    {
      sesRuns := sesRuns[r := p];
    }

    /** `readStoredState` once storage.get answered. */
    method AfterStorage(r: nat, ans: Answer)
      requires Valid() && r < |sesRuns| && sesRuns[r].AtStorage?
      modifies this`sesRuns, sessionMemo
      ensures Valid() && View() == old(View()).(core := ResumeSession(old(Core()), r, ans))
    {
      if ans.Fails? {
        RejectSession(r);
      } else if ans.Item? {
        var usable := sesEpochs[r] == sessionMemo.generation && ans.saved.Some?;
        SessionAt(r, if usable then AtWindow(ans.saved.value) else Read);
      } else {
        SessionAt(r, AtStorage);
      }
    }

    /** `readStoredState` once windows.get answered, or a tab of the eviction loop closed. */
    method AfterWindow(r: nat, ans: Answer)
      requires Valid() && r < |sesRuns|
      requires (sesRuns[r].AtWindow? && ans.Window?) || (sesRuns[r].AtTrim? && ans.Done?)
      modifies this`sesRuns, this`objects, session
      ensures Valid() && View() == old(View()).(core := ResumeSession(old(Core()), r, ans))
    {
      if sesEpochs[r] != sessionMemo.generation {
        SessionAt(r, Read);
      } else if sesRuns[r].AtTrim? {
        AssignState(r, sesRuns[r].saved, sesRuns[r].kept);
      } else if ans.live.None? {
        session.Clear();
        SessionAt(r, AtClear);
      } else {
        AssignState(r, sesRuns[r].saved, Restored(sesRuns[r].saved, ans.live.value));
      }
    }

    /** `readStoredState` after a write of the cleared or the restored state. */
    method AfterWrite(r: nat, ans: Answer)
      requires Valid() && r < |sesRuns|
      requires sesRuns[r].AtClear? || sesRuns[r].AtPersist?
      modifies this`sesRuns, sessionMemo
      ensures Valid() && View() == old(View()).(core := ResumeSession(old(Core()), r, ans))
    {
      if ans.Fails? {
        RejectSession(r);
      } else if sesEpochs[r] == sessionMemo.generation {
        SessionAt(r, Read);
      } else {
        SessionAt(r, if sesRuns[r].AtClear? then AtClearAgain else AtPersistAgain);
      }
    }

    /** The write a stale restore adds, so that what is stored is what is in memory. */
    method AfterSecondWrite(r: nat, ans: Answer)
      requires Valid() && r < |sesRuns| && (sesRuns[r].AtClearAgain? || sesRuns[r].AtPersistAgain?)
      modifies this`sesRuns, sessionMemo
      ensures Valid() && View() == old(View()).(core := ResumeSession(old(Core()), r, ans))
    {
      if ans.Fails? {
        RejectSession(r);
      } else {
        SessionAt(r, Read);
      }
    }

    /** `restoreOnce` once the stored state is read: the fence, then the sweep. */
    method AfterRead(r: nat, ans: Answer)
      requires Valid() && r < |sesRuns| && sesRuns[r].Read?
      modifies this`sesRuns, this`swept
      ensures Valid() && View() == old(View()).(core := ResumeSession(old(Core()), r, ans))
    {
      if sesEpochs[r] != sessionMemo.generation {
        SessionAt(r, SStale);
      } else {
        swept := true;
        SessionAt(r, AtSweep);
      }
    }

    // ----- extension/src/attached.ts -----

    method RejectAttached(t: nat)
      requires Valid() && t < |attRuns|
      modifies this`attRuns, attachedMemo
      ensures Valid()
      ensures View() == old(View()).(core := old(Core()).(att := old(Core()).att.Fail(t, TFailed)))
    {
      attRuns := attRuns[t := TFailed];
      attachedMemo.Evict(t);
    }

    method AttachedAt(t: nat, p: TPhase)
      requires Valid() && t < |attRuns|
      modifies this`attRuns
      ensures Valid() && View() == old(View()).(core := old(Core()).(att := old(Core()).att.At(t, p)))
    {
      attRuns := attRuns[t := p];
    }

    /** `readStored` once storage.get answered, or one of its writes did. */
    method AfterItems(t: nat, ans: Answer)
      requires Valid() && t < |attRuns| && !attRuns[t].AtTab? && !attRuns[t].Settled()
      modifies this`attRuns, attachedMemo
      ensures Valid() && View() == old(View()).(core := ResumeAttached(old(Core()), t, ans))
    {
      var isCurrent := attEpochs[t] == attachedMemo.generation;
      if ans.Fails? {
        RejectAttached(t);
      } else if attRuns[t].AtWrite? {
        AttachedAt(t, if isCurrent then TDone else AtWriteAgain);
      } else if attRuns[t].AtWriteAgain? {
        AttachedAt(t, TStale);
      } else if ans.Items? && ans.ids != [] {
        AttachedAt(t, AtTab(ans.ids));
      } else if ans.Items? {
        AttachedAt(t, if isCurrent then AtWrite else TStale);
      } else {
        AttachedAt(t, AtItems);
      }
    }

    /** `readStored` once tabs.get told whether the next stored tab still exists. */
    method AfterTab(t: nat, ans: Answer)
      requires Valid() && t < |attRuns| && attRuns[t].AtTab? && attRuns[t].rest != [] && ans.Found?
      modifies this`attRuns, attached
      ensures Valid() && View() == old(View()).(core := ResumeAttached(old(Core()), t, ans))
    {
      var rest := attRuns[t].rest;
      if attEpochs[t] != attachedMemo.generation {
        AttachedAt(t, TStale);
        return;
      }
      if ans.yes {
        attached.Add(rest[0]);
      }
      AttachedAt(t, if rest[1..] != [] then AtTab(rest[1..]) else AtWrite);
    }

    // ----- extension/src/handlers/window.ts, tabs.ts, attached.ts -----

    method MoveTo(i: nat, p: Pool.HPhase)
      requires i in runs
      modifies this`runs
      ensures View() == Pool.Move(old(View()), i, p)
    {
      runs := runs[i := runs[i].(phase := p)];
    }

    method Release(i: nat)
      requires i in runs
      modifies this`runs, lock
      ensures View() == Pool.Release(old(View()), i)
    {
      lock.Release(runs[i].ticket);
      MoveTo(i, Pool.Left);
    }

    method SetTabs(tabs: seq<TabId>)
      requires session.state.Some?
      modifies session`state
      ensures View() == Pool.WithMem(old(View()), old(Mem()).WithTabs(tabs))
    {
      session.state := Some(session.state.value.(tabs := tabs));
    }

    /** The first stretch of a handler, once the lock let the command in. */
    method Enter(i: nat)
      requires Valid() && i in runs && runs[i].phase.Queued? && lock.View().Open(runs[i].ticket) && i < |cmds|
      modifies Footprint()
      ensures Valid() && View() == Pool.Enter(old(View()), i)
    {
      if cmds[i].expired {
        Release(i);
        return;
      }
      match runs[i].plan
      case Create =>
        MoveTo(i, if session.state.None? then Pool.Opening else Pool.CheckingWindow);
      case CloseTab(t) =>
        if t in attached.entries {
          var _ := attached.Forget(t);
          MoveTo(i, Pool.Leaving);
        } else if session.state.None? || t !in session.state.value.tabs {
          MoveTo(i, Pool.Leaving);
        } else {
          SetTabs(Without(session.state.value.tabs, t));
          MoveTo(i, Pool.Closing(session.state.value.ident, t));
        }
      case CloseWindow =>
        if session.state.Some? { session.Clear(); }
        MoveTo(i, Pool.Leaving);
      case Attach(t) =>
        MoveTo(i, if session.state.Some? && t in session.state.value.tabs then Pool.Leaving else Pool.Attaching(t));
      case Detach(t) =>
        var _ := attached.Forget(t);
        MoveTo(i, Pool.Leaving);
      case Free => MoveTo(i, Pool.Leaving);
    }

    method AddOrOpen(i: nat, mismatch: bool)
      requires Valid() && i in runs
      modifies Footprint()
      ensures Valid()
      ensures var (m, p) := Pool.AddOrOpen(old(Mem()), mismatch);
        View() == Pool.Move(Pool.WithMem(old(View()), m), i, p)
    {
      if session.state.None? {
        MoveTo(i, Pool.Opening);
      } else if mismatch {
        MoveTo(i, Pool.Leaving);
      } else if |session.state.value.tabs| >= MAX_TABS {
        SetTabs(session.state.value.tabs[1..]);
        MoveTo(i, Pool.Evicting(session.state.value.ident));
      } else {
        MoveTo(i, Pool.Creating(session.state.value.ident));
      }
    }

    /** `createWindow` once the window of the session was looked up: it is there, or it is gone. */
    method WindowChecked(i: nat, ok: bool, mismatch: bool)
      requires Valid() && i in runs && runs[i].phase == Pool.CheckingWindow
      modifies Footprint()
      ensures Valid() && View() == Pool.Resume(old(View()), i, ok, mismatch)
    {
      if ok {
        AddOrOpen(i, mismatch);
      } else {
        session.Clear();
        MoveTo(i, Pool.Clearing);
      }
    }

    /** The tail of `addPoolTab`. */
    method RecordTab(i: nat, o: nat, t: nat)
      requires Valid() && i in runs && runs[i].phase == Pool.Created(o, t)
      modifies Footprint()
      ensures Valid() && View() == Pool.Resume(old(View()), i, true, false)
    {
      if session.state.Some? && session.state.value.ident == o {
        SetTabs(session.state.value.tabs + [t]);
      }
      session.activeTabId := Some(t);
      MoveTo(i, Pool.Leaving);
    }

    /** The tail of `openSession`. */
    method RecordSession(i: nat, w: nat, t: nat, isPrivate: bool, adopted: bool)
      requires Valid() && i in runs && runs[i].phase == Pool.Opened(w, t, isPrivate, adopted)
      modifies Footprint()
      ensures Valid() && View() == Pool.Resume(old(View()), i, true, false)
    {
      session.state := Some(SessionState(objects, w, [t], isPrivate, adopted));
      objects := objects + 1;
      session.activeTabId := Some(t);
      MoveTo(i, Pool.Leaving);
    }

    /** `repointActiveTab`. */
    method Repoint(i: nat, o: nat, t: nat)
      requires Valid() && i in runs && runs[i].phase == Pool.Closing(o, t)
      modifies Footprint()
      ensures Valid() && View() == Pool.Resume(old(View()), i, true, false)
    {
      if session.state.Some? && session.state.value.ident == o && session.activeTabId == Some(t) {
        session.activeTabId := Last(session.state.value.tabs);
      }
      MoveTo(i, Pool.Leaving);
    }

    /** `createWindow` after one of its awaits. */
    method ResumeCreate(i: nat, ok: bool, mismatch: bool)
      requires Valid() && i in runs
      requires var p := runs[i].phase; p.Clearing? || p.Evicting? || p.Creating? || p.Opening?
      modifies Footprint()
      ensures Valid() && View() == Pool.Resume(old(View()), i, ok, mismatch)
    {
      var p := runs[i].phase;
      if p.Evicting? {
        MoveTo(i, Pool.Creating(p.ident));
      } else if p.Clearing? && ok {
        AddOrOpen(i, mismatch);
      } else {
        MoveTo(i, if ok then p else Pool.Leaving);
      }
    }

    /** `attachTab` once tabs.get answered. */
    method ResumeAttach(i: nat, t: TabId, ok: bool)
      requires Valid() && i in runs && runs[i].phase == Pool.Attaching(t)
      modifies Footprint()
      ensures Valid() && View() == Pool.Resume(old(View()), i, ok, false)
    {
      if ok {
        attached.Add(t);
      }
      MoveTo(i, Pool.Leaving);
    }

    /** A handler after one of its awaits. */
    method Resume(i: nat, ok: bool, mismatch: bool)
      requires Valid() && i in runs && Pool.Holding(runs[i])
      modifies Footprint()
      ensures Valid() && View() == Pool.Resume(old(View()), i, ok, mismatch)
    {
      match runs[i].phase
      case CheckingWindow => WindowChecked(i, ok, mismatch);
      case Clearing => ResumeCreate(i, ok, mismatch);
      case Evicting(_) => ResumeCreate(i, ok, mismatch);
      case Creating(_) => ResumeCreate(i, ok, mismatch);
      case Created(o, t) => RecordTab(i, o, t);
      case Opening => ResumeCreate(i, ok, mismatch);
      case Opened(w, t, isPrivate, adopted) => RecordSession(i, w, t, isPrivate, adopted);
      case Closing(o, t) => Repoint(i, o, t);
      case Attaching(t) => ResumeAttach(i, t, ok);
      case Leaving => Release(i);
    }

    /** Firefox makes the tab or the window a handler asked for. */
    method TabMade(i: nat, w: nat, t: TabId, isPrivate: bool, adopted: bool)
      modifies this`runs
      ensures View() == Pool.MakeTab(old(View()), i, w, t, isPrivate, adopted)
    {
      if i !in runs || (session.state.Some? && t in session.state.value.tabs) || t in attached.entries {
        return;
      }
      if runs[i].phase.Creating? {
        MoveTo(i, Pool.Created(runs[i].phase.ident, t));
      } else if runs[i].phase.Opening? {
        MoveTo(i, Pool.Opened(w, t, isPrivate, adopted));
      }
    }

    // ----- extension/src/session.ts, attached.ts: the listeners -----

    method Listen(e: Pool.Event)
      requires Pool.Listens(e)
      modifies session, attached
      ensures View() == Pool.Step(old(View()), e)
    {
      match e {
        case WindowGone(w) => session.OnWindowRemoved(w);
        case TabGone(t) => session.OnTabRemoved(t);
        case AttachedGone(t) => var _ := attached.Forget(t);
        case TabChosen(w, t) => session.OnTabActivated(w, t);
        case SessionLost => session.Clear();
      }
    }

    // ----- the event loop -----

    /** What holds between any two stretches of code. */
    ghost predicate Sound()
      reads Footprint()
    {
      Valid() && Pool.PoolInv(View())
    }

    /** A message of a client: its command joins the attempt of the preamble, or starts one. */
    method OnMessage()
      requires Sound()
      modifies Footprint()
      ensures Sound() && View() == Pool.Step(old(View()), Pool.Preparing(Handling))
    {
      ghost var was := View();
      Handle();
      Pool.PreambleKeeps(was, Handling);
    }

    /** The background page restores the session on its own at startup. */
    method OnStartup()
      requires Sound()
      modifies Footprint()
      ensures Sound() && View() == Pool.Step(old(View()), Pool.Preparing(WarmUp))
    {
      ghost var was := View();
      var _ := RestoreSession(false);
      Pool.PreambleKeeps(was, WarmUp);
    }

    method OnDeadline(i: nat)
      requires Sound()
      modifies Footprint()
      ensures Sound() && View() == Pool.Step(old(View()), Pool.Preparing(Expiring(i)))
    {
      ghost var was := View();
      if i < |cmds| { Deadline(i); }
      Pool.PreambleKeeps(was, Expiring(i));
    }

    method ContinueGiveUp(i: nat)
      requires Valid()
      modifies Footprint()
      ensures Valid() && View() == Pool.Step(old(View()), Pool.Preparing(GivingUp(i)))
    {
      if i < |cmds| && cmds[i].expired && !cmds[i].gaveUp { AbandonPreamble(i); }
    }

    method OnGiveUp(i: nat)
      requires Sound()
      modifies Footprint()
      ensures Sound() && View() == Pool.Step(old(View()), Pool.Preparing(GivingUp(i)))
    {
      ghost var was := View();
      ContinueGiveUp(i);
      Pool.StepKeeps(was, Pool.Preparing(GivingUp(i)));
    }

    /** A session restore resumes; an answer it does not wait for is none. */
    method ContinueSession(r: nat, ans: Answer)
      requires Valid()
      modifies Footprint()
      ensures Valid() && View() == old(View()).(core := ResumeSession(old(Core()), r, ans))
    {
      if r >= |sesRuns| { return; }
      match sesRuns[r]
      case AtStorage => AfterStorage(r, ans);
      case AtWindow(_) => if ans.Window? { AfterWindow(r, ans); }
      case AtTrim(_, _) => if ans.Done? { AfterWindow(r, ans); }
      case Read => AfterRead(r, ans);
      case AtSweep => SessionAt(r, SDone);
      case AtClear => AfterWrite(r, ans);
      case AtPersist => AfterWrite(r, ans);
      case AtClearAgain => AfterSecondWrite(r, ans);
      case AtPersistAgain => AfterSecondWrite(r, ans);
      case _ =>
    }

    method OnSessionAnswer(r: nat, ans: Answer)
      requires Sound()
      modifies Footprint()
      ensures Sound() && View() == Pool.Step(old(View()), Pool.Preparing(SessionStep(r, ans)))
    {
      ghost var was := View();
      ContinueSession(r, ans);
      Pool.PreambleKeeps(was, SessionStep(r, ans));
    }

    /** A restore of the attachments resumes. */
    method ContinueAttached(t: nat, ans: Answer)
      requires Valid()
      modifies Footprint()
      ensures Valid() && View() == old(View()).(core := ResumeAttached(old(Core()), t, ans))
    {
      if t >= |attRuns| || attRuns[t].Settled() { return; }
      if attRuns[t].AtTab? {
        if attRuns[t].rest != [] && ans.Found? { AfterTab(t, ans); }
      } else {
        AfterItems(t, ans);
      }
    }

    method OnAttachedAnswer(t: nat, ans: Answer)
      requires Sound()
      modifies Footprint()
      ensures Sound() && View() == Pool.Step(old(View()), Pool.Preparing(AttachedStep(t, ans)))
    {
      ghost var was := View();
      ContinueAttached(t, ans);
      Pool.PreambleKeeps(was, AttachedStep(t, ans));
    }

    /** An attempt of the preamble resumes once what it awaits settled. */
    method ContinueAttempt(a: nat, ans: Answer)
      requires Valid()
      modifies Footprint()
      ensures Valid() && View() == old(View()).(core := ResumeAttempt(old(Core()), a, ans))
    {
      if a >= |attempts| { return; }
      var run := attempts[a];
      if run.phase.AtSession? {
        if run.session < |sesRuns| && sesRuns[run.session].Settled() { AfterSession(a, ans); }
      } else if run.phase.AtAttached? {
        if run.attached < |attRuns| && attRuns[run.attached].Settled() { AfterAttached(a, ans); }
      } else if !run.phase.Settled() {
        AfterDrop(a, ans);
      }
    }

    method OnAttemptAnswer(a: nat, ans: Answer)
      requires Sound()
      modifies Footprint()
      ensures Sound() && View() == Pool.Step(old(View()), Pool.Preparing(AttemptStep(a, ans)))
    {
      ghost var was := View();
      ContinueAttempt(a, ans);
      Pool.PreambleKeeps(was, AttemptStep(a, ans));
    }

    /** A command goes past `prepare`: only on a finished preamble, and with pool and attachments apart. */
    method OnPrepared(i: nat, plan: Pool.Plan)
      requires Sound()
      modifies Footprint()
      ensures Sound() && View() == Pool.Step(old(View()), Pool.Passing(i, plan))
      ensures i < |cmds| && cmds[i].stage == Passed ==> Prepared(Core(), cmds[i].joined) && Disjoint(Mem())
    {
      ghost var was := View();
      if i < |cmds| && cmds[i].stage == Waiting
        && cmds[i].joined < |attempts| && attempts[cmds[i].joined].phase.Settled()
      {
        Run(i, plan);
      }
      Pool.PassKeeps(was, i, plan);
      if i < |cmds| && cmds[i].stage == Passed {
        Pool.PassedMeansPrepared(View(), i);
      }
    }

    /** The lock opens for a command: nobody else is inside, and an expired one goes no further. */
    method OnLock(i: nat)
      requires Sound()
      modifies Footprint()
      ensures Sound() && View() == Pool.Step(old(View()), Pool.Entering(i))
      ensures i in runs && Pool.Holding(runs[i]) ==> forall j :: j in runs && j != i ==> !Pool.Holding(runs[j])
    {
      ghost var was := View();
      if i in runs && i < |cmds| && runs[i].phase.Queued? && lock.IsOpen(runs[i].ticket) { Enter(i); }
      Pool.EnterKeeps(was, i);
      Pool.HoldsAlone(View(), i);
    }

    /** The handler of a command resumes: no more than MAX_TABS tabs, none of them attached. */
    method OnAnswer(i: nat, ok: bool, mismatch: bool)
      requires Sound()
      modifies Footprint()
      ensures Sound() && View() == Pool.Step(old(View()), Pool.Answered(i, ok, mismatch))
      ensures i in runs ==> Bounded(Mem()) && Disjoint(Mem())
    {
      ghost var was := View();
      if i in runs && Pool.Holding(runs[i]) { Resume(i, ok, mismatch); }
      Pool.ResumeKeeps(was, i, ok, mismatch);
      if i in runs { Pool.PassedMeansDropped(View(), i); }
    }

    method OnNewTab(i: nat, w: nat, t: TabId, isPrivate: bool, adopted: bool)
      requires Sound()
      modifies Footprint()
      ensures Sound() && View() == Pool.Step(old(View()), Pool.NewTab(i, w, t, isPrivate, adopted))
    {
      ghost var was := View();
      TabMade(i, w, t, isPrivate, adopted);
      Pool.MakeTabKeeps(was, i, w, t, isPrivate, adopted);
    }

    /** A tab or window event reaches the listener that the session or the attachments put on it. */
    method OnTabEvent(e: Pool.Event)
      requires Sound() && Pool.Listens(e)
      modifies Footprint()
      ensures Sound() && View() == Pool.Step(old(View()), e)
    {
      ghost var was := View();
      Listen(e);
      Pool.ListenerKeeps(was, e);
    }

    /** Whatever happens next, the objects take the machine's step and keep what it keeps. */
    method React(e: Pool.Event)
      requires Sound()
      modifies Footprint()
      ensures Sound() && View() == Pool.Step(old(View()), e)
    {
      match e
      case Preparing(p) =>
        match p {
          case Handling => OnMessage();
          case WarmUp => OnStartup();
          case SessionStep(r, ans) => OnSessionAnswer(r, ans);
          case AttachedStep(t, ans) => OnAttachedAnswer(t, ans);
          case AttemptStep(a, ans) => OnAttemptAnswer(a, ans);
          case Continuing(_) =>
          case Expiring(i) => OnDeadline(i);
          case GivingUp(i) => OnGiveUp(i);
        }
      case Passing(i, plan) => OnPrepared(i, plan);
      case Entering(i) => OnLock(i);
      case Answered(i, ok, mismatch) => OnAnswer(i, ok, mismatch);
      case NewTab(i, w, t, isPrivate, adopted) => OnNewTab(i, w, t, isPrivate, adopted);
      case _ => OnTabEvent(e);
    }
  }

  /** The objects over a whole run, whatever the events are and however they interleave: where the
      machine of Pool is after it, so every lemma about its runs is one about the objects. */
  method Live(es: seq<Pool.Event>) returns (d: Dispatcher)
    ensures fresh(d.Footprint()) && d.Sound() && d.View() == Pool.Steps(es)
    ensures |d.Mem().Pool()| <= MAX_TABS
    ensures forall i :: 0 <= i < |d.cmds| && d.cmds[i].stage == Passed ==>
      Prepared(d.Core(), d.cmds[i].joined) && Disjoint(d.Mem())
  {
    d := new Dispatcher();
    for k := 0 to |es|
      invariant fresh(d.Footprint()) && d.Sound() && d.View() == Pool.Steps(es[..k])
    {
      assert es[..k + 1][..k] == es[..k];
      d.React(es[k]);
    }
    assert es[..|es|] == es;
    AllPrepared(d.View());
  }

  lemma AllPrepared(s: Pool.State)
    requires Pool.PoolInv(s)
    ensures forall i :: 0 <= i < |s.core.cmds| && s.core.cmds[i].stage == Passed ==>
      Prepared(s.core, s.core.cmds[i].joined) && Disjoint(s.core.mem)
  {
    forall i | 0 <= i < |s.core.cmds| && s.core.cmds[i].stage == Passed
      ensures Prepared(s.core, s.core.cmds[i].joined) && Disjoint(s.core.mem)
    {
      Pool.PassedMeansPrepared(s, i);
    }
  }
}
