/**
 What the restores bring back (extension/src/attached.ts `readStored`, session.ts `readStoredState`), in
 runs of the whole machine: which ids the attachments hold, and which tabs a restored session has. What a
 restore read and what Firefox answered it is taken from the events of the run.
 */
module Restores {
  import opened Base
  import opened Tabs
  import opened Preamble
  import opened Pool
  import opened Handlers
  import M = Memo

  // ----- attachments -----

  /** The answer that a stored tab exists reaches a restore in its epoch. */
  predicate Finds(s: State, e: Pool.Event, t: nat, id: TabId) {
    && e == Preparing(AttachedStep(t, Found(true)))
    && t < |s.core.att.runs| && s.core.att.Current(t)
    && s.core.att.runs[t].AtTab? && s.core.att.runs[t].rest != [] && s.core.att.runs[t].rest[0] == id
  }

  /** attachTab gets the answer that its tab exists. */
  predicate Attaches(s: State, e: Pool.Event, id: TabId) {
    e.Answered? && e.ok && Inside(s, e.i) && s.runs[e.i].phase == Attaching(id)
  }

  predicate Puts(s: State, e: Pool.Event, id: TabId) {
    (e.Preparing? && e.e.AttachedStep? && Finds(s, e, e.e.t, id)) || Attaches(s, e, id)
  }

  /** An attempt in its epoch has both restores behind it and drops the pool tabs. */
  predicate Drops(c: Core, e: Preamble.Event) {
    && e.AttemptStep? && e.a < |c.pre.runs| && c.pre.Current(e.a)
    && var run := c.pre.runs[e.a];
    run.phase.AtAttached? && run.attached < |c.att.runs|
      && (c.att.runs[run.attached].TDone? || c.att.runs[run.attached].TStale?)
  }

  /** The tab closes, closeTab or detachTab names it, or it is of the pool when the pool tabs are dropped. */
  predicate TakesOut(s: State, e: Pool.Event, id: TabId) {
    match e
    case AttachedGone(t) => t == id
    case Entering(i) => MayEnter(s, i) && (s.runs[i].plan == Detach(id) || s.runs[i].plan == CloseTab(id))
    case Preparing(p) => Drops(s.core, p) && id in s.core.mem.Pool()
    case _ => false
  }

  lemma AttachedStepTells(c: Core, t: nat, ans: Answer, id: TabId)
    ensures id in ResumeAttached(c, t, ans).mem.entries <==>
      || id in c.mem.entries
      || (&& ans == Found(true) && t < |c.att.runs| && c.att.Current(t)
          && c.att.runs[t].AtTab? && c.att.runs[t].rest != [] && c.att.runs[t].rest[0] == id)
  {
  }

  lemma AttemptStepTells(c: Core, a: nat, ans: Answer, id: TabId)
    requires Preamble.Inv(c)
    ensures id in ResumeAttempt(c, a, ans).mem.entries <==>
      id in c.mem.entries && !(Drops(c, AttemptStep(a, ans)) && id in c.mem.Pool())
  {
  }

  lemma SessionStepTells(c: Core, r: nat, ans: Answer)
    ensures ResumeSession(c, r, ans).mem.entries == c.mem.entries
  {
  }

  lemma BeginTells(m: Mem, plan: Plan, id: TabId)
    ensures id in Begin(m, plan).0.entries <==> id in m.entries && plan != Detach(id) && plan != CloseTab(id)
  {
  }

  lemma OnwardTells(m: Mem, p: HPhase, ok: bool, mismatch: bool, id: TabId)
    ensures id in Onward(m, p, ok, mismatch).0.entries <==> id in m.entries || (ok && p == Attaching(id))
  {
  }

  lemma PreambleTells(s: State, e: Preamble.Event, id: TabId)
    requires PoolInv(s)
    ensures var n := Pool.Step(s, Preparing(e)); id in n.core.mem.entries <==>
      Puts(s, Preparing(e), id) || (id in s.core.mem.entries && !TakesOut(s, Preparing(e), id))
  {
    match e
    case SessionStep(r, ans) => SessionStepTells(s.core, r, ans);
    case AttachedStep(t, ans) => AttachedStepTells(s.core, t, ans, id);
    case AttemptStep(a, ans) => AttemptStepTells(s.core, a, ans, id);
    case GivingUp(i) => GiveUpMoves(s.core, i);
    case _ =>
  }

  lemma EntryTells(s: State, i: nat, id: TabId)
    requires PoolInv(s)
    ensures id in Pool.Step(s, Entering(i)).core.mem.entries <==>
      id in s.core.mem.entries && !TakesOut(s, Entering(i), id)
  {
    if MayEnter(s, i) {
      Enters(s, i);
      BeginTells(s.core.mem, s.runs[i].plan, id);
    } else {
      NotEntering(s, i);
    }
  }

  lemma AnswerTells(s: State, i: nat, ok: bool, mismatch: bool, id: TabId)
    requires PoolInv(s)
    ensures var e := Answered(i, ok, mismatch);
      id in Pool.Step(s, e).core.mem.entries <==> id in s.core.mem.entries || Attaches(s, e, id)
  {
    if Inside(s, i) {
      OwnStep(s, Answered(i, ok, mismatch), i);
      if !s.runs[i].phase.Leaving? { OnwardTells(s.core.mem, s.runs[i].phase, ok, mismatch, id); }
    }
  }

  /** One step: an id is attached if this step puts it there, or it was and this step does not take it out. */
  lemma EntryStep(s: State, e: Pool.Event, id: TabId)
    requires PoolInv(s)
    ensures id in Pool.Step(s, e).core.mem.entries
      <==> Puts(s, e, id) || (id in s.core.mem.entries && !TakesOut(s, e, id))
  {
    match e
    case Preparing(p) => PreambleTells(s, p, id);
    case Entering(i) => EntryTells(s, i, id);
    case Answered(i, ok, mismatch) => AnswerTells(s, i, ok, mismatch, id);
    case Passing(i, plan) => ContinueMoves(s, i);
    case NewTab(i, w, t, isPrivate, adopted) =>
    case _ => ListenersTell(s, e);
  }

  /** Step `j` of the run puts the id there, and none since takes it out. */
  ghost predicate PutAt(es: seq<Pool.Event>, j: nat, id: TabId) {
    && j < |es| && Puts(Pool.Steps(es[..j]), es[j], id)
    && forall k :: j < k < |es| ==> !TakesOut(Pool.Steps(es[..k]), es[k], id)
  }

  ghost predicate StillPut(es: seq<Pool.Event>, id: TabId) {
    exists j: nat :: PutAt(es, j, id)
  }

  lemma Prefixes(es: seq<Pool.Event>, e: Pool.Event, k: nat)
    requires k <= |es|
    ensures (es + [e])[..k] == es[..k]
  {
  }

  lemma StillPutNext(es: seq<Pool.Event>, e: Pool.Event, id: TabId)
    ensures StillPut(es + [e], id) <==>
      Puts(Pool.Steps(es), e, id) || (StillPut(es, id) && !TakesOut(Pool.Steps(es), e, id))
  {
    var all := es + [e];
    forall k | 0 <= k <= |es| ensures all[..k] == es[..k] { Prefixes(es, e, k); }
    assert es[..|es|] == es;
    if Puts(Pool.Steps(es), e, id) {
      assert PutAt(all, |es|, id);
    }
    if StillPut(es, id) && !TakesOut(Pool.Steps(es), e, id) {
      var j: nat :| PutAt(es, j, id);
      assert PutAt(all, j, id);
    }
    if StillPut(all, id) {
      var j: nat :| PutAt(all, j, id);
      if j < |es| {
        assert all[|es|] == e;
        assert PutAt(es, j, id);
      }
    }
  }

  /** In every run the attachments are exactly the ids that a restore in its epoch found to exist, or
      attachTab did, and that nothing took out since. */
  lemma {:induction false} EntriesAreThosePut(es: seq<Pool.Event>, id: TabId)
    ensures id in Pool.Steps(es).core.mem.entries <==> StillPut(es, id)
  {
    if es != [] {
      var before, e := es[..|es| - 1], es[|es| - 1];
      assert es == before + [e];
      EntriesAreThosePut(before, id);
      Pool.RunKeeps(before);
      EntryStep(Pool.Steps(before), e, id);
      StillPutNext(before, e, id);
    }
  }

  // ----- what one restore of the attachments read -----

  /** The stored ids, and what was found of them so far. */
  datatype Scan = Scan(stored: Option<seq<TabId>>, found: seq<bool>)

  function Scanned(l: Scan, phase: TPhase, ans: Answer): Scan {
    if phase.AtItems? && ans.Items? then Scan(Some(ans.ids), [])
    else if phase.AtTab? && ans.Found? then l.(found := l.found + [ans.yes])
    else l
  }

  predicate AsksAttached(s: State, e: Pool.Event, t: nat) {
    e.Preparing? && e.e.AttachedStep? && e.e.t == t && t < |s.core.att.runs|
  }

  /** The answers restore `t` got while it waited for them. */
  function ScanOf(es: seq<Pool.Event>, t: nat): Scan {
    if es == [] then Scan(None, [])
    else
      var before, e := es[..|es| - 1], es[|es| - 1];
      ScanThen(Pool.Steps(before), e, t, ScanOf(before, t))
  }

  function ScanThen(s: State, e: Pool.Event, t: nat, l: Scan): Scan {
    if AsksAttached(s, e, t) then Scanned(l, s.core.att.runs[t], e.e.ans) else l
  }

  /** The ids read and found to exist. */
  function FoundOf(l: Scan): set<TabId> {
    if l.stored.None? then {} else set k | 0 <= k < |l.found| && k < |l.stored.value| && l.found[k] :: l.stored.value[k]
  }

  /** What restore `t` put among the attachments. */
  function PutBy(es: seq<Pool.Event>, t: nat): set<TabId> {
    if es == [] then {}
    else
      var before, e := es[..|es| - 1], es[|es| - 1];
      PutThen(Pool.Steps(before), e, t, PutBy(before, t))
  }

  function PutThen(s: State, e: Pool.Event, t: nat, put: set<TabId>): set<TabId> {
    if AsksAttached(s, e, t) then put + Added(s.core.att.runs[t], e.e.ans, s.core.att.Current(t)) else put
  }

  /** Where the restore is against what it read and put. */
  predicate ScanAt(phase: TPhase, l: Scan, put: set<TabId>) {
    && (if l.stored.Some? then |l.found| <= |l.stored.value| else l.found == [])
    && put <= FoundOf(l)
    && (!phase.TStale? && !phase.TFailed? ==> put == FoundOf(l))
    && match phase
       case AtItems => l == Scan(None, [])
       case AtTab(rest) => l.stored.Some? && rest != [] && rest == l.stored.value[|l.found|..]
       case AtWrite => l.stored.Some? && |l.found| == |l.stored.value|
       case AtWriteAgain => l.stored.Some? && |l.found| == |l.stored.value|
       case TDone => l.stored.Some? && |l.found| == |l.stored.value|
       case _ => true
  }

  function Added(phase: TPhase, ans: Answer, current: bool): set<TabId> {
    if current && phase.AtTab? && phase.rest != [] && ans == Found(true) then {phase.rest[0]} else {}
  }

  lemma FoundOneMore(l: Scan, yes: bool)
    requires l.stored.Some? && |l.found| < |l.stored.value|
    ensures FoundOf(l.(found := l.found + [yes])) == FoundOf(l) + if yes then {l.stored.value[|l.found|]} else {}
  {
    var n, x := l.(found := l.found + [yes]), l.stored.value[|l.found|];
    forall id | id in FoundOf(n) ensures id in FoundOf(l) || (yes && id == x) {
      var k :| 0 <= k < |n.found| && n.found[k] && n.stored.value[k] == id;
      assert k < |l.found| ==> l.found[k];
    }
    forall id | id in FoundOf(l) ensures id in FoundOf(n) {
      var k :| 0 <= k < |l.found| && l.found[k] && l.stored.value[k] == id;
      assert n.found[k];
    }
    if yes { assert n.found[|l.found|]; }
  }

  lemma ScanStep(phase: TPhase, ans: Answer, current: bool, l: Scan, put: set<TabId>)
    requires ScanAt(phase, l, put)
    ensures ScanAt(TNext(phase, ans, current), Scanned(l, phase, ans), put + Added(phase, ans, current))
  {
    if phase.AtTab? && ans.Found? {
      FoundOneMore(l, ans.yes);
      assert phase.rest[1..] == l.stored.value[|l.found| + 1..];
    }
  }

  /** Restore `t` moves only by its own steps, and starts with nothing read. */
  lemma AttachedStays(c: Core, e: Preamble.Event, t: nat)
    requires Preamble.Inv(c) && !(e.AttachedStep? && e.t == t)
    ensures var n := Preamble.Step(c, e);
      && (t < |c.att.runs| ==> t < |n.att.runs| && n.att.runs[t] == c.att.runs[t])
      && (|c.att.runs| <= t < |n.att.runs| ==> n.att.runs[t] == AtItems)
  {
  }

  predicate ScanIs(runs: seq<TPhase>, t: nat, l: Scan, put: set<TabId>) {
    if t < |runs| then ScanAt(runs[t], l, put) else l == Scan(None, []) && put == {}
  }

  lemma RestoresStay(s: State, e: Pool.Event)
    requires !e.Preparing?
    ensures var n := Pool.Step(s, e).core; n.att == s.core.att && n.ses == s.core.ses
  {
    match e
    case Passing(i, plan) => PassStays(s, i, plan);
    case Entering(i) => EnterStays(s, i);
    case Answered(i, ok, mismatch) => ResumeStays(s, i, ok, mismatch);
    case _ =>
  }

  lemma PassStays(s: State, i: nat, plan: Plan)
    ensures var n := Pass(s, i, plan).core; n.att == s.core.att && n.ses == s.core.ses
  {
  }

  lemma EnterStays(s: State, i: nat)
    ensures var n := Pool.Enter(s, i).core; n.att == s.core.att && n.ses == s.core.ses
  {
  }

  lemma ResumeStays(s: State, i: nat, ok: bool, mismatch: bool)
    ensures var n := Pool.Resume(s, i, ok, mismatch).core; n.att == s.core.att && n.ses == s.core.ses
  {
  }

  lemma NextScan(s: State, e: Pool.Event, t: nat, l: Scan, put: set<TabId>)
    requires PoolInv(s) && ScanIs(s.core.att.runs, t, l, put)
    ensures ScanIs(Pool.Step(s, e).core.att.runs, t, ScanThen(s, e, t, l), PutThen(s, e, t, put))
  {
    if AsksAttached(s, e, t) {
      ScanStep(s.core.att.runs[t], e.e.ans, s.core.att.Current(t), l, put);
      AskedMoves(s.core, t, e.e.ans);
    } else {
      NotAsked(s, e, t);
    }
  }

  lemma {:induction false} ScansTell(es: seq<Pool.Event>, t: nat)
    ensures ScanIs(Pool.Steps(es).core.att.runs, t, ScanOf(es, t), PutBy(es, t))
  {
    if es != [] {
      var before := es[..|es| - 1];
      ScansTell(before, t);
      Pool.RunKeeps(before);
      NextScan(Pool.Steps(before), es[|es| - 1], t, ScanOf(before, t), PutBy(before, t));
    }
  }

  lemma NotAsked(s: State, e: Pool.Event, t: nat)
    requires PoolInv(s) && !AsksAttached(s, e, t)
    ensures var (runs, now) := (s.core.att.runs, Pool.Step(s, e).core.att.runs);
      && (t < |runs| ==> t < |now| && now[t] == runs[t])
      && (|runs| <= t < |now| ==> now[t] == AtItems)
  {
    if e.Preparing? {
      if !e.e.Continuing? { OthersStay(s, e.e, t); }
    } else {
      RestoresStay(s, e);
    }
  }

  lemma OthersStay(s: State, e: Preamble.Event, t: nat)
    requires PoolInv(s) && !AsksAttached(s, Preparing(e), t)
    ensures var (c, n) := (s.core, Preamble.Step(s.core, e));
      && (t < |c.att.runs| ==> t < |n.att.runs| && n.att.runs[t] == c.att.runs[t])
      && (|c.att.runs| <= t < |n.att.runs| ==> n.att.runs[t] == AtItems)
  {
    if !(e.AttachedStep? && e.t == t) { AttachedStays(s.core, e, t); }
  }

  lemma AskedMoves(c: Core, t: nat, ans: Answer)
    requires t < |c.att.runs|
    ensures var n := ResumeAttached(c, t, ans).att;
      t < |n.runs| && n.runs[t] == TNext(c.att.runs[t], ans, c.att.Current(t))
  {
  }

  /** A restore that finished read the stored ids, looked every one of them up and put among the
      attachments exactly those whose tab it was told exists: in order of lookup, the k-th answer is
      about the k-th stored id. */
  lemma {:induction false} AttachedRestoreIsExact(es: seq<Pool.Event>, t: nat)
    requires var runs := Pool.Steps(es).core.att.runs; t < |runs| && runs[t].TDone?
    ensures var l := ScanOf(es, t);
      && l.stored.Some? && |l.found| == |l.stored.value|
      && PutBy(es, t) == set k | 0 <= k < |l.found| && l.found[k] :: l.stored.value[k]
  {
    ScansTell(es, t);
    FoundWhenRead(ScanOf(es, t));
  }

  lemma FoundWhenRead(l: Scan)
    requires l.stored.Some? && |l.found| == |l.stored.value|
    ensures FoundOf(l) == set k | 0 <= k < |l.found| && l.found[k] :: l.stored.value[k]
  {
  }

  /** What a restore put there was put there by one of its steps. */
  lemma {:induction false} PutIsPut(es: seq<Pool.Event>, t: nat, id: TabId)
    requires id in PutBy(es, t)
    ensures exists j: nat :: j < |es| && Finds(Pool.Steps(es[..j]), es[j], t, id)
  {
    var before, e := es[..|es| - 1], es[|es| - 1];
    if id in PutBy(before, t) {
      PutIsPut(before, t, id);
      var j: nat :| j < |before| && Finds(Pool.Steps(before[..j]), before[j], t, id);
      assert before[..j] == es[..j] && es[j] == before[j];
    } else {
      assert es[..|before|] == before && Finds(Pool.Steps(before), e, t, id);
    }
  }

  /** And it stays until something takes it out. */
  lemma {:induction false} PutStays(es: seq<Pool.Event>, j: nat, id: TabId)
    requires j < |es| && Puts(Pool.Steps(es[..j]), es[j], id)
    ensures id in Pool.Steps(es).core.mem.entries
      || exists k: nat :: j < k < |es| && TakesOut(Pool.Steps(es[..k]), es[k], id)
  {
    EntriesAreThosePut(es, id);
    if forall k: nat :: j < k < |es| ==> !TakesOut(Pool.Steps(es[..k]), es[k], id) {
      assert PutAt(es, j, id);
    }
  }

  // ----- what a restore of the session read -----

  /** The stored session, whether its window was looked up, and the tabs it was found to have. */
  datatype Sight = Sight(saved: Option<Saved>, looked: bool, live: Option<seq<TabId>>)

  const NOTHING := Sight(None, false, None)

  predicate AsksSession(s: State, e: Pool.Event, r: nat) {
    e.Preparing? && e.e.SessionStep? && e.e.r == r && r < |s.core.ses.runs|
  }

  function Seen(l: Sight, phase: SPhase, ans: Answer): Sight {
    if phase.AtStorage? && ans.Item? then Sight(ans.saved, false, None)
    else if phase.AtWindow? && ans.Window? then l.(looked := true, live := ans.live)
    else l
  }

  /** The answers restore `r` got while it waited for them. */
  function SightOf(es: seq<Pool.Event>, r: nat): Sight {
    if es == [] then NOTHING else SightThen(Pool.Steps(es[..|es| - 1]), es[|es| - 1], r, SightOf(es[..|es| - 1], r))
  }

  function SightThen(s: State, e: Pool.Event, r: nat, l: Sight): Sight {
    if AsksSession(s, e, r) then Seen(l, s.core.ses.runs[r], e.e.ans) else l
  }

  /** The pool of the session that restore `r` opened, if it did. */
  function OpenedBy(es: seq<Pool.Event>, r: nat): Option<seq<TabId>> {
    if es == [] then None else OpenedThen(Pool.Steps(es[..|es| - 1]), es[|es| - 1], r, OpenedBy(es[..|es| - 1], r))
  }

  function OpenedThen(s: State, e: Pool.Event, r: nat, made: Option<seq<TabId>>): Option<seq<TabId>> {
    if AsksSession(s, e, r) && RestoreMove(s.core, r, e.e.ans).Opens?
    then Some(RestoreMove(s.core, r, e.e.ans).tabs) else made
  }

  function LastOf(tabs: seq<TabId>, n: nat): seq<TabId> {
    if |tabs| <= n then tabs else tabs[|tabs| - n..]
  }

  /** The tabs a session comes back with: of those stored that its window still has, and the strays of a
      window of its own, the last MAX_TABS. */
  function Back(l: Sight): seq<TabId>
    requires l.saved.Some? && l.live.Some?
  {
    LastOf(Restored(l.saved.value, l.live.value), MAX_TABS)
  }

  predicate SawAll(l: Sight) {
    l.saved.Some? && l.live.Some?
  }

  /** Where the restore is against what it read and opened. */
  predicate SightAt(phase: SPhase, current: bool, l: Sight, made: Option<seq<TabId>>) {
    && (made.Some? ==> SawAll(l) && made.value == Back(l))
    && match phase
       case AtStorage => l == NOTHING && made.None?
       case AtWindow(saved) => l == Sight(Some(saved), false, None) && made.None?
       case AtClear => l.looked && l.live.None? && made.None?
       case AtClearAgain => l.looked && l.live.None? && made.None?
       case AtTrim(saved, kept) =>
         && l.saved == Some(saved) && l.looked && l.live.Some? && made.None?
         && var whole := Restored(saved, l.live.value);
         MAX_TABS <= |kept| < |whole| && kept == whole[|whole| - |kept|..]
       case AtPersist => l.looked && made.Some?
       case AtPersistAgain => l.looked && made.Some?
       case SStale => true
       case SFailed => true
       case _ => current && l.saved.Some? ==> l.looked && (l.live.Some? ==> made.Some?)
  }

  lemma TrimmedOnce(all: seq<TabId>, kept: seq<TabId>)
    requires 0 < |kept| <= |all| && kept == all[|all| - |kept|..]
    ensures kept[1..] == all[|all| - |kept[1..]|..]
  {
  }

  /** One answer to the restore, in its epoch or out of it. */
  lemma SightStep(c: Core, r: nat, ans: Answer, l: Sight, made: Option<seq<TabId>>)
    requires r < |c.ses.runs| && SightAt(c.ses.runs[r], c.ses.Current(r), l, made)
    ensures var move := RestoreMove(c, r, ans);
      SightAt(SNext(c.ses.runs[r], ans, c.ses.Current(r)), c.ses.Current(r), Seen(l, c.ses.runs[r], ans),
        if move.Opens? then Some(move.tabs) else made)
  {
    match c.ses.runs[r]
    case AtWindow(saved) => WindowStep(c, r, ans, l, made);
    case AtTrim(saved, kept) => TrimStep(c, r, ans, l, made);
    case _ =>
  }

  lemma WindowStep(c: Core, r: nat, ans: Answer, l: Sight, made: Option<seq<TabId>>)
    requires r < |c.ses.runs| && c.ses.runs[r].AtWindow? && SightAt(c.ses.runs[r], c.ses.Current(r), l, made)
    ensures var move := RestoreMove(c, r, ans);
      SightAt(SNext(c.ses.runs[r], ans, c.ses.Current(r)), c.ses.Current(r), Seen(l, c.ses.runs[r], ans),
        if move.Opens? then Some(move.tabs) else made)
  {
    if ans.Window? && ans.live.Some? {
      var all := Restored(c.ses.runs[r].saved, ans.live.value);
      if |all| > MAX_TABS { TrimmedOnce(all, all); }
    }
  }

  lemma TrimStep(c: Core, r: nat, ans: Answer, l: Sight, made: Option<seq<TabId>>)
    requires r < |c.ses.runs| && c.ses.runs[r].AtTrim? && SightAt(c.ses.runs[r], c.ses.Current(r), l, made)
    ensures var move := RestoreMove(c, r, ans);
      SightAt(SNext(c.ses.runs[r], ans, c.ses.Current(r)), c.ses.Current(r), l,
        if move.Opens? then Some(move.tabs) else made)
  {
    var kept := c.ses.runs[r].kept;
    if |kept| > MAX_TABS { TrimmedOnce(Restored(c.ses.runs[r].saved, l.live.value), kept); }
  }

  /** An epoch that is over stays over, and a restore moves only by its own steps. */
  lemma SessionStays(c: Core, e: Preamble.Event, r: nat)
    requires Preamble.Inv(c) && !(e.SessionStep? && e.r == r)
    ensures var n := Preamble.Step(c, e);
      && (r < |c.ses.runs| ==>
            r < |n.ses.runs| && n.ses.runs[r] == c.ses.runs[r] && (n.ses.Current(r) ==> c.ses.Current(r)))
      && (|c.ses.runs| <= r < |n.ses.runs| ==> n.ses.runs[r] == AtStorage || n.ses.runs[r] == Read)
  {
    match e
    case GivingUp(i) => GivenUpSessions(c, i, r);
    case SessionStep(q, ans) => OtherSessionSteps(c, q, ans, r);
    case AttemptStep(a, ans) => AttemptKeepsSessions(c, a, ans);
    case _ =>
  }

  lemma AttemptKeepsSessions(c: Core, a: nat, ans: Answer)
    ensures ResumeAttempt(c, a, ans).ses == c.ses
  {
  }

  lemma OtherSessionSteps(c: Core, q: nat, ans: Answer, r: nat)
    requires Preamble.Inv(c) && q != r
    ensures var n := ResumeSession(c, q, ans);
      && |n.ses.runs| == |c.ses.runs|
      && (r < |c.ses.runs| ==> n.ses.runs[r] == c.ses.runs[r] && (n.ses.Current(r) ==> c.ses.Current(r)))
  {
  }

  lemma GivenUpSessions(c: Core, i: nat, r: nat)
    requires Preamble.Inv(c)
    ensures var n := GiveUp(c, i);
      n.ses.runs == c.ses.runs && (n.ses.Current(r) ==> c.ses.Current(r))
  {
  }

  lemma AskedSession(c: Core, r: nat, ans: Answer)
    requires Preamble.Inv(c) && r < |c.ses.runs|
    ensures var n := ResumeSession(c, r, ans);
      && r < |n.ses.runs| && n.ses.runs[r] == SNext(c.ses.runs[r], ans, c.ses.Current(r))
      && (n.ses.Current(r) ==> c.ses.Current(r))
  {
  }

  predicate SightIs(ses: M.Layer<SPhase>, r: nat, l: Sight, made: Option<seq<TabId>>) {
    if r < |ses.runs| then SightAt(ses.runs[r], ses.Current(r), l, made) else l == NOTHING && made.None?
  }

  lemma NextSight(s: State, e: Pool.Event, r: nat, l: Sight, made: Option<seq<TabId>>)
    requires PoolInv(s) && SightIs(s.core.ses, r, l, made)
    ensures SightIs(Pool.Step(s, e).core.ses, r, SightThen(s, e, r, l), OpenedThen(s, e, r, made))
  {
    if AsksSession(s, e, r) {
      SightStep(s.core, r, e.e.ans, l, made);
      AskedSession(s.core, r, e.e.ans);
    } else if e.Preparing? {
      if !e.e.Continuing? { SessionNotAsked(s, e.e, r); }
    } else {
      RestoresStay(s, e);
    }
  }

  lemma SessionNotAsked(s: State, e: Preamble.Event, r: nat)
    requires PoolInv(s) && !AsksSession(s, Preparing(e), r)
    ensures var (c, n) := (s.core, Preamble.Step(s.core, e));
      && (r < |c.ses.runs| ==>
            r < |n.ses.runs| && n.ses.runs[r] == c.ses.runs[r] && (n.ses.Current(r) ==> c.ses.Current(r)))
      && (|c.ses.runs| <= r < |n.ses.runs| ==> n.ses.runs[r] == AtStorage || n.ses.runs[r] == Read)
  {
    if !(e.SessionStep? && e.r == r) { SessionStays(s.core, e, r); }
  }

  lemma {:induction false} SightsTell(es: seq<Pool.Event>, r: nat)
    ensures SightIs(Pool.Steps(es).core.ses, r, SightOf(es, r), OpenedBy(es, r))
  {
    if es != [] {
      var before := es[..|es| - 1];
      SightsTell(before, r);
      Pool.RunKeeps(before);
      NextSight(Pool.Steps(before), es[|es| - 1], r, SightOf(before, r), OpenedBy(before, r));
    }
  }

  /** A restore that is done in its epoch looked up the window of every session it found stored and, if it
      is there, opened a session of the last MAX_TABS of the tabs that come back, in order; no restore opens
      any other. */
  lemma {:induction false} SessionRestoreIsExact(es: seq<Pool.Event>, r: nat)
    ensures BackExactly(Pool.Steps(es).core.ses, r, SightOf(es, r), OpenedBy(es, r))
  {
    SightsTell(es, r);
    SightSays(Pool.Steps(es).core.ses, r, SightOf(es, r), OpenedBy(es, r));
  }

  predicate BackExactly(ses: M.Layer<SPhase>, r: nat, l: Sight, made: Option<seq<TabId>>) {
    && (made.Some? ==> SawAll(l) && made.value == Back(l))
    && (r < |ses.runs| && ses.runs[r].SDone? && ses.Current(r) && l.saved.Some? ==>
          l.looked && (l.live.Some? ==> made == Some(Back(l))))
  }

  lemma SightSays(ses: M.Layer<SPhase>, r: nat, l: Sight, made: Option<seq<TabId>>)
    requires SightIs(ses, r, l, made)
    ensures BackExactly(ses, r, l, made)
  {
  }

  /** The step at which it opens it: from then on memory holds the stored window, the tabs that come back
      and the last of them as the active one. */
  lemma {:induction false} RestoredSessionIsHeld(es: seq<Pool.Event>, r: nat, ans: Answer)
    requires r < |Pool.Steps(es).core.ses.runs| && RestoreMove(Pool.Steps(es).core, r, ans).Opens?
    ensures var m := Pool.Steps(es).core.mem; var all := es + [Preparing(SessionStep(r, ans))];
      && SawAll(SightOf(all, r))
      && var (saved, tabs) := (SightOf(all, r).saved.value, Back(SightOf(all, r)));
      Pool.Steps(all).core.mem
        == Mem(Some(SessionState(m.objects, saved.windowId, tabs, false, saved.adopted)), Last(tabs), m.entries,
          m.objects + 1)
  {
    var e := Preparing(SessionStep(r, ans));
    var s := Pool.Steps(es);
    assert (es + [e])[..|es|] == es;
    SightsTell(es, r);
    SightStep(s.core, r, ans, SightOf(es, r), OpenedBy(es, r));
    OpensInMemory(s.core, r, ans, SightOf(es, r), OpenedBy(es, r));
  }

  lemma OpensInMemory(c: Core, r: nat, ans: Answer, l: Sight, made: Option<seq<TabId>>)
    requires r < |c.ses.runs| && RestoreMove(c, r, ans).Opens? && SightAt(c.ses.runs[r], c.ses.Current(r), l, made)
    ensures var saved := Seen(l, c.ses.runs[r], ans).saved; var tabs := RestoreMove(c, r, ans).tabs;
      && saved.Some?
      && ResumeSession(c, r, ans).mem
           == Mem(Some(SessionState(c.mem.objects, saved.value.windowId, tabs, false, saved.value.adopted)),
                  Last(tabs), c.mem.entries, c.mem.objects + 1)
  {
  }

  /** So a command past `prepare` has both behind it: the stored attachments looked up one by one, and the
      stored session, if its window was found, back in memory at some step. */
  lemma {:induction false} PassedCommandsFindThemRestored(es: seq<Pool.Event>, i: nat)
    requires var c := Pool.Steps(es).core; i < |c.cmds| && c.cmds[i].stage == Passed
    ensures var c := Pool.Steps(es).core;
      && c.cmds[i].joined < |c.pre.runs|
      && var run := c.pre.runs[c.cmds[i].joined];
      && (var l := ScanOf(es, run.attached);
          && l.stored.Some? && |l.found| == |l.stored.value|
          && PutBy(es, run.attached) == set k | 0 <= k < |l.found| && l.found[k] :: l.stored.value[k])
      && BackExactly(c.ses, run.session, SightOf(es, run.session), OpenedBy(es, run.session))
      && run.session < |c.ses.runs| && c.ses.runs[run.session].SDone? && c.ses.Current(run.session)
  {
    Pool.RunKeeps(es);
    PassedMeansPrepared(Pool.Steps(es), i);
    var c := Pool.Steps(es).core;
    AttachedRestoreIsExact(es, c.pre.runs[c.cmds[i].joined].attached);
    SessionRestoreIsExact(es, c.pre.runs[c.cmds[i].joined].session);
  }
}
