/**
 What the background page holds in memory about tabs: the managed session
 (extension/src/session.ts) and the attached user tabs (extension/src/attached.ts).
 */
module Tabs {
  import opened Base

  type TabId = nat

  const MAX_TABS := 12

  /** `ident` tells one session object from another: handlers keep references across awaits. */
  datatype SessionState = SessionState(ident: nat, windowId: nat, tabs: seq<TabId>, isPrivate: bool, adopted: bool)

  /** The part of a stored session that a restore reads back. */
  datatype Saved = Saved(windowId: nat, tabs: seq<TabId>, adopted: bool)

  datatype Mem = Mem(state: Option<SessionState>, active: Option<TabId>, entries: set<TabId>, objects: nat) {
    function Pool(): seq<TabId> {
      if state.Some? then state.value.tabs else []
    }

    function WithTabs(tabs: seq<TabId>): Mem {
      if state.Some? then this.(state := Some(state.value.(tabs := tabs))) else this
    }

    /** The object a handler captured is still the session. */
    predicate Holds(ident: nat) {
      state.Some? && state.value.ident == ident
    }

    function Open(windowId: nat, tabs: seq<TabId>, isPrivate: bool, adopted: bool, focus: Option<TabId>): Mem {
      Mem(Some(SessionState(objects, windowId, tabs, isPrivate, adopted)), focus, entries, objects + 1)
    }

    function Cleared(): Mem {
      this.(state := None, active := None)
    }
  }

  const EMPTY := Mem(None, None, {}, 0)

  // ----- arrays -----

  function IndexOf(tabs: seq<TabId>, t: TabId): (i: int)
    ensures -1 <= i < |tabs|
    ensures i >= 0 ==> tabs[i] == t && t !in tabs[..i]
    ensures i < 0 <==> t !in tabs
  {
    if tabs == [] then -1
    else if tabs[0] == t then 0
    else
      var rest := IndexOf(tabs[1..], t);
      assert t in tabs[1..] <==> t in tabs;
      if rest < 0 then -1
      else
        assert tabs[..rest + 1] == [tabs[0]] + tabs[1..][..rest];
        rest + 1
  }

  /** `splice(indexOf(t), 1)`, guarded by `indexOf(t) >= 0`. */
  function Without(tabs: seq<TabId>, t: TabId): (r: seq<TabId>)
    ensures |r| == if t in tabs then |tabs| - 1 else |tabs|
    ensures forall x :: x in r ==> x in tabs
    ensures forall x :: x in tabs && x != t ==> x in r
  {
    var i := IndexOf(tabs, t);
    if i < 0 then tabs
    else
      var r := tabs[..i] + tabs[i + 1..];
      assert forall x :: x in tabs && x != t ==> x in tabs[..i] || x in tabs[i + 1..] by {
        assert tabs == tabs[..i] + [tabs[i]] + tabs[i + 1..];
      }
      r
  }

  function Last(tabs: seq<TabId>): Option<TabId> {
    if tabs == [] then None else Some(tabs[|tabs| - 1])
  }

  function Keep(tabs: seq<TabId>, live: seq<TabId>): (r: seq<TabId>)
    ensures forall x :: x in r <==> x in tabs && x in live
    ensures |r| <= |tabs|
  {
    if tabs == [] then []
    else (if tabs[0] in live then [tabs[0]] else []) + Keep(tabs[1..], live)
  }

  /** Strays of a dedicated window join the pool in window order. */
  function Absorb(tabs: seq<TabId>, live: seq<TabId>): (r: seq<TabId>)
    ensures forall x :: x in r <==> x in tabs || x in live
    decreases |live|
  {
    if live == [] then tabs
    else Absorb(if live[0] in tabs then tabs else tabs + [live[0]], live[1..])
  }

  function Restored(saved: Saved, live: seq<TabId>): (r: seq<TabId>)
    ensures saved.adopted ==> forall x :: x in r ==> x in saved.tabs
    ensures forall x :: x in r ==> x in live
    ensures !saved.adopted ==> forall x :: x in live ==> x in r
  {
    var kept := Keep(saved.tabs, live);
    if saved.adopted then kept else Absorb(kept, live)
  }

  /** `a` is what is left of `b` when some of it goes. */
  predicate Sub(a: seq<TabId>, b: seq<TabId>) {
    if a == [] then true
    else if b == [] then false
    else if a[0] == b[0] then Sub(a[1..], b[1..])
    else Sub(a, b[1..])
  }

  lemma {:induction false} KeepInOrder(tabs: seq<TabId>, live: seq<TabId>)
    ensures Sub(Keep(tabs, live), tabs)
  {
    if tabs != [] {
      KeepInOrder(tabs[1..], live);
      var rest := Keep(tabs[1..], live);
      if tabs[0] in live {
        assert ([tabs[0]] + rest)[1..] == rest;
      } else {
        assert [] + rest == rest;
      }
    }
  }

  /** The tabs of a window that are not among these, each once. */
  function Strays(tabs: seq<TabId>, live: seq<TabId>): seq<TabId>
    decreases |live|
  {
    if live == [] then []
    else if live[0] in tabs then Strays(tabs, live[1..])
    else [live[0]] + Strays(tabs + [live[0]], live[1..])
  }

  lemma {:induction false} AbsorbsStrays(tabs: seq<TabId>, live: seq<TabId>)
    ensures Absorb(tabs, live) == tabs + Strays(tabs, live)
    decreases |live|
  {
    if live != [] {
      if live[0] in tabs {
        AbsorbsStrays(tabs, live[1..]);
      } else {
        AbsorbsStrays(tabs + [live[0]], live[1..]);
        Regroup(tabs, live[0], Strays(tabs + [live[0]], live[1..]));
      }
    }
  }

  lemma Regroup(tabs: seq<TabId>, t: TabId, rest: seq<TabId>)
    ensures (tabs + [t]) + rest == tabs + ([t] + rest)
  {
  }

  predicate Distinct(tabs: seq<TabId>) {
    tabs == [] || (tabs[0] !in tabs[1..] && Distinct(tabs[1..]))
  }

  lemma {:induction false} StraysInOrder(tabs: seq<TabId>, live: seq<TabId>)
    ensures var strays := Strays(tabs, live);
      Sub(strays, live) && (forall x :: x in strays ==> x !in tabs) && Distinct(strays)
    decreases |live|
  {
    if live != [] {
      if live[0] in tabs {
        StraysInOrder(tabs, live[1..]);
      } else {
        StraysInOrder(tabs + [live[0]], live[1..]);
        var rest := Strays(tabs + [live[0]], live[1..]);
        assert ([live[0]] + rest)[1..] == rest;
      }
    }
  }

  /** A session comes back with the stored tabs that its window still has, in stored order, and then, in a
      window of its own, with each other tab of the window once, in window order. */
  lemma RestoredInOrder(saved: Saved, live: seq<TabId>)
    ensures var kept := Keep(saved.tabs, live); var strays := if saved.adopted then [] else Strays(kept, live);
      && Restored(saved, live) == kept + strays && Sub(kept, saved.tabs) && Sub(strays, live)
      && (forall x :: x in strays ==> x !in kept) && Distinct(strays)
  {
    KeepInOrder(saved.tabs, live);
    AbsorbsStrays(Keep(saved.tabs, live), live);
    StraysInOrder(Keep(saved.tabs, live), live);
  }

  // ----- listeners -----

  function WindowRemoved(m: Mem, windowId: nat): Mem {
    if m.state.Some? && m.state.value.windowId == windowId then m.Cleared() else m
  }

  function TabRemoved(m: Mem, t: TabId): Mem {
    if m.state.None? || t !in m.Pool() then m
    else
      var tabs := Without(m.Pool(), t);
      m.WithTabs(tabs).(active := if m.active == Some(t) then Last(tabs) else m.active)
  }

  function TabActivated(m: Mem, windowId: nat, t: TabId): Mem {
    if m.state.Some? && m.state.value.windowId == windowId && t in m.Pool() then m.(active := Some(t)) else m
  }

  function Forgotten(m: Mem, t: TabId): Mem {
    m.(entries := m.entries - {t})
  }

  /** `dropPoolTabs`: a tab the pool has taken over is no longer attached. */
  function PoolDropped(m: Mem): Mem {
    m.(entries := m.entries - set t | t in m.Pool())
  }

  predicate DropChanges(m: Mem) {
    exists t :: t in m.Pool() && t in m.entries
  }

  // ----- the promise about the pool -----

  predicate Bounded(m: Mem) {
    |m.Pool()| <= MAX_TABS
  }

  predicate Disjoint(m: Mem) {
    forall t :: t in m.Pool() ==> t !in m.entries
  }

  /** Nothing joined the pool, nothing was attached, and the session object is the same or gone. */
  ghost predicate Shrunk(r: Mem, m: Mem) {
    && |r.Pool()| <= |m.Pool()|
    && r.entries <= m.entries
    && (forall x :: x in r.Pool() ==> x in m.Pool())
    && r.objects == m.objects
    && (r.state.Some? ==> m.state.Some? && r.state.value.ident == m.state.value.ident)
  }

  /** No listener, whatever it fires for, makes the pool larger or attaches a tab. */
  lemma ListenersShrink(m: Mem, windowId: nat, t: TabId)
    ensures Shrunk(WindowRemoved(m, windowId), m)
    ensures Shrunk(TabRemoved(m, t), m)
    ensures Shrunk(TabActivated(m, windowId, t), m)
    ensures Shrunk(Forgotten(m, t), m)
    ensures Shrunk(m.Cleared(), m)
    ensures Shrunk(PoolDropped(m), m)
  {
  }

  // ----- the objects -----

  /** The fields of `Session` and the listeners that write them. */
  class Session {
    var state: Option<SessionState>
    var activeTabId: Option<TabId>

    constructor ()
      ensures state == None && activeTabId == None
    {
      state, activeTabId := None, None;
    }

    function View(entries: set<TabId>, objects: nat): Mem
      reads this
    {
      Mem(state, activeTabId, entries, objects)
    }

    method Clear()
      modifies this
      ensures forall es, n :: View(es, n) == old(View(es, n)).Cleared()
    {
      state := None;
      activeTabId := None;
    }

    method OnWindowRemoved(windowId: nat)
      modifies this
      ensures forall es, n :: View(es, n) == WindowRemoved(old(View(es, n)), windowId)
    {
      if state.None? || state.value.windowId != windowId {
        return;
      }
      state := None;
      activeTabId := None;
    }

    method OnTabRemoved(tabId: TabId)
      modifies this
      ensures forall es, n :: View(es, n) == TabRemoved(old(View(es, n)), tabId)
    {
      if state.None? {
        return;
      }
      var tabs := state.value.tabs;
      var index := IndexOf(tabs, tabId);
      if index < 0 {
        return;
      }
      tabs := tabs[..index] + tabs[index + 1..];
      assert tabs == Without(state.value.tabs, tabId);
      state := Some(state.value.(tabs := tabs));
      if activeTabId == Some(tabId) {
        activeTabId := if |tabs| > 0 then Some(tabs[|tabs| - 1]) else None;
      }
    }

    method OnTabActivated(windowId: nat, tabId: TabId)
      modifies this
      ensures forall es, n :: View(es, n) == TabActivated(old(View(es, n)), windowId, tabId)
    {
      if state.None? || windowId != state.value.windowId || tabId !in state.value.tabs {
        return;
      }
      activeTabId := Some(tabId);
    }
  }

  /** The `entries` map of `AttachedTabs`; the stamp and the incognito mark are not modelled. */
  class AttachedTabs {
    var entries: set<TabId>

    constructor ()
      ensures entries == {}
    {
      entries := {};
    }

    method Add(tabId: TabId)
      modifies this
      ensures entries == old(entries) + {tabId}
    {
      entries := entries + {tabId};
    }

    method Forget(tabId: TabId) returns (removed: bool)
      modifies this
      ensures removed <==> tabId in old(entries)
      ensures entries == old(entries) - {tabId}
    {
      removed := tabId in entries;
      entries := entries - {tabId};
    }

    /** The synchronous part of `dropPoolTabs`, one deletion per pool tab. */
    method DropPoolTabs(m: Mem) returns (changed: bool)
      requires m.entries == entries
      modifies this
      ensures entries == PoolDropped(m).entries
      ensures changed <==> DropChanges(m)
    {
      changed := false;
      var tabs := m.Pool();
      for i := 0 to |tabs|
        invariant entries == m.entries - set t | t in tabs[..i]
        invariant changed <==> exists t :: t in tabs[..i] && t in m.entries
      {
        assert tabs[..i + 1] == tabs[..i] + [tabs[i]];
        changed := tabs[i] in entries || changed;
        entries := entries - {tabs[i]};
      }
      assert tabs[..|tabs|] == tabs;
    }
  }
}
