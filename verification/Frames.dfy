/**
 The registry of observed child frames (extension/src/frames.ts): one watch per tab, injections
 that have not connected yet, frames that have, and waiters with a timer each. Every event handler
 runs to its end; timers, navigation events, ports and failed injections arrive in any order.
 */
module Frames {
  import opened Base

  type TabId = nat
  type FrameId = nat
  type Port = nat
  type WaitId = nat

  /** `globToRegExp`: anchored, every character literal but `*`, which matches anything. */
  predicate Matches(glob: string, url: string)
    decreases |glob| + |url|
  {
    if glob == "" then url == ""
    else if glob[0] == '*' then Matches(glob[1..], url) || (url != "" && Matches(glob, url[1..]))
    else url != "" && url[0] == glob[0] && Matches(glob[1..], url[1..])
  }

  predicate Fits(pattern: Option<string>, url: string) {
    pattern.Some? ==> Matches(pattern.value, url)
  }

  datatype Pending = Pending(url: string, parent: FrameId, generation: nat)

  datatype Frame = Frame(url: string, parent: FrameId, port: Port)

  datatype FrameInfo = FrameInfo(id: FrameId, url: string, parent: FrameId)

  datatype Criterion = Criterion(id: Option<FrameId>, glob: Option<string>)

  datatype Result = Found(frames: seq<FrameInfo>) | TimedOut | Unwatched | TabClosed

  datatype Watch = Watch(
    generation: nat,
    pattern: Option<string>,
    pending: map<FrameId, Pending>,
    frames: map<FrameId, Frame>,
    waits: set<WaitId>)

  /** What a wait was called with. */
  datatype Asked = Asked(tab: TabId, criterion: Criterion)

  /** `timers` are the live ones, by the wait that set them; `results` tells what each wait was settled
      with, and `again` whether any was settled a second time. */
  datatype Registry = Registry(
    watches: map<TabId, Watch>,
    generation: nat,
    asked: map<WaitId, Asked>,
    timers: set<WaitId>,
    results: map<WaitId, Result>,
    again: bool)

  const START := Registry(map[], 0, map[], {}, map[], false)

  datatype Sender = Sender(named: bool, tab: Option<TabId>, frame: Option<FrameId>, url: Option<string>)

  datatype Event =
    | DoWatch(tab: TabId, pattern: Option<string>)
    | DoUnwatch(tab: TabId)
    | Forget(tab: TabId, frame: FrameId, aimed: Option<Port>)
    | Await(tab: TabId, wait: WaitId, criterion: Criterion, remaining: int)
    | Loaded(tab: TabId, frame: FrameId, parent: FrameId, url: string)
    | InjectFailed(tab: TabId, frame: FrameId, url: string, generation: nat)
    | Connect(sender: Sender, port: Port)
    | Disconnect(tab: TabId, frame: FrameId, port: Port)
    | TabRemoved(tab: TabId)
    | Timeout(wait: WaitId)

  // ----- which frames a waiter is after -----

  predicate Wanted(c: Criterion, id: FrameId, url: string) {
    (c.id.Some? ==> c.id.value == id) && Fits(c.glob, url)
  }

  predicate IsLeast(ids: set<FrameId>, least: FrameId) {
    least in ids && forall other :: other in ids ==> least <= other
  }

  lemma {:induction false} LeastExists(ids: set<FrameId>) returns (least: FrameId)
    requires ids != {}
    ensures IsLeast(ids, least)
  {
    var id :| id in ids;
    var rest := ids - {id};
    if rest == {} {
      least := id;
      assert ids == {id};
    } else {
      least := LeastExists(rest);
      assert ids == rest + {id};
      if id < least { least := id; }
    }
  }

  ghost predicate Ascending(ids: seq<FrameId>) {
    forall i, j :: 0 <= i < j < |ids| ==> ids[i] < ids[j]
  }

  function Least(ids: set<FrameId>): (least: FrameId)
    requires ids != {}
    ensures IsLeast(ids, least)
  {
    assert exists id :: IsLeast(ids, id) by { var _ := LeastExists(ids); }
    var least :| IsLeast(ids, least);
    least
  }

  function Sorted(ids: set<FrameId>): (s: seq<FrameId>)
    ensures Ascending(s) && (forall id :: id in s <==> id in ids)
    decreases |ids|
  {
    if ids == {} then []
    else
      var least := Least(ids);
      var rest := Sorted(ids - {least});
      LeastFirst(least, rest);
      [least] + rest
  }

  lemma LeastFirst(least: FrameId, rest: seq<FrameId>)
    requires Ascending(rest) && forall id :: id in rest ==> least < id
    ensures Ascending([least] + rest)
    ensures forall id :: id in [least] + rest <==> id == least || id in rest
  {
    forall j | 0 <= j < |rest| ensures least < rest[j] { assert rest[j] in rest; }
  }

  /** `matching`: the observed frames a criterion is after, by ascending id. */
  function Matching(frames: map<FrameId, Frame>, c: Criterion): seq<FrameInfo> {
    var ids := Sorted(set id | id in frames && Wanted(c, id, frames[id].url));
    seq(|ids|, i requires 0 <= i < |ids| =>
      assert ids[i] in ids; FrameInfo(ids[i], frames[ids[i]].url, frames[ids[i]].parent))
  }

  /** Exactly the frames asked for, each once, in order. */
  ghost predicate Answers(c: Criterion, frames: map<FrameId, Frame>, found: seq<FrameInfo>) {
    && (forall i, j :: 0 <= i < j < |found| ==> found[i].id < found[j].id)
    && (forall i :: 0 <= i < |found| ==> (
          && found[i].id in frames && frames[found[i].id].url == found[i].url
          && frames[found[i].id].parent == found[i].parent && Wanted(c, found[i].id, found[i].url)))
    && (forall id :: id in frames && Wanted(c, id, frames[id].url) ==>
          FrameInfo(id, frames[id].url, frames[id].parent) in found)
  }

  lemma MatchingIsExact(frames: map<FrameId, Frame>, c: Criterion)
    ensures Answers(c, frames, Matching(frames, c))
  {
    var wanted := set id | id in frames && Wanted(c, id, frames[id].url);
    var ids, found := Sorted(wanted), Matching(frames, c);
    forall i | 0 <= i < |ids| ensures ids[i] in wanted { assert ids[i] in ids; }
    forall id | id in wanted ensures FrameInfo(id, frames[id].url, frames[id].parent) in found {
      assert id in ids;
      var i :| 0 <= i < |ids| && ids[i] == id;
      assert found[i] == FrameInfo(id, frames[id].url, frames[id].parent);
    }
  }

  // ----- events -----

  /** `settle` of each of these waits, once: its timer goes, and its promise resolves. */
  function Settle(r: Registry, ended: map<WaitId, Result>): Registry {
    r.(timers := r.timers - ended.Keys, results := r.results + ended, again := r.again || Twice(r.results, ended))
  }

  predicate Twice(results: map<WaitId, Result>, ended: map<WaitId, Result>) {
    exists wait :: wait in ended && wait in results
  }

  function EndAll(waits: set<WaitId>, result: Result): map<WaitId, Result> {
    map w | w in waits :: result
  }

  function PutWatch(r: Registry, tab: TabId, w: Watch): Registry {
    r.(watches := r.watches[tab := w])
  }

  function OnWatch(r: Registry, tab: TabId, pattern: Option<string>): Registry {
    if tab in r.watches then r
    else PutWatch(r, tab, Watch(r.generation + 1, pattern, map[], map[], {})).(generation := r.generation + 1)
  }

  function CloseWatch(r: Registry, tab: TabId, result: Result): Registry
    requires tab in r.watches
  {
    Settle(r.(watches := r.watches - {tab}), EndAll(r.watches[tab].waits, result))
  }

  function OnUnwatch(r: Registry, tab: TabId): Registry {
    if tab !in r.watches then r else CloseWatch(r, tab, Unwatched).(generation := r.generation + 1)
  }

  function OnTabRemoved(r: Registry, tab: TabId): Registry {
    if tab !in r.watches then r else CloseWatch(r, tab, TabClosed)
  }

  predicate PortIs(w: Watch, frame: FrameId, port: Port) {
    frame in w.frames && w.frames[frame].port == port
  }

  function Remove(r: Registry, tab: TabId, frame: FrameId): Registry
    requires tab in r.watches
  {
    PutWatch(r, tab, r.watches[tab].(frames := r.watches[tab].frames - {frame}))
  }

  function OnForget(r: Registry, tab: TabId, frame: FrameId, port: Option<Port>): Registry {
    if tab !in r.watches || (port.Some? && !PortIs(r.watches[tab], frame, port.value)) then r
    else Remove(r, tab, frame)
  }

  function OnDisconnect(r: Registry, tab: TabId, frame: FrameId, port: Port): Registry {
    if tab in r.watches && PortIs(r.watches[tab], frame, port) then Remove(r, tab, frame) else r
  }

  /** What `awaitFrame` answers at once, if it does. */
  function AtOnce(r: Registry, tab: TabId, c: Criterion, remaining: int): Option<Result> {
    if tab !in r.watches then Some(Unwatched)
    else
      var found := Matching(r.watches[tab].frames, c);
      if found != [] then Some(Found(found)) else if remaining <= 0 then Some(TimedOut) else None
  }

  function OnAwait(r: Registry, tab: TabId, wait: WaitId, c: Criterion, remaining: int): Registry {
    if wait in r.asked then r
    else
      var r' := r.(asked := r.asked[wait := Asked(tab, c)]);
      var answer := AtOnce(r, tab, c, remaining);
      if answer.Some? then Settle(r', map[wait := answer.value])
      else PutWatch(r', tab, r.watches[tab].(waits := r.watches[tab].waits + {wait})).(timers := r.timers + {wait})
  }

  function OnLoaded(r: Registry, tab: TabId, frame: FrameId, parent: FrameId, url: string): Registry {
    if tab !in r.watches || frame == 0 then r
    else
      var w := r.watches[tab];
      if !Fits(w.pattern, url) then PutWatch(r, tab, w.(pending := w.pending - {frame}))
      else if frame in w.pending && w.pending[frame].url == url && w.pending[frame].generation == w.generation then r
      else PutWatch(r, tab, w.(pending := w.pending[frame := Pending(url, parent, w.generation)]))
  }

  function OnInjectFailed(r: Registry, tab: TabId, frame: FrameId, url: string, generation: nat): Registry {
    if tab !in r.watches then r
    else
      var w := r.watches[tab];
      if frame in w.pending && w.pending[frame].url == url && w.pending[frame].generation == generation
      then PutWatch(r, tab, w.(pending := w.pending - {frame}))
      else r
  }

  /** The conditions of `admit`; a port that is not admitted is disconnected. */
  predicate Admissible(r: Registry, s: Sender) {
    && s.named && s.tab.Some? && s.frame.Some? && s.frame.value != 0
    && s.tab.value in r.watches
    && var w := r.watches[s.tab.value];
    s.frame.value in w.pending
    && w.pending[s.frame.value].generation == w.generation
    && s.url == Some(w.pending[s.frame.value].url)
  }

  /** The waits that `notifyWaits` settles. */
  function Notified(waits: set<WaitId>, asked: map<WaitId, Asked>, frames: map<FrameId, Frame>): map<WaitId, Result> {
    map w | w in waits && w in asked && Matching(frames, asked[w].criterion) != []
      :: Found(Matching(frames, asked[w].criterion))
  }

  function Admitted(w: Watch, frame: FrameId, port: Port): Watch
    requires frame in w.pending
  {
    var p := w.pending[frame];
    w.(pending := w.pending - {frame}, frames := w.frames[frame := Frame(p.url, p.parent, port)])
  }

  function OnConnect(r: Registry, s: Sender, port: Port): Registry {
    if !Admissible(r, s) then r
    else
      var w := Admitted(r.watches[s.tab.value], s.frame.value, port);
      var ended := Notified(w.waits, r.asked, w.frames);
      Settle(PutWatch(r, s.tab.value, w.(waits := w.waits - ended.Keys)), ended)
  }

  function OnTimeout(r: Registry, wait: WaitId): Registry {
    if wait !in r.timers || wait !in r.asked then r
    else
      var tab := r.asked[wait].tab;
      var r' := Settle(r, map[wait := TimedOut]);
      if tab in r.watches then PutWatch(r', tab, r.watches[tab].(waits := r.watches[tab].waits - {wait})) else r'
  }

  function Step(r: Registry, e: Event): Registry {
    match e
    case DoWatch(tab, pattern) => OnWatch(r, tab, pattern)
    case DoUnwatch(tab) => OnUnwatch(r, tab)
    case Forget(tab, frame, port) => OnForget(r, tab, frame, port)
    case Await(tab, wait, c, remaining) => OnAwait(r, tab, wait, c, remaining)
    case Loaded(tab, frame, parent, url) => OnLoaded(r, tab, frame, parent, url)
    case InjectFailed(tab, frame, url, generation) => OnInjectFailed(r, tab, frame, url, generation)
    case Connect(s, port) => OnConnect(r, s, port)
    case Disconnect(tab, frame, port) => OnDisconnect(r, tab, frame, port)
    case TabRemoved(tab) => OnTabRemoved(r, tab)
    case Timeout(wait) => OnTimeout(r, wait)
  }

  function Steps(es: seq<Event>): Registry {
    if es == [] then START else Step(Steps(es[..|es| - 1]), es[|es| - 1])
  }

  // ----- the invariant -----

  ghost predicate WaitOk(r: Registry, wait: WaitId) {
    && (wait in r.asked <==> wait in r.results || wait in r.timers)
    && !(wait in r.results && wait in r.timers)
    && (wait in r.timers && wait in r.asked ==>
          r.asked[wait].tab in r.watches && wait in r.watches[r.asked[wait].tab].waits)
    && (wait in r.results && r.results[wait].Found? ==>
          wait in r.asked && Good(r.results[wait].frames, r.asked[wait].criterion))
  }

  /** A wait is told of at least one frame, and only of frames it was after. */
  ghost predicate Good(found: seq<FrameInfo>, c: Criterion) {
    found != [] && forall i :: 0 <= i < |found| ==> Wanted(c, found[i].id, found[i].url)
  }

  ghost predicate PendingOk(w: Watch) {
    forall id :: id in w.pending ==>
      id != 0 && Fits(w.pattern, w.pending[id].url) && w.pending[id].generation == w.generation
  }

  ghost predicate FramesOk(w: Watch) {
    forall id :: id in w.frames ==> id != 0 && Fits(w.pattern, w.frames[id].url)
  }

  ghost predicate Unmet(frames: map<FrameId, Frame>, c: Criterion) {
    forall id :: id in frames ==> !Wanted(c, id, frames[id].url)
  }

  ghost predicate WaitsOk(r: Registry, tab: TabId)
    requires tab in r.watches
  {
    forall wait :: wait in r.watches[tab].waits ==>
      wait in r.timers && wait in r.asked && r.asked[wait].tab == tab
        && Unmet(r.watches[tab].frames, r.asked[wait].criterion)
  }

  ghost predicate WatchOk(r: Registry, tab: TabId) {
    tab in r.watches ==>
      && PendingOk(r.watches[tab]) && FramesOk(r.watches[tab]) && WaitsOk(r, tab)
  }

  ghost predicate Inv(r: Registry) {
    (forall wait :: WaitOk(r, wait)) && (forall tab :: WatchOk(r, tab)) && !r.again
  }

  lemma WatchKeeps(r: Registry, tab: TabId, pattern: Option<string>)
    requires Inv(r)
    ensures Inv(OnWatch(r, tab, pattern))
  {
    var n := OnWatch(r, tab, pattern);
    forall i ensures WaitOk(n, i) { assert WaitOk(r, i); }
    forall i ensures WatchOk(n, i) { assert WatchOk(r, i); }
  }

  /** No outstanding wait was settled before. */
  lemma NoneSettled(r: Registry, tab: TabId)
    requires Inv(r)
    ensures tab in r.watches ==> forall w :: w in r.watches[tab].waits ==> w !in r.results
  {
    assert WatchOk(r, tab);
    if tab in r.watches {
      forall w | w in r.watches[tab].waits ensures w !in r.results { assert WaitOk(r, w); }
    }
  }

  lemma UnwatchKeeps(r: Registry, tab: TabId)
    requires Inv(r)
    ensures Inv(OnUnwatch(r, tab))
  {
    var n := OnUnwatch(r, tab);
    assert WatchOk(r, tab);
    NoneSettled(r, tab);
    forall i ensures WaitOk(n, i) { assert WaitOk(r, i); }
    forall i ensures WatchOk(n, i) { assert WatchOk(r, i); }
  }

  lemma TabRemovedKeeps(r: Registry, tab: TabId)
    requires Inv(r)
    ensures Inv(OnTabRemoved(r, tab))
  {
    var n := OnTabRemoved(r, tab);
    assert WatchOk(r, tab);
    NoneSettled(r, tab);
    forall i ensures WaitOk(n, i) { assert WaitOk(r, i); }
    forall i ensures WatchOk(n, i) { assert WatchOk(r, i); }
  }

  lemma ForgetKeeps(r: Registry, tab: TabId, frame: FrameId, port: Option<Port>)
    requires Inv(r)
    ensures Inv(OnForget(r, tab, frame, port))
  {
    var n := OnForget(r, tab, frame, port);
    assert WatchOk(r, tab);
    forall i ensures WaitOk(n, i) { assert WaitOk(r, i); }
    forall i ensures WatchOk(n, i) { assert WatchOk(r, i); }
  }

  lemma DisconnectKeeps(r: Registry, tab: TabId, frame: FrameId, port: Port)
    requires Inv(r)
    ensures Inv(OnDisconnect(r, tab, frame, port))
  {
    var n := OnDisconnect(r, tab, frame, port);
    assert WatchOk(r, tab);
    forall i ensures WaitOk(n, i) { assert WaitOk(r, i); }
    forall i ensures WatchOk(n, i) { assert WatchOk(r, i); }
  }

  lemma AnswerKeeps(r: Registry, tab: TabId, w: WaitId, c: Criterion, result: Result)
    requires Inv(r) && w !in r.asked && (result.Found? ==> Good(result.frames, c))
    ensures Inv(Settle(r.(asked := r.asked[w := Asked(tab, c)]), map[w := result]))
  {
    var n := Settle(r.(asked := r.asked[w := Asked(tab, c)]), map[w := result]);
    assert WaitOk(r, w);
    forall i ensures WaitOk(n, i) { assert WaitOk(r, i); }
    forall i ensures WatchOk(n, i) { assert WatchOk(r, i); }
  }

  lemma EnrolKeeps(r: Registry, tab: TabId, w: WaitId, c: Criterion)
    requires Inv(r) && w !in r.asked && tab in r.watches && Unmet(r.watches[tab].frames, c)
    ensures var watch := r.watches[tab];
      Inv(PutWatch(r.(asked := r.asked[w := Asked(tab, c)]), tab,
        watch.(waits := watch.waits + {w})).(timers := r.timers + {w}))
  {
    var watch := r.watches[tab];
    var n := PutWatch(r.(asked := r.asked[w := Asked(tab, c)]), tab,
      watch.(waits := watch.waits + {w})).(timers := r.timers + {w});
    assert WaitOk(r, w) && WatchOk(r, tab);
    forall i ensures WaitOk(n, i) { assert WaitOk(r, i); }
    forall i ensures WatchOk(n, i) { assert WatchOk(r, i); }
  }

  lemma AwaitKeeps(r: Registry, tab: TabId, w: WaitId, c: Criterion, remaining: int)
    requires Inv(r)
    ensures Inv(OnAwait(r, tab, w, c, remaining))
  {
    if w !in r.asked {
      if tab in r.watches { MatchingIsExact(r.watches[tab].frames, c); }
      var answer := AtOnce(r, tab, c, remaining);
      if answer.Some? { AnswerKeeps(r, tab, w, c, answer.value); } else { EnrolKeeps(r, tab, w, c); }
    }
  }

  lemma LoadedKeeps(r: Registry, tab: TabId, frame: FrameId, parent: FrameId, url: string)
    requires Inv(r)
    ensures Inv(OnLoaded(r, tab, frame, parent, url))
  {
    var n := OnLoaded(r, tab, frame, parent, url);
    assert WatchOk(r, tab);
    forall i ensures WaitOk(n, i) { assert WaitOk(r, i); }
    forall i ensures WatchOk(n, i) { assert WatchOk(r, i); }
  }

  lemma InjectFailedKeeps(r: Registry, tab: TabId, frame: FrameId, url: string, generation: nat)
    requires Inv(r)
    ensures Inv(OnInjectFailed(r, tab, frame, url, generation))
  {
    var n := OnInjectFailed(r, tab, frame, url, generation);
    assert WatchOk(r, tab);
    forall i ensures WaitOk(n, i) { assert WaitOk(r, i); }
    forall i ensures WatchOk(n, i) { assert WatchOk(r, i); }
  }

  /** Who is told, and who keeps waiting, once the frames of a watch are these. */
  ghost predicate Told(r: Registry, waits: set<WaitId>, frames: map<FrameId, Frame>, ended: map<WaitId, Result>) {
    && ended.Keys <= waits
    && (forall wait :: wait in ended ==>
          wait in r.asked && ended[wait].Found? && Good(ended[wait].frames, r.asked[wait].criterion))
    && (forall wait :: wait in waits && wait !in ended ==> wait in r.asked ==> Unmet(frames, r.asked[wait].criterion))
  }

  lemma NotifiedAreTold(r: Registry, waits: set<WaitId>, frames: map<FrameId, Frame>)
    ensures Told(r, waits, frames, Notified(waits, r.asked, frames))
  {
    var ended := Notified(waits, r.asked, frames);
    forall wait | wait in waits && wait in r.asked
      ensures wait in ended ==> Good(ended[wait].frames, r.asked[wait].criterion)
      ensures wait !in ended ==> Unmet(frames, r.asked[wait].criterion)
    {
      MatchingIsExact(frames, r.asked[wait].criterion);
    }
  }

  lemma NotifyKeepsWaits(r: Registry, tab: TabId, w: Watch, ended: map<WaitId, Result>)
    requires Inv(r) && tab in r.watches && w.waits == r.watches[tab].waits && Told(r, w.waits, w.frames, ended)
    ensures forall i :: WaitOk(Settle(PutWatch(r, tab, w.(waits := w.waits - ended.Keys)), ended), i)
  {
    assert WatchOk(r, tab);
    forall i ensures WaitOk(Settle(PutWatch(r, tab, w.(waits := w.waits - ended.Keys)), ended), i) {
      assert WaitOk(r, i);
    }
  }

  lemma NotifyKeeps(r: Registry, tab: TabId, w: Watch, ended: map<WaitId, Result>)
    requires Inv(r) && tab in r.watches && w.waits == r.watches[tab].waits
    requires PendingOk(w) && FramesOk(w) && Told(r, w.waits, w.frames, ended)
    ensures Inv(Settle(PutWatch(r, tab, w.(waits := w.waits - ended.Keys)), ended))
  {
    NotifyKeepsWaits(r, tab, w, ended);
    var n := Settle(PutWatch(r, tab, w.(waits := w.waits - ended.Keys)), ended);
    assert WatchOk(r, tab);
    NoneSettled(r, tab);
    forall i ensures WatchOk(n, i) { assert WatchOk(r, i); }
  }

  lemma ConnectKeeps(r: Registry, s: Sender, port: Port)
    requires Inv(r)
    ensures Inv(OnConnect(r, s, port))
  {
    if Admissible(r, s) {
      assert WatchOk(r, s.tab.value);
      var w := Admitted(r.watches[s.tab.value], s.frame.value, port);
      NotifiedAreTold(r, w.waits, w.frames);
      NotifyKeeps(r, s.tab.value, w, Notified(w.waits, r.asked, w.frames));
    }
  }

  lemma TimeoutKeeps(r: Registry, w: WaitId)
    requires Inv(r)
    ensures Inv(OnTimeout(r, w))
  {
    var n := OnTimeout(r, w);
    assert WaitOk(r, w);
    forall i ensures WaitOk(n, i) { assert WaitOk(r, i); }
    forall i ensures WatchOk(n, i) { assert WatchOk(r, i); }
  }

  lemma StepKeeps(r: Registry, e: Event)
    requires Inv(r)
    ensures Inv(Step(r, e))
  {
    match e
    case DoWatch(tab, pattern) => WatchKeeps(r, tab, pattern);
    case DoUnwatch(tab) => UnwatchKeeps(r, tab);
    case Forget(tab, frame, port) => ForgetKeeps(r, tab, frame, port);
    case Await(tab, wait, c, remaining) => AwaitKeeps(r, tab, wait, c, remaining);
    case Loaded(tab, frame, parent, url) => LoadedKeeps(r, tab, frame, parent, url);
    case InjectFailed(tab, frame, url, generation) => InjectFailedKeeps(r, tab, frame, url, generation);
    case Connect(s, port) => ConnectKeeps(r, s, port);
    case Disconnect(tab, frame, port) => DisconnectKeeps(r, tab, frame, port);
    case TabRemoved(tab) => TabRemovedKeeps(r, tab);
    case Timeout(wait) => TimeoutKeeps(r, wait);
  }

  lemma {:induction false} RunKeeps(es: seq<Event>)
    ensures Inv(Steps(es))
  {
    if es == [] {
      forall i ensures WaitOk(START, i) {}
      forall i ensures WatchOk(START, i) {}
    } else {
      RunKeeps(es[..|es| - 1]);
      StepKeeps(Steps(es[..|es| - 1]), es[|es| - 1]);
    }
  }

  // ----- the theorems -----

  predicate Observed(r: Registry, tab: TabId, frame: FrameId) {
    tab in r.watches && frame in r.watches[tab].frames
  }

  /** Every observed frame is a child frame whose url matches what its tab is watched for. */
  lemma {:induction false} ObservedFits(es: seq<Event>, tab: TabId, frame: FrameId)
    requires Observed(Steps(es), tab, frame)
    ensures var w := Steps(es).watches[tab]; frame != 0 && Fits(w.pattern, w.frames[frame].url)
  {
    RunKeeps(es);
    assert WatchOk(Steps(es), tab);
  }

  /** A wait is outstanding or was settled, exactly once. While it is outstanding it owns a live
      timer, its tab is watched and no observed frame is one it is after; nothing else owns a timer. */
  lemma {:induction false} WaitsEndOnce(es: seq<Event>, wait: WaitId)
    ensures var r := Steps(es);
      && !r.again
      && (wait in r.asked <==> wait in r.timers || wait in r.results)
      && !(wait in r.timers && wait in r.results)
      && (wait in r.timers ==> (
            && r.asked[wait].tab in r.watches
            && forall id :: Observed(r, r.asked[wait].tab, id) ==>
                 !Wanted(r.asked[wait].criterion, id, r.watches[r.asked[wait].tab].frames[id].url)))
  {
    RunKeeps(es);
    var r := Steps(es);
    assert WaitOk(r, wait);
    if wait in r.timers { assert WatchOk(r, r.asked[wait].tab); }
  }

  /** `found` is never said of nothing, nor of a frame the wait was not after. */
  lemma {:induction false} FoundIsTrue(es: seq<Event>, wait: WaitId)
    requires wait in Steps(es).results && Steps(es).results[wait].Found?
    ensures wait in Steps(es).asked && Good(Steps(es).results[wait].frames, Steps(es).asked[wait].criterion)
  {
    RunKeeps(es);
    assert WaitOk(Steps(es), wait);
  }

  /** The steps of waiters leave the maps of every watch alone. */
  lemma WaitersLeaveFrames(r: Registry, e: Event, tab: TabId)
    requires e.Await? || e.Timeout?
    ensures tab in Step(r, e).watches <==> tab in r.watches
    ensures tab in r.watches ==>
      Step(r, e).watches[tab].frames == r.watches[tab].frames
        && Step(r, e).watches[tab].pending == r.watches[tab].pending
  {
    if e.Await? {
      AwaitLeavesFrames(r, e.tab, e.wait, e.criterion, e.remaining, tab);
    }
  }

  lemma AwaitLeavesFrames(r: Registry, tab: TabId, wait: WaitId, c: Criterion, remaining: int, other: TabId)
    ensures var n := OnAwait(r, tab, wait, c, remaining);
      && (other in n.watches <==> other in r.watches)
      && (other in r.watches ==>
            n.watches[other].frames == r.watches[other].frames && n.watches[other].pending == r.watches[other].pending)
  {}

  /** The steps of injections add or drop records and leave the frames alone. */
  lemma InjectionsLeaveFrames(r: Registry, e: Event, tab: TabId)
    requires e.Loaded? || e.InjectFailed?
    ensures tab in Step(r, e).watches <==> tab in r.watches
    ensures tab in r.watches ==> Step(r, e).watches[tab].frames == r.watches[tab].frames
  {}

  /** An entry goes only by the disconnect of its own port, by a `forget` that aims at that port or
      at none, with its watch, or for a newer document of the same frame. */
  lemma EntriesLeave(r: Registry, e: Event, tab: TabId, frame: FrameId)
    requires Observed(r, tab, frame)
    requires var f := r.watches[tab].frames[frame];
      !(Observed(Step(r, e), tab, frame) && Step(r, e).watches[tab].frames[frame] == f)
    ensures var port := r.watches[tab].frames[frame].port;
      || e == Disconnect(tab, frame, port)
      || e == Forget(tab, frame, None) || e == Forget(tab, frame, Some(port))
      || e == DoUnwatch(tab) || e == TabRemoved(tab)
      || (e.Connect? && Admissible(r, e.sender) && e.sender.tab == Some(tab) && e.sender.frame == Some(frame))
  {
    if e.Await? || e.Timeout? {
      WaitersLeaveFrames(r, e, tab);
    } else if e.Loaded? || e.InjectFailed? {
      InjectionsLeaveFrames(r, e, tab);
    } else {
      match e
      case Forget(t, f, aimed) => assert t == tab && f == frame
        && (aimed == None || aimed == Some(r.watches[tab].frames[frame].port));
      case Disconnect(t, f, port) => assert t == tab && f == frame && port == r.watches[tab].frames[frame].port;
      case Connect(s, _) => assert s.tab == Some(tab) && s.frame == Some(frame);
      case _ =>
    }
  }

  /** Position `i` of the run is this frame finishing a document with this url, and the tab's watch
      has not ended since. */
  predicate LoadedAt(es: seq<Event>, i: nat, tab: TabId, frame: FrameId, url: string) {
    && i < |es|
    && es[i].Loaded? && es[i].tab == tab && es[i].frame == frame && es[i].url == url
    && DoUnwatch(tab) !in es[i..] && TabRemoved(tab) !in es[i..]
  }

  ghost predicate LoadedSince(es: seq<Event>, tab: TabId, frame: FrameId, url: string) {
    exists i: nat :: LoadedAt(es, i, tab, frame, url)
  }

  ghost predicate AllLoaded(es: seq<Event>, tab: TabId) {
    var r := Steps(es);
    tab in r.watches ==>
      && (forall id :: id in r.watches[tab].pending ==> LoadedSince(es, tab, id, r.watches[tab].pending[id].url))
      && (forall id :: id in r.watches[tab].frames ==> LoadedSince(es, tab, id, r.watches[tab].frames[id].url))
  }

  lemma StillLoaded(es: seq<Event>, e: Event, tab: TabId, frame: FrameId, url: string)
    requires LoadedSince(es, tab, frame, url) && e != DoUnwatch(tab) && e != TabRemoved(tab)
    ensures LoadedSince(es + [e], tab, frame, url)
  {
    var i: nat :| LoadedAt(es, i, tab, frame, url);
    assert (es + [e])[i..] == es[i..] + [e];
    assert LoadedAt(es + [e], i, tab, frame, url);
  }

  /** What event `e` may have added to the watch of `tab`: a record for the document just loaded, or
      a frame for a record. */
  predicate Adds(w: Watch, n: Watch, e: Event, tab: TabId, id: FrameId) {
    && (id in n.pending ==>
          || (id in w.pending && n.pending[id] == w.pending[id])
          || (e.Loaded? && e.tab == tab && e.frame == id && e.url == n.pending[id].url))
    && (id in n.frames ==>
          || (id in w.frames && n.frames[id] == w.frames[id])
          || (id in w.pending && n.frames[id].url == w.pending[id].url))
  }

  lemma StepAdds(r: Registry, e: Event, tab: TabId, id: FrameId)
    requires tab in Step(r, e).watches && !(tab !in r.watches && e.DoWatch?)
    ensures tab in r.watches && e != DoUnwatch(tab) && e != TabRemoved(tab)
    ensures Adds(r.watches[tab], Step(r, e).watches[tab], e, tab, id)
  {
    if e.Await? || e.Timeout? {
      WaitersLeaveFrames(r, e, tab);
    } else if e.Loaded? || e.InjectFailed? {
      InjectionsLeaveFrames(r, e, tab);
      InjectionAdds(r, e, tab, id);
    } else if e.Connect? {
      ConnectAdds(r, e.sender, e.port, tab, id);
    } else if e.Forget? || e.Disconnect? {
      RemovalAdds(r, e, tab, id);
    } else {
      OpeningAdds(r, e, tab, id);
    }
  }

  lemma InjectionAdds(r: Registry, e: Event, tab: TabId, id: FrameId)
    requires e.Loaded? || e.InjectFailed?
    ensures tab in r.watches && tab in Step(r, e).watches ==> Adds(r.watches[tab], Step(r, e).watches[tab], e, tab, id)
  {}

  lemma ConnectAdds(r: Registry, s: Sender, port: Port, tab: TabId, id: FrameId)
    ensures tab in OnConnect(r, s, port).watches <==> tab in r.watches
    ensures tab in r.watches ==> Adds(r.watches[tab], OnConnect(r, s, port).watches[tab], Connect(s, port), tab, id)
  {}

  lemma RemovalAdds(r: Registry, e: Event, tab: TabId, id: FrameId)
    requires e.Forget? || e.Disconnect?
    ensures tab in Step(r, e).watches <==> tab in r.watches
    ensures tab in r.watches ==> Adds(r.watches[tab], Step(r, e).watches[tab], e, tab, id)
  {}

  lemma OpeningAdds(r: Registry, e: Event, tab: TabId, id: FrameId)
    requires e.DoWatch? || e.DoUnwatch? || e.TabRemoved?
    requires tab in Step(r, e).watches && !(tab !in r.watches && e.DoWatch?)
    ensures tab in r.watches && e != DoUnwatch(tab) && e != TabRemoved(tab)
    ensures Adds(r.watches[tab], Step(r, e).watches[tab], e, tab, id)
  {}

  lemma JustLoaded(es: seq<Event>, e: Event)
    requires e.Loaded?
    ensures LoadedSince(es + [e], e.tab, e.frame, e.url)
  {
    assert (es + [e])[|es|..] == [e];
    assert LoadedAt(es + [e], |es|, e.tab, e.frame, e.url);
  }

  /** The fence between watches: an observed frame finished its document, with the url it is known
      by, under the watch that lists it; a document injected for an earlier watch is never admitted. */
  lemma {:induction false} AdmittedWasLoaded(es: seq<Event>, tab: TabId)
    ensures AllLoaded(es, tab)
  {
    if es != [] {
      var (before, e) := (es[..|es| - 1], es[|es| - 1]);
      assert before + [e] == es;
      AdmittedWasLoaded(before, tab);
      var r := Steps(before);
      if tab in Step(r, e).watches && !(tab !in r.watches && e.DoWatch?) {
        var n := Step(r, e).watches[tab];
        forall id | id in n.pending || id in n.frames
          ensures id in n.pending ==> LoadedSince(es, tab, id, n.pending[id].url)
          ensures id in n.frames ==> LoadedSince(es, tab, id, n.frames[id].url)
        {
          StepAdds(r, e, tab, id);
          AddedWasLoaded(before, e, tab, id);
        }
      }
    }
  }

  lemma AddedWasLoaded(es: seq<Event>, e: Event, tab: TabId, id: FrameId)
    requires AllLoaded(es, tab) && tab in Step(Steps(es), e).watches && !(tab !in Steps(es).watches && e.DoWatch?)
    ensures var n := Step(Steps(es), e).watches[tab];
      && (id in n.pending ==> LoadedSince(es + [e], tab, id, n.pending[id].url))
      && (id in n.frames ==> LoadedSince(es + [e], tab, id, n.frames[id].url))
  {
    var r := Steps(es);
    StepAdds(r, e, tab, id);
    var w := r.watches[tab];
    if id in w.pending { StillLoaded(es, e, tab, id, w.pending[id].url); }
    if id in w.frames { StillLoaded(es, e, tab, id, w.frames[id].url); }
    if e.Loaded? { JustLoaded(es, e); }
  }

  // ----- what each event makes of a wait -----

  /** How an outstanding wait ends by this event, if it does: with its watch, told from the tab's close;
      by its timer; or with the one frame that the event admits, if that is what it is for. */
  function EndsBy(r: Registry, e: Event, wait: WaitId): Option<Result>
    requires wait in r.asked
  {
    var tab := r.asked[wait].tab;
    match e
    case DoUnwatch(t) => if t == tab then Some(Unwatched) else None
    case TabRemoved(t) => if t == tab then Some(TabClosed) else None
    case Timeout(w) => if w == wait then Some(TimedOut) else None
    case Connect(s, _) =>
      if !Admissible(r, s) || s.tab.value != tab then None
      else
        var p := r.watches[tab].pending[s.frame.value];
        if Wanted(r.asked[wait].criterion, s.frame.value, p.url)
        then Some(Found([FrameInfo(s.frame.value, p.url, p.parent)])) else None
    case _ => None
  }

  predicate Outstanding(r: Registry, wait: WaitId) {
    wait in r.timers && wait !in r.results
  }

  predicate SettledAs(r: Registry, wait: WaitId, result: Result) {
    wait !in r.timers && wait in r.results && r.results[wait] == result
  }

  /** No frame that is observed is one the wait is for, so an admitted frame is all it finds. */
  lemma FindsTheOne(frames: map<FrameId, Frame>, frame: FrameId, f: Frame, c: Criterion)
    requires Unmet(frames, c)
    ensures Matching(frames[frame := f], c)
         == if Wanted(c, frame, f.url) then [FrameInfo(frame, f.url, f.parent)] else []
  {
    var n := frames[frame := f];
    var wanted := set id | id in n && Wanted(c, id, n[id].url);
    assert wanted == if Wanted(c, frame, f.url) then {frame} else {};
    if Wanted(c, frame, f.url) { SortedOne(frame); }
  }

  lemma SortedOne(id: FrameId)
    ensures Sorted({id}) == [id]
  {
    assert Least({id}) in {id};
    assert {id} - {id} == {};
  }

  lemma ConnectSettles(r: Registry, s: Sender, port: Port, wait: WaitId)
    requires Inv(r) && Outstanding(r, wait)
    ensures wait in r.asked
    ensures var n := OnConnect(r, s, port); var o := EndsBy(r, Connect(s, port), wait);
      if o.Some? then SettledAs(n, wait, o.value) else Outstanding(n, wait)
  {
    assert WaitOk(r, wait);
    if Admissible(r, s) {
      var (tab, frame) := (s.tab.value, s.frame.value);
      assert WatchOk(r, tab);
      var p := r.watches[tab].pending[frame];
      if wait in r.watches[tab].waits {
        FindsTheOne(r.watches[tab].frames, frame, Frame(p.url, p.parent, port), r.asked[wait].criterion);
      }
    }
  }

  lemma ClosingSettles(r: Registry, tab: TabId, wait: WaitId)
    requires Inv(r) && Outstanding(r, wait)
    ensures wait in r.asked
    ensures if r.asked[wait].tab == tab
      then SettledAs(OnUnwatch(r, tab), wait, Unwatched) && SettledAs(OnTabRemoved(r, tab), wait, TabClosed)
      else Outstanding(OnUnwatch(r, tab), wait) && Outstanding(OnTabRemoved(r, tab), wait)
  {
    assert WaitOk(r, wait);
    assert WatchOk(r, tab);
  }

  /** An outstanding wait ends by these events, in these ways, and by nothing else. */
  lemma EventsSettle(r: Registry, e: Event, wait: WaitId)
    requires Inv(r) && Outstanding(r, wait)
    ensures wait in r.asked
    ensures var n := Step(r, e); var o := EndsBy(r, e, wait);
      if o.Some? then SettledAs(n, wait, o.value) else Outstanding(n, wait)
  {
    assert WaitOk(r, wait);
    match e
    case DoUnwatch(tab) => ClosingSettles(r, tab, wait);
    case TabRemoved(tab) => ClosingSettles(r, tab, wait);
    case Connect(s, port) => ConnectSettles(r, s, port, wait);
    case _ =>
  }

  /** A new wait is answered at once when its tab is not watched, when there are frames it is for, and when
      it has no time left; otherwise it is outstanding. */
  lemma AwaitSettles(r: Registry, tab: TabId, wait: WaitId, c: Criterion, remaining: int)
    requires Inv(r) && wait !in r.asked
    ensures var n := OnAwait(r, tab, wait, c, remaining);
      && wait in n.asked && n.asked[wait] == Asked(tab, c)
      && if tab !in r.watches then SettledAs(n, wait, Unwatched)
         else if !Unmet(r.watches[tab].frames, c)
         then wait in n.results && n.results[wait].Found? && Answers(c, r.watches[tab].frames, n.results[wait].frames)
         else if remaining <= 0 then SettledAs(n, wait, TimedOut)
         else Outstanding(n, wait)
  {
    assert WaitOk(r, wait);
    if tab in r.watches { MatchingIsExact(r.watches[tab].frames, c); }
  }

  /** How the run ends a wait: at once, or by the first event that can from then on. */
  function ResultOf(es: seq<Event>, wait: WaitId): Option<Result> {
    if es == [] then None
    else
      var before, e := es[..|es| - 1], es[|es| - 1];
      var r := Steps(before);
      if ResultOf(before, wait).Some? then ResultOf(before, wait)
      else if wait in r.asked then EndsBy(r, e, wait)
      else if e.Await? && e.wait == wait then AtOnce(r, e.tab, e.criterion, e.remaining)
      else None
  }

  /** In every run a wait ends in that way and no other, and is outstanding until then. */
  lemma {:induction false} FirstEventSettles(es: seq<Event>, wait: WaitId)
    ensures var r := Steps(es); var o := ResultOf(es, wait);
      && (o.Some? ==> SettledAs(r, wait, o.value))
      && (o.None? && wait in r.asked ==> Outstanding(r, wait))
      && (wait !in r.asked ==> o.None?)
  {
    if es != [] {
      var before, e := es[..|es| - 1], es[|es| - 1];
      FirstEventSettles(before, wait);
      RunKeeps(before);
      RunKeeps(es);
      assert WaitOk(Steps(es), wait);
      NextResult(Steps(before), e, wait);
    }
  }

  lemma NextResult(r: Registry, e: Event, wait: WaitId)
    requires Inv(r)
    ensures var n := Step(r, e);
      && (forall result :: SettledAs(r, wait, result) ==> SettledAs(n, wait, result))
      && (Outstanding(r, wait) ==> wait in r.asked)
      && (Outstanding(r, wait) ==>
            var o := EndsBy(r, e, wait); if o.Some? then SettledAs(n, wait, o.value) else Outstanding(n, wait))
      && (wait !in r.asked && e.Await? && e.wait == wait ==>
            var o := AtOnce(r, e.tab, e.criterion, e.remaining);
            if o.Some? then SettledAs(n, wait, o.value) else Outstanding(n, wait))
      && (wait !in r.asked && !(e.Await? && e.wait == wait) ==> wait !in n.asked)
      && (wait in r.asked ==> wait in n.asked)
  {
    assert WaitOk(r, wait);
    if Outstanding(r, wait) { EventsSettle(r, e, wait); }
    if wait in r.results && wait !in r.timers { SettledLasts(r, e, wait); }
    AskedLasts(r, e, wait);
  }

  lemma AskedLasts(r: Registry, e: Event, wait: WaitId)
    ensures wait in Step(r, e).asked <==> wait in r.asked || (e.Await? && e.wait == wait)
  {
  }

  lemma SettledLasts(r: Registry, e: Event, wait: WaitId)
    requires Inv(r) && wait in r.results && wait !in r.timers
    ensures SettledAs(Step(r, e), wait, r.results[wait])
  {
    assert WaitOk(r, wait);
    match e
    case DoUnwatch(tab) => assert WatchOk(r, tab);
    case TabRemoved(tab) => assert WatchOk(r, tab);
    case Connect(s, port) => if Admissible(r, s) { assert WatchOk(r, s.tab.value); }
    case _ =>
  }

  // ----- what each event makes of a watch -----

  /** A watch starts empty, under a number of its own; a matching document is recorded and any other loses
      its record; an admitted port turns its record into a frame; a failed injection takes its own record
      out, a disconnect and a `forget` their own frame, and the end of a watch takes everything. */
  lemma WatchesTell(r: Registry, e: Event, tab: TabId, frame: FrameId)
    requires Inv(r)
    ensures var n := Step(r, e);
      && (e == DoUnwatch(tab) || e == TabRemoved(tab) ==> tab !in n.watches)
      && (e.DoWatch? && e.tab == tab && tab !in r.watches ==>
            tab in n.watches && n.watches[tab] == Watch(r.generation + 1, e.pattern, map[], map[], {})
              && n.generation == r.generation + 1)
    ensures tab in r.watches && e.Loaded? && e.tab == tab && e.frame == frame && frame != 0 ==>
      var (w, n) := (r.watches[tab], Step(r, e));
      && tab in n.watches && n.watches[tab].frames == w.frames
      && if Fits(w.pattern, e.url)
         then frame in n.watches[tab].pending && n.watches[tab].pending[frame].url == e.url
              && n.watches[tab].pending[frame].generation == w.generation
         else frame !in n.watches[tab].pending
    ensures tab in r.watches && e.InjectFailed? && e.tab == tab && e.frame == frame ==>
      var (w, n) := (r.watches[tab], Step(r, e));
      && tab in n.watches
      && (frame in n.watches[tab].pending <==>
            frame in w.pending && !(w.pending[frame].url == e.url && w.pending[frame].generation == e.generation))
  {
    assert WatchOk(r, tab);
  }

  /** A frame goes by the disconnect of its own port, and by a `forget` that aims at that port or at none. */
  lemma RemovedFramesGo(r: Registry, tab: TabId, frame: FrameId)
    requires tab in r.watches && frame in r.watches[tab].frames
    ensures var port := r.watches[tab].frames[frame].port;
      forall e :: e in {Disconnect(tab, frame, port), Forget(tab, frame, None), Forget(tab, frame, Some(port))} ==>
        tab in Step(r, e).watches && Step(r, e).watches[tab].frames == r.watches[tab].frames - {frame}
  {
  }

  /** An admitted port is observed from then on, with the url and the parent on record. */
  lemma AdmittedIsObserved(r: Registry, s: Sender, port: Port)
    requires Inv(r) && Admissible(r, s)
    ensures var (tab, frame) := (s.tab.value, s.frame.value); var n := Step(r, Connect(s, port));
      var p := r.watches[tab].pending[frame];
      && tab in n.watches && frame in n.watches[tab].frames
      && n.watches[tab].frames[frame] == Frame(p.url, p.parent, port)
      && frame !in n.watches[tab].pending
      && (forall other :: other in r.watches[tab].frames && other != frame ==>
            other in n.watches[tab].frames && n.watches[tab].frames[other] == r.watches[tab].frames[other])
  {
  }

  /** The url of the last document that this frame finished. */
  function LastLoad(es: seq<Event>, tab: TabId, frame: FrameId): Option<string> {
    if es == [] then None
    else
      var e := es[|es| - 1];
      if e.Loaded? && e.tab == tab && e.frame == frame then Some(e.url) else LastLoad(es[..|es| - 1], tab, frame)
  }

  /** A document that finishes replaces the record of the one before, or removes it. */
  lemma LoadedReplaces(r: Registry, tab: TabId, frame: FrameId, parent: FrameId, url: string)
    requires Inv(r)
    ensures var n := OnLoaded(r, tab, frame, parent, url);
      tab in n.watches && frame in n.watches[tab].pending ==> n.watches[tab].pending[frame].url == url
  {
    assert WatchOk(r, tab);
  }

  lemma {:induction false} PendingIsLastLoad(es: seq<Event>, tab: TabId, frame: FrameId)
    ensures var r := Steps(es);
      tab in r.watches && frame in r.watches[tab].pending ==>
        LastLoad(es, tab, frame) == Some(r.watches[tab].pending[frame].url)
  {
    if es != [] {
      var (before, e) := (es[..|es| - 1], es[|es| - 1]);
      PendingIsLastLoad(before, tab, frame);
      RunKeeps(before);
      var r := Steps(before);
      if e.Loaded? && e.tab == tab && e.frame == frame {
        LoadedReplaces(r, tab, frame, e.parent, e.url);
      } else if tab in Step(r, e).watches && !(tab !in r.watches && e.DoWatch?) {
        StepAdds(r, e, tab, frame);
      }
    }
  }

  /** Only the current document of a frame is admitted: a port that gets in was opened by the last
      document the frame finished, and that document's url is one its tab is watched for. */
  lemma {:induction false} AdmittedIsCurrent(es: seq<Event>, s: Sender)
    requires Admissible(Steps(es), s)
    ensures s.url.Some? && LastLoad(es, s.tab.value, s.frame.value) == s.url
    ensures Fits(Steps(es).watches[s.tab.value].pattern, s.url.value)
  {
    PendingIsLastLoad(es, s.tab.value, s.frame.value);
    RunKeeps(es);
    assert WatchOk(Steps(es), s.tab.value);
  }

  // ----- the code -----

  lemma TimersOneFewer(timers: set<WaitId>, ended: map<WaitId, Result>, wait: WaitId, result: Result)
    ensures timers - ended[wait := result].Keys == timers - ended.Keys - {wait}
  {}

  lemma SettleOneMore(r: Registry, ended: map<WaitId, Result>, wait: WaitId, result: Result)
    requires wait !in ended
    ensures var (n, m) := (Settle(r, ended), Settle(r, ended[wait := result]));
      && m.timers == n.timers - {wait} && m.results == n.results[wait := result]
      && m.again == (n.again || wait in n.results)
      && m.watches == n.watches && m.generation == n.generation && m.asked == n.asked
  {
    TimersOneFewer(r.timers, ended, wait, result);
    assert r.results + ended[wait := result] == (r.results + ended)[wait := result];
    if wait in r.results { assert wait in ended[wait := result]; }
    if w :| w in ended && w in r.results { assert w in ended[wait := result]; }
  }

  lemma SettleNone(r: Registry)
    ensures Settle(r, map[]) == r
  {
    var none: map<WaitId, Result> := map[];
    assert r.timers - none.Keys == r.timers;
    assert r.results + none == r.results;
  }

  lemma EndOneMore(done: set<WaitId>, wait: WaitId, result: Result)
    ensures EndAll(done + {wait}, result) == EndAll(done, result)[wait := result]
  {}

  lemma NotifyNone(r: Registry, frames: map<FrameId, Frame>)
    ensures Notified({}, r.asked, frames).Keys == {} && Settle(r, Notified({}, r.asked, frames)) == r
  {
    SettleNone(r);
    assert Notified({}, r.asked, frames) == map[];
  }

  lemma NotifyOneMore(done: set<WaitId>, wait: WaitId, asked: map<WaitId, Asked>, frames: map<FrameId, Frame>)
    requires wait in asked && wait !in done
    ensures var found := Matching(frames, asked[wait].criterion);
      var ended := Notified(done, asked, frames);
      Notified(done + {wait}, asked, frames) == if found != [] then ended[wait := Found(found)] else ended
  {}

  class FrameRegistry {
    var watches: map<TabId, Watch>
    var generation: nat
    var asked: map<WaitId, Asked>
    var timers: set<WaitId>
    var results: map<WaitId, Result>
    var again: bool

    constructor ()
      ensures View() == START && Inv(View())
    {
      watches, generation, asked, timers, results, again := map[], 0, map[], {}, map[], false;
    }

    function View(): Registry
      reads this
    {
      Registry(watches, generation, asked, timers, results, again)
    }

    /** `settle`, but for the entry in the watch's own set. */
    method SettleWait(ghost r: Registry, ghost ended: map<WaitId, Result>, wait: WaitId, result: Result)
      requires View() == Settle(r, ended) && wait !in ended
      modifies `timers, `results, `again
      ensures View() == Settle(r, ended[wait := result])
    {
      SettleOneMore(r, ended, wait, result);
      timers := timers - {wait};
      again := again || wait in results;
      results := results[wait := result];
    }

    method EndWaits(waits: set<WaitId>, result: Result)
      modifies `timers, `results, `again
      ensures View() == Settle(old(View()), EndAll(waits, result))
    {
      ghost var was := View();
      var left := waits;
      SettleNone(was);
      assert EndAll(waits - left, result) == map[];
      while left != {}
        invariant left <= waits
        invariant View() == Settle(was, EndAll(waits - left, result))
        decreases |left|
      {
        var wait :| wait in left;
        ghost var done := waits - left;
        EndOneMore(done, wait, result);
        SettleWait(was, EndAll(done, result), wait, result);
        left := left - {wait};
        assert waits - left == done + {wait};
      }
      assert waits - left == waits;
    }

    /** `watch`; false where the source throws. */
    method DoWatch(tab: TabId, pattern: Option<string>) returns (ok: bool)
      requires Inv(View())
      modifies `watches, `generation
      ensures View() == Step(old(View()), Event.DoWatch(tab, pattern)) && Inv(View())
      ensures ok == (tab !in old(watches))
    {
      WatchKeeps(View(), tab, pattern);
      if tab in watches { return false; }
      generation := generation + 1;
      watches := watches[tab := Watch(generation, pattern, map[], map[], {})];
      ok := true;
    }

    method DoUnwatch(tab: TabId) returns (released: nat)
      requires Inv(View())
      modifies this
      ensures View() == Step(old(View()), Event.DoUnwatch(tab)) && Inv(View())
      ensures released == if tab in old(watches) then |old(watches)[tab].frames| else 0
    {
      UnwatchKeeps(View(), tab);
      if tab !in watches { return 0; }
      var w := watches[tab];
      watches := watches - {tab};
      released := |w.frames|;
      generation := generation + 1;
      EndWaits(w.waits, Unwatched);
    }

    method OnTabRemoved(tab: TabId)
      requires Inv(View())
      modifies this
      ensures View() == Step(old(View()), TabRemoved(tab)) && Inv(View())
    {
      TabRemovedKeeps(View(), tab);
      if tab in watches {
        var w := watches[tab];
        watches := watches - {tab};
        EndWaits(w.waits, TabClosed);
      }
    }

    method ForgetFrame(tab: TabId, frame: FrameId, port: Option<Port>)
      requires Inv(View())
      modifies `watches
      ensures View() == Step(old(View()), Forget(tab, frame, port)) && Inv(View())
    {
      ForgetKeeps(View(), tab, frame, port);
      if tab !in watches { return; }
      var w := watches[tab];
      if port.Some? && !(frame in w.frames && w.frames[frame].port == port.value) { return; }
      watches := watches[tab := w.(frames := w.frames - {frame})];
    }

    method FrameDisconnected(tab: TabId, frame: FrameId, port: Port)
      requires Inv(View())
      modifies `watches
      ensures View() == Step(old(View()), Disconnect(tab, frame, port)) && Inv(View())
    {
      DisconnectKeeps(View(), tab, frame, port);
      if tab in watches && frame in watches[tab].frames && watches[tab].frames[frame].port == port {
        var w := watches[tab];
        watches := watches[tab := w.(frames := w.frames - {frame})];
      }
    }

    method AwaitFrame(tab: TabId, wait: WaitId, c: Criterion, remaining: int)
      requires Inv(View()) && wait !in asked
      modifies this
      ensures View() == Step(old(View()), Await(tab, wait, c, remaining)) && Inv(View())
    {
      AwaitKeeps(View(), tab, wait, c, remaining);
      asked := asked[wait := Asked(tab, c)];
      ghost var r := View();
      if tab !in watches {
        SettleNone(r);
        SettleWait(r, map[], wait, Unwatched);
        return;
      }
      var found := Matching(watches[tab].frames, c);
      if found != [] {
        SettleNone(r);
        SettleWait(r, map[], wait, Found(found));
      } else if remaining <= 0 {
        SettleNone(r);
        SettleWait(r, map[], wait, TimedOut);
      } else {
        timers := timers + {wait};
        watches := watches[tab := watches[tab].(waits := watches[tab].waits + {wait})];
      }
    }

    method TimerFired(wait: WaitId)
      requires Inv(View()) && wait in timers && wait in asked
      modifies this
      ensures View() == Step(old(View()), Timeout(wait)) && Inv(View())
    {
      TimeoutKeeps(View(), wait);
      var tab := asked[wait].tab;
      SettleNone(View());
      SettleWait(View(), map[], wait, TimedOut);
      if tab in watches {
        watches := watches[tab := watches[tab].(waits := watches[tab].waits - {wait})];
      }
    }

    method FrameLoaded(tab: TabId, frame: FrameId, parent: FrameId, url: string) returns (inject: bool)
      requires Inv(View())
      modifies `watches
      ensures View() == Step(old(View()), Loaded(tab, frame, parent, url)) && Inv(View())
      ensures inject ==> tab in watches && frame in watches[tab].pending
    {
      LoadedKeeps(View(), tab, frame, parent, url);
      if tab !in watches || frame == 0 { return false; }
      var w := watches[tab];
      if w.pattern.Some? && !Matches(w.pattern.value, url) {
        watches := watches[tab := w.(pending := w.pending - {frame})];
        return false;
      }
      if frame in w.pending && w.pending[frame].url == url && w.pending[frame].generation == w.generation {
        return false;
      }
      watches := watches[tab := w.(pending := w.pending[frame := Pending(url, parent, w.generation)])];
      inject := true;
    }

    method OnInjectFailed(tab: TabId, frame: FrameId, url: string, generation: nat)
      requires Inv(View())
      modifies `watches
      ensures View() == Step(old(View()), InjectFailed(tab, frame, url, generation)) && Inv(View())
    {
      InjectFailedKeeps(View(), tab, frame, url, generation);
      if tab !in watches { return; }
      var w := watches[tab];
      if frame in w.pending && w.pending[frame].url == url && w.pending[frame].generation == generation {
        watches := watches[tab := w.(pending := w.pending - {frame})];
      }
    }

    method NotifyWait(ghost was: Registry, ghost done: set<WaitId>, wait: WaitId, frames: map<FrameId, Frame>,
        told: set<WaitId>) returns (told': set<WaitId>)
      requires asked == was.asked && wait in asked && wait !in done
      requires SettledSoFar(was, Notified(done, was.asked, frames), told)
      modifies `timers, `results, `again
      ensures SettledSoFar(was, Notified(done + {wait}, was.asked, frames), told')
    {
      NotifyOneMore(done, wait, asked, frames);
      var found := Matching(frames, asked[wait].criterion);
      if found != [] {
        SettleWait(was, Notified(done, asked, frames), wait, Found(found));
        told' := told + {wait};
      } else {
        told' := told;
      }
    }

    ghost predicate SettledSoFar(was: Registry, ended: map<WaitId, Result>, told: set<WaitId>)
      reads this
    {
      View() == Settle(was, ended) && told == ended.Keys
    }

    method NotifyWaits(waits: set<WaitId>, frames: map<FrameId, Frame>) returns (told: set<WaitId>)
      requires waits <= asked.Keys
      modifies `timers, `results, `again
      ensures SettledSoFar(old(View()), Notified(waits, asked, frames), told)
    {
      ghost var was, done: set<WaitId> := View(), {};
      var left := waits;
      told := {};
      NotifyNone(was, frames);
      while left != {}
        invariant left <= waits && done == waits - left
        invariant SettledSoFar(was, Notified(done, was.asked, frames), told)
        decreases |left|
      {
        var wait :| wait in left;
        told := NotifyWait(was, done, wait, frames, told);
        left, done := left - {wait}, done + {wait};
      }
      assert done == waits;
    }

    method Connected(s: Sender, port: Port) returns (admitted: bool)
      requires Inv(View())
      modifies this
      ensures View() == Step(old(View()), Connect(s, port)) && Inv(View())
      ensures admitted == Admissible(old(View()), s)
    {
      ghost var was := View();
      ConnectKeeps(was, s, port);
      if !s.named || s.tab.None? || s.frame.None? || s.frame.value == 0 { return false; }
      var (tab, frame) := (s.tab.value, s.frame.value);
      if tab !in watches || frame !in watches[tab].pending { return false; }
      var w := watches[tab];
      var p := w.pending[frame];
      if p.generation != w.generation || s.url != Some(p.url) { return false; }
      assert WatchOk(was, tab);
      w := w.(pending := w.pending - {frame}, frames := w.frames[frame := Frame(p.url, p.parent, port)]);
      var told := NotifyWaits(w.waits, w.frames);
      watches := watches[tab := w.(waits := w.waits - told)];
      admitted := true;
    }
  }
}
