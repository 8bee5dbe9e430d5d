/**
 Hops and pages of the HAR recorder (extension/src/har-recorder.ts): webRequest events open and
 end hops, webNavigation events open and bind pages, and the two streams arrive in any order.
 */
module Hops {
  import opened Base

  type RequestId = nat

  datatype Side = RequestSide | BeforeSide | CommittedSide

  /** A page is known by its number; the one of the document already loaded is 1. */
  datatype Page = Page(id: nat, start: int, request: bool, before: bool, committed: bool, urls: set<string>) {
    predicate Seen(side: Side) {
      match side
      case RequestSide => request
      case BeforeSide => before
      case CommittedSide => committed
    }

    function Mark(side: Side): Page {
      match side
      case RequestSide => this.(request := true)
      case BeforeSide => this.(before := true)
      case CommittedSide => this.(committed := true)
    }
  }

  datatype Hop = Hop(
    request: RequestId, url: string, pageref: nat, closed: bool,
    end: Option<int>, error: Option<string>, redirectUrl: Option<string>)

  /** `binds` is the history of which side of which page took an event. */
  datatype Recording = Recording(
    pages: seq<Page>, hops: seq<Hop>, current: map<RequestId, nat>, navigations: map<RequestId, nat>,
    binds: seq<(nat, Side)>)

  function Start(now: int): Recording {
    Recording([Page(1, now, true, true, true, {})], [], map[], map[], [])
  }

  function WithoutFragment(url: string): (r: string)
    ensures r <= url && '#' !in r
    ensures |r| < |url| ==> url[|r|] == '#'
  {
    if url == "" || url[0] == '#' then "" else [url[0]] + WithoutFragment(url[1..])
  }

  function Earlier(a: int, b: int): int {
    if a <= b then a else b
  }

  // ----- pages -----

  function OpenPage(r: Recording, start: int): Recording {
    r.(pages := r.pages + [Page(|r.pages| + 1, start, false, false, false, {})])
  }

  /** Firefox fires onBeforeNavigate again before a cross-process commit. */
  predicate Repeats(r: Recording, side: Side, url: string) {
    && side.BeforeSide? && r.pages != []
    && var last := r.pages[|r.pages| - 1];
    last.before && !last.committed && WithoutFragment(url) in last.urls
  }

  /** The latest page still waits for this side of a navigation that went through this url. */
  predicate Waits(r: Recording, side: Side, url: string) {
    && r.pages != []
    && var last := r.pages[|r.pages| - 1];
    !last.Seen(side) && (last.urls == {} || WithoutFragment(url) in last.urls)
  }

  function Bound(page: Page, side: Side, stamp: int, url: string): Page {
    page.Mark(side).(urls := page.urls + {WithoutFragment(url)}, start := Earlier(page.start, stamp))
  }

  function BindLast(r: Recording, side: Side, stamp: int, url: string): Recording {
    var k := |r.pages| - 1;
    if k < 0 then r
    else r.(pages := r.pages[k := Bound(r.pages[k], side, stamp, url)], binds := r.binds + [(k, side)])
  }

  /** `bindPage`: the recording afterwards; the page bound is its latest. */
  function BindPage(r: Recording, side: Side, stamp: int, url: string): Recording {
    if Repeats(r, side, url) then r
    else if Waits(r, side, url) then BindLast(r, side, stamp, url)
    else BindLast(OpenPage(r, stamp), side, stamp, url)
  }

  /** `navigationPage`: the index of the page of a top-level request. */
  function NavigationPage(r: Recording, id: RequestId, stamp: int, url: string): (Recording, nat) {
    if id in r.navigations && r.navigations[id] < |r.pages| then
      var k := r.navigations[id];
      (r.(pages := r.pages[k := r.pages[k].(urls := r.pages[k].urls + {WithoutFragment(url)})]), k)
    else
      var bound := BindPage(r, RequestSide, stamp, url);
      var k := if bound.pages == [] then 0 else |bound.pages| - 1;
      (bound.(navigations := bound.navigations[id := k]), k)
  }

  // ----- hops -----

  /** `beforeRequest`; `top` is a main_frame request of frame 0. */
  function BeforeRequest(r: Recording, id: RequestId, url: string, top: bool, stamp: int): Recording {
    var (paged, ref) :=
      if top then
        var (p, k) := NavigationPage(r, id, stamp, url);
        (p, if k < |p.pages| then p.pages[k].id else 0)
      else if id in r.current && r.current[id] < |r.hops| then (r, r.hops[r.current[id]].pageref)
      else (r, if r.pages == [] then 0 else r.pages[|r.pages| - 1].id);
    paged.(hops := r.hops + [Hop(id, url, ref, false, None, None, None)], current := r.current[id := |r.hops|])
  }

  /** `openHop`: the hop an event belongs to. */
  function OpenHop(r: Recording, id: RequestId, url: string): Option<nat> {
    if id in r.current && r.current[id] < |r.hops| && !r.hops[r.current[id]].closed && r.hops[r.current[id]].url == url
    then Some(r.current[id]) else None
  }

  /** `ended` and `failed` with the `close` they share; a redirected hop stays current. */
  function End(r: Recording, id: RequestId, url: string, stamp: int, error: Option<string>,
      redirectUrl: Option<string>): Recording {
    var open := OpenHop(r, id, url);
    if open.None? then r
    else
      var hop := r.hops[open.value].(closed := true, end := Some(stamp), error := error, redirectUrl := redirectUrl);
      r.(hops := r.hops[open.value := hop], current := if redirectUrl.Some? then r.current else r.current - {id})
  }

  datatype Event =
    | Request(id: RequestId, url: string, top: bool, stamp: int)
    | Redirected(id: RequestId, url: string, stamp: int, to: string)
    | Completed(id: RequestId, url: string, stamp: int)
    | Failed(id: RequestId, url: string, stamp: int, error: string)
    | BeforeNavigate(url: string, stamp: int)
    | Committed(url: string, stamp: int)

  function Step(r: Recording, e: Event): Recording {
    match e
    case Request(id, url, top, stamp) => BeforeRequest(r, id, url, top, stamp)
    case Redirected(id, url, stamp, to) => End(r, id, url, stamp, None, Some(to))
    case Completed(id, url, stamp) => End(r, id, url, stamp, None, None)
    case Failed(id, url, stamp, error) => End(r, id, url, stamp, Some(error), None)
    case BeforeNavigate(url, stamp) => BindPage(r, BeforeSide, stamp, url)
    case Committed(url, stamp) => BindPage(r, CommittedSide, stamp, url)
  }

  function Steps(r: Recording, es: seq<Event>): Recording
    decreases |es|
  {
    if es == [] then r else Step(Steps(r, es[..|es| - 1]), es[|es| - 1])
  }

  // ----- the invariant -----

  predicate HopOk(pages: nat, h: Hop) {
    && 1 <= h.pageref <= pages
    && (h.closed <==> h.end.Some?)
    && (h.error.Some? || h.redirectUrl.Some? ==> h.closed)
    && !(h.error.Some? && h.redirectUrl.Some?)
  }

  ghost predicate PagesOk(pages: seq<Page>, binds: seq<(nat, Side)>) {
    && pages != []
    && (forall k :: 0 <= k < |pages| ==> pages[k].id == k + 1)
    && (forall side :: pages[0].Seen(side))
    && (forall k, side :: 0 <= k < |pages| ==> ((k, side) in binds ==> k > 0 && pages[k].Seen(side)))
    && (forall k, side :: 0 < k < |pages| && pages[k].Seen(side) ==> (k, side) in binds)
    && (forall b :: b in binds ==> b.0 < |pages|)
    && (forall i, j :: 0 <= i < j < |binds| ==> binds[i] != binds[j])
  }

  ghost predicate NavigationsOk(pages: seq<Page>, navigations: map<RequestId, nat>) {
    && (forall id :: id in navigations ==> 0 < navigations[id] < |pages| && pages[navigations[id]].request)
    && (forall i, j :: i in navigations && j in navigations && i != j ==> navigations[i] != navigations[j])
  }

  ghost predicate Inv(r: Recording) {
    && PagesOk(r.pages, r.binds)
    && NavigationsOk(r.pages, r.navigations)
    && (forall i :: 0 <= i < |r.hops| ==> HopOk(|r.pages|, r.hops[i]))
    && (forall id :: id in r.current ==> r.current[id] < |r.hops| && r.hops[r.current[id]].request == id)
  }

  // ----- every step keeps it -----

  lemma OpenedOk(pages: seq<Page>, binds: seq<(nat, Side)>, start: int)
    requires PagesOk(pages, binds)
    ensures PagesOk(pages + [Page(|pages| + 1, start, false, false, false, {})], binds)
  {
  }

  lemma MarkedOk(pages: seq<Page>, binds: seq<(nat, Side)>, side: Side, page: Page)
    requires PagesOk(pages, binds) && !pages[|pages| - 1].Seen(side)
    requires var last := pages[|pages| - 1];
      page.id == last.id && forall s :: page.Seen(s) <==> last.Seen(s) || s == side
    ensures PagesOk(pages[|pages| - 1 := page], binds + [(|pages| - 1, side)])
  {
    var k := |pages| - 1;
    assert (k, side) !in binds;
    assert forall b :: b in binds + [(k, side)] <==> b in binds || b == (k, side);
  }

  /** The recording with its pages grown or marked, and nothing else changed. */
  lemma PagesGrow(r: Recording, pages: seq<Page>, binds: seq<(nat, Side)>)
    requires Inv(r) && PagesOk(pages, binds) && |r.pages| <= |pages|
    requires forall k :: 0 <= k < |r.pages| && r.pages[k].request ==> pages[k].request
    ensures Inv(r.(pages := pages, binds := binds))
  {
  }

  lemma BindLastKeeps(r: Recording, side: Side, stamp: int, url: string)
    requires Inv(r) && !r.pages[|r.pages| - 1].Seen(side)
    ensures Inv(BindLast(r, side, stamp, url)) && BindLast(r, side, stamp, url).pages[|r.pages| - 1].Seen(side)
    ensures side.RequestSide? ==>
      |r.pages| > 1 && forall id :: id in r.navigations ==> r.navigations[id] != |r.pages| - 1
  {
    var k := |r.pages| - 1;
    var page := Bound(r.pages[k], side, stamp, url);
    MarkedOk(r.pages, r.binds, side, page);
    PagesGrow(r, r.pages[k := page], r.binds + [(k, side)]);
  }

  lemma OpenKeeps(r: Recording, start: int)
    requires Inv(r)
    ensures Inv(OpenPage(r, start))
  {
    OpenedOk(r.pages, r.binds, start);
    PagesGrow(r, OpenPage(r, start).pages, r.binds);
  }

  /** Binding marks a side that was not marked, on the latest page or on a new one. */
  lemma BindKeeps(r: Recording, side: Side, stamp: int, url: string)
    requires Inv(r)
    ensures var r' := BindPage(r, side, stamp, url);
      && Inv(r') && |r.pages| <= |r'.pages|
      && r'.hops == r.hops && r'.current == r.current && r'.navigations == r.navigations
      && r'.pages[|r'.pages| - 1].Seen(side)
      && (side.RequestSide? ==>
            |r'.pages| > 1 && forall id :: id in r.navigations ==> r.navigations[id] != |r'.pages| - 1)
  {
    if !Repeats(r, side, url) {
      if Waits(r, side, url) {
        BindLastKeeps(r, side, stamp, url);
      } else {
        OpenKeeps(r, stamp);
        BindLastKeeps(OpenPage(r, stamp), side, stamp, url);
      }
    }
  }

  lemma NavigationKeeps(r: Recording, id: RequestId, stamp: int, url: string)
    requires Inv(r)
    ensures var (r', k) := NavigationPage(r, id, stamp, url);
      && Inv(r') && k < |r'.pages| && |r.pages| <= |r'.pages| && r'.hops == r.hops && r'.current == r.current
  {
    if id in r.navigations {
      var k := r.navigations[id];
      var pages := r.pages[k := r.pages[k].(urls := r.pages[k].urls + {WithoutFragment(url)})];
      assert PagesOk(pages, r.binds);
    } else {
      BindKeeps(r, RequestSide, stamp, url);
    }
  }

  lemma RequestKeeps(r: Recording, id: RequestId, url: string, top: bool, stamp: int)
    requires Inv(r)
    ensures Inv(BeforeRequest(r, id, url, top, stamp))
  {
    if top { NavigationKeeps(r, id, stamp, url); }
  }

  lemma EndKeeps(r: Recording, id: RequestId, url: string, stamp: int, error: Option<string>,
      redirectUrl: Option<string>)
    requires Inv(r) && !(error.Some? && redirectUrl.Some?)
    ensures Inv(End(r, id, url, stamp, error, redirectUrl))
  {
  }

  lemma StepKeeps(r: Recording, e: Event)
    requires Inv(r)
    ensures Inv(Step(r, e))
  {
    match e
    case Request(id, url, top, stamp) => RequestKeeps(r, id, url, top, stamp);
    case Redirected(id, url, stamp, to) => EndKeeps(r, id, url, stamp, None, Some(to));
    case Completed(id, url, stamp) => EndKeeps(r, id, url, stamp, None, None);
    case Failed(id, url, stamp, error) => EndKeeps(r, id, url, stamp, Some(error), None);
    case BeforeNavigate(url, stamp) => BindKeeps(r, BeforeSide, stamp, url);
    case Committed(url, stamp) => BindKeeps(r, CommittedSide, stamp, url);
  }

  lemma {:induction false} RunKeeps(now: int, es: seq<Event>)
    ensures Inv(Steps(Start(now), es))
  {
    if es != [] {
      RunKeeps(now, es[..|es| - 1]);
      StepKeeps(Steps(Start(now), es[..|es| - 1]), es[|es| - 1]);
    }
  }

  // ----- what it promises -----

  /** A hop that ended keeps its end, error and redirect whatever comes; every hop keeps its page. */
  lemma {:induction false} EndedHopsAreFrozen(r: Recording, es: seq<Event>, i: nat)
    requires Inv(r) && i < |r.hops|
    ensures var r' := Steps(r, es);
      && i < |r'.hops| && r'.hops[i].pageref == r.hops[i].pageref
      && (r.hops[i].closed ==> r'.hops[i] == r.hops[i])
    ensures Inv(Steps(r, es))
    decreases |es|
  {
    if es != [] {
      EndedHopsAreFrozen(r, es[..|es| - 1], i);
      var before := Steps(r, es[..|es| - 1]);
      StepKeeps(before, es[|es| - 1]);
      HopStays(before, es[|es| - 1], i);
    }
  }

  lemma HopStays(r: Recording, e: Event, i: nat)
    requires Inv(r) && i < |r.hops|
    ensures var r' := Step(r, e);
      && i < |r'.hops| && r'.hops[i].pageref == r.hops[i].pageref && (r.hops[i].closed ==> r'.hops[i] == r.hops[i])
  {
    match e
    case Request(id, url, top, stamp) => if top { NavigationKeeps(r, id, stamp, url); }
    case BeforeNavigate(url, stamp) => BindKeeps(r, BeforeSide, stamp, url);
    case Committed(url, stamp) => BindKeeps(r, CommittedSide, stamp, url);
    case _ =>
  }

  /** The mark `finish` puts on a hop when the recording stops. */
  predicate Pending(h: Hop) {
    h.end.None?
  }

  /** In every run: a hop is pending exactly when no event ended it, an error or a redirect comes only
      with an end, page numbers are distinct, and every hop refers to a page of the recording. */
  lemma {:induction false} HopsAndPages(now: int, es: seq<Event>)
    ensures var r := Steps(Start(now), es);
      && (forall i :: 0 <= i < |r.hops| ==>
            && (Pending(r.hops[i]) <==> !r.hops[i].closed)
            && (Pending(r.hops[i]) ==> r.hops[i].error.None? && r.hops[i].redirectUrl.None?)
            && exists k :: 0 <= k < |r.pages| && r.pages[k].id == r.hops[i].pageref)
      && (forall j, k :: 0 <= j < k < |r.pages| ==> r.pages[j].id != r.pages[k].id)
  {
    RunKeeps(now, es);
    var r := Steps(Start(now), es);
    forall i | 0 <= i < |r.hops|
      ensures exists k :: 0 <= k < |r.pages| && r.pages[k].id == r.hops[i].pageref
    {
      assert r.pages[r.hops[i].pageref - 1].id == r.hops[i].pageref;
    }
    IdsDiffer(r.pages, r.binds);
  }

  lemma IdsDiffer(pages: seq<Page>, binds: seq<(nat, Side)>)
    requires PagesOk(pages, binds)
    ensures forall j, k :: 0 <= j < k < |pages| ==> pages[j].id != pages[k].id
  {
  }

  /** In every run each side of a navigation takes at most one request, before or commit to a page, the
      page already loaded takes none, and no two requests share a page. */
  lemma {:induction false} SidesBindOnce(now: int, es: seq<Event>)
    ensures var r := Steps(Start(now), es);
      && (forall i, j :: 0 <= i < j < |r.binds| ==> r.binds[i] != r.binds[j])
      && (forall i :: 0 <= i < |r.binds| ==> 0 < r.binds[i].0 < |r.pages| && r.pages[r.binds[i].0].Seen(r.binds[i].1))
      && (forall i, j :: i in r.navigations && j in r.navigations && i != j ==> r.navigations[i] != r.navigations[j])
  {
    RunKeeps(now, es);
    var r := Steps(Start(now), es);
    forall i | 0 <= i < |r.binds|
      ensures 0 < r.binds[i].0 < |r.pages| && r.pages[r.binds[i].0].Seen(r.binds[i].1)
    {
      BindIsSeen(r.pages, r.binds, i);
    }
  }

  lemma BindIsSeen(pages: seq<Page>, binds: seq<(nat, Side)>, i: nat)
    requires PagesOk(pages, binds) && i < |binds|
    ensures 0 < binds[i].0 < |pages| && pages[binds[i].0].Seen(binds[i].1)
  {
    var (k, side) := binds[i];
    assert (k, side) in binds;
  }

  predicate AllTop(es: seq<Event>, id: RequestId) {
    forall e :: e in es && e.Request? && e.id == id ==> e.top
  }

  /** The pages of navigations and hops stay, and a new top-level hop is on its navigation's page. */
  ghost predicate KeepsPages(r: Recording, n: Recording) {
    && (forall id :: id in r.navigations ==> id in n.navigations && n.navigations[id] == r.navigations[id])
    && |r.hops| <= |n.hops|
    && (forall i :: 0 <= i < |r.hops| ==>
          n.hops[i].request == r.hops[i].request && n.hops[i].pageref == r.hops[i].pageref)
  }

  lemma EndKeepsPages(r: Recording, id: RequestId, url: string, stamp: int, error: Option<string>,
      redirectUrl: Option<string>)
    ensures var n := End(r, id, url, stamp, error, redirectUrl); KeepsPages(r, n) && |n.hops| == |r.hops|
  {
  }

  lemma NavigationKeepsPages(r: Recording, id: RequestId, stamp: int, url: string)
    requires Inv(r)
    ensures var (n, k) := NavigationPage(r, id, stamp, url);
      && KeepsPages(r, n) && n.hops == r.hops && id in n.navigations && n.navigations[id] == k
      && k < |n.pages| && n.pages[k].id == k + 1
  {
    NavigationKeeps(r, id, stamp, url);
    if id !in r.navigations { BindKeeps(r, RequestSide, stamp, url); }
  }

  lemma RequestKeepsPages(r: Recording, id: RequestId, url: string, top: bool, stamp: int)
    requires Inv(r)
    ensures var n := BeforeRequest(r, id, url, top, stamp);
      && KeepsPages(r, n) && |n.hops| == |r.hops| + 1 && n.hops[|r.hops|].request == id
      && (top ==> id in n.navigations && n.hops[|r.hops|].pageref == n.navigations[id] + 1)
  {
    if top { NavigationKeepsPages(r, id, stamp, url); }
  }

  /** A step keeps the page of every navigation and hop, and puts a new top-level hop on its navigation's page. */
  lemma StepKeepsPages(r: Recording, e: Event)
    requires Inv(r)
    ensures var n := Step(r, e);
      && KeepsPages(r, n) && |n.hops| <= |r.hops| + 1
      && (|r.hops| < |n.hops| ==> (
            && e.Request? && n.hops[|r.hops|].request == e.id
            && (e.top ==> e.id in n.navigations && n.hops[|r.hops|].pageref == n.navigations[e.id] + 1)))
  {
    match e
    case Request(id, url, top, stamp) => RequestKeepsPages(r, id, url, top, stamp);
    case BeforeNavigate(url, stamp) => BindKeeps(r, BeforeSide, stamp, url);
    case Committed(url, stamp) => BindKeeps(r, CommittedSide, stamp, url);
    case Redirected(id, url, stamp, to) => EndKeepsPages(r, id, url, stamp, None, Some(to));
    case Completed(id, url, stamp) => EndKeepsPages(r, id, url, stamp, None, None);
    case Failed(id, url, stamp, error) => EndKeepsPages(r, id, url, stamp, Some(error), None);
  }

  ghost predicate OnOnePage(r: Recording, id: RequestId) {
    forall i :: 0 <= i < |r.hops| && r.hops[i].request == id ==>
      id in r.navigations && r.hops[i].pageref == r.navigations[id] + 1
  }

  lemma StepStaysOnPage(r: Recording, e: Event, id: RequestId)
    requires Inv(r) && OnOnePage(r, id) && (e.Request? && e.id == id ==> e.top)
    ensures OnOnePage(Step(r, e), id)
  {
    StepKeepsPages(r, e);
    var n := Step(r, e);
    forall i | 0 <= i < |n.hops| && n.hops[i].request == id
      ensures id in n.navigations && n.hops[i].pageref == n.navigations[id] + 1
    {
      if i < |r.hops| { assert r.hops[i].request == id; } else { assert i == |r.hops| && e.id == id; }
    }
  }

  /** All hops of a top-level request, however often it redirects and whatever comes between, are on
      the one page its navigation is bound to. */
  lemma {:induction false} OneRequestOnePage(now: int, es: seq<Event>, id: RequestId)
    requires AllTop(es, id)
    ensures OnOnePage(Steps(Start(now), es), id)
  {
    if es != [] {
      var before, e := es[..|es| - 1], es[|es| - 1];
      assert e in es;
      OneRequestOnePage(now, before, id);
      RunKeeps(now, before);
      StepStaysOnPage(Steps(Start(now), before), e, id);
    }
  }

  // ----- the three sides of one navigation -----

  predicate Complete(page: Page) {
    page.request && page.before && page.committed
  }

  /** The latest page after a bind knows the url and has the side. */
  lemma BoundLast(r: Recording, side: Side, stamp: int, url: string)
    requires Inv(r)
    ensures var n := BindPage(r, side, stamp, url);
      && n.pages != [] && WithoutFragment(url) in n.pages[|n.pages| - 1].urls && n.pages[|n.pages| - 1].Seen(side)
      && (!Repeats(r, side, url) ==> n.pages[|n.pages| - 1].start <= stamp)
      && |r.pages| <= |n.pages| <= |r.pages| + 1
  {
  }

  /** Two sides of one url, in either order, are on one page, unless that page had the second already. */
  lemma SidesShare(r: Recording, first: Side, second: Side, stamp: int, stamp2: int, url: string)
    requires Inv(r)
    requires var b := BindPage(r, first, stamp, url); b.pages != [] && !b.pages[|b.pages| - 1].Seen(second)
    ensures var b := BindPage(r, first, stamp, url); var n := BindPage(b, second, stamp2, url); var k := |b.pages| - 1;
      |n.pages| == |b.pages| && n.pages[k].Seen(first) && n.pages[k].Seen(second)
  {
    BoundLast(r, first, stamp, url);
    LandsOnLast(BindPage(r, first, stamp, url), second, stamp2, url);
  }

  lemma LandsOnLast(r: Recording, side: Side, stamp: int, url: string)
    requires r.pages != []
    requires var last := r.pages[|r.pages| - 1]; !last.Seen(side) && WithoutFragment(url) in last.urls
    ensures var n := BindPage(r, side, stamp, url); var k := |r.pages| - 1;
      && |n.pages| == |r.pages| && n.pages[k].Seen(side)
      && (forall other: Side :: r.pages[k].Seen(other) ==> n.pages[k].Seen(other))
      && n.pages[k].start == Earlier(r.pages[k].start, stamp)
  {
  }

  /** A before that comes again ahead of the commit, as Firefox sends it for another process, changes nothing. */
  lemma SecondBeforeIsIgnored(r: Recording, stamp: int, stamp2: int, url: string)
    requires Inv(r)
    requires var b := BindPage(r, BeforeSide, stamp, url); b.pages != [] && !b.pages[|b.pages| - 1].committed
    ensures var b := BindPage(r, BeforeSide, stamp, url); BindPage(b, BeforeSide, stamp2, url) == b
  {
    BoundLast(r, BeforeSide, stamp, url);
  }

  /** What an event of a navigation binds. */
  predicate Binds(e: Event, side: Side, url: string, id: RequestId) {
    match side
    case RequestSide => e.Request? && e.top && e.url == url && e.id == id
    case BeforeSide => e.BeforeNavigate? && e.url == url
    case CommittedSide => e.Committed? && e.url == url
  }

  /** The event's own stamp. */
  lemma EventBinds(r: Recording, e: Event, side: Side, url: string, id: RequestId)
    requires Inv(r) && Binds(e, side, url, id) && id !in r.navigations
    ensures var n := Step(r, e); var b := BindPage(r, side, e.stamp, url);
      && n.pages == b.pages && Inv(n)
      && (side.RequestSide? ==>
            && |n.hops| == |r.hops| + 1 && n.navigations == r.navigations[id := |n.pages| - 1]
            && n.hops[|r.hops|].pageref == n.pages[|n.pages| - 1].id && n.hops[|r.hops|].request == id)
      && (!side.RequestSide? ==> n.hops == r.hops && n.navigations == r.navigations)
  {
    StepKeeps(r, e);
    BindKeeps(r, side, e.stamp, url);
  }

  /** A page on which a navigation of this url is under way. */
  predicate UnderWay(r: Recording, n: nat, url: string, seen: set<Side>) {
    && |r.pages| == n + 1
    && (forall side :: r.pages[n].Seen(side) <==> side in seen)
    && r.pages[n].urls == {WithoutFragment(url)} && r.pages[n].id == n + 1
  }

  lemma FirstOpens(r: Recording, side: Side, stamp: int, url: string)
    requires Inv(r) && Complete(r.pages[|r.pages| - 1])
    ensures UnderWay(BindPage(r, side, stamp, url), |r.pages|, url, {side})
    ensures BindPage(r, side, stamp, url).pages[..|r.pages|] == r.pages
  {
  }

  lemma NextLands(r: Recording, n: nat, seen: set<Side>, side: Side, stamp: int, url: string)
    requires UnderWay(r, n, url, seen) && seen != {} && side !in seen
    ensures UnderWay(BindPage(r, side, stamp, url), n, url, seen + {side})
    ensures BindPage(r, side, stamp, url).pages[..n] == r.pages[..n]
  {
  }

  /** The recording since `was`: one more page, on which the navigation of request `id` has these sides,
      and one more hop on it once the request came. */
  ghost predicate Since(was: Recording, r: Recording, url: string, id: RequestId, seen: set<Side>) {
    var k, i := |was.pages|, |was.hops|;
    && Inv(r) && UnderWay(r, k, url, seen) && r.pages[..k] == was.pages
    && (id in r.navigations <==> RequestSide in seen)
    && if RequestSide in seen
       then r.navigations[id] == k && |r.hops| == i + 1 && r.hops[i].request == id && r.hops[i].pageref == k + 1
       else r.hops == was.hops
  }

  lemma FirstSide(was: Recording, e: Event, side: Side, url: string, id: RequestId)
    requires Inv(was) && Complete(was.pages[|was.pages| - 1]) && id !in was.navigations && Binds(e, side, url, id)
    ensures Since(was, Step(was, e), url, id, {side})
  {
    EventBinds(was, e, side, url, id);
    FirstOpens(was, side, e.stamp, url);
  }

  lemma NextSide(was: Recording, r: Recording, e: Event, side: Side, url: string, id: RequestId, seen: set<Side>)
    requires Since(was, r, url, id, seen) && seen != {} && side !in seen && Binds(e, side, url, id)
    ensures Since(was, Step(r, e), url, id, seen + {side})
  {
    StepKeeps(r, e);
    NextLands(r, |was.pages|, seen, side, e.stamp, url);
    if side.RequestSide? {
      EventBinds(r, e, side, url, id);
    }
  }

  /** The request, the before and the commit of one navigation, in whatever order they come, open one page
      and are all on it; its hop is too. */
  lemma OneNavigationOnePage(r: Recording, es: seq<Event>, sides: seq<Side>, url: string, id: RequestId)
    requires Inv(r) && Complete(r.pages[|r.pages| - 1]) && id !in r.navigations
    requires |es| == |sides| == 3 && (forall i :: 0 <= i < 3 ==> Binds(es[i], sides[i], url, id))
    requires sides[0] != sides[1] && sides[0] != sides[2] && sides[1] != sides[2]
    ensures OnePage(r, Step(Step(Step(r, es[0]), es[1]), es[2]), url, id)
  {
    FirstSide(r, es[0], sides[0], url, id);
    var r1 := Step(r, es[0]);
    NextSide(r, r1, es[1], sides[1], url, id, {sides[0]});
    LastSide(r, Step(r1, es[1]), es[2], sides, url, id);
  }

  /** One more page, with all three sides of this url, and one more hop, of the request and on that page. */
  ghost predicate OnePage(was: Recording, r: Recording, url: string, id: RequestId) {
    var k, i := |was.pages|, |was.hops|;
    && |r.pages| == k + 1 && r.pages[..k] == was.pages && Complete(r.pages[k])
    && r.pages[k].urls == {WithoutFragment(url)}
    && id in r.navigations && r.navigations[id] == k
    && |r.hops| == i + 1 && r.hops[i].request == id && r.hops[i].pageref == r.pages[k].id
  }

  lemma LastSide(was: Recording, r: Recording, e: Event, sides: seq<Side>, url: string, id: RequestId)
    requires |sides| == 3 && sides[0] != sides[1] && sides[0] != sides[2] && sides[1] != sides[2]
    requires Since(was, r, url, id, {sides[0]} + {sides[1]}) && Binds(e, sides[2], url, id)
    ensures OnePage(was, Step(r, e), url, id)
  {
    NextSide(was, r, e, sides[2], url, id, {sides[0]} + {sides[1]});
    ThreeSides(sides);
    AllSides(was, Step(r, e), url, id);
  }

  lemma AllSides(was: Recording, r: Recording, url: string, id: RequestId)
    requires Since(was, r, url, id, {RequestSide, BeforeSide, CommittedSide})
    ensures OnePage(was, r, url, id)
  {
    var k := |was.pages|;
    assert r.pages[k].Seen(RequestSide) && r.pages[k].Seen(BeforeSide) && r.pages[k].Seen(CommittedSide);
  }

  lemma ThreeSides(sides: seq<Side>)
    requires |sides| == 3 && sides[0] != sides[1] && sides[0] != sides[2] && sides[1] != sides[2]
    ensures {sides[0]} + {sides[1]} + {sides[2]} == {RequestSide, BeforeSide, CommittedSide}
  {
  }

  /** After a redirect the commit of the new url lands on the page of the request. */
  lemma RedirectKeepsThePage(r: Recording, id: RequestId, url: string, stamp: int, stamp2: int)
    requires Inv(r) && id in r.navigations && r.navigations[id] == |r.pages| - 1 && !r.pages[|r.pages| - 1].committed
    ensures var n := Step(Step(r, Request(id, url, true, stamp)), Committed(url, stamp2)); var k := |r.pages| - 1;
      && |n.pages| == |r.pages| && n.pages[k].committed && n.navigations[id] == k
      && n.hops[|r.hops|].pageref == n.pages[k].id
  {
    var b := Step(r, Request(id, url, true, stamp));
    assert |b.pages| == |r.pages| && WithoutFragment(url) in b.pages[|r.pages| - 1].urls;
  }

  // ----- the ends of hops -----

  /** Hop `i` is the latest of its request. */
  predicate Latest(r: Recording, i: nat) {
    i < |r.hops| && forall j :: i < j < |r.hops| ==> r.hops[j].request != r.hops[i].request
  }

  /** The request is still under way at this hop: it is open, or redirected. */
  predicate GoesOn(h: Hop) {
    !h.closed || h.redirectUrl.Some?
  }

  /** A hop that is the latest of its request, while that goes on, is the one its events are for. */
  predicate OpenIsCurrent(r: Recording, i: nat) {
    Latest(r, i) && GoesOn(r.hops[i]) ==> r.hops[i].request in r.current && r.current[r.hops[i].request] == i
  }

  lemma OpenStaysCurrent(r: Recording, e: Event, i: nat)
    requires Inv(r) && OpenIsCurrent(r, i)
    ensures OpenIsCurrent(Step(r, e), i)
  {
    match e
    case Request(id, url, top, stamp) => RequestStaysCurrent(r, id, url, top, stamp, i);
    case BeforeNavigate(url, stamp) => BindKeeps(r, BeforeSide, stamp, url);
    case Committed(url, stamp) => BindKeeps(r, CommittedSide, stamp, url);
    case Redirected(id, url, stamp, to) => EndStaysCurrent(r, id, url, stamp, None, Some(to), i);
    case Completed(id, url, stamp) => EndStaysCurrent(r, id, url, stamp, None, None, i);
    case Failed(id, url, stamp, error) => EndStaysCurrent(r, id, url, stamp, Some(error), None, i);
  }

  lemma RequestStaysCurrent(r: Recording, id: RequestId, url: string, top: bool, stamp: int, i: nat)
    requires Inv(r) && OpenIsCurrent(r, i)
    ensures OpenIsCurrent(BeforeRequest(r, id, url, top, stamp), i)
  {
    if top { NavigationKeeps(r, id, stamp, url); }
    var n := BeforeRequest(r, id, url, top, stamp);
    if Latest(n, i) && i < |r.hops| {
      assert n.hops[|r.hops|].request == id;
      assert forall j :: i < j < |r.hops| ==> n.hops[j] == r.hops[j];
    }
  }

  lemma EndStaysCurrent(r: Recording, id: RequestId, url: string, stamp: int, error: Option<string>,
      redirectUrl: Option<string>, i: nat)
    requires Inv(r) && OpenIsCurrent(r, i)
    ensures OpenIsCurrent(End(r, id, url, stamp, error, redirectUrl), i)
  {
    EndKeepsPages(r, id, url, stamp, error, redirectUrl);
    var n := End(r, id, url, stamp, error, redirectUrl);
    assert Latest(n, i) ==> Latest(r, i);
  }

  lemma {:induction false} OpenHopsAreCurrent(now: int, es: seq<Event>, i: nat)
    ensures OpenIsCurrent(Steps(Start(now), es), i)
  {
    if es != [] {
      var before := es[..|es| - 1];
      OpenHopsAreCurrent(now, before, i);
      RunKeeps(now, before);
      OpenStaysCurrent(Steps(Start(now), before), es[|es| - 1], i);
    }
  }

  predicate Ends(e: Event) {
    e.Redirected? || e.Completed? || e.Failed?
  }

  /** What the event says of the hop it ends. */
  function Ended(h: Hop, e: Event): Hop
    requires Ends(e)
  {
    h.(closed := true, end := Some(e.stamp), error := if e.Failed? then Some(e.error) else None,
       redirectUrl := if e.Redirected? then Some(e.to) else None)
  }

  /** An event that ends a hop ends the latest of its request, if that is open and of the event's url, with
      the event's stamp and its error or redirect; it changes no other hop, and none at all otherwise. */
  lemma {:induction false} EndsTheLatestHop(now: int, es: seq<Event>, e: Event, i: nat)
    requires Ends(e) && i < |Steps(Start(now), es).hops|
    ensures var r := Steps(Start(now), es); var n := Steps(Start(now), es + [e]);
      && |n.hops| == |r.hops| && n.pages == r.pages
      && n.hops[i] == if Latest(r, i) && r.hops[i].request == e.id && !r.hops[i].closed && r.hops[i].url == e.url
                      then Ended(r.hops[i], e) else r.hops[i]
  {
    var r := Steps(Start(now), es);
    assert (es + [e])[..|es|] == es;
    RunKeeps(now, es);
    OpenHopsAreCurrent(now, es, i);
    CurrentIsLatest(now, es, e.id);
    EndsOne(r, e, i);
  }

  /** The hop a request is at is its latest. */
  lemma {:induction false} CurrentIsLatest(now: int, es: seq<Event>, id: RequestId)
    ensures AtLatest(Steps(Start(now), es), id)
  {
    if es != [] {
      var before := es[..|es| - 1];
      CurrentIsLatest(now, before, id);
      RunKeeps(now, before);
      LatestStays(Steps(Start(now), before), es[|es| - 1], id);
    }
  }

  /** Where a request is, if it is anywhere. */
  predicate AtLatest(r: Recording, id: RequestId) {
    id in r.current ==> Latest(r, r.current[id]) && GoesOn(r.hops[r.current[id]])
  }

  lemma LatestStays(r: Recording, e: Event, id: RequestId)
    requires Inv(r) && AtLatest(r, id)
    ensures AtLatest(Step(r, e), id)
  {
    match e
    case Request(q, url, top, stamp) => if top { NavigationKeeps(r, q, stamp, url); }
    case BeforeNavigate(url, stamp) => BindKeeps(r, BeforeSide, stamp, url);
    case Committed(url, stamp) => BindKeeps(r, CommittedSide, stamp, url);
    case Redirected(q, url, stamp, to) => EndLeavesLatest(r, q, url, stamp, None, Some(to), id);
    case Completed(q, url, stamp) => EndLeavesLatest(r, q, url, stamp, None, None, id);
    case Failed(q, url, stamp, error) => EndLeavesLatest(r, q, url, stamp, Some(error), None, id);
  }

  lemma EndLeavesLatest(r: Recording, q: RequestId, url: string, stamp: int, error: Option<string>,
      redirectUrl: Option<string>, id: RequestId)
    requires Inv(r) && AtLatest(r, id)
    ensures AtLatest(End(r, q, url, stamp, error, redirectUrl), id)
  {
    EndKeepsPages(r, q, url, stamp, error, redirectUrl);
  }

  lemma EndsOne(r: Recording, e: Event, i: nat)
    requires Inv(r) && Ends(e) && i < |r.hops| && OpenIsCurrent(r, i)
    requires e.id in r.current ==> Latest(r, r.current[e.id])
    ensures var n := Step(r, e);
      && |n.hops| == |r.hops| && n.pages == r.pages
      && n.hops[i] == if Latest(r, i) && r.hops[i].request == e.id && !r.hops[i].closed && r.hops[i].url == e.url
                      then Ended(r.hops[i], e) else r.hops[i]
  {
  }

  /** A request that is no navigation stays, through its redirects, on the page of its first hop, which is
      the latest page there was: a new hop is on the page of the hop before while the request goes on. */
  lemma {:induction false} SubresourcesStayOnTheirPage(now: int, es: seq<Event>, id: RequestId, url: string,
      stamp: int, i: nat)
    ensures var r := Steps(Start(now), es); var n := Steps(Start(now), es + [Request(id, url, false, stamp)]);
      && |n.hops| == |r.hops| + 1 && n.pages == r.pages && n.pages != []
      && (Latest(r, i) && r.hops[i].request == id && GoesOn(r.hops[i]) ==>
            n.hops[|r.hops|].pageref == r.hops[i].pageref)
      && ((forall j :: 0 <= j < |r.hops| && r.hops[j].request == id ==> !GoesOn(r.hops[j])) ==>
            n.hops[|r.hops|].pageref == r.pages[|r.pages| - 1].id)
  {
    var r := Steps(Start(now), es);
    assert (es + [Request(id, url, false, stamp)])[..|es|] == es;
    RunKeeps(now, es);
    OpenHopsAreCurrent(now, es, i);
    CurrentIsLatest(now, es, id);
  }

  /** A request opens a hop of its own, of its url, that has not ended. */
  lemma RequestsOpenHops(r: Recording, id: RequestId, url: string, top: bool, stamp: int)
    requires Inv(r)
    ensures var n := Step(r, Request(id, url, top, stamp)); var i := |r.hops|;
      && n.hops[..i] == r.hops && |n.hops| == i + 1 && Latest(n, i)
      && n.hops[i] == Hop(id, url, n.hops[i].pageref, false, None, None, None)
  {
    if top { NavigationKeeps(r, id, stamp, url); }
  }

  // ----- the object -----

  class HopLog {
    var pages: seq<Page>
    var hops: seq<Hop>
    var current: map<RequestId, nat>
    var navigations: map<RequestId, nat>
    ghost var binds: seq<(nat, Side)>

    constructor (now: int)
      ensures View() == Start(now) && Inv(View())
    {
      pages, hops, current, navigations, binds := [Page(1, now, true, true, true, {})], [], map[], map[], [];
    }

    ghost function View(): Recording
      reads this
    {
      Recording(pages, hops, current, navigations, binds)
    }

    /** `bindPage`: `k` is the index of the page it returns. */
    method Bind(side: Side, stamp: int, url: string) returns (k: nat)
      requires pages != []
      modifies this`pages, this`binds
      ensures View() == BindPage(old(View()), side, stamp, url) && pages != [] && k == |pages| - 1
    {
      var last := pages[|pages| - 1];
      var key := WithoutFragment(url);
      if side.BeforeSide? && last.before && !last.committed && key in last.urls {
        return |pages| - 1;
      }
      if last.Seen(side) || (last.urls != {} && key !in last.urls) {
        pages := pages + [Page(|pages| + 1, stamp, false, false, false, {})];
      }
      k := |pages| - 1;
      var page := pages[k].Mark(side);
      page := page.(urls := page.urls + {key});
      page := page.(start := Earlier(page.start, stamp));
      pages := pages[k := page];
      binds := binds + [(k, side)];
    }

    /** `navigationPage`. */
    method PageOfNavigation(id: RequestId, stamp: int, url: string) returns (k: nat)
      requires pages != []
      modifies this`pages, this`binds, this`navigations
      ensures (View(), k) == NavigationPage(old(View()), id, stamp, url) && k < |pages|
    {
      if id in navigations && navigations[id] < |pages| {
        k := navigations[id];
        pages := pages[k := pages[k].(urls := pages[k].urls + {WithoutFragment(url)})];
        return;
      }
      k := Bind(RequestSide, stamp, url);
      navigations := navigations[id := k];
    }

    /** `beforeRequest`, as far as hops and pages go. */
    method AddHop(id: RequestId, url: string, top: bool, stamp: int)
      requires pages != []
      modifies this
      ensures View() == BeforeRequest(old(View()), id, url, top, stamp) && pages != []
    {
      var ref: nat;
      if top {
        var k := PageOfNavigation(id, stamp, url);
        ref := pages[k].id;
      } else if id in current && current[id] < |hops| {
        ref := hops[current[id]].pageref;
      } else {
        ref := pages[|pages| - 1].id;
      }
      hops := hops + [Hop(id, url, ref, false, None, None, None)];
      current := current[id := |hops| - 1];
    }

    // the listeners

    /** `navigated`: the latest page has this side now, and no side of a page took two events. */
    method Navigated(side: Side, stamp: int, url: string)
      requires Inv(View())
      modifies this`pages, this`binds
      ensures View() == BindPage(old(View()), side, stamp, url)
      ensures Inv(View()) && pages[|pages| - 1].Seen(side)
    {
      ghost var was := View();
      var _ := Bind(side, stamp, url);
      BindKeeps(was, side, stamp, url);
    }

    /** One more hop; a top-level one is on the page of its navigation. */
    method OnBeforeRequest(id: RequestId, url: string, top: bool, stamp: int)
      requires Inv(View())
      modifies this
      ensures View() == BeforeRequest(old(View()), id, url, top, stamp)
      ensures Inv(View()) && KeepsPages(old(View()), View())
      ensures |hops| == |old(hops)| + 1
      ensures top ==> id in navigations && hops[|hops| - 1].pageref == navigations[id] + 1
    {
      ghost var was := View();
      AddHop(id, url, top, stamp);
      RequestKeeps(was, id, url, top, stamp);
      RequestKeepsPages(was, id, url, top, stamp);
    }

    /** `ended` and `failed`. */
    method OnEnd(id: RequestId, url: string, stamp: int, error: Option<string>, redirectUrl: Option<string>)
      requires Inv(View()) && !(error.Some? && redirectUrl.Some?)
      modifies this`hops, this`current
      ensures View() == End(old(View()), id, url, stamp, error, redirectUrl)
      ensures Inv(View()) && KeepsPages(old(View()), View())
      ensures forall i :: 0 <= i < |hops| && old(hops)[i].closed ==> hops[i] == old(hops)[i]
    {
      EndKeeps(View(), id, url, stamp, error, redirectUrl);
      EndKeepsPages(View(), id, url, stamp, error, redirectUrl);
      if id !in current || current[id] >= |hops| || hops[current[id]].closed || hops[current[id]].url != url {
        return;
      }
      var k := current[id];
      hops := hops[k := hops[k].(end := Some(stamp), error := error, redirectUrl := redirectUrl)];
      hops := hops[k := hops[k].(closed := true)];
      if redirectUrl.None? {
        current := current - {id};
      }
    }
  }
}
