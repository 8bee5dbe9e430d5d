/**
 The child path of an element (extension/src/content/unique-selector.ts) against a matcher for
 child combinators and :nth-of-type, sections 8.2 and 6.6.5.4 of Selectors Level 3. The document
 is a tree of tag names; an element is the path of child indices that leads to it from the root
 element. Tag names compare as written, as those of HTML elements do after `toLowerCase`.
 */
module TagPath {
  import opened Base

  type Tag = string

  datatype Node = Node(tag: Tag, children: seq<Node>)

  /** Where an element is: the index among its parent's children, at each level below the root. */
  type Place = seq<nat>

  predicate InTree(t: Node, at: Place)
    decreases |at|
  {
    at == [] || (at[0] < |t.children| && InTree(t.children[at[0]], at[1..]))
  }

  function Get(t: Node, at: Place): Node
    requires InTree(t, at)
    decreases |at|
  {
    if at == [] then t else Get(t.children[at[0]], at[1..])
  }

  function Parent(at: Place): Place
    requires at != []
  {
    at[..|at| - 1]
  }

  function Last(at: Place): nat
    requires at != []
  {
    at[|at| - 1]
  }

  // ----- selectors -----

  /** `tag` or `tag:nth-of-type(n)`. */
  datatype Segment = Segment(tag: Tag, nth: Option<nat>)

  /** How many of the first `i` children have this tag. */
  function Count(children: seq<Node>, i: nat, tag: Tag): nat
    requires i <= |children|
  {
    if i == 0 then 0 else Count(children, i - 1, tag) + if children[i - 1].tag == tag then 1 else 0
  }

  /** :nth-of-type(n): the element has n - 1 earlier siblings of its own type. The root element, which
      has no parent, is the first of its type. */
  predicate MatchesSegment(t: Node, at: Place, s: Segment)
    requires InTree(t, at)
  {
    && Get(t, at).tag == s.tag
    && (s.nth.Some? ==> s.nth.value == 1 + Earlier(t, at))
  }

  /** Earlier siblings of the same type. */
  function Earlier(t: Node, at: Place): nat
    requires InTree(t, at)
  {
    if at == [] then 0
    else
      ParentInTree(t, at);
      Count(Get(t, Parent(at)).children, Last(at), Get(t, at).tag)
  }

  /** The compound selectors of a child path, the outermost first, against an element. */
  predicate Matches(t: Node, at: Place, path: seq<Segment>)
    requires InTree(t, at)
    decreases |path|
  {
    && path != [] && MatchesSegment(t, at, path[|path| - 1])
    && (|path| > 1 ==> at != [] && (ParentInTree(t, at); Matches(t, Parent(at), path[..|path| - 1])))
  }

  lemma {:induction false} ParentInTree(t: Node, at: Place)
    requires InTree(t, at) && at != []
    ensures InTree(t, Parent(at))
    ensures Last(at) < |Get(t, Parent(at)).children| && Get(t, at) == Get(t, Parent(at)).children[Last(at)]
    decreases |at|
  {
    if |at| > 1 {
      var c := t.children[at[0]];
      ParentInTree(c, at[1..]);
      assert Parent(at)[1..] == Parent(at[1..]);
      assert Parent(at)[0] == at[0] && Last(at) == Last(at[1..]);
    } else {
      assert at[1..] == [] && Parent(at) == [];
    }
  }

  // ----- the printer -----

  /** `segment`: the position is printed only when the tag alone is ambiguous among the siblings. */
  function SegmentOf(t: Node, at: Place): Segment
    requires InTree(t, at)
  {
    var tag := Get(t, at).tag;
    if at == [] then Segment(tag, None)
    else
      ParentInTree(t, at);
      var children := Get(t, Parent(at)).children;
      Segment(tag, if Count(children, |children|, tag) > 1 then Some(1 + Count(children, Last(at), tag)) else None)
  }

  /** The segments from the element at `stop` down to the one at `at`. */
  function PathFrom(t: Node, stop: Place, at: Place): (path: seq<Segment>)
    requires InTree(t, at) && stop <= at
    ensures |path| == |at| - |stop| + 1
    decreases |at|
  {
    if at == stop then [SegmentOf(t, at)]
    else
      ParentInTree(t, at);
      PathFrom(t, stop, Parent(at)) + [SegmentOf(t, at)]
  }

  lemma PathStep(t: Node, stop: Place, at: Place, more: seq<Segment>)
    requires InTree(t, at)
    ensures at == stop ==> PathFrom(t, stop, at) + more == [SegmentOf(t, at)] + more
    ensures stop < at ==> (ParentInTree(t, at);
      PathFrom(t, stop, at) + more == PathFrom(t, stop, Parent(at)) + ([SegmentOf(t, at)] + more))
  {}

  /** Where the walk up from an element of the document ends. */
  function StopOf(at: Place, body: Option<Place>): Place {
    if body.Some? && body.value <= at then body.value else []
  }

  /** `tagPath`; a tree that is not the document's has neither a body nor a document element. */
  method TagPathOf(t: Node, at: Place, attached: bool, body: Option<Place>) returns (path: Option<seq<Segment>>)
    requires InTree(t, at)
    ensures path == if attached then Some(PathFrom(t, StopOf(at, body), at)) else None
  {
    ghost var stop := StopOf(at, body);
    var segments, current := [], at;
    while true
      invariant current <= at && InTree(t, current)
      invariant attached ==> stop <= current && PathFrom(t, stop, at) == PathFrom(t, stop, current) + segments
      decreases |current|
    {
      PathStep(t, stop, current, segments);
      segments := [SegmentOf(t, current)] + segments;
      if attached && (body == Some(current) || current == []) { return Some(segments); }
      if current == [] { return None; }
      ParentInTree(t, current);
      current := Parent(current);
    }
  }

  // ----- uniqueness -----

  lemma {:induction false} CountGrows(children: seq<Node>, i: nat, j: nat, tag: Tag)
    requires i <= j <= |children|
    ensures Count(children, i, tag) <= Count(children, j, tag)
  {
    if i < j { CountGrows(children, i, j - 1, tag); }
  }

  lemma CountStep(children: seq<Node>, i: nat, tag: Tag)
    requires i < |children| && children[i].tag == tag
    ensures Count(children, i + 1, tag) == Count(children, i, tag) + 1
  {}

  /** Two children of one tag have different numbers, and make the tag ambiguous. */
  lemma CountTells(children: seq<Node>, i: nat, j: nat, tag: Tag)
    requires i < j < |children| && children[i].tag == tag && children[j].tag == tag
    ensures Count(children, i, tag) < Count(children, j, tag) && Count(children, |children|, tag) > 1
  {
    CountStep(children, i, tag);
    CountGrows(children, i + 1, j, tag);
    CountStep(children, j, tag);
    CountGrows(children, j + 1, |children|, tag);
  }

  /** A path matches the element it was printed for, whatever the tree. */
  lemma {:induction false} PathMatchesItsElement(t: Node, stop: Place, at: Place)
    requires InTree(t, at) && stop <= at
    ensures Matches(t, at, PathFrom(t, stop, at))
    decreases |at|
  {
    if at != [] { ParentInTree(t, at); }
    if at != stop {
      PathMatchesItsElement(t, stop, Parent(at));
      var path := PathFrom(t, stop, at);
      assert path[..|path| - 1] == PathFrom(t, stop, Parent(at));
    }
  }

  /** No other element of the document matches the segment this one is printed as. */
  ghost predicate RootOnce(t: Node, stop: Place) {
    && InTree(t, stop)
    && forall other: Place :: InTree(t, other) && MatchesSegment(t, other, SegmentOf(t, stop)) ==> other == stop
  }

  /** No other element has the tag of this one. */
  ghost predicate TagOnce(t: Node, stop: Place) {
    && InTree(t, stop)
    && forall other: Place :: InTree(t, other) && Get(t, other).tag == Get(t, stop).tag ==> other == stop
  }

  lemma SiblingsDiffer(t: Node, at: Place, other: Place)
    requires InTree(t, at) && InTree(t, other) && at != [] && other != [] && Parent(at) == Parent(other)
    requires MatchesSegment(t, other, SegmentOf(t, at))
    ensures other == at
  {
    ParentInTree(t, at);
    ParentInTree(t, other);
    var children := Get(t, Parent(at)).children;
    var (i, j) := (Last(at), Last(other));
    var tag := Get(t, at).tag;
    if i < j { CountTells(children, i, j, tag); }
    if j < i { CountTells(children, j, i, tag); }
    assert at == Parent(at) + [i] && other == Parent(other) + [j];
  }

  /** If the root segment matches one element of the document, the path matches the element it was
      printed for and no other. */
  lemma {:induction false} PathIsUnique(t: Node, stop: Place, at: Place, other: Place)
    requires InTree(t, at) && stop <= at && RootOnce(t, stop)
    requires InTree(t, other)
    ensures Matches(t, other, PathFrom(t, stop, at)) <==> other == at
    decreases |at|
  {
    PathMatchesItsElement(t, stop, at);
    var path := PathFrom(t, stop, at);
    if at != [] { ParentInTree(t, at); }
    if Matches(t, other, path) && at != stop {
      assert path[..|path| - 1] == PathFrom(t, stop, Parent(at));
      ParentInTree(t, other);
      PathIsUnique(t, stop, Parent(at), Parent(other));
      SiblingsDiffer(t, at, other);
    }
  }

  /** Every path printed from `stop` matches the element it was printed for and no other. */
  ghost predicate PathsAreUnique(t: Node, stop: Place) {
    forall at: Place, other: Place ::
      InTree(t, at) && stop <= at && InTree(t, other) && Matches(t, other, PathFrom(t, stop, at)) ==> other == at
  }

  /** The paths printed from an element are all unique if and only if its own segment is. */
  lemma UniqueIffRootOnce(t: Node, stop: Place)
    requires InTree(t, stop)
    ensures PathsAreUnique(t, stop) <==> RootOnce(t, stop)
  {
    if RootOnce(t, stop) {
      forall at: Place, other: Place |
        InTree(t, at) && stop <= at && InTree(t, other) && Matches(t, other, PathFrom(t, stop, at))
        ensures other == at
      {
        PathIsUnique(t, stop, at, other);
      }
    }
    if PathsAreUnique(t, stop) {
      forall other: Place | InTree(t, other) && MatchesSegment(t, other, SegmentOf(t, stop)) ensures other == stop {
        assert PathFrom(t, stop, stop) == [SegmentOf(t, stop)];
        assert Matches(t, other, PathFrom(t, stop, stop));
      }
    }
  }

  /** In particular they are when the root tag occurs once; a position in the root segment can make
      them unique where the tag does not. */
  lemma TagOnceIsEnough(t: Node, stop: Place)
    requires TagOnce(t, stop)
    ensures RootOnce(t, stop)
  {
    forall other: Place | InTree(t, other) && MatchesSegment(t, other, SegmentOf(t, stop)) ensures other == stop {
      assert Get(t, other).tag == Get(t, stop).tag;
    }
  }

  lemma PositionIsEnough()
    ensures exists t: Node, stop: Place :: RootOnce(t, stop) && !TagOnce(t, stop)
  {
    var body := Node("body", []);
    var t := Node("html", [body, body]);
    var stop: Place, twin: Place := [0], [1];
    assert Count(t.children, 1, "body") == 1 && Count(t.children, 2, "body") == 2;
    assert Parent(stop) == [] && Parent(twin) == [];
    assert Get(t, twin).tag == Get(t, stop).tag;
    assert SegmentOf(t, stop) == Segment("body", Some(1));
    assert Earlier(t, twin) == 1;
    forall other: Place | InTree(t, other) && MatchesSegment(t, other, SegmentOf(t, stop)) ensures other == stop {
      if other != [] {
        assert t.children[other[0]] == body && InTree(body, other[1..]);
        assert other == [other[0]] + other[1..] == [other[0]];
      }
    }
    assert RootOnce(t, stop) && !TagOnce(t, stop);
  }

  /** `document.body`: the first child of the document element with one of the two tags. */
  function BodyFrom(children: seq<Node>, i: nat): Option<Place>
    requires i <= |children|
    decreases |children| - i
  {
    if i == |children| then None
    else if children[i].tag == "body" || children[i].tag == "frameset" then Some([i])
    else BodyFrom(children, i + 1)
  }

  function DocumentBody(t: Node): Option<Place> {
    if t.tag == "html" then BodyFrom(t.children, 0) else None
  }

  /** The path that `tagPath` prints for an element of the document matches another one too. */
  ghost predicate Ambiguous(t: Node, at: Place, other: Place) {
    && InTree(t, at) && InTree(t, other) && other != at
    && Matches(t, other, PathFrom(t, StopOf(at, DocumentBody(t)), at))
  }

  /** With a second body further down, a path from the document's own can match under it too. */
  lemma TwoBodies()
    ensures exists t, at, other :: Ambiguous(t, at, other)
  {
    var div := Node("div", []);
    var body := Node("body", [div]);
    var main := Node("main", [body]);
    var t := Node("html", [body, main]);
    var stop: Place, at: Place, other: Place := [0], [0, 0], [1, 0, 0];
    assert DocumentBody(t) == Some(stop) && StopOf(at, DocumentBody(t)) == stop;
    assert Get(t, at) == div;
    assert Parent(at) == stop && Parent(other) == [1, 0];
    assert Count([body, main], 1, "body") == 1;
    assert SegmentOf(t, stop) == Segment("body", None);
    assert Count([div], 1, "div") == 1;
    assert SegmentOf(t, at) == Segment("div", None);
    assert PathFrom(t, stop, stop) == [SegmentOf(t, stop)];
    assert PathFrom(t, stop, at) == [Segment("body", None), Segment("div", None)];
    assert Matches(t, [1, 0], [Segment("body", None)]);
    assert Ambiguous(t, at, other);
  }

  // ----- the whole document -----

  function Under(i: nat, places: seq<Place>): seq<Place> {
    seq(|places|, k requires 0 <= k < |places| => [i] + places[k])
  }

  /** Every element, in document order. */
  function All(t: Node): seq<Place>
    decreases t, 0
  {
    [[]] + AllFrom(t.children, 0)
  }

  function AllFrom(children: seq<Node>, i: nat): seq<Place>
    requires i <= |children|
    decreases children, |children| - i
  {
    if i == |children| then [] else Under(i, All(children[i])) + AllFrom(children, i + 1)
  }

  ghost predicate Once(places: seq<Place>) {
    forall j, k :: 0 <= j < k < |places| ==> places[j] != places[k]
  }

  lemma UnderIs(i: nat, places: seq<Place>)
    requires Once(places)
    ensures Once(Under(i, places))
    ensures forall p: Place :: p in Under(i, places) <==> p != [] && p[0] == i && p[1..] in places
  {
    var under := Under(i, places);
    forall j, k | 0 <= j < k < |under| ensures under[j] != under[k] {
      assert under[j][1..] == places[j] && under[k][1..] == places[k];
    }
    forall p: Place | p in under ensures p != [] && p[0] == i && p[1..] in places {
      var k :| 0 <= k < |under| && under[k] == p;
      assert p[1..] == places[k];
    }
    forall p: Place | p != [] && p[0] == i && p[1..] in places ensures p in under {
      var k :| 0 <= k < |places| && places[k] == p[1..];
      assert under[k] == p;
    }
  }

  lemma {:induction false} AllIsTheTree(t: Node)
    ensures Once(All(t)) && forall p: Place :: p in All(t) <==> InTree(t, p)
    decreases t, 0
  {
    AllFromIsTheRest(t.children, 0);
    var rest := AllFrom(t.children, 0);
    forall k | 0 <= k < |rest| ensures rest[k] != [] { assert rest[k] in rest; }
  }

  lemma {:induction false} AllFromIsTheRest(children: seq<Node>, i: nat)
    requires i <= |children|
    ensures Once(AllFrom(children, i))
    ensures forall p: Place :: p in AllFrom(children, i) <==>
      p != [] && i <= p[0] < |children| && InTree(children[p[0]], p[1..])
    decreases children, |children| - i
  {
    if i < |children| {
      AllIsTheTree(children[i]);
      UnderIs(i, All(children[i]));
      AllFromIsTheRest(children, i + 1);
      JoinOnce(Under(i, All(children[i])), AllFrom(children, i + 1));
    }
  }

  lemma JoinOnce(a: seq<Place>, b: seq<Place>)
    requires Once(a) && Once(b) && forall p :: p in a ==> p !in b
    ensures Once(a + b)
  {
    forall k | 0 <= k < |b| ensures b[k] in b {}
  }

  /** querySelectorAll of a child path. */
  function Query(t: Node, path: seq<Segment>, places: seq<Place>): (found: seq<Place>)
    ensures forall p :: p in found ==> p in places
  {
    if places == [] then []
    else
      var p := places[|places| - 1];
      Query(t, path, places[..|places| - 1]) + if InTree(t, p) && Matches(t, p, path) then [p] else []
  }

  lemma {:induction false} QueryOfOne(t: Node, path: seq<Segment>, places: seq<Place>, at: Place)
    requires Once(places) && InTree(t, at) && (forall p :: p in places ==> InTree(t, p))
    requires forall p: Place :: InTree(t, p) ==> (Matches(t, p, path) <==> p == at)
    ensures Query(t, path, places) == if at in places then [at] else []
  {
    if places != [] {
      var before, p := places[..|places| - 1], places[|places| - 1];
      assert p in places;
      QueryOfOne(t, path, before, at);
      assert places == before + [p];
      if p == at { assert at !in before; }
    }
  }

  datatype Choice = Other(k: nat) | ThePath(path: seq<Segment>)

  /** `uniqueSelector`: `others[k]` is what the document finds for candidate `k` before the path, if its
      selector parses. What is returned matches this element alone; an element gets a selector exactly
      when one of its candidates does, and always when its path's root segment is unique. */
  method UniqueSelector(t: Node, at: Place, attached: bool, body: Option<Place>, others: seq<Option<seq<Place>>>)
    returns (choice: Option<Choice>)
    requires InTree(t, at)
    ensures choice.Some? && choice.value.Other? ==> choice.value.k < |others| && others[choice.value.k] == Some([at])
    ensures choice.Some? && choice.value.ThePath? ==> Query(t, choice.value.path, All(t)) == [at]
    ensures choice.Some? <==>
      attached && (Some([at]) in others || Query(t, PathFrom(t, StopOf(at, body), at), All(t)) == [at])
    ensures attached && RootOnce(t, StopOf(at, body)) ==> choice.Some?
  {
    ghost var stop := StopOf(at, body);
    if RootOnce(t, stop) { PathIsFound(t, stop, at); }
    // nothing that the document finds is an element of a detached tree
    for k := 0 to |others|
      invariant attached ==> Some([at]) !in others[..k]
    {
      if attached && others[k] == Some([at]) { return Some(Other(k)); }
    }
    assert others[..|others|] == others;
    var path := TagPathOf(t, at, attached, body);
    if path.Some? && Query(t, path.value, All(t)) == [at] { return Some(ThePath(path.value)); }
    return None;
  }

  lemma PathIsFound(t: Node, stop: Place, at: Place)
    requires InTree(t, at) && stop <= at && RootOnce(t, stop)
    ensures Query(t, PathFrom(t, stop, at), All(t)) == [at]
  {
    AllIsTheTree(t);
    forall p: Place | InTree(t, p) ensures Matches(t, p, PathFrom(t, stop, at)) <==> p == at {
      PathIsUnique(t, stop, at, p);
    }
    QueryOfOne(t, PathFrom(t, stop, at), All(t), at);
  }
}
