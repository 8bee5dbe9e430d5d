/**
 Screenshots of one tab (extension/src/handlers/screenshot.ts and capture-locks.ts). Every
 capture passes through the tab's lock; a holder whose deadline fires loses it mid-section,
 and the duty to clear badges passes to whoever comes next through one boolean.

 Messages to the tab are delivered in the order they were sent. A removal takes effect unless
 the document is gone, which takes the badges and every message on the way with it.
 */
module Capture {
  import opened Base
  import L = Lock

  /** Badge messages on their way to the content script, each with the capture that sent it. */
  datatype Message = Annotate(sender: nat) | Remove(sender: nat)

  /** Where one `capture` is; between `AwaitInherited` and `AwaitOwnClear` it is in the section. */
  datatype Phase =
    | AwaitLock
    | AwaitInherited     // awaits the removal of badges an earlier holder left
    | AwaitAnnotate
    | AwaitCapture
    | AwaitOwnClear
    | Finished
  {
    predicate InSection() {
      !AwaitLock? && !Finished?
    }
  }

  /** The locals of one `capture`: `stale` of the source is `evicted`, `entered` is `InSection`. */
  datatype Shot = Shot(annotated: bool, ticket: nat, phase: Phase, evicted: bool, clearingInherited: bool)

  /** What one `captureTab` call rendered: for whom, whether that capture had been evicted by then,
      and whose badges were on the page. */
  datatype Image = Image(owner: nat, evicted: bool, badges: Option<nat>)

  datatype State = State(
    lock: L.Chain,
    staleAnnotations: bool,
    shots: seq<Shot>,
    queue: seq<Message>,       // sent, not yet handled by the content script
    painter: Option<nat>,      // whose badges are on the page
    images: seq<Image>)

  const START := State(L.IDLE, false, [], [], None, [])

  datatype Event =
    | Request(annotated: bool)     // readiness is over, acquire() is called
    | Enter(i: nat, late: bool)    // the lock opened; `late`: the deadline has already passed
    | Deadline(i: nat)             // the timer of a capture in its section fires
    | Deliver                      // the content script handles the next message
    | DocumentGone
    | Render(i: nat)               // Firefox renders the tab for capture i
    | Resume(i: nat)               // the call capture i awaits has settled, one way or the other

  function Put(s: State, i: nat, shot: Shot): State
    requires i < |s.shots|
  {
    s.(shots := s.shots[i := shot])
  }

  function Release(s: State, i: nat): State
    requires i < |s.shots|
  {
    s.(lock := s.lock.Release(s.shots[i].ticket))
  }

  /** `evict`: mark, hand the duty on, free the lock. */
  function Evict(s: State, i: nat): State
    requires i < |s.shots|
  {
    var shot := s.shots[i];
    var owes := shot.phase.InSection() && (shot.annotated || shot.clearingInherited);
    Release(Put(s, i, shot.(evicted := true)).(staleAnnotations := s.staleAnnotations || owes), i)
  }

  /** The section from `annotate` on, with nothing inherited left to clear. */
  function Proceed(s: State, i: nat): State
    requires i < |s.shots|
  {
    var shot := s.shots[i].(clearingInherited := false);
    if shot.annotated then Put(s, i, shot.(phase := AwaitAnnotate)).(queue := s.queue + [Annotate(i)])
    else Put(s, i, shot.(phase := AwaitCapture))
  }

  /** The last `finally`: the lock is freed, a second time if the holder was evicted. */
  function Finish(s: State, i: nat): State
    requires i < |s.shots|
  {
    Release(Put(s, i, s.shots[i].(phase := Finished, clearingInherited := false)), i)
  }

  function EnterLock(s: State, i: nat, late: bool): State {
    if i >= |s.shots| || !s.shots[i].phase.AwaitLock? || s.shots[i].evicted || !s.lock.Open(s.shots[i].ticket) then s
    else if late then
      var gone := Evict(s, i);
      Put(gone, i, gone.shots[i].(phase := Finished))
    else if s.staleAnnotations then
      Put(s, i, s.shots[i].(phase := AwaitInherited, clearingInherited := true))
        .(staleAnnotations := false, queue := s.queue + [Remove(i)])
    else Proceed(s, i)
  }

  /** The message capture `i` awaits has been handled. */
  predicate Answered(s: State, i: nat) {
    Annotate(i) !in s.queue && Remove(i) !in s.queue
  }

  function ResumeShot(s: State, i: nat): State {
    if i >= |s.shots| || !s.shots[i].phase.InSection() then s
    else
      var shot := s.shots[i];
      match shot.phase
      case AwaitInherited => if !Answered(s, i) then s else if shot.evicted then Finish(s, i) else Proceed(s, i)
      case AwaitAnnotate =>
        if !Answered(s, i) then s
        else if shot.evicted then Finish(s, i)
        else Put(s, i, shot.(phase := AwaitCapture))
      case AwaitCapture =>
        if shot.annotated && !shot.evicted
        then Put(s, i, shot.(phase := AwaitOwnClear)).(queue := s.queue + [Remove(i)])
        else Finish(s, i)
      case AwaitOwnClear => if !Answered(s, i) then s else Finish(s, i)
      case _ => s
  }

  function Step(s: State, e: Event): State {
    match e
    case Request(annotated) =>
      var lock := s.lock.Acquire();
      s.(lock := lock, shots := s.shots + [Shot(annotated, lock.tail, AwaitLock, false, false)])
    case Enter(i, late) => EnterLock(s, i, late)
    case Deadline(i) => if i < |s.shots| && s.shots[i].phase.InSection() && !s.shots[i].evicted then Evict(s, i) else s
    case Deliver =>
      if s.queue == [] then s
      else s.(queue := s.queue[1..], painter := if s.queue[0].Annotate? then Some(s.queue[0].sender) else None)
    case DocumentGone => s.(queue := [], painter := None)
    case Render(i) =>
      if i < |s.shots| && s.shots[i].phase.AwaitCapture?
        then s.(images := s.images + [Image(i, s.shots[i].evicted, s.painter)]) else s
    case Resume(i) => ResumeShot(s, i)
  }

  function Steps(es: seq<Event>): State {
    if es == [] then START else Step(Steps(es[..|es| - 1]), es[|es| - 1])
  }

  // ----- the invariant -----

  predicate Live(shot: Shot) {
    shot.phase.InSection() && !shot.evicted
  }

  /** Capture `i`'s message is the last one on its way, or the page has handled everything. */
  predicate Awaits(s: State, i: nat, m: Message, painters: set<Option<nat>>) {
    if s.queue == [] then s.painter in painters else s.queue[|s.queue| - 1] == m
  }

  /** What an un-evicted holder knows about the page. */
  predicate HolderOk(s: State, i: nat, shot: Shot) {
    match shot.phase
    case AwaitInherited => Awaits(s, i, Remove(i), {None})
    case AwaitAnnotate => shot.annotated && Awaits(s, i, Annotate(i), {None, Some(i)})
    case AwaitCapture => s.queue == [] && (s.painter == None || (shot.annotated && s.painter == Some(i)))
    case AwaitOwnClear => shot.annotated && Awaits(s, i, Remove(i), {None})
    case _ => true
  }

  predicate ShotOk(lock: L.Chain, shot: Shot) {
    && 0 < shot.ticket <= lock.tail
    && (Live(shot) ==> lock.Inside(shot.ticket))
    && (shot.phase.AwaitLock? ==> shot.ticket !in lock.resolved && !shot.evicted)
    && (shot.phase.InSection() && shot.evicted ==> shot.ticket in lock.resolved)
    && (shot.clearingInherited ==> shot.phase.AwaitInherited?)
    && (Live(shot) && shot.phase.AwaitInherited? ==> shot.clearingInherited)
  }

  /** Nothing of anybody's badges is on the page or on its way there. */
  predicate Clean(s: State) {
    s.queue == [] && s.painter == None
  }

  ghost predicate Inv(s: State) {
    && s.lock.Wf()
    && (forall i :: 0 <= i < |s.shots| ==> ShotOk(s.lock, s.shots[i]))
    && (forall i, j :: 0 <= i < j < |s.shots| ==> s.shots[i].ticket != s.shots[j].ticket)
    && (forall i :: 0 <= i < |s.shots| && Live(s.shots[i]) ==> HolderOk(s, i, s.shots[i]) && !s.staleAnnotations)
    && ((forall i :: 0 <= i < |s.shots| ==> !Live(s.shots[i])) ==> s.staleAnnotations || Clean(s))
  }

  // ----- every step keeps it -----

  /** At most one holder is un-evicted. */
  lemma OneLive(s: State, i: nat, j: nat)
    requires Inv(s) && i < |s.shots| && j < |s.shots| && Live(s.shots[i]) && Live(s.shots[j])
    ensures i == j
  {
    L.MutualExclusion(s.lock, s.shots[i].ticket, s.shots[j].ticket);
  }

  lemma LiveAlone(s: State, i: nat)
    requires Inv(s)
    ensures i < |s.shots| && Live(s.shots[i]) ==> forall j :: 0 <= j < |s.shots| && j != i ==> !Live(s.shots[j])
  {
    forall j | i < |s.shots| && Live(s.shots[i]) && 0 <= j < |s.shots| && j != i ensures !Live(s.shots[j]) {
      if Live(s.shots[j]) { OneLive(s, i, j); }
    }
  }

  /** The one whose ticket is open is the only one that can be live. */
  lemma NobodyElse(s: State, i: nat, j: nat)
    requires Inv(s) && i < |s.shots| && j < |s.shots| && Live(s.shots[j])
    requires s.lock.Inside(s.shots[i].ticket)
    ensures i == j
  {
    L.MutualExclusion(s.lock, s.shots[i].ticket, s.shots[j].ticket);
  }

  /** The holder, live or about to be, moves on to a state that keeps its side of the invariant. */
  lemma HolderMoves(s: State, i: nat, s': State)
    requires Inv(s) && i < |s.shots| && s.lock.Inside(s.shots[i].ticket)
    requires |s'.shots| == |s.shots| && s' == Put(s, i, s'.shots[i]).(queue := s'.queue, staleAnnotations := false)
    requires Live(s'.shots[i]) && ShotOk(s.lock, s'.shots[i]) && HolderOk(s', i, s'.shots[i])
    requires s'.shots[i].ticket == s.shots[i].ticket
    ensures Inv(s')
  {
    forall j | 0 <= j < |s'.shots| && Live(s'.shots[j]) ensures HolderOk(s', j, s'.shots[j]) {
      if j != i {
        NobodyElse(s, i, j);
      }
    }
  }

  /** The lock passes on: the one inside, live or just let in, leaves it. */
  lemma HolderLeaves(s: State, i: nat, shot: Shot, stale: bool)
    requires Inv(s) && i < |s.shots| && s.lock.Inside(s.shots[i].ticket)
    requires !Live(shot) && shot.ticket == s.shots[i].ticket && ShotOk(s.lock.Release(shot.ticket), shot)
    requires stale || Clean(s)
    ensures Inv(Release(Put(s, i, shot).(staleAnnotations := stale), i))
  {
    forall j | 0 <= j < |s.shots| && j != i ensures !Live(s.shots[j]) {
      if Live(s.shots[j]) {
        NobodyElse(s, i, j);
      }
    }
  }

  lemma RequestKeeps(s: State, annotated: bool)
    requires Inv(s)
    ensures Inv(Step(s, Request(annotated)))
  {
    var s' := Step(s, Request(annotated));
    forall i | 0 <= i < |s'.shots| ensures ShotOk(s'.lock, s'.shots[i]) {
      assert i < |s.shots| ==> s'.shots[i] == s.shots[i];
      assert forall t :: t in s.lock.resolved ==> t <= s.lock.tail;
    }
    assert !Live(s'.shots[|s.shots|]);
    assert forall i :: 0 <= i < |s.shots| ==> s'.shots[i] == s.shots[i];
  }

  lemma EvictKeeps(s: State, i: nat)
    requires Inv(s) && i < |s.shots| && Live(s.shots[i])
    ensures Inv(Evict(s, i))
  {
    var shot := s.shots[i];
    var owes := shot.annotated || shot.clearingInherited;
    HolderLeaves(s, i, shot.(evicted := true), s.staleAnnotations || owes);
  }

  lemma EnterKeeps(s: State, i: nat, late: bool)
    requires Inv(s)
    ensures Inv(EnterLock(s, i, late))
  {
    if i < |s.shots| && s.shots[i].phase.AwaitLock? && !s.shots[i].evicted && s.lock.Open(s.shots[i].ticket) {
      forall j | 0 <= j < |s.shots| ensures !Live(s.shots[j]) {
        if Live(s.shots[j]) {
          NobodyElse(s, i, j);
        }
      }
      var s' := EnterLock(s, i, late);
      if late {
        var shot := s.shots[i].(evicted := true, phase := Finished);
        HolderLeaves(s, i, shot, s.staleAnnotations);
        assert s' == Release(Put(s, i, shot), i);
      } else {
        HolderMoves(s, i, s');
      }
    }
  }

  lemma ResumeKeeps(s: State, i: nat)
    requires Inv(s)
    ensures Inv(ResumeShot(s, i))
  {
    var s' := ResumeShot(s, i);
    if s' != s {
      var shot := s.shots[i];
      if shot.evicted {
        EvictedLeaves(s, i);
      } else if s' == Finish(s, i) {
        HolderLeaves(s, i, shot.(phase := Finished, clearingInherited := false), s.staleAnnotations);
      } else {
        HolderMoves(s, i, s');
      }
    }
  }

  /** An evicted capture's own release changes nothing any more. */
  lemma EvictedLeaves(s: State, i: nat)
    requires Inv(s) && i < |s.shots| && s.shots[i].phase.InSection() && s.shots[i].evicted
    ensures Inv(Finish(s, i)) && Finish(s, i).lock == s.lock
  {
    var s' := Finish(s, i);
    assert s'.lock.resolved == s.lock.resolved;
    assert forall j :: 0 <= j < |s.shots| ==> Live(s'.shots[j]) == Live(s.shots[j]);
  }

  lemma PageKeeps(s: State)
    requires Inv(s)
    ensures Inv(Step(s, Deliver)) && Inv(Step(s, DocumentGone))
  {
    if s.queue != [] {
      var s' := Step(s, Deliver);
      forall i | 0 <= i < |s.shots| && Live(s.shots[i]) ensures HolderOk(s', i, s.shots[i]) {
        assert |s.queue| > 1 ==> s'.queue[|s'.queue| - 1] == s.queue[|s.queue| - 1];
      }
    }
  }

  /** An image made for an un-evicted capture shows its own badges, or none if it paints none. */
  ghost predicate ImageOk(s: State, image: Image) {
    && image.owner < |s.shots|
    && (!image.evicted ==>
          image.badges == None || (s.shots[image.owner].annotated && image.badges == Some(image.owner)))
  }

  lemma AnnotatedStays(s: State, e: Event, i: nat)
    requires i < |s.shots|
    ensures var s' := Step(s, e); i < |s'.shots| && s'.shots[i].annotated == s.shots[i].annotated
  {
  }

  lemma ImagesKeep(s: State, e: Event)
    requires Inv(s) && (forall k :: 0 <= k < |s.images| ==> ImageOk(s, s.images[k]))
    ensures var s' := Step(s, e); forall k :: 0 <= k < |s'.images| ==> ImageOk(s', s'.images[k])
  {
    var s' := Step(s, e);
    forall k | 0 <= k < |s'.images| ensures ImageOk(s', s'.images[k]) {
      if k < |s.images| {
        assert ImageOk(s, s.images[k]);
        AnnotatedStays(s, e, s.images[k].owner);
      }
    }
  }

  lemma StepKeeps(s: State, e: Event)
    requires Inv(s)
    ensures Inv(Step(s, e))
  {
    match e
    case Request(annotated) => RequestKeeps(s, annotated);
    case Enter(i, late) => EnterKeeps(s, i, late);
    case Deadline(i) => if i < |s.shots| && Live(s.shots[i]) { EvictKeeps(s, i); }
    case Deliver => PageKeeps(s);
    case DocumentGone => PageKeeps(s);
    case Render(i) =>
    case Resume(i) => ResumeKeeps(s, i);
  }

  lemma {:induction false} RunKeeps(es: seq<Event>)
    ensures var s := Steps(es); Inv(s) && (forall k :: 0 <= k < |s.images| ==> ImageOk(s, s.images[k]))
  {
    if es != [] {
      RunKeeps(es[..|es| - 1]);
      StepKeeps(Steps(es[..|es| - 1]), es[|es| - 1]);
      ImagesKeep(Steps(es[..|es| - 1]), es[|es| - 1]);
    }
  }

  // ----- what it promises -----

  /** Bound to clear the page before it lets the lock go. */
  predicate Bound(shot: Shot) {
    Live(shot) && (shot.annotated || shot.clearingInherited)
  }

  /** The duty is never lost: while badges are on the page, or on their way to it, an un-evicted
      holder is bound to clear them or the next one will inherit the duty. */
  lemma DutyIsNeverLost(es: seq<Event>)
    ensures var s := Steps(es);
      s.painter.Some? || (exists k :: 0 <= k < |s.queue| && s.queue[k].Annotate?) ==>
        s.staleAnnotations || exists i :: 0 <= i < |s.shots| && Bound(s.shots[i])
  {
    RunKeeps(es);
    var s := Steps(es);
    if !s.staleAnnotations && !Clean(s) {
      var i :| 0 <= i < |s.shots| && Live(s.shots[i]);
      assert HolderOk(s, i, s.shots[i]);
      assert Bound(s.shots[i]);
    }
  }

  /** No un-evicted plain capture ever renders badges, and an un-evicted annotated one renders only its own. */
  lemma NoForeignBadges(es: seq<Event>, k: nat)
    requires k < |Steps(es).images| && !Steps(es).images[k].evicted
    ensures var s := Steps(es); var image := s.images[k];
      && image.owner < |s.shots|
      && (image.badges.Some? ==> s.shots[image.owner].annotated && image.badges.value == image.owner)
  {
    RunKeeps(es);
  }

  /** Evicted capture `i` is where it was or has ended, and sent nothing. */
  ghost predicate OnlyEnds(s: State, s': State, i: nat)
    requires i < |s.shots|
  {
    && i < |s'.shots| && s'.shots[i].evicted
    && (s'.shots[i].phase == s.shots[i].phase || s'.shots[i].phase.Finished?)
    && (forall m :: m in s'.queue && m.sender == i ==> m in s.queue)
  }

  lemma EvictedStep(s: State, e: Event, i: nat)
    requires Inv(s) && i < |s.shots| && s.shots[i].evicted
    ensures OnlyEnds(s, Step(s, e), i)
  {
    match e
    case Enter(j, late) => EvictedAtEnter(s, j, late, i);
    case Resume(j) => EvictedAtResume(s, j, i);
    case _ =>
  }

  lemma EvictedAtEnter(s: State, j: nat, late: bool, i: nat)
    requires Inv(s) && i < |s.shots| && s.shots[i].evicted
    ensures OnlyEnds(s, EnterLock(s, j, late), i)
  {
  }

  lemma EvictedAtResume(s: State, j: nat, i: nat)
    requires Inv(s) && i < |s.shots| && s.shots[i].evicted
    ensures OnlyEnds(s, ResumeShot(s, j), i)
  {
  }

  /** From its eviction on, in every run, a capture sends no message - it neither annotates nor
      clears again - and starts no rendering: it stays where it is or ends. */
  lemma {:induction false} EvictedOnlyEnds(es: seq<Event>, n: nat, i: nat)
    requires n <= |es| && i < |Steps(es[..n]).shots| && Steps(es[..n]).shots[i].evicted
    ensures var s := Steps(es[..n]); var s' := Steps(es);
      && i < |s'.shots| && s'.shots[i].evicted
      && (s'.shots[i].phase == s.shots[i].phase || s'.shots[i].phase.Finished?)
      && (forall m :: m in s'.queue && m.sender == i ==> m in s.queue)
    decreases |es|
  {
    if n == |es| {
      assert es[..n] == es;
    } else {
      var before := es[..|es| - 1];
      assert before[..n] == es[..n];
      EvictedOnlyEnds(before, n, i);
      RunKeeps(before);
      EvictedStep(Steps(before), es[|es| - 1], i);
    }
  }

  // ----- what the images show -----

  /** Of the badges capture `i` asks for: not asked for yet, asked for on the document that is there, or
      on one that went since. */
  datatype Badges = Unsent | Standing | Gone

  predicate Sends(s: State, n: State, m: Message) {
    |n.queue| > |s.queue| && n.queue[|s.queue|] == m
  }

  function BadgesThen(s: State, e: Event, b: Badges, i: nat): Badges {
    if e.DocumentGone? then if b.Standing? then Gone else b
    else if Sends(s, Step(s, e), Annotate(i)) then Standing
    else b
  }

  function BadgesOf(es: seq<Event>, i: nat): Badges {
    if es == [] then Unsent else BadgesThen(Steps(es[..|es| - 1]), es[|es| - 1], BadgesOf(es[..|es| - 1], i), i)
  }

  /** What an un-evicted capture has asked for by now, and what of it is on the page once all is handled. */
  predicate BadgesFit(s: State, b: Badges, i: nat) {
    && (i >= |s.shots| ==> b.Unsent?)
    && (i < |s.shots| && (s.shots[i].phase.AwaitLock? || (Live(s.shots[i]) && s.shots[i].phase.AwaitInherited?)) ==>
          b.Unsent?)
    && (i < |s.shots| && Live(s.shots[i]) && s.shots[i].annotated
          && (s.shots[i].phase.AwaitAnnotate? || s.shots[i].phase.AwaitCapture?) ==>
          && !b.Unsent?
          && (b.Standing? && s.queue == [] ==> s.painter == Some(i))
          && (b.Gone? ==> s.queue == [] && s.painter == None))
  }

  lemma BadgesAtEnter(s: State, j: nat, late: bool, b: Badges, i: nat)
    requires Inv(s) && BadgesFit(s, b, i)
    ensures BadgesFit(EnterLock(s, j, late), BadgesThen(s, Enter(j, late), b, i), i)
  {
    if i < |s.shots| && Live(s.shots[i]) && j < |s.shots| && s.lock.Open(s.shots[j].ticket)
      && s.shots[j].phase.AwaitLock?
    {
      NobodyElse(s, j, i);
    }
  }

  lemma BadgesAtResume(s: State, j: nat, b: Badges, i: nat)
    requires Inv(s) && BadgesFit(s, b, i)
    ensures BadgesFit(ResumeShot(s, j), BadgesThen(s, Resume(j), b, i), i)
  {
    if i < |s.shots| && Live(s.shots[i]) && j < |s.shots| && Live(s.shots[j]) { OneLive(s, i, j); }
  }

  lemma BadgesAtPage(s: State, e: Event, b: Badges, i: nat)
    requires Inv(s) && BadgesFit(s, b, i) && (e.Deliver? || e.DocumentGone? || e.Render?)
    ensures BadgesFit(Step(s, e), BadgesThen(s, e, b, i), i)
  {
    if i < |s.shots| && Live(s.shots[i]) { assert HolderOk(s, i, s.shots[i]); }
  }

  lemma BadgesStep(s: State, e: Event, b: Badges, i: nat)
    requires Inv(s) && BadgesFit(s, b, i)
    ensures BadgesFit(Step(s, e), BadgesThen(s, e, b, i), i)
  {
    match e
    case Request(annotated) =>
    case Enter(j, late) => BadgesAtEnter(s, j, late, b, i);
    case Deadline(j) =>
    case Resume(j) => BadgesAtResume(s, j, b, i);
    case _ => BadgesAtPage(s, e, b, i);
  }

  lemma {:induction false} BadgesTell(es: seq<Event>, i: nat)
    ensures BadgesFit(Steps(es), BadgesOf(es, i), i)
  {
    if es != [] {
      var before := es[..|es| - 1];
      BadgesTell(before, i);
      RunKeeps(before);
      BadgesStep(Steps(before), es[|es| - 1], BadgesOf(before, i), i);
    }
  }

  /** What an image that is made now shows, when its capture is not evicted. */
  predicate Shows(shot: Shot, badges: Option<nat>, b: Badges, i: nat) {
    if shot.annotated then !b.Unsent? && badges == (if b.Standing? then Some(i) else None) else badges == None
  }

  /** An un-evicted annotated capture has asked for its badges by the time it renders, and its image shows
      them, and only them, unless the document went since it asked; one of a plain capture shows none. */
  lemma {:induction false} RenderShowsBadges(es: seq<Event>, i: nat)
    requires var s := Steps(es); i < |s.shots| && s.shots[i].phase.AwaitCapture? && !s.shots[i].evicted
    ensures var s := Steps(es); Shows(s.shots[i], s.painter, BadgesOf(es, i), i)
    ensures var n := Steps(es + [Render(i)]); n.images == Steps(es).images + [Image(i, false, Steps(es).painter)]
  {
    RunKeeps(es);
    BadgesTell(es, i);
    assert (es + [Render(i)])[..|es|] == es;
    ShownNow(Steps(es), BadgesOf(es, i), i);
  }

  lemma ShownNow(s: State, b: Badges, i: nat)
    requires Inv(s) && BadgesFit(s, b, i) && i < |s.shots| && s.shots[i].phase.AwaitCapture? && !s.shots[i].evicted
    ensures Shows(s.shots[i], s.painter, b, i)
  {
    assert HolderOk(s, i, s.shots[i]);
  }

  /** Step `j` of the run made image `k`. */
  ghost predicate MadeAt(es: seq<Event>, j: nat, k: nat) {
    && j < |es| && k < |Steps(es).images| && es[j] == Render(Steps(es).images[k].owner)
    && Steps(es).images[k].owner < |Steps(es[..j]).shots|
    && var shot := Steps(es[..j]).shots[Steps(es).images[k].owner];
    && shot.phase.AwaitCapture? && shot.evicted == Steps(es).images[k].evicted
    && (!shot.evicted ==>
          Shows(shot, Steps(es).images[k].badges, BadgesOf(es[..j], Steps(es).images[k].owner),
            Steps(es).images[k].owner))
  }

  lemma ImagesGrow(s: State, e: Event)
    ensures var n := Step(s, e);
      if e.Render? && e.i < |s.shots| && s.shots[e.i].phase.AwaitCapture?
      then n.images == s.images + [Image(e.i, s.shots[e.i].evicted, s.painter)] else n.images == s.images
  {
  }

  /** So it is with every image of every run. */
  lemma {:induction false} ImagesShowBadges(es: seq<Event>, k: nat)
    requires k < |Steps(es).images|
    ensures exists j: nat :: MadeAt(es, j, k)
  {
    var before, e := es[..|es| - 1], es[|es| - 1];
    var s := Steps(before);
    ImagesGrow(s, e);
    if k < |s.images| {
      ImagesShowBadges(before, k);
      var j: nat :| MadeAt(before, j, k);
      assert before[..j] == es[..j];
      assert MadeAt(es, j, k);
    } else {
      if !s.shots[e.i].evicted { RenderShowsBadges(before, e.i); }
      assert MadeAt(es, |before|, k);
    }
  }

  // ----- nobody is stuck -----

  /** How far a capture is. */
  function Rank(phase: Phase): nat {
    match phase
    case AwaitLock => 0
    case AwaitInherited => 1
    case AwaitAnnotate => 2
    case AwaitCapture => 3
    case AwaitOwnClear => 4
    case Finished => 5
  }

  /** A capture that is asked for queues behind everybody, annotated or not as it was asked for; a deadline
      that fires in the section takes the lock from its holder, whose duty passes on if it had one. */
  lemma RequestsQueueAndDeadlinesEvict(s: State, annotated: bool, i: nat)
    requires Inv(s)
    ensures var n := Step(s, Request(annotated));
      && n.shots == s.shots + [Shot(annotated, s.lock.tail + 1, AwaitLock, false, false)]
      && n.lock == s.lock.Acquire() && n.queue == s.queue && n.staleAnnotations == s.staleAnnotations
    ensures i < |s.shots| && Live(s.shots[i]) ==>
      var n := Step(s, Deadline(i));
      && |n.shots| == |s.shots| && n.shots[i] == s.shots[i].(evicted := true)
      && s.shots[i].ticket in n.lock.resolved && n.queue == s.queue
      && n.staleAnnotations == (s.shots[i].annotated || s.shots[i].clearingInherited)
    ensures i < |s.shots| && !Live(s.shots[i]) ==> Step(s, Deadline(i)) == s
  {
    if i < |s.shots| && Live(s.shots[i]) { assert HolderOk(s, i, s.shots[i]); }
  }

  /** A capture moves on whenever what it awaits is there: the lock lets it into its section, or out of it
      if it came too late, and each message handled or image made takes it further, to `Finished` at last. */
  lemma CapturesMoveOn(s: State, i: nat, late: bool)
    requires Inv(s) && i < |s.shots|
    ensures s.shots[i].phase.AwaitLock? && s.lock.Open(s.shots[i].ticket) ==>
      var n := EnterLock(s, i, late);
      |n.shots| == |s.shots| && n.shots[i].annotated == s.shots[i].annotated
      && if late then n.shots[i].phase.Finished? else Live(n.shots[i])
    ensures s.shots[i].phase.InSection() && (s.shots[i].phase.AwaitCapture? || Answered(s, i)) ==>
      var n := ResumeShot(s, i); |n.shots| == |s.shots| && Rank(s.shots[i].phase) < Rank(n.shots[i].phase)
  {
  }

  /** One tab's `TabLock` with the captures running on it; the page fields are the environment's. */
  class TabCapture {
    const lock: L.StateLock
    var staleAnnotations: bool
    var shots: seq<Shot>
    var queue: seq<Message>
    var painter: Option<nat>
    var images: seq<Image>

    constructor ()
      ensures fresh(lock) && View() == START && Sound()
    {
      lock := new L.StateLock();
      staleAnnotations, shots, queue, painter, images := false, [], [], None, [];
    }

    function View(): State
      reads this, lock
    {
      State(lock.View(), staleAnnotations, shots, queue, painter, images)
    }

    /** `capture` up to the await of the lock. */
    method Acquire(annotated: bool)
      modifies this`shots, lock
      ensures View() == Step(old(View()), Request(annotated))
    {
      var ticket := lock.Acquire();
      shots := shots + [Shot(annotated, ticket, AwaitLock, false, false)];
    }

    /** The closure `evict`, called by the timer or right after a late `acquire`. */
    method EvictHolder(i: nat)
      requires i < |shots|
      modifies this`shots, this`staleAnnotations, lock
      ensures View() == Evict(old(View()), i)
    {
      var shot := shots[i];
      shots := shots[i := shot.(evicted := true)];
      if shot.phase.InSection() && (shot.annotated || shot.clearingInherited) {
        staleAnnotations := true;
      }
      lock.Release(shot.ticket);
    }

    method Send(m: Message)
      modifies this`queue
      ensures queue == old(queue) + [m]
    {
      queue := queue + [m];
    }

    /** From `annotate` to the next await. */
    method Annotating(i: nat)
      requires i < |shots|
      modifies this`shots, this`queue
      ensures View() == Proceed(old(View()), i)
    {
      if shots[i].annotated {
        Send(Annotate(i));
        shots := shots[i := shots[i].(phase := AwaitAnnotate, clearingInherited := false)];
      } else {
        shots := shots[i := shots[i].(phase := AwaitCapture, clearingInherited := false)];
      }
    }

    /** The stretch after `acquire`: the clock check, then the section starts. */
    method EnterSection(i: nat, late: bool)
      requires i < |shots| && shots[i].phase.AwaitLock? && !shots[i].evicted && lock.View().Open(shots[i].ticket)
      modifies this`shots, this`staleAnnotations, this`queue, lock
      ensures View() == EnterLock(old(View()), i, late)
    {
      if late {
        EvictHolder(i);
        shots := shots[i := shots[i].(phase := Finished)];
      } else if staleAnnotations {
        staleAnnotations := false;
        shots := shots[i := shots[i].(phase := AwaitInherited, clearingInherited := true)];
        Send(Remove(i));
      } else {
        Annotating(i);
      }
    }

    method Leave(i: nat)
      requires i < |shots|
      modifies this`shots, lock
      ensures View() == Finish(old(View()), i)
    {
      lock.Release(shots[i].ticket);
      shots := shots[i := shots[i].(phase := Finished, clearingInherited := false)];
    }

    /** The stretch after an await inside the section. */
    method Continue(i: nat)
      requires i < |shots| && shots[i].phase.InSection() && (shots[i].phase.AwaitCapture? || Answered(View(), i))
      modifies this`shots, this`queue, lock
      ensures View() == ResumeShot(old(View()), i)
    {
      var shot := shots[i];
      match shot.phase
      case AwaitInherited => if shot.evicted { Leave(i); } else { Annotating(i); }
      case AwaitAnnotate => if shot.evicted { Leave(i); } else { shots := shots[i := shot.(phase := AwaitCapture)]; }
      case AwaitCapture =>
        if shot.annotated && !shot.evicted {
          Send(Remove(i));
          shots := shots[i := shot.(phase := AwaitOwnClear)];
        } else {
          Leave(i);
        }
      case AwaitOwnClear => Leave(i);
    }

    // ----- the event loop -----

    /** What holds between any two stretches of code, and of every image rendered so far. */
    ghost predicate Sound()
      reads this, lock
    {
      Inv(View()) && forall k :: 0 <= k < |images| ==> ImageOk(View(), images[k])
    }

    method OnCapture(annotated: bool)
      requires Sound()
      modifies this, lock
      ensures Sound() && View() == Step(old(View()), Request(annotated))
    {
      ghost var was := View();
      Acquire(annotated);
      StepKeeps(was, Request(annotated));
      ImagesKeep(was, Request(annotated));
    }

    /** The timer of a capture fires: if it is in its section it loses the lock. */
    method OnDeadline(i: nat)
      requires Sound()
      modifies this, lock
      ensures Sound() && View() == Step(old(View()), Deadline(i))
      ensures i < |shots| ==> !Live(shots[i])
    {
      ghost var was := View();
      if i < |shots| && Live(shots[i]) { EvictHolder(i); }
      StepKeeps(was, Deadline(i));
      ImagesKeep(was, Deadline(i));
    }

    /** The lock opens for a capture: it is the one live holder, or it came too late. */
    method OnLock(i: nat, late: bool)
      requires Sound()
      modifies this, lock
      ensures Sound() && View() == Step(old(View()), Enter(i, late))
      ensures i < |shots| && Live(shots[i]) ==> forall j :: 0 <= j < |shots| && j != i ==> !Live(shots[j])
    {
      ghost var was := View();
      if i < |shots| && shots[i].phase.AwaitLock? && !shots[i].evicted && lock.IsOpen(shots[i].ticket) {
        EnterSection(i, late);
      }
      StepKeeps(was, Enter(i, late));
      ImagesKeep(was, Enter(i, late));
      LiveAlone(View(), i);
    }

    method OnAnswer(i: nat)
      requires Sound()
      modifies this, lock
      ensures Sound() && View() == Step(old(View()), Resume(i))
    {
      ghost var was := View();
      if i < |shots| && shots[i].phase.InSection() && (shots[i].phase.AwaitCapture? || Answered(View(), i)) {
        Continue(i);
      }
      StepKeeps(was, Resume(i));
      ImagesKeep(was, Resume(i));
    }

    /** The page's side: it handles a message, goes away, or is rendered for a capture. */
    method OnPage(e: Event)
      requires Sound() && (e.Deliver? || e.DocumentGone? || e.Render?)
      modifies this, lock
      ensures Sound() && View() == Step(old(View()), e)
      ensures forall k :: 0 <= k < |images| && !images[k].evicted ==>
        images[k].badges == None || images[k].badges == Some(images[k].owner)
    {
      ghost var was := View();
      var next := Step(View(), e);
      queue, painter, images := next.queue, next.painter, next.images;
      StepKeeps(was, e);
      ImagesKeep(was, e);
    }

    /** Whatever happens next, the tab takes the machine's step and keeps what it keeps. */
    method React(e: Event)
      requires Sound()
      modifies this, lock
      ensures Sound() && View() == Step(old(View()), e)
    {
      match e
      case Request(annotated) => OnCapture(annotated);
      case Enter(i, late) => OnLock(i, late);
      case Deadline(i) => OnDeadline(i);
      case Deliver => OnPage(e);
      case DocumentGone => OnPage(e);
      case Render(_) => OnPage(e);
      case Resume(i) => OnAnswer(i);
    }
  }
}
