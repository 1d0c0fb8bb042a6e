/** The perspective viewer of components/ThreeDViewerModal.tsx: a cache,
    per design option, from camera angle to image, filled lazily by
    perspective requests. */
module PerspectiveViewer {
  import opened Wrappers
  import opened Types
  import opened GeminiService

  datatype Angle = Front | Left | Right | Top

  /** `angleTranslations`: the Spanish name of each angle. */
  function Translation(a: Angle): string {
    match a
    case Front => "Frontal"
    case Left => "Izquierda"
    case Right => "Derecha"
    case Top => "Superior"
  }

  /** `anglePrompts`: the description added to the prompt, which only the
      three angles other than the front have. The one for the top view is
      the text of the source as it is stored, a UTF-8 "á" read back as two
      other characters. */
  function AnglePrompt(a: Angle): (d: Option<string>)
    ensures d.None? <==> a == Front
  {
    match a
    case Front => None
    case Left => Some("de 45 grados desde la izquierda")
    case Right => Some("de 45 grados desde la derecha")
    case Top => Some("cenital (vista de p\U{221A}\U{00B0}jaro)")
  }

  const LoadErrorPrefix := "Error al cargar la vista "

  /** The message of a failed fetch for an angle. */
  function LoadErrorMessage(a: Angle): string {
    LoadErrorPrefix + Translation(a) + "."
  }

  /** Each angle has its own failure message: the message names the
      angle. */
  lemma LoadErrorMessageNamesAngle(a: Angle, b: Angle)
    ensures LoadErrorMessage(a) == LoadErrorMessage(b) <==> a == b
  {
    if LoadErrorMessage(a) == LoadErrorMessage(b) {
      assert LoadErrorMessage(a)[|LoadErrorPrefix|] == Translation(a)[0];
      assert LoadErrorMessage(b)[|LoadErrorPrefix|] == Translation(b)[0];
    }
  }

  /** `anglesToLoad`. */
  const AnglesToLoad: seq<Angle> := [Left, Right, Top]

  /** The component state: `perspectives`, `currentView`, `loadingAngle`
      and `error`. */
  datatype ViewerState = ViewerState(
    perspectives: map<Angle, string>,
    currentView: Angle,
    loadingAngle: Option<Angle>,
    error: Option<string>)

  /** `perspectives[angle]` is truthy: present and not the empty string.
      This is also when the angle's button is enabled. */
  predicate Filled(s: ViewerState, a: Angle) {
    a in s.perspectives && s.perspectives[a] != ""
  }

  /** The state the viewer starts from: the front slot holds the option's
      image, the front is shown, nothing is loading and there is no error. */
  function InitialViewer(o: StyleOption): (s: ViewerState)
    ensures s.perspectives.Keys == {Front} && s.perspectives[Front] == o.generatedImage
    ensures s.currentView == Front && s.loadingAngle.None? && s.error.None?
  {
    ViewerState(map[Front := o.generatedImage], Front, None, None)
  }

  /** The guard of `fetchPerspective`: a filled slot, a fetch in progress
      or the front angle. */
  predicate FetchSkipped(s: ViewerState, a: Angle) {
    Filled(s, a) || s.loadingAngle.Some? || a == Front
  }

  /** The settled reply of the perspective request of each angle other than
      the front; the front is never requested, and its entry (a failure) is
      never consulted. */
  function RepliesOf(remote: Remote, basePrompt: string): Angle -> Reply<string> {
    a =>
      match AnglePrompt(a)
      case None => Threw(NonError)
      case Some(d) => GenerateRoomPerspective(remote, basePrompt, d)
  }

  /** `fetchPerspective(angle)` once its request has settled with the reply
      `replies(angle)`. The source's early return for an angle without a
      description cannot happen: the guard has already excluded the front,
      the one angle without one. */
  function Fetched(s: ViewerState, a: Angle, replies: Angle -> Reply<string>): ViewerState {
    if FetchSkipped(s, a) then s
    else
      match replies(a)
      case Done(image) => s.(perspectives := s.perspectives[a := image], loadingAngle := None, error := None)
      case Threw(_) => s.(loadingAngle := None, error := Some(LoadErrorMessage(a)))
  }

  /** A skipped fetch changes nothing. */
  lemma FetchSkippedChangesNothing(s: ViewerState, a: Angle, replies: Angle -> Reply<string>)
    requires FetchSkipped(s, a)
    ensures Fetched(s, a, replies) == s
  {
  }

  /** A fetch that runs leaves nothing loading and keeps the view; on
      success it writes the angle's slot alone, on failure it writes no
      slot and sets the angle's message. */
  lemma FetchOutcome(s: ViewerState, a: Angle, replies: Angle -> Reply<string>)
    requires !FetchSkipped(s, a)
    ensures var r := Fetched(s, a, replies);
      && r.loadingAngle.None? && r.currentView == s.currentView
      && (replies(a).Done? ==> r.perspectives == s.perspectives[a := replies(a).value] && r.error.None?)
      && (replies(a).Threw? ==> r.perspectives == s.perspectives && r.error == Some(LoadErrorMessage(a)))
  {
  }

  /** Slots are written once: a filled slot keeps its image through any
      fetch. */
  lemma FetchKeepsFilled(s: ViewerState, a: Angle, b: Angle, replies: Angle -> Reply<string>)
    requires Filled(s, b)
    ensures b in Fetched(s, a, replies).perspectives
    ensures Fetched(s, a, replies).perspectives[b] == s.perspectives[b]
  {
  }

  /** Selecting an angle: the view changes only to a filled slot. */
  function Selected(s: ViewerState, a: Angle): (r: ViewerState)
    ensures Filled(s, a) ==> r == s.(currentView := a)
    ensures !Filled(s, a) ==> r == s
  {
    if Filled(s, a) then s.(currentView := a) else s
  }

  /** The prefetch step for one angle: a fetch when its slot is empty. */
  function PrefetchOne(s: ViewerState, a: Angle, replies: Angle -> Reply<string>): ViewerState {
    if Filled(s, a) then s else Fetched(s, a, replies)
  }

  /** The prefetch loop over `angles`, one angle after the other. */
  function Prefetched(s: ViewerState, angles: seq<Angle>, replies: Angle -> Reply<string>): ViewerState
    decreases |angles|
  {
    if angles == [] then s
    else PrefetchOne(Prefetched(s, angles[..|angles| - 1], replies), angles[|angles| - 1], replies)
  }

  /** The slot of `a` is the same in `r` as in `s`. */
  predicate SlotKept(s: ViewerState, r: ViewerState, a: Angle) {
    && (a in r.perspectives <==> a in s.perspectives)
    && (a in s.perspectives ==> r.perspectives[a] == s.perspectives[a])
  }

  /** The slot of `a` in `r` is what one prefetch of it from `s` leaves:
      kept when it was filled, the received image when the request
      succeeded, kept when it failed. */
  predicate SlotFetched(s: ViewerState, r: ViewerState, a: Angle, replies: Angle -> Reply<string>) {
    && (Filled(s, a) ==> SlotKept(s, r, a))
    && (!Filled(s, a) && replies(a).Done? ==> a in r.perspectives && r.perspectives[a] == replies(a).value)
    && (!Filled(s, a) && replies(a).Threw? ==> SlotKept(s, r, a))
  }

  /** What one prefetch step of `a` from `s` to `r` does: it writes at
      most the slot of `a`, as `SlotFetched` says, keeps the view and
      leaves nothing loading. */
  predicate PrefetchStep(s: ViewerState, r: ViewerState, a: Angle, replies: Angle -> Reply<string>) {
    && r.loadingAngle.None? && r.currentView == s.currentView
    && SlotFetched(s, r, a, replies)
    && forall b :: b != a ==> SlotKept(s, r, b)
  }

  lemma PrefetchOneSlots(s: ViewerState, a: Angle, replies: Angle -> Reply<string>)
    requires s.loadingAngle.None? && a != Front
    ensures PrefetchStep(s, PrefetchOne(s, a, replies), a, replies)
  {
    if !Filled(s, a) {
      FetchOutcome(s, a, replies);
    }
  }

  /** Opening the viewer with nothing loading: every angle of `left`,
      `right`, `top` whose slot was empty is requested once and holds what
      the request answered, or stays as it was when it failed; filled slots
      and the front slot keep their image; nothing is loading afterwards. */
  lemma PrefetchResult(s: ViewerState, replies: Angle -> Reply<string>)
    requires s.loadingAngle.None?
    ensures var r := Prefetched(s, AnglesToLoad, replies);
      && r.loadingAngle.None? && r.currentView == s.currentView
      && SlotKept(s, r, Front)
      && SlotFetched(s, r, Left, replies)
      && SlotFetched(s, r, Right, replies)
      && SlotFetched(s, r, Top, replies)
  {
    PrefetchedThree(s, replies);
    var s1 := PrefetchOne(s, Left, replies);
    PrefetchOneSlots(s, Left, replies);
    var s2 := PrefetchOne(s1, Right, replies);
    PrefetchOneSlots(s1, Right, replies);
    var s3 := PrefetchOne(s2, Top, replies);
    PrefetchOneSlots(s2, Top, replies);
    ThreeSteps(s, s1, s2, s3, replies);
  }

  /** Three prefetch steps, of the left, right and top angles in turn. */
  lemma ThreeSteps(s: ViewerState, s1: ViewerState, s2: ViewerState, s3: ViewerState, replies: Angle -> Reply<string>)
    requires PrefetchStep(s, s1, Left, replies) && PrefetchStep(s1, s2, Right, replies) && PrefetchStep(s2, s3, Top, replies)
    ensures s3.loadingAngle.None? && s3.currentView == s.currentView
    ensures SlotKept(s, s3, Front)
    ensures SlotFetched(s, s3, Left, replies) && SlotFetched(s, s3, Right, replies) && SlotFetched(s, s3, Top, replies)
  {
    SlotKeptTrans(s, s1, s2, Front);
    SlotKeptTrans(s, s2, s3, Front);
    SlotKeptTrans(s1, s2, s3, Left);
    SlotFetchedThenKept(s, s1, s3, Left, replies);
    SlotKeptThenFetched(s, s1, s2, Right, replies);
    SlotFetchedThenKept(s, s2, s3, Right, replies);
    SlotKeptTrans(s, s1, s2, Top);
    SlotKeptThenFetched(s, s2, s3, Top, replies);
  }

  lemma SlotKeptTrans(s: ViewerState, r: ViewerState, t: ViewerState, a: Angle)
    requires SlotKept(s, r, a) && SlotKept(r, t, a)
    ensures SlotKept(s, t, a)
  {
  }

  lemma SlotFetchedThenKept(s: ViewerState, r: ViewerState, t: ViewerState, a: Angle, replies: Angle -> Reply<string>)
    requires SlotFetched(s, r, a, replies) && SlotKept(r, t, a)
    ensures SlotFetched(s, t, a, replies)
  {
  }

  lemma SlotKeptThenFetched(s: ViewerState, r: ViewerState, t: ViewerState, a: Angle, replies: Angle -> Reply<string>)
    requires SlotKept(s, r, a) && SlotFetched(r, t, a, replies)
    ensures SlotFetched(s, t, a, replies)
  {
    assert Filled(s, a) <==> Filled(r, a);
  }

  /** The prefetch loop over the three angles, unrolled. */
  lemma PrefetchedThree(s: ViewerState, replies: Angle -> Reply<string>)
    ensures Prefetched(s, AnglesToLoad, replies)
      == PrefetchOne(PrefetchOne(PrefetchOne(s, Left, replies), Right, replies), Top, replies)
  {
    assert AnglesToLoad[..2] == [Left, Right];
    assert [Left, Right][..1] == [Left];
    assert [Left][..0] == [];
  }

  /** The `ThreeDViewerModal` component for one design option. */
  class Viewer {
    const styleOption: StyleOption
    /** The replies of this option's perspective requests. */
    const replies: Angle -> Reply<string>
    var perspectives: map<Angle, string>
    var currentView: Angle
    var loadingAngle: Option<Angle>
    var error: Option<string>

    function State(): ViewerState
      reads this
    {
      ViewerState(perspectives, currentView, loadingAngle, error)
    }

    constructor (remote: Remote, styleOption: StyleOption)
      ensures this.styleOption == styleOption
      ensures forall a :: replies(a) == RepliesOf(remote, styleOption.imagePrompt)(a)
      ensures State() == InitialViewer(styleOption)
    {
      this.styleOption := styleOption;
      replies := RepliesOf(remote, styleOption.imagePrompt);
      perspectives := map[Front := styleOption.generatedImage];
      currentView := Front;
      loadingAngle := None;
      error := None;
    }

    /** `fetchPerspective(angle)`. */
    method FetchPerspective(a: Angle)
      modifies this
      ensures State() == Fetched(old(State()), a, replies)
    {
      if (a in perspectives && perspectives[a] != "") || loadingAngle.Some? || a == Front {
        return;
      }
      loadingAngle := Some(a);
      error := None;
      var reply := replies(a);
      if reply.Done? {
        perspectives := perspectives[a := reply.value];
      } else {
        error := Some(LoadErrorMessage(a));
      }
      loadingAngle := None;
    }

    /** The click on an angle's button. */
    method SelectView(a: Angle)
      modifies this
      ensures State() == Selected(old(State()), a)
    {
      if a in perspectives && perspectives[a] != "" {
        currentView := a;
      }
    }

    /** The effect run when the viewer opens: each angle to load whose slot
        is empty is fetched. */
    method Open()
      modifies this
      ensures State() == Prefetched(old(State()), AnglesToLoad, replies)
    {
      for i := 0 to |AnglesToLoad|
        invariant State() == Prefetched(old(State()), AnglesToLoad[..i], replies)
      {
        var a := AnglesToLoad[i];
        assert AnglesToLoad[..i + 1][..i] == AnglesToLoad[..i];
        if !(a in perspectives && perspectives[a] != "") {
          FetchPerspective(a);
        }
      }
      assert AnglesToLoad[..|AnglesToLoad|] == AnglesToLoad;
    }
  }
}
