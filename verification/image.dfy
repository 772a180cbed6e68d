/** The `Image` component: an image whose `hasError`/`hasLoaded` flags follow
    its load and error events, which renders nothing once the load failed and
    which serialises its responsive source set into one `srcSet` string. */
module ImageComponent {
  import opened JsText

  /** One responsive alternative: a source and an optional width/density descriptor. */
  datatype SourceSet = SourceSet(source: JsString, descriptor: Option<JsString>)

  /** The props the model keeps. `alt`, `crossOrigin` and the other HTML
      attributes are spread onto the element after `src`, `srcSet` and
      `onLoad`; the model takes them to name none of those three. */
  datatype ImageProps = ImageProps(
    source: JsString,
    sourceSet: Option<seq<SourceSet>>,
    className: Option<JsString>)

  datatype ImageState = ImageState(hasError: bool, hasLoaded: bool)

  /** The state a fresh instance starts in. */
  const INITIAL: ImageState := ImageState(false, false)

  /** The tokens of the element's class list; `Hidden` and `Visible` are the
      style-sheet classes, `Caller` the caller's own `className`. */
  datatype ImageClass = Caller(name: JsString) | Hidden | Visible

  /** The `img` element that is rendered. */
  datatype ImgElement = ImgElement(src: JsString, srcSet: Option<JsString>, classes: seq<ImageClass>)

  /* ---- srcSet serialisation ---- */

  /** `${source} ${descriptor}`: a missing descriptor prints as `undefined`. */
  function EntryText(e: SourceSet): (t: JsString)
    ensures |e.source| < |t| && t[..|e.source|] == e.source && t[|e.source|] == SPACE
    ensures e.descriptor.Some? ==> t[|e.source| + 1..] == e.descriptor.value
    ensures e.descriptor.None? ==> t[|e.source| + 1..] == UNDEFINED
  {
    e.source + [SPACE] + (if e.descriptor.Some? then e.descriptor.value else UNDEFINED)
  }

  /** `sourceSet.map(EntryText)`. */
  function EntryTexts(entries: seq<SourceSet>): (r: seq<JsString>)
    ensures |r| == |entries|
    ensures forall i :: 0 <= i < |entries| ==> r[i] == EntryText(entries[i])
  {
    seq(|entries|, i requires 0 <= i < |entries| => EntryText(entries[i]))
  }

  /** `sourceSet.map(EntryText).join(',')`: empty exactly for an empty set,
      and otherwise starting with the first entry's text. */
  function SerializeSourceSet(entries: seq<SourceSet>): (r: JsString)
    ensures |r| > 0 <==> |entries| > 0
    ensures |entries| > 0 ==> EntryText(entries[0]) <= r
  {
    Join(EntryTexts(entries), COMMA)
  }

  /** `sourceSet ? ... : null`: an array, even an empty one, is truthy, but
      the string an empty one gives is not, so only a non-empty set yields a
      truthy `srcSet`. */
  function FinalSourceSet(sourceSet: Option<seq<SourceSet>>): (r: Option<JsString>)
    ensures r.Some? <==> sourceSet.Some?
    ensures Truthy(r) <==> sourceSet.Some? && |sourceSet.value| > 0
  {
    if sourceSet.Some? then Some(SerializeSourceSet(sourceSet.value)) else None
  }

  /** No comma occurs in a source or a descriptor of the set. */
  predicate CommaFree(entries: seq<SourceSet>) {
    forall i :: 0 <= i < |entries| ==>
      COMMA !in entries[i].source &&
      (entries[i].descriptor.Some? ==> COMMA !in entries[i].descriptor.value)
  }

  /** The `srcSet` string lists the entries in order: when no source or
      descriptor holds a comma, splitting it at commas gives back one
      `source descriptor` text per entry. */
  lemma SerializeSplitsIntoEntries(entries: seq<SourceSet>)
    requires |entries| > 0
    requires CommaFree(entries)
    ensures Split(SerializeSourceSet(entries), COMMA) == EntryTexts(entries)
  {
    var texts := EntryTexts(entries);
    assert COMMA !in UNDEFINED;
    forall i | 0 <= i < |texts| ensures COMMA !in texts[i] {
      assert texts[i] == EntryText(entries[i]);
    }
    SplitJoin(texts, COMMA);
  }

  /* ---- render ---- */

  /** `classNames(className && className, styles.hidden, hasLoaded && styles.visible)`:
      falsy arguments are dropped. */
  function MergedClassNames(className: Option<JsString>, hasLoaded: bool): (r: seq<ImageClass>)
    ensures Hidden in r
    ensures Visible in r <==> hasLoaded
    ensures Truthy(className) ==> r[0] == Caller(className.value)
    ensures !Truthy(className) ==> r[0] == Hidden
    ensures forall n :: Caller(n) in r ==> Truthy(className) && n == className.value
  {
    (if Truthy(className) then [Caller(className.value)] else []) +
    [Hidden] +
    (if hasLoaded then [Visible] else [])
  }

  /** What the component renders: nothing once it has failed, otherwise an
      `img` bound to `props.source`, with a `srcSet` only for a non-empty set,
      always classed `hidden` and additionally `visible` once loaded. */
  function Render(props: ImageProps, state: ImageState): (r: Option<ImgElement>)
    ensures r.None? <==> state.hasError
    ensures r.Some? ==> r.value.src == props.source
    ensures r.Some? ==>
      (r.value.srcSet.Some? <==> props.sourceSet.Some? && |props.sourceSet.value| > 0)
    ensures r.Some? && r.value.srcSet.Some? && props.sourceSet.Some? ==>
      r.value.srcSet.value == SerializeSourceSet(props.sourceSet.value)
    ensures r.Some? ==> Hidden in r.value.classes
    ensures r.Some? ==> (Visible in r.value.classes <==> state.hasLoaded)
    ensures r.Some? && Truthy(props.className) ==> r.value.classes[0] == Caller(props.className.value)
    ensures r.Some? && !Truthy(props.className) ==> r.value.classes[0] == Hidden
    ensures r.Some? ==> r.value.classes == MergedClassNames(props.className, state.hasLoaded)
  {
    if state.hasError then None
    else
      var finalSourceSet := FinalSourceSet(props.sourceSet);
      var classes := MergedClassNames(props.className, state.hasLoaded);
      if Truthy(finalSourceSet) then Some(ImgElement(props.source, finalSourceSet, classes))
      else Some(ImgElement(props.source, None, classes))
  }

  /** A rendered `srcSet` names every entry of the set, in order, as
      `source descriptor` (`source undefined` when the descriptor is missing). */
  lemma RenderedSrcSetListsEntries(props: ImageProps, state: ImageState)
    requires !state.hasError
    requires props.sourceSet.Some? && |props.sourceSet.value| > 0
    requires CommaFree(props.sourceSet.value)
    ensures Render(props, state).value.srcSet.Some?
    ensures Split(Render(props, state).value.srcSet.value, COMMA) == EntryTexts(props.sourceSet.value)
  {
    SerializeSplitsIntoEntries(props.sourceSet.value);
  }

  /* ---- state transitions ---- */

  /** `arraysAreEqual`: equal length and element-wise equal entries, which is
      value equality of the two sequences. */
  predicate ArraysAreEqual(a: seq<SourceSet>, b: seq<SourceSet>)
    ensures ArraysAreEqual(a, b) <==> a == b
  {
    |a| == |b| && forall i :: 0 <= i < |a| ==> a[i] == b[i]
  }

  /** The destructuring default `sourceSet = []`. */
  function SourceSetOrEmpty(sourceSet: Option<seq<SourceSet>>): seq<SourceSet> {
    sourceSet.GetOr([])
  }

  /** Whether two props name the same resource: the same source and equal
      source sets, a missing set counting as an empty one. */
  predicate SameResource(previous: ImageProps, current: ImageProps)
    ensures SameResource(previous, current) <==>
      previous.source == current.source &&
      SourceSetOrEmpty(previous.sourceSet) == SourceSetOrEmpty(current.sourceSet)
    ensures previous.sourceSet == Some([]) && current.sourceSet.None? && previous.source == current.source ==>
      SameResource(previous, current)
  {
    previous.source == current.source &&
    ArraysAreEqual(SourceSetOrEmpty(current.sourceSet), SourceSetOrEmpty(previous.sourceSet))
  }

  /** `ComponentDidUpdate(previous)`: both flags are cleared when the resource changed. */
  function DidUpdate(previous: ImageProps, current: ImageProps, s: ImageState): (t: ImageState)
    ensures SameResource(previous, current) ==> t == s
    ensures !SameResource(previous, current) ==> t == INITIAL
  {
    if !SameResource(previous, current) then INITIAL else s
  }

  /** `handleLoad`. */
  function AfterLoad(s: ImageState): ImageState {
    s.(hasLoaded := true)
  }

  /** `handleError` after the caller's `onError` has run. */
  function AfterError(s: ImageState): ImageState {
    s.(hasError := true)
  }

  /** Repeated load events do not flap: a second one changes nothing. */
  lemma LoadIsIdempotent(s: ImageState)
    ensures AfterLoad(AfterLoad(s)) == AfterLoad(s)
    ensures AfterLoad(s).hasLoaded && AfterLoad(s).hasError == s.hasError
  {
  }

  /** An error hides the image whatever happened before it, a completed load included. */
  lemma ErrorHidesImage(props: ImageProps, s: ImageState)
    ensures Render(props, AfterError(s)).None?
    ensures AfterError(s).hasLoaded == s.hasLoaded
  {
  }

  /** The events an instance receives: a load, a failure, or the update hook
      run with the props the instance had before. */
  datatype Event = Load | Error | Hook(previous: ImageProps)

  function Step(props: ImageProps, s: ImageState, e: Event): ImageState {
    match e
    case Load => AfterLoad(s)
    case Error => AfterError(s)
    case Hook(previous) => DidUpdate(previous, props, s)
  }

  /** The state after a sequence of events, first event first. */
  function Run(props: ImageProps, s: ImageState, events: seq<Event>): ImageState
    decreases |events|
  {
    if |events| == 0 then s else Run(props, Step(props, s, events[0]), events[1..])
  }

  /** Whether an event resets the state under the given current props. */
  predicate ChangesResource(props: ImageProps, e: Event) {
    e.Hook? && !SameResource(e.previous, props)
  }

  /** A failure is terminal for a resource: until the update hook sees a
      changed resource, the state stays errored and nothing is rendered. */
  lemma {:induction false} ErrorIsTerminal(props: ImageProps, s: ImageState, events: seq<Event>)
    requires s.hasError
    requires forall i :: 0 <= i < |events| ==> !ChangesResource(props, events[i])
    ensures Run(props, s, events).hasError
    ensures Render(props, Run(props, s, events)).None?
    decreases |events|
  {
    if |events| > 0 {
      assert !ChangesResource(props, events[0]);
      ErrorIsTerminal(props, Step(props, s, events[0]), events[1..]);
    }
  }

  /** Any number of load events, with nothing else, leave the state loaded
      and the error flag as it was. */
  lemma {:induction false} LoadsNeverFlap(props: ImageProps, s: ImageState, events: seq<Event>)
    requires |events| > 0
    requires forall i :: 0 <= i < |events| ==> events[i] == Load
    ensures Run(props, s, events) == AfterLoad(s)
    decreases |events|
  {
    if |events| > 1 {
      LoadsNeverFlap(props, AfterLoad(s), events[1..]);
    }
  }

  /** A changed resource always renders again, whatever state it left behind. */
  lemma UpdateRendersNewResource(previous: ImageProps, current: ImageProps, s: ImageState)
    requires !SameResource(previous, current)
    ensures Render(current, DidUpdate(previous, current, s)).Some?
    ensures Render(current, DidUpdate(previous, current, s)).value.src == current.source
    ensures Visible !in Render(current, DidUpdate(previous, current, s)).value.classes
  {
  }

  /** As the component is written the host never calls the capitalised
      `ComponentDidUpdate`, so new props leave the flags as they were: an
      image that failed on one source stays hidden after the source changes. */
  lemma StaleErrorSurvivesSourceChange()
    ensures var a := ImageProps([97], None, None);
            var b := ImageProps([98], None, None);
            var s := AfterError(INITIAL);
            !SameResource(a, b) && Render(b, s).None?
  {
  }

  /** One mounted `Image`: its current props, its two flags, and how many
      times it has called `onError` (the caller's callback or the no-op default). */
  class Image {
    var props: ImageProps
    var hasError: bool
    var hasLoaded: bool
    var onErrorCalls: nat

    function State(): ImageState
      reads this
    {
      ImageState(hasError, hasLoaded)
    }

    /** What the instance renders now. */
    function View(): (r: Option<ImgElement>)
      reads this
      ensures r.None? <==> hasError
      ensures r.Some? ==> r.value.src == props.source
    {
      Render(props, State())
    }

    constructor (props: ImageProps)
      ensures this.props == props
      ensures State() == INITIAL
      ensures onErrorCalls == 0
    {
      this.props := props;
      hasError, hasLoaded := false, false;
      onErrorCalls := 0;
    }

    /** The update hook as the component declares it: clears both flags when
        `previous` names another resource than the current props. */
    method ComponentDidUpdate(previous: ImageProps)
      modifies this`hasError, this`hasLoaded
      ensures State() == DidUpdate(previous, props, old(State()))
    {
      if props.source != previous.source ||
         !ArraysAreEqual(SourceSetOrEmpty(props.sourceSet), SourceSetOrEmpty(previous.sourceSet))
      {
        hasError, hasLoaded := false, false;
      }
    }

    /** Calls `onError` once, then records the failure. */
    method HandleError()
      modifies this`hasError, this`onErrorCalls
      ensures onErrorCalls == old(onErrorCalls) + 1
      ensures State() == AfterError(old(State()))
    {
      onErrorCalls := onErrorCalls + 1;
      hasError := true;
    }

    /** Records a completed load. */
    method HandleLoad()
      modifies this`hasLoaded
      ensures State() == AfterLoad(old(State()))
    {
      hasLoaded := true;
    }

    /** New props from the parent, as the host delivers them: the flags stay
        as they were, because the host only calls a lower-case `componentDidUpdate`. */
    method ReceiveProps(next: ImageProps)
      modifies this`props
      ensures props == next
    {
      props := next;
    }

    /** New props followed by the update hook, as the component evidently intends. */
    method Update(next: ImageProps)
      modifies this`props, this`hasError, this`hasLoaded
      ensures props == next
      ensures State() == DidUpdate(old(props), next, old(State()))
      ensures !SameResource(old(props), next) ==> View().Some?
    {
      var previous := props;
      ReceiveProps(next);
      ComponentDidUpdate(previous);
    }
  }

  /** The sequence behind the finding on the hook's name: an image fails on
      source `a`, the host hands it source `b` without calling the hook, and
      the instance still renders nothing. */
  method StaleErrorScenario() returns (img: Image)
    ensures img.props.source == [98]
    ensures img.View().None?
  {
    img := new Image(ImageProps([97], None, None));
    img.HandleError();
    img.ReceiveProps(ImageProps([98], None, None));
  }
}
