/** The `Avatar` component: derives an accessible label, a style variant, a
    placeholder image and a class list from a person's name and initials, and
    drops its `hasImage` class once its child image reports a failure. */
module AvatarComponent {
  import opened JsText

  datatype Size = Small | Medium | Large

  /** The six style variants, in the order of `STYLE_CLASSES`. */
  datatype StyleVariant = One | Two | Three | Four | Five | Six

  const STYLE_CLASSES: seq<StyleVariant> := [One, Two, Three, Four, Five, Six]

  /** The props of an avatar; `onError` is represented by the count of its
      invocations kept on the instance. */
  datatype AvatarProps = AvatarProps(
    size: Option<Size>,
    name: Option<JsString>,
    initials: Option<JsString>,
    customer: Option<bool>,
    source: Option<JsString>,
    accessibilityLabel: Option<JsString>)

  /** The accessible label. The two translated cases are kept as the request
      made to the translation function, whose messages are not modelled. */
  datatype Label =
    | Explicit(text: JsString)
    | Named(text: JsString)
    | WithInitials(spacedInitials: JsString)
    | Generic

  /** The container's class tokens. */
  datatype AvatarClass = Base | Style(variant: StyleVariant) | SizeClass(size: Size) | HasImage

  /** What one render produces: the container's label and classes, the text of
      the initials graphic if any, and the source handed to the child `Image` if any. */
  datatype AvatarView = AvatarView(
    ariaLabel: Label,
    classes: seq<AvatarClass>,
    initialsMarkup: Option<JsString>,
    imageSource: Option<JsString>)

  /* ---- identity ---- */

  /** `name || initials`: the string both the style and the placeholder key on. */
  function NameString(p: AvatarProps): (r: Option<JsString>)
    ensures Truthy(r) <==> Truthy(p.name) || Truthy(p.initials)
    ensures Truthy(p.name) ==> r == p.name
    ensures !Truthy(p.name) ==> r == p.initials
  {
    Or(p.name, p.initials)
  }

  /** `name ? name.charCodeAt(0) % n : 0`: the index keyed on the first code unit. */
  function FirstUnitIndex(name: Option<JsString>, n: nat): (i: nat)
    requires n > 0
    ensures i < n
  {
    if Truthy(name) then name.value[0] % n else 0
  }

  /** The index depends on nothing but the first code unit, and a missing or
      empty string always selects index 0. */
  lemma FirstUnitIndexIsStable(a: Option<JsString>, b: Option<JsString>, n: nat)
    requires n > 0
    ensures !Truthy(a) ==> FirstUnitIndex(a, n) == 0
    ensures Truthy(a) && Truthy(b) && a.value[0] == b.value[0] ==>
      FirstUnitIndex(a, n) == FirstUnitIndex(b, n)
  {
  }

  /** `styleClass(name)`: the first variant for a missing or empty name,
      otherwise the variant at the first code unit modulo six. */
  function StyleClass(name: Option<JsString>): (r: StyleVariant)
    ensures !Truthy(name) ==> r == One
    ensures Truthy(name) ==> r == STYLE_CLASSES[name.value[0] % 6]
  {
    STYLE_CLASSES[FirstUnitIndex(name, |STYLE_CLASSES|)]
  }

  /** `customerPlaceholder(name)` over the placeholder catalog: the entry at
      the first code unit modulo the catalog size, entry 0 for a missing or
      empty name, and `undefined` when the catalog is empty. */
  function CustomerPlaceholder(name: Option<JsString>, catalog: seq<JsString>): (r: Option<JsString>)
    ensures |catalog| == 0 <==> r.None?
    ensures r.Some? ==> r.value in catalog
    ensures |catalog| > 0 && !Truthy(name) ==> r == Some(catalog[0])
    ensures |catalog| > 0 && Truthy(name) ==> r == Some(catalog[name.value[0] % |catalog|])
  {
    if |catalog| == 0 then None else Some(catalog[FirstUnitIndex(name, |catalog|)])
  }

  /* ---- label ---- */

  /** `initials.split('').join(' ')`: for `n >= 1` units, `2n - 1` units with
      the initials at even positions and single spaces at odd ones. */
  function SpacedInitials(initials: JsString): (r: JsString)
    ensures |initials| == 0 ==> r == []
    ensures |initials| > 0 ==> |r| == 2 * |initials| - 1
    ensures forall i :: 0 <= i < |r| ==> r[i] == if i % 2 == 0 then initials[i / 2] else SPACE
  {
    if |initials| > 0 then
      JoinUnitsLayout(initials, SPACE);
      Join(Units(initials), SPACE)
    else
      Join(Units(initials), SPACE)
  }

  /** Splitting spaced initials at the spaces gives back the initials one unit
      at a time, when no initial is itself a space. */
  lemma SpacedInitialsRoundTrip(initials: JsString)
    requires |initials| > 0
    requires SPACE !in initials
    ensures Split(SpacedInitials(initials), SPACE) == Units(initials)
  {
    SplitJoin(Units(initials), SPACE);
  }

  /** The label: the first truthy of `accessibilityLabel` and `name` verbatim,
      else the initials label with the spaced initials, else the generic label. */
  function ResolveLabel(p: AvatarProps): (r: Label)
    ensures r.Explicit? <==> Truthy(p.accessibilityLabel)
    ensures r.Named? <==> !Truthy(p.accessibilityLabel) && Truthy(p.name)
    ensures r.WithInitials? <==> !Truthy(p.accessibilityLabel) && !Truthy(p.name) && Truthy(p.initials)
    ensures r.Generic? <==> !Truthy(p.accessibilityLabel) && !Truthy(p.name) && !Truthy(p.initials)
    ensures r.Explicit? ==> r.text == p.accessibilityLabel.value
    ensures r.Named? ==> r.text == p.name.value
    ensures r.WithInitials? ==> r.spacedInitials == SpacedInitials(p.initials.value)
  {
    if Truthy(p.accessibilityLabel) then Explicit(p.accessibilityLabel.value)
    else if Truthy(p.name) then Named(p.name.value)
    else if Truthy(p.initials) then WithInitials(SpacedInitials(p.initials.value))
    else Generic
  }

  /** A truthy higher-precedence value decides the label alone: props that
      agree on it get the same label whatever their lower-precedence values. */
  lemma LabelPrecedence(p: AvatarProps, q: AvatarProps)
    ensures Truthy(p.accessibilityLabel) && p.accessibilityLabel == q.accessibilityLabel ==>
      ResolveLabel(p) == ResolveLabel(q)
    ensures (!Truthy(p.accessibilityLabel) && !Truthy(q.accessibilityLabel) &&
             Truthy(p.name) && p.name == q.name) ==>
      ResolveLabel(p) == ResolveLabel(q)
  {
  }

  /* ---- source and classes ---- */

  /** `customer` is an optional boolean; only `true` is truthy. */
  predicate IsCustomer(p: AvatarProps) {
    p.customer == Some(true)
  }

  /** The size, `medium` by default. */
  function SizeOf(p: AvatarProps): Size {
    p.size.GetOr(Medium)
  }

  /** `finalSource`: a truthy `source` verbatim, else the customer placeholder
      for customers, else `undefined`. */
  function FinalSource(p: AvatarProps, catalog: seq<JsString>): (r: Option<JsString>)
    ensures Truthy(p.source) ==> r == p.source
    ensures !Truthy(p.source) && !IsCustomer(p) ==> r.None?
    ensures !Truthy(p.source) && IsCustomer(p) ==> r == CustomerPlaceholder(NameString(p), catalog)
    ensures r.Some? && !Truthy(p.source) ==> r.value in catalog
  {
    if Truthy(p.source) then p.source
    else if IsCustomer(p) then CustomerPlaceholder(NameString(p), catalog)
    else None
  }

  /** The container's classes: the base class, the style variant of the name
      string, the size (`medium` by default), and `hasImage` exactly when there
      is a truthy final source and no reported error. */
  function Classes(p: AvatarProps, hasError: bool, catalog: seq<JsString>): (r: seq<AvatarClass>)
    ensures HasImage in r <==> Truthy(FinalSource(p, catalog)) && !hasError
    ensures Base in r
    ensures Style(StyleClass(NameString(p))) in r
    ensures SizeClass(SizeOf(p)) in r
    ensures forall k :: Style(k) in r ==> k == StyleClass(NameString(p))
    ensures forall z :: SizeClass(z) in r ==> z == SizeOf(p)
  {
    [Base, Style(StyleClass(NameString(p))), SizeClass(SizeOf(p))] +
    (if Truthy(FinalSource(p, catalog)) && !hasError then [HasImage] else [])
  }

  /** One render of the avatar. */
  function Render(p: AvatarProps, hasError: bool, catalog: seq<JsString>): (v: AvatarView)
    ensures v.ariaLabel == ResolveLabel(p)
    ensures v.classes == Classes(p, hasError, catalog)
    ensures v.initialsMarkup.Some? <==> Truthy(p.initials)
    ensures v.initialsMarkup.Some? ==> v.initialsMarkup == p.initials
    ensures v.imageSource.Some? <==> Truthy(FinalSource(p, catalog))
    ensures v.imageSource.Some? ==> v.imageSource == FinalSource(p, catalog)
    ensures HasImage in v.classes <==> v.imageSource.Some? && !hasError
  {
    AvatarView(
      ResolveLabel(p),
      Classes(p, hasError, catalog),
      if Truthy(p.initials) then p.initials else None,
      if Truthy(FinalSource(p, catalog)) then FinalSource(p, catalog) else None)
  }

  /** The error flag changes nothing but the `hasImage` class: the label, the
      initials graphic and the child image are rendered either way. */
  lemma ErrorOnlyDropsHasImage(p: AvatarProps, catalog: seq<JsString>)
    ensures Render(p, true, catalog).ariaLabel == Render(p, false, catalog).ariaLabel
    ensures Render(p, true, catalog).initialsMarkup == Render(p, false, catalog).initialsMarkup
    ensures Render(p, true, catalog).imageSource == Render(p, false, catalog).imageSource
    ensures Render(p, false, catalog).classes ==
      Render(p, true, catalog).classes + (if Render(p, false, catalog).imageSource.Some? then [HasImage] else [])
  {
  }

  /** The style variant and the placeholder key on the same name string: a
      truthy name decides both and the initials then play no part; without a
      name, the initials decide both. */
  lemma NameStringKeysStyleAndPlaceholder(p: AvatarProps, q: AvatarProps, catalog: seq<JsString>)
    requires (Truthy(p.name) && p.name == q.name) || (!Truthy(p.name) && !Truthy(q.name) && p.initials == q.initials)
    requires p.source == q.source && p.customer == q.customer && p.size == q.size
    ensures StyleClass(NameString(p)) == StyleClass(NameString(q))
    ensures FinalSource(p, catalog) == FinalSource(q, catalog)
    ensures Classes(p, false, catalog) == Classes(q, false, catalog)
  {
  }

  /** A customer named "Dana" without a source gets the catalog entry at
      `'D'.charCodeAt(0) % catalogSize` and the `hasImage` class; once that
      image fails, the class is gone and the initials are still rendered. */
  lemma CustomerWithoutSource(catalog: seq<JsString>, initials: Option<JsString>)
    requires |catalog| > 0 && forall i :: 0 <= i < |catalog| ==> |catalog[i]| > 0
    ensures var p := AvatarProps(None, Some([68, 97, 110, 97]), initials, Some(true), None, None);
      && Render(p, false, catalog).imageSource == Some(catalog[68 % |catalog|])
      && HasImage in Render(p, false, catalog).classes
      && HasImage !in Render(p, true, catalog).classes
      && (Truthy(initials) ==> Render(p, true, catalog).initialsMarkup == initials)
  {
    var p := AvatarProps(None, Some([68, 97, 110, 97]), initials, Some(true), None, None);
    assert FinalSource(p, catalog) == Some(catalog[68 % |catalog|]);
  }

  /** The update hook's effect on the flag: cleared when `source` changed. */
  function DidUpdate(previousSource: Option<JsString>, currentSource: Option<JsString>, hasError: bool): (e: bool)
    ensures previousSource != currentSource ==> !e
    ensures previousSource == currentSource ==> e == hasError
  {
    if previousSource != currentSource then false else hasError
  }

  /** As the component is written the host never calls the capitalised
      `ComponentDidUpdate`: after a failure, a new source keeps the avatar
      without its `hasImage` class although the new image may well load. */
  lemma StaleErrorSurvivesSourceChange(catalog: seq<JsString>)
    ensures var b := AvatarProps(None, None, None, None, Some([98]), None);
            HasImage !in Render(b, true, catalog).classes &&
            HasImage in Render(b, DidUpdate(Some([97]), b.source, true), catalog).classes
  {
  }

  /** One mounted `Avatar`: its current props, its error flag, and how many
      times it has called `onError` (the caller's callback or the no-op default). */
  class Avatar {
    var props: AvatarProps
    var hasError: bool
    var onErrorCalls: nat

    /** What the instance renders now, given the placeholder catalog. */
    function View(catalog: seq<JsString>): (v: AvatarView)
      reads this
      ensures HasImage in v.classes <==> v.imageSource.Some? && !hasError
    {
      Render(props, hasError, catalog)
    }

    constructor (props: AvatarProps)
      ensures this.props == props
      ensures !hasError
      ensures onErrorCalls == 0
    {
      this.props := props;
      hasError := false;
      onErrorCalls := 0;
    }

    /** The update hook as the component declares it: clears the flag when
        `previous` had another `source` than the current props. */
    method ComponentDidUpdate(previous: AvatarProps)
      modifies this`hasError
      ensures hasError == DidUpdate(previous.source, props.source, old(hasError))
    {
      if previous.source != props.source {
        hasError := false;
      }
    }

    /** The child image's error callback: calls `onError` once, then sets the flag. */
    method HandleError()
      modifies this`hasError, this`onErrorCalls
      ensures onErrorCalls == old(onErrorCalls) + 1
      ensures hasError
    {
      onErrorCalls := onErrorCalls + 1;
      hasError := true;
    }

    /** New props from the parent, as the host delivers them: the flag stays
        as it was, because the host only calls a lower-case `componentDidUpdate`. */
    method ReceiveProps(next: AvatarProps)
      modifies this`props
      ensures props == next
    {
      props := next;
    }

    /** New props followed by the update hook, as the component evidently intends. */
    method Update(next: AvatarProps)
      modifies this`props, this`hasError
      ensures props == next
      ensures hasError == DidUpdate(old(props).source, next.source, old(hasError))
      ensures old(props).source != next.source ==> !hasError
    {
      var previous := props;
      ReceiveProps(next);
      ComponentDidUpdate(previous);
    }
  }

  /** The sequence behind the finding on the hook's name: an avatar's image
      fails on source `a`, the host hands it source `b` without calling the
      hook, and the avatar still lacks its `hasImage` class. */
  method StaleErrorScenario(catalog: seq<JsString>) returns (avatar: Avatar)
    ensures avatar.props.source == Some([98])
    ensures HasImage !in avatar.View(catalog).classes
  {
    avatar := new Avatar(AvatarProps(None, None, None, None, Some([97]), None));
    avatar.HandleError();
    avatar.ReceiveProps(AvatarProps(None, None, None, None, Some([98]), None));
  }
}
