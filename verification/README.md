# Image and Avatar fallback logic

A Dafny model of two components of a React component library.

- `Image` renders one image. Two flags, `hasError` and `hasLoaded`, start false.
  The load event sets `hasLoaded`. The error event first calls the caller's `onError` (a no-op by default), then sets `hasError`.
  Once `hasError` is set, the component renders nothing.
  Otherwise it renders an `img` bound to `source`. The element has a class list made of the caller's class, `hidden`, and `visible` once loaded.
  A non-empty responsive source set becomes a `srcSet` string: each entry is written as `source descriptor` and the entries are comma-joined.
  A method named `ComponentDidUpdate` clears both flags when the source or the source set changed by value.
- `Avatar` derives everything from its props:
  - an accessible label, by a fixed precedence;
  - a style variant, `charCode(first unit) % 6`;
  - a customer placeholder image, `charCode(first unit) % catalogSize`;
  - the image source handed to its child `Image`;
  - a class list whose `hasImage` class is dropped once the child image reports an error.

Files:

- `jstext.dfy` (module `JsText`) models JavaScript strings as sequences of UTF-16 code units. It also holds optional props, truthiness, `||`, `Array.prototype.join` and `String.prototype.split`, with the round trips between `join` and `split`.
- `image.dfy` (module `ImageComponent`) holds the `Image` props and state, the `srcSet` serialisation, `Render`, the state transitions, an event trace, and the class `Image` with its event methods.
- `avatar.dfy` (module `AvatarComponent`) holds the `Avatar` derivations, `Render`, and the class `Avatar` with its error flag.

Modelling choices:

- A string is a `seq` of code units (`int` in `0..65535`), the value `charCodeAt` returns. JavaScript's `%` on these non-negative values agrees with Dafny's.
- An optional prop is an `Option`. A string is truthy when it is present and non-empty, so `name || initials` picks `initials` when `name` is missing or `""`.
- Rendering is a pure function of the props and the flags. Its result is an abstract descriptor, not markup.
- The translated labels are kept as the request made to the translator: `WithInitials(spaced)` or `Generic`.
- The placeholder catalog is a parameter. An empty catalog yields `undefined` (`None`), as indexing an empty array does.
- Calls to `onError` are counted on the instance (`onErrorCalls`).
- `handleError` sets `hasError` whatever `hasLoaded` is, so an error after a completed load is reachable. `ErrorHidesImage` shows that such an image is hidden too.

## Model

| member | source | states |
|---|---|---|
| `JsText.Or` | src/components/Avatar/Avatar.tsx:72 | `a \|\| b` is truthy iff either operand is; it is `a` when `a` is truthy and `b` whenever `a` is falsy |
| `JsText.Join` | src/components/Image/Image.tsx:77 | `join` of no parts is empty; otherwise the result starts with the first part, followed by the separator when there are more parts |
| `JsText.Units` | src/components/Avatar/Avatar.tsx:82 | `split('')` gives one single-unit string per code unit, in order |
| `JsText.JoinSplit` | src/components/Image/Image.tsx:72-78 | a check on `Split`, the reference inverse of `join` used by the other lemmas: joining the pieces of any split with the same separator gives back the string |
| `JsText.SplitJoin` | src/components/Image/Image.tsx:72-78 | splitting a join of separator-free parts gives back the parts, in order |
| `JsText.JoinUnitsLayout` | src/components/Avatar/Avatar.tsx:82 | `s.split('').join(sep)` has `2n-1` units, with `s` at even positions and `sep` at odd ones |
| `ImageComponent.EntryText` | src/components/Image/Image.tsx:75 | an entry's text is its source, one space, then its descriptor, or `undefined` when the descriptor is missing |
| `ImageComponent.SerializeSourceSet` | src/components/Image/Image.tsx:72-78 | the serialised set is non-empty exactly when the set has an entry, and starts with the first entry's text |
| `ImageComponent.FinalSourceSet` | src/components/Image/Image.tsx:72-80 | a present set, even an empty one, gives a string; that string is truthy exactly when the set is non-empty |
| `ImageComponent.MergedClassNames` | src/components/Image/Image.tsx:66-70 | `hidden` is always present; `visible` iff loaded; a truthy caller class comes first and is the only caller class; otherwise `hidden` comes first |
| `ImageComponent.SerializeSplitsIntoEntries` | src/components/Image/Image.tsx:72-78 | with no comma inside sources or descriptors, the `srcSet` string splits at commas into the entries' texts in order; a missing descriptor is written `undefined` |
| `ImageComponent.Render` | src/components/Image/Image.tsx:51-102 | nothing iff `hasError`; otherwise `src` is `props.source` in both branches; `srcSet` is present iff the set is present and non-empty, and is then the serialised set; the class list is exactly `MergedClassNames` of the caller class and `hasLoaded`: `hidden` always, `visible` iff loaded, a truthy caller class first and no other caller class |
| `ImageComponent.RenderedSrcSetListsEntries` | src/components/Image/Image.tsx:80-90 | a rendered `srcSet` names every entry of the set in order |
| `ImageComponent.ArraysAreEqual` | src/components/Image/Image.tsx:45 | the assumed element-wise `arraysAreEqual` holds iff the two sets are equal as values |
| `ImageComponent.SameResource` | src/components/Image/Image.tsx:42-46 | two props name the same resource iff their sources are equal and their sets, with the `[]` default, are equal as values; a missing set equals an empty one |
| `ImageComponent.DidUpdate` | src/components/Image/Image.tsx:38-49 | both flags are cleared when the resource changed; otherwise the state is unchanged |
| `ImageComponent.LoadIsIdempotent` | src/components/Image/Image.tsx:111-114 | a load sets `hasLoaded`, keeps `hasError`, and a second load changes nothing |
| `ImageComponent.ErrorHidesImage` | src/components/Image/Image.tsx:104-109 | after an error nothing is rendered, even after a completed load, and `hasLoaded` is kept |
| `ImageComponent.ErrorIsTerminal` | src/components/Image/Image.tsx:38-64 | once errored, any sequence of loads, errors and hook calls that do not see a changed resource keeps the state errored and renders nothing |
| `ImageComponent.LoadsNeverFlap` | src/components/Image/Image.tsx:111-114 | any non-empty run of load events gives the state after a single load |
| `ImageComponent.UpdateRendersNewResource` | src/components/Image/Image.tsx:38-49 | after the hook sees a changed resource, the image is rendered again, bound to the new source and not yet `visible` |
| `ImageComponent.StaleErrorSurvivesSourceChange` | src/components/Image/Image.tsx:38-49 | without the hook, an image that failed on one source still renders nothing after the source changes |
| `ImageComponent.StaleErrorScenario` | src/components/Image/Image.tsx:38-49 | an instance that fails on source `a` and is then handed source `b` without the hook renders nothing |
| `ImageComponent.Image.View` | src/components/Image/Image.tsx:51-64 | the instance renders nothing iff its `hasError` is set, else an image bound to its source |
| `ImageComponent.Image.constructor` | src/components/Image/Image.tsx:33-36 | a fresh instance has `hasError` and `hasLoaded` false and has not called `onError` |
| `ImageComponent.Image.ComponentDidUpdate` | src/components/Image/Image.tsx:38-49 | the new flags are `DidUpdate` of the previous props, the current props and the old flags |
| `ImageComponent.Image.HandleError` | src/components/Image/Image.tsx:104-109 | `onError` is called exactly once; `hasError` becomes true and `hasLoaded` is unchanged |
| `ImageComponent.Image.HandleLoad` | src/components/Image/Image.tsx:111-114 | `hasLoaded` becomes true and `hasError` is unchanged |
| `ImageComponent.Image.ReceiveProps` | src/components/Image/Image.tsx:38-49 | new props as the host delivers them, without calling the capitalised hook; the flags are untouched |
| `ImageComponent.Image.Update` | src/components/Image/Image.tsx:38-49 | new props followed by the hook: the flags are `DidUpdate` of old and new props, and a changed resource renders again |
| `AvatarComponent.NameString` | src/components/Avatar/Avatar.tsx:72 | `name \|\| initials` is truthy iff either is; it is `name` when `name` is truthy and `initials` otherwise |
| `AvatarComponent.FirstUnitIndex` | src/components/Avatar/Avatar.tsx:149-159 | the first-code-unit index is always below the size of the list it indexes |
| `AvatarComponent.FirstUnitIndexIsStable` | src/components/Avatar/Avatar.tsx:149-159 | the index depends only on the first code unit; a missing or empty string gives 0 |
| `AvatarComponent.StyleClass` | src/components/Avatar/Avatar.tsx:149-153 | variant `one` for a missing or empty name, else `STYLE_CLASSES[charCode(name[0]) % 6]` |
| `AvatarComponent.CustomerPlaceholder` | src/components/Avatar/Avatar.tsx:155-159 | an entry of the catalog at index `charCode(name[0]) % catalogSize`, or index 0 for a missing or empty name; `undefined` only for an empty catalog |
| `AvatarComponent.SpacedInitials` | src/components/Avatar/Avatar.tsx:82 | spaced initials of `n >= 1` units have length `2n-1`, with the initials at even positions and spaces at odd ones; no initials give the empty string |
| `AvatarComponent.SpacedInitialsRoundTrip` | src/components/Avatar/Avatar.tsx:82 | splitting the spaced initials at spaces gives back the initials one unit at a time |
| `AvatarComponent.ResolveLabel` | src/components/Avatar/Avatar.tsx:77-88 | the first truthy of `accessibilityLabel` and `name` verbatim, else the initials label carrying exactly `SpacedInitials(initials)`, else the generic label; each case holds iff the values above it are falsy |
| `AvatarComponent.LabelPrecedence` | src/components/Avatar/Avatar.tsx:77-88 | a truthy higher-precedence value alone decides the label, whatever the lower ones are |
| `AvatarComponent.FinalSource` | src/components/Avatar/Avatar.tsx:90-94 | a truthy `source` verbatim, else the customer placeholder (an entry of the catalog) for customers, else none |
| `AvatarComponent.Classes` | src/components/Avatar/Avatar.tsx:96-101 | base class, the style variant of the name string and no other, the size class of the given size (`medium` by default) and no other, and `hasImage` iff the final source is truthy and no error was reported |
| `AvatarComponent.Render` | src/components/Avatar/Avatar.tsx:59-139 | the label is `ResolveLabel`; the class list is `Classes`; the initials graphic is present iff `initials` is truthy; the child image is present iff the final source is truthy; `hasImage` needs an image and no error |
| `AvatarComponent.ErrorOnlyDropsHasImage` | src/components/Avatar/Avatar.tsx:96-131 | the error flag changes nothing but the `hasImage` class; label, initials graphic and child image are the same either way |
| `AvatarComponent.NameStringKeysStyleAndPlaceholder` | src/components/Avatar/Avatar.tsx:72-101 | the style and the placeholder key on the same name string: a truthy name decides both, else the initials do |
| `AvatarComponent.CustomerWithoutSource` | src/components/Avatar/Avatar.tsx:90-131 | a customer "Dana" without a source gets catalog entry `68 % catalogSize` and `hasImage`; after a failure `hasImage` is gone and the initials remain |
| `AvatarComponent.DidUpdate` | src/components/Avatar/Avatar.tsx:52-57 | the flag is cleared when `source` changed, otherwise kept |
| `AvatarComponent.StaleErrorSurvivesSourceChange` | src/components/Avatar/Avatar.tsx:52-57 | without the hook, an errored avatar keeps lacking `hasImage` after its source changes; with it, the class returns |
| `AvatarComponent.StaleErrorScenario` | src/components/Avatar/Avatar.tsx:52-57 | an instance whose image fails on source `a` and is then handed source `b` without the hook still lacks `hasImage` |
| `AvatarComponent.Avatar.View` | src/components/Avatar/Avatar.tsx:96-111 | the instance has `hasImage` iff it hands a source to its child image and its flag is clear |
| `AvatarComponent.Avatar.constructor` | src/components/Avatar/Avatar.tsx:48-50 | a fresh instance has `hasError` false and has not called `onError` |
| `AvatarComponent.Avatar.ComponentDidUpdate` | src/components/Avatar/Avatar.tsx:52-57 | the new flag is `DidUpdate` of the previous source, the current source and the old flag |
| `AvatarComponent.Avatar.HandleError` | src/components/Avatar/Avatar.tsx:141-146 | `onError` is called exactly once, then `hasError` is true |
| `AvatarComponent.Avatar.ReceiveProps` | src/components/Avatar/Avatar.tsx:52-57 | new props as the host delivers them, without calling the capitalised hook; the flag is untouched |
| `AvatarComponent.Avatar.Update` | src/components/Avatar/Avatar.tsx:52-57 | new props followed by the hook: a changed `source` clears the flag |

## Findings

| source | as written | input that shows it | evidently intended | confidence | as-written member | corrected member |
|---|---|---|---|---|---|---|
| src/components/Image/Image.tsx:38-49 | the reset is a method named `ComponentDidUpdate`, which React never calls (its hook is `componentDidUpdate`) | the image fails on source `a`, then the parent re-renders it with source `b`: `hasError` stays set and nothing is rendered for `b` | the lifecycle hook `componentDidUpdate`, clearing both flags on a changed resource | high, not executed | `ImageComponent.Image.ReceiveProps`, `ImageComponent.StaleErrorSurvivesSourceChange`, `ImageComponent.StaleErrorScenario` | `ImageComponent.Image.Update`, `ImageComponent.UpdateRendersNewResource` |
| src/components/Avatar/Avatar.tsx:52-57 | the same misnamed `ComponentDidUpdate` | the avatar's image fails on source `a`, then it is given source `b`: `hasError` stays set and `hasImage` never returns | the lifecycle hook `componentDidUpdate`, clearing the flag on a changed `source` | high, not executed | `AvatarComponent.Avatar.ReceiveProps`, `AvatarComponent.StaleErrorSurvivesSourceChange`, `AvatarComponent.StaleErrorScenario` | `AvatarComponent.Avatar.Update`, `AvatarComponent.DidUpdate` |

## Left out

- JSX markup, React's lifecycle and `PureComponent` re-render rules, `withAppProvider` and `@autobind` are framework plumbing. Render is a pure function returning a descriptor, and events are method calls.
- `alt`, `role`, the `crossOrigin` cast and the SVG text geometry reach the markup unchanged and carry no logic.
- ImageComponent.Render: the `...rest` attributes are spread after `src`, `srcSet` and `onLoad` and would override them; the model assumes callers pass none of those three. Only under that assumption does `src == props.source` hold, the `srcSet` come from `sourceSet`, and a load reach `handleLoad`. The child `Image` also receives the class `styles.Image`, `alt=""` and `role="presentation"`; the model keeps only the source it is handed.
- Style-sheet class names are opaque tokens (`Hidden`, `Visible`, `Base`, `Style(..)`, `SizeClass(..)`, `HasImage`). `classNames` joining the tokens into one string is not modelled; the class list is a sequence.
- `intl.translate` and its messages are foreign. The label keeps the translation request instead of the translated text.
- `arraysAreEqual` is in `src/utilities/arrays`, which is not part of this model. It is assumed to be a length check plus element-wise equality of the entries. A missing descriptor and an explicit `undefined` descriptor are one value (`None`) here.
- The contents of the placeholder catalog (`./images`) are not part of this model; the catalog is a parameter.
- Fetching images, and when the browser delivers the load and error events, are I/O. Stale callbacks from a replaced resource are just further event calls.
- The `onError` callbacks are foreign code. Each call is counted, but what the callback does is not modelled.
- `ImageComponent.Image.HandleError`: does not state that `onError` runs before `hasError` is set. Within one call that order cannot be observed in the model.
- `AvatarComponent.Avatar.HandleError`: the same ordering is not stated.
- The `Size` prop is always truthy (a union of non-empty strings). `size && ...` is therefore modelled as always adding the size class.
