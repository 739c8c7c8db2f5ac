# Pagination dots of a snap carousel

This project models the `Pagination` component of react-native-snap-carousel in Dafny. The component draws a row or a column of dots that shows which item of a carousel is current. The modelled logic is:

- **Display-index resolution.** The active index is mirrored to `dotsLength - activeDotIndex - 1` exactly when the layout is right-to-left, the platform is not iOS and the pager is horizontal.
- **The `dots` getter.** It either hands everything to the caller's `renderDots` callback, or builds one element per slot. Each element is the active template, the inactive template or the component's default dot. The default dot honours per-index colour and style overrides. The clone then stamps each element with its `key`, `index` and `active` props.
- **`render`.** It draws nothing for fewer than two dots. Otherwise it picks the container's `flexDirection`: `column`, `row-reverse` or `row`.
- **The lifecycle.** The constructor emits the configuration warnings once and copies `activeDotIndex` into state. `setActiveDotIndex` is the only thing that changes that state afterwards.

Everything is in `pagination.dfy`, module `Pagination`:

- JavaScript's `undefined` is `None` of an `Option`.
- A colour is truthy when it is set and non-empty. Elements and style objects are truthy when present.
- The carousel ref is `Undefined`, `Null` or a `Ref`. The source tells the first two apart (see below).
- The platform constants `IS_IOS` and `IS_RTL` are a `Platform` value passed in.
- The component is the class `Component`. Its props, platform and emitted warnings are constant, and `activeDotIndex` is its one mutable state field.

Some behaviours of `Pagination.js` worth stating plainly:

- The `dots` getter builds `dotsLength` entries even when `dotsLength` is 0 or 1 (`Pagination.js:128`). Only `render` suppresses output for fewer than two dots (`Pagination.js:150`).
- A negative `dotsLength` is not an error. The loop just runs zero times and `render` draws nothing.
- A per-index colour overrides `dotColor` only when it is truthy (`Pagination.js:109`). An empty-string entry falls back to `dotColor`.
- With `tappableDots` set and `carouselRef` equal to `null`, the constructor warns (`Pagination.js:55`), yet the default dots are still tappable. The tap test is `typeof carouselRef !== 'undefined'` (`Pagination.js:115`), which `null` passes. This is stated by `NullCarouselRefStaysTappable`.

## Model

| member | source | states |
|---|---|---|
| Pagination.NeedsRTLAdaptations | src/pagination/Pagination.js:67-70 | mirroring by hand happens only for a right-to-left layout, never on iOS and never vertically, and always when all three conditions hold |
| Pagination.DisplayIndex | src/pagination/Pagination.js:67-76 | the display index is the state's index when no RTL adaptation applies, and `dotsLength - 1 - activeDotIndex` when it does; it lies in `[0, dotsLength)` iff the state's index does |
| Pagination.DisplayIndexInvolutive | src/pagination/Pagination.js:72-76 | resolving the display index a second time gives back the state's index |
| Pagination.Decimal | src/pagination/Pagination.js:133 | the numeral written into a dot key is a non-empty string of decimal digits, with at least two digits from 10 on |
| Pagination.DecimalInjective | src/pagination/Pagination.js:133 | distinct slot numbers have distinct numerals |
| Pagination.DotKey | src/pagination/Pagination.js:133 | a dot key is the prefix `pagination-dot-` followed by the slot's decimal numeral |
| Pagination.DotKeyInjective | src/pagination/Pagination.js:133 | two keys `pagination-dot-${i}` are equal only for the same slot |
| Pagination.DotCount | src/pagination/Pagination.js:128 | the loop runs `dotsLength` times, and zero times when `dotsLength <= 0` |
| Pagination.DefaultDotOf | src/pagination/Pagination.js:102-124 | the default dot's colour is a truthy per-index colour, else `dotColor`; its style list starts with `dotStyle` and gets exactly one more entry iff the per-index style is truthy; `inactiveColor` is `inactiveDotColor`; it is tappable iff `tappableDots` holds and the ref is not `undefined`; the ref, `activeOpacity` and `dotContainerStyle` are forwarded, and the inactive opacity and scale default to 0.5; it carries no key, index or active prop before the clone |
| Pagination.DotSource | src/pagination/Pagination.js:131 | a slot is drawn from the template for its role (`dotElement` when active, `inactiveDotElement` otherwise) when that template is set, and from the default dot otherwise |
| Pagination.Clone | src/pagination/Pagination.js:130-137 | cloning keeps the element's own content |
| Pagination.BuiltDots | src/pagination/Pagination.js:126-140 | without `renderDots` the list has exactly one entry per loop iteration; entry `i` has index `i`, key `pagination-dot-${i}`, and is active iff `i` is the display index, whatever the template says |
| Pagination.DotsOf | src/pagination/Pagination.js:98-140 | the getter returns the renderer's result for (display index, `dotsLength`) when `renderDots` is set; otherwise one dot per loop iteration, entry `i` with index `i` and active iff `i` is the display index |
| Pagination.CountActiveMarked | src/pagination/Pagination.js:129-134 | a list marked active exactly at one position has one active entry if that position is inside it, else none |
| Pagination.ExactlyOneActiveDot | src/pagination/Pagination.js:128-135 | exactly one dot is active when `0 <= activeDotIndex < dotsLength`, and none otherwise |
| Pagination.DotKeysDistinct | src/pagination/Pagination.js:133 | no two built dots share a key |
| Pagination.ElementSelection | src/pagination/Pagination.js:130-131 | the active slot is cloned from `dotElement` and the others from `inactiveDotElement`; when the template for a role is unset, the default dot is used |
| Pagination.DefaultDotOverrides | src/pagination/Pagination.js:102-111 | without templates, every built dot is a default dot whose colour follows the per-index precedence and whose first style is `dotStyle` |
| Pagination.CustomRendererVerbatim | src/pagination/Pagination.js:98-100 | with `renderDots`, the list is the callback's result for (display index, `dotsLength`); because the callback is not given the component, changing templates, colours, styles or tap props does not change it |
| Pagination.NullCarouselRefStaysTappable | src/pagination/Pagination.js:55-60 | a `null` ref with `tappableDots` draws the tap warning and still yields tappable default dots |
| Pagination.Suppressed | src/pagination/Pagination.js:150-152 | `render` suppresses output iff `dotsLength < 2` |
| Pagination.FlexDirectionOf | src/pagination/Pagination.js:154-159 | the direction is `column` iff vertical, `row-reverse` iff the RTL adaptation applies, and `row` otherwise |
| Pagination.ConfigWarnings | src/pagination/Pagination.js:43-60 | the colour warning is emitted once iff exactly one of `dotColor` and `inactiveDotColor` is truthy; the element warning once iff exactly one template is set; the tap warning once iff `tappableDots` holds and the ref is falsy; nothing else is emitted |
| Pagination.Component.constructor | src/pagination/Pagination.js:39-65 | the recorded warnings are the configuration warnings of the props, and the state's index is the `activeDotIndex` prop |
| Pagination.Component.ActiveDotIndex | src/pagination/Pagination.js:72-76 | the getter's display index is a slot iff the state's index is |
| Pagination.Component.DefaultDot | src/pagination/Pagination.js:102-124 | the closure builds its style by a push and its colour by a reassignment, giving exactly the default dot described above |
| Pagination.Component.Dots | src/pagination/Pagination.js:78-141 | the getter's loop returns the callback's result, or the built list with all the properties above |
| Pagination.Component.SetActiveDotIndex | src/pagination/Pagination.js:143-145 | the state's index becomes the argument and nothing else changes |
| Pagination.Component.Render | src/pagination/Pagination.js:147-168 | nothing is rendered iff `dotsLength < 2`; otherwise the container has the chosen direction, the caller's `containerStyle` and the getter's dots as children |

## Left out

- React and React Native rendering are not modelled. This covers `View`, the `pointerEvents='box-none'` pass-through, the `styles.sliderPagination` base style and `cloneElement` beyond the three props it sets. An element is a plain record.
- The `PaginationDot` component and `Pagination.style` are not part of this model. The default dot is an opaque record of the props it receives. How it draws active and inactive dots is left out.
- PropTypes validation is a runtime type-checking library and is not modelled. Every number is an integer here, so a fractional or `NaN` `dotsLength` or `activeDotIndex` is outside the model.
- `console.warn` is not modelled as I/O. The warnings are recorded as tags in the component's `warnings` field.
- `Platform.OS` and `I18nManager.isRTL` are not read. They come in as a `Platform` value.
- `activeOpacity`, `inactiveDotOpacity` and `inactiveDotScale` are only forwarded. They are `real` values, with the 0.5 defaults applied as `defaultProps` does.
- The body of `renderDots` is caller code. It is an arbitrary function of (display index, `dotsLength`). The component instance that the source passes as a third argument is left out, so a callback that reads the component's props is not modelled; `CustomRendererVerbatim`'s independence from the other props rests on this.
- The carousel ref's navigation is caller code and is left out.
- `inactiveDotStyle` is destructured by the getter but never used, so it is not a field of the model's props.
- Component.SetActiveDotIndex: React's `setState` is asynchronous and may be batched. The model applies the new index at once.
- Component.constructor: props are fixed at construction. React can pass new props to a mounted component; the model does not cover that. It also matches the source's choice to warn only from the constructor.
