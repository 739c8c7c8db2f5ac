/**
 * The pagination-dots component of a swipeable carousel: it resolves the
 * carousel's active index into the slot to highlight (mirroring it for
 * right-to-left layouts the platform does not mirror itself), builds one dot
 * element per slot, and chooses how the container lays them out.
 *
 * JavaScript values are modelled explicitly: an optional prop is an `Option`
 * whose `None` is `undefined`; JavaScript truthiness is spelled out wherever the
 * component tests a value with `&&`, `||` or `!`.
 */
module Pagination {

  datatype Option<+T> = None | Some(value: T) {
    function GetOr(default: T): T {
      if Some? then value else default
    }
  }

  // ---------------------------------------------------------------------------
  // Values the component receives and produces
  // ---------------------------------------------------------------------------

  /** The two platform constants read when the module loads (IS_IOS, IS_RTL). */
  datatype Platform = Platform(isIOS: bool, isRTL: bool)

  type Color = string

  /** A style object or registered style. Its contents are opaque; it is always truthy. */
  datatype Style = Style(id: nat)

  /** The carousel ref the dots forward taps to. `null` and `undefined` differ here. */
  datatype CarouselRef = Undefined | Null | Ref(id: nat)

  /**
   * A React element. `key`, `index` and `active` are the props that
   * `cloneElement` sets on every dot; any other content is in `kind`.
   */
  datatype Element = Element(key: Option<string>, index: Option<int>, active: Option<bool>, kind: Kind)

  datatype Kind =
    /** An element the caller built (`dotElement`, `inactiveDotElement`, or from `renderDots`). */
    | UserElement(id: nat)
    /** The component's own default dot and the props it receives. */
    | PaginationDot(
        carouselRef: CarouselRef,
        tappable: bool,
        activeOpacity: Option<real>,
        color: Option<Color>,
        containerStyle: Option<Style>,
        style: seq<Option<Style>>,
        inactiveColor: Option<Color>,
        inactiveOpacity: real,
        inactiveScale: real)

  /** The caller's `renderDots(activeDotIndex, dotsLength)` callback. */
  type DotsRenderer = (int, int) -> seq<Element>

  /** The props the component reads (`containerStyle` only in `render`). */
  datatype Props = Props(
    activeDotIndex: int,
    dotsLength: int,
    activeOpacity: Option<real>,
    carouselRef: CarouselRef,
    containerStyle: Option<Style>,
    dotColor: Option<Color>,
    dotContainerStyle: Option<Style>,
    dotElement: Option<Element>,
    dotStyle: Option<Style>,
    inactiveDotColor: Option<Color>,
    inactiveDotElement: Option<Element>,
    inactiveDotOpacity: Option<real>,
    inactiveDotScale: Option<real>,
    renderDots: Option<DotsRenderer>,
    tappableDots: Option<bool>,
    vertical: Option<bool>,
    dotColorByIndex: Option<map<int, Color>>,
    /** A `None` entry is a falsy entry such as `null`. */
    dotStyleByIndex: Option<map<int, Option<Style>>>)
  {
    // The four defaulted props, read as React reads them once `defaultProps` is applied.
    function InactiveDotOpacity(): real { inactiveDotOpacity.GetOr(0.5) }
    function InactiveDotScale(): real { inactiveDotScale.GetOr(0.5) }
    function TappableDots(): bool { tappableDots.GetOr(false) }
    function Vertical(): bool { vertical.GetOr(false) }
  }

  /** A colour prop is truthy when it is set and is not the empty string. */
  predicate Truthy(c: Option<Color>) {
    c.Some? && c.value != ""
  }

  /** `dotColorByIndex[index]`, `undefined` when the prop or the entry is missing. */
  function ColorEntry(byIndex: Option<map<int, Color>>, index: int): Option<Color> {
    if byIndex.Some? && index in byIndex.value then Some(byIndex.value[index]) else None
  }

  /** `dotStyleByIndex[index]`, `None` when the prop or the entry is missing or falsy. */
  function StyleEntry(byIndex: Option<map<int, Option<Style>>>, index: int): Option<Style> {
    if byIndex.Some? && index in byIndex.value then byIndex.value[index] else None
  }

  // ---------------------------------------------------------------------------
  // Display-index resolution
  // ---------------------------------------------------------------------------

  /**
   * Whether the dots must be mirrored by hand: only for a right-to-left
   * layout, never on iOS (whose layout mirrors itself) and never vertically.
   */
  predicate NeedsRTLAdaptations(platform: Platform, vertical: bool)
    ensures NeedsRTLAdaptations(platform, vertical) ==> platform.isRTL
    ensures platform.isIOS ==> !NeedsRTLAdaptations(platform, vertical)
    ensures vertical ==> !NeedsRTLAdaptations(platform, vertical)
    ensures platform.isRTL && !platform.isIOS && !vertical ==> NeedsRTLAdaptations(platform, vertical)
  {
    platform.isRTL && !platform.isIOS && !vertical
  }

  /**
   * The slot that is drawn as active. The flip keeps an index inside
   * `[0, dotsLength)` and one outside it outside it, and leaves it alone
   * whenever no adaptation is needed.
   */
  function DisplayIndex(platform: Platform, vertical: bool, dotsLength: int, activeDotIndex: int): (d: int)
    ensures 0 <= d < dotsLength <==> 0 <= activeDotIndex < dotsLength
    ensures !NeedsRTLAdaptations(platform, vertical) ==> d == activeDotIndex
    ensures NeedsRTLAdaptations(platform, vertical) ==> d + activeDotIndex == dotsLength - 1
  {
    if NeedsRTLAdaptations(platform, vertical) then dotsLength - activeDotIndex - 1 else activeDotIndex
  }

  /** Resolving twice gives back the state's index: the flip is an involution. */
  lemma DisplayIndexInvolutive(platform: Platform, vertical: bool, dotsLength: int, activeDotIndex: int)
    ensures DisplayIndex(platform, vertical, dotsLength,
                         DisplayIndex(platform, vertical, dotsLength, activeDotIndex)) == activeDotIndex
  {
  }

  // ---------------------------------------------------------------------------
  // Dot keys: `pagination-dot-${i}`
  // ---------------------------------------------------------------------------

  function DigitChar(d: nat): (c: char)
    requires d < 10
    ensures '0' <= c <= '9'
  {
    (48 + d) as char
  }

  /** The decimal numeral JavaScript writes for a non-negative integer. */
  function Decimal(n: nat): (s: string)
    ensures 1 <= |s|
    ensures n >= 10 ==> 2 <= |s|
    ensures forall k :: 0 <= k < |s| ==> '0' <= s[k] <= '9'
    decreases n
  {
    if n < 10 then [DigitChar(n)] else Decimal(n / 10) + [DigitChar(n % 10)]
  }

  /** Different numbers have different numerals. */
  lemma {:induction false} DecimalInjective(a: nat, b: nat)
    requires Decimal(a) == Decimal(b)
    ensures a == b
    decreases a
  {
    var sa, sb := Decimal(a), Decimal(b);
    if a < 10 && b < 10 {
      assert sa[0] == DigitChar(a) && sb[0] == DigitChar(b);
    } else if a >= 10 && b >= 10 {
      assert sa[|sa| - 1] == DigitChar(a % 10);
      assert sb[|sb| - 1] == DigitChar(b % 10);
      assert Decimal(a / 10) == sa[..|sa| - 1] == sb[..|sb| - 1] == Decimal(b / 10);
      DecimalInjective(a / 10, b / 10);
    }
  }

  const KeyPrefix: string := "pagination-dot-"

  /** `pagination-dot-${index}`: the fixed prefix followed by the slot's numeral. */
  function DotKey(index: nat): (key: string)
    ensures |KeyPrefix| < |key| && key[..|KeyPrefix|] == KeyPrefix
    ensures key[|KeyPrefix|..] == Decimal(index)
  {
    KeyPrefix + Decimal(index)
  }

  /** Two slots share a key only if they are the same slot. */
  lemma DotKeyInjective(a: nat, b: nat)
    requires DotKey(a) == DotKey(b)
    ensures a == b
  {
    assert Decimal(a) == DotKey(a)[|KeyPrefix|..];
    assert Decimal(b) == DotKey(b)[|KeyPrefix|..];
    DecimalInjective(a, b);
  }

  // ---------------------------------------------------------------------------
  // Dot-list construction (the `dots` getter)
  // ---------------------------------------------------------------------------

  /** The number of iterations of `for (i = 0; i < dotsLength; i++)`. */
  function DotCount(dotsLength: int): (n: nat)
    ensures n <= 0 <==> dotsLength <= 0
    ensures dotsLength >= 0 ==> n == dotsLength
  {
    if dotsLength > 0 then dotsLength else 0
  }

  /**
   * The default dot for slot `index`: a per-index colour wins over `dotColor`
   * when it is truthy; a truthy per-index style is appended after `dotStyle`,
   * never in its place; taps are enabled only with a defined carousel ref.
   */
  function DefaultDotOf(p: Props, index: int): (e: Element)
    ensures e.key.None? && e.index.None? && e.active.None? && e.kind.PaginationDot?
    ensures Truthy(ColorEntry(p.dotColorByIndex, index)) ==> e.kind.color == ColorEntry(p.dotColorByIndex, index)
    ensures !Truthy(ColorEntry(p.dotColorByIndex, index)) ==> e.kind.color == p.dotColor
    ensures 1 <= |e.kind.style| <= 2 && e.kind.style[0] == p.dotStyle
    ensures |e.kind.style| == 2 <==> StyleEntry(p.dotStyleByIndex, index).Some?
    ensures |e.kind.style| == 2 ==> e.kind.style[1] == StyleEntry(p.dotStyleByIndex, index)
    ensures e.kind.inactiveColor == p.inactiveDotColor
    ensures e.kind.tappable <==> p.TappableDots() && !p.carouselRef.Undefined?
    ensures e.kind.carouselRef == p.carouselRef && e.kind.activeOpacity == p.activeOpacity
    ensures e.kind.containerStyle == p.dotContainerStyle
    ensures e.kind.inactiveOpacity == p.inactiveDotOpacity.GetOr(0.5)
    ensures e.kind.inactiveScale == p.inactiveDotScale.GetOr(0.5)
  {
    var styleEntry := StyleEntry(p.dotStyleByIndex, index);
    var colorEntry := ColorEntry(p.dotColorByIndex, index);
    Element(None, None, None, PaginationDot(
      carouselRef := p.carouselRef,
      tappable := p.TappableDots() && !p.carouselRef.Undefined?,
      activeOpacity := p.activeOpacity,
      color := if Truthy(colorEntry) then colorEntry else p.dotColor,
      containerStyle := p.dotContainerStyle,
      style := [p.dotStyle] + (if styleEntry.Some? then [styleEntry] else []),
      inactiveColor := p.inactiveDotColor,
      inactiveOpacity := p.InactiveDotOpacity(),
      inactiveScale := p.InactiveDotScale()))
  }

  /**
   * `(isActive ? dotElement : inactiveDotElement) || DefaultDot(index)`: the
   * template for the slot's role when it is set, the default dot otherwise.
   */
  function DotSource(p: Props, isActive: bool, index: int): (e: Element)
    ensures isActive && p.dotElement.Some? ==> e == p.dotElement.value
    ensures !isActive && p.inactiveDotElement.Some? ==> e == p.inactiveDotElement.value
    ensures (if isActive then p.dotElement else p.inactiveDotElement).None? ==> e == DefaultDotOf(p, index)
  {
    var template := if isActive then p.dotElement else p.inactiveDotElement;
    if template.Some? then template.value else DefaultDotOf(p, index)
  }

  /** `React.cloneElement(e, {key, active, index})`: those three props replaced, the rest kept. */
  function Clone(e: Element, index: nat, isActive: bool): (c: Element)
    ensures c.kind == e.kind
  {
    e.(key := Some(DotKey(index)), active := Some(isActive), index := Some(index))
  }

  /** Entry `index` of the built list when the display index is `display`. */
  function DotAt(p: Props, display: int, index: nat): Element {
    Clone(DotSource(p, index == display, index), index, index == display)
  }

  /**
   * The list the getter builds without `renderDots`: one dot per slot in
   * ascending index order, each keyed by its slot and marked active exactly
   * when it is the display slot, whatever the template it was cloned from says.
   */
  function BuiltDots(p: Props, display: int): (dots: seq<Element>)
    ensures |dots| == DotCount(p.dotsLength)
    ensures forall i :: 0 <= i < |dots| ==>
      dots[i].index == Some(i) && dots[i].key == Some(DotKey(i)) && dots[i].active == Some(i == display)
  {
    seq(DotCount(p.dotsLength), i requires 0 <= i => DotAt(p, display, i))
  }

  /**
   * What the `dots` getter returns for the given props, platform and state:
   * the caller's renderer applied to the display index and the count, or one
   * dot per slot with the display slot alone marked active.
   */
  function DotsOf(p: Props, platform: Platform, activeDotIndex: int): (dots: seq<Element>)
    ensures p.renderDots.Some? ==>
      dots == p.renderDots.value(DisplayIndex(platform, p.Vertical(), p.dotsLength, activeDotIndex), p.dotsLength)
    ensures p.renderDots.None? ==> |dots| == DotCount(p.dotsLength)
    ensures p.renderDots.None? ==> forall i :: 0 <= i < |dots| ==>
      dots[i].index == Some(i) &&
      dots[i].active == Some(i == DisplayIndex(platform, p.Vertical(), p.dotsLength, activeDotIndex))
  {
    var display := DisplayIndex(platform, p.Vertical(), p.dotsLength, activeDotIndex);
    if p.renderDots.Some? then p.renderDots.value(display, p.dotsLength) else BuiltDots(p, display)
  }

  /** The number of entries marked active. */
  function CountActive(dots: seq<Element>): nat {
    if dots == [] then 0
    else CountActive(dots[..|dots| - 1]) + (if dots[|dots| - 1].active == Some(true) then 1 else 0)
  }

  /** A list marked active exactly at `display` has one active entry if `display` is a slot, else none. */
  lemma {:induction false} CountActiveMarked(dots: seq<Element>, display: int)
    requires forall i :: 0 <= i < |dots| ==> dots[i].active == Some(i == display)
    ensures CountActive(dots) == if 0 <= display < |dots| then 1 else 0
  {
    if dots != [] {
      var init := dots[..|dots| - 1];
      assert forall i :: 0 <= i < |init| ==> init[i] == dots[i];
      CountActiveMarked(init, display);
    }
  }

  /**
   * Without `renderDots` exactly one dot is active when the state's index is
   * a slot, and none when it is out of range.
   */
  lemma ExactlyOneActiveDot(p: Props, platform: Platform, activeDotIndex: int)
    requires p.renderDots.None?
    ensures CountActive(DotsOf(p, platform, activeDotIndex))
         == if 0 <= activeDotIndex < p.dotsLength then 1 else 0
  {
    var display := DisplayIndex(platform, p.Vertical(), p.dotsLength, activeDotIndex);
    CountActiveMarked(BuiltDots(p, display), display);
  }

  /** Without `renderDots` no two dots share a key. */
  lemma DotKeysDistinct(p: Props, platform: Platform, activeDotIndex: int, i: int, j: int)
    requires p.renderDots.None?
    requires 0 <= i < j < |DotsOf(p, platform, activeDotIndex)|
    ensures DotsOf(p, platform, activeDotIndex)[i].key != DotsOf(p, platform, activeDotIndex)[j].key
  {
    if DotKey(i) == DotKey(j) {
      DotKeyInjective(i, j);
    }
  }

  /**
   * Which element slot `i` is cloned from: the active template for the active
   * slot, the inactive template for the others, the default dot when the
   * template for that role is not set.
   */
  lemma ElementSelection(p: Props, platform: Platform, activeDotIndex: int, i: int)
    requires p.renderDots.None?
    requires 0 <= i < |DotsOf(p, platform, activeDotIndex)|
    ensures var dot := DotsOf(p, platform, activeDotIndex)[i];
            var isActive := i == DisplayIndex(platform, p.Vertical(), p.dotsLength, activeDotIndex);
            && (isActive && p.dotElement.Some? ==> dot.kind == p.dotElement.value.kind)
            && (!isActive && p.inactiveDotElement.Some? ==> dot.kind == p.inactiveDotElement.value.kind)
            && ((if isActive then p.dotElement else p.inactiveDotElement).None? ==>
                  dot.kind == DefaultDotOf(p, i).kind)
  {
  }

  /**
   * With a per-index colour map, a default dot takes the map's entry when it
   * is truthy and `dotColor` otherwise; the styles likewise start with `dotStyle`.
   */
  lemma DefaultDotOverrides(p: Props, platform: Platform, activeDotIndex: int, i: int)
    requires p.renderDots.None? && p.dotElement.None? && p.inactiveDotElement.None?
    requires 0 <= i < |DotsOf(p, platform, activeDotIndex)|
    ensures var dot := DotsOf(p, platform, activeDotIndex)[i];
            && dot.kind.PaginationDot?
            && dot.kind.color == (if Truthy(ColorEntry(p.dotColorByIndex, i)) then ColorEntry(p.dotColorByIndex, i) else p.dotColor)
            && dot.kind.style[0] == p.dotStyle
  {
    assert DotsOf(p, platform, activeDotIndex)[i].kind == DefaultDotOf(p, i).kind;
  }

  /**
   * A caller's `renderDots` decides the list alone: it is called with the
   * display index and the count. The model's callback is not given the
   * component, so no template, colour, style or tap prop changes what it returns.
   */
  lemma CustomRendererVerbatim(p: Props, platform: Platform, activeDotIndex: int,
                               dotElement: Option<Element>, inactiveDotElement: Option<Element>,
                               dotColor: Option<Color>, dotColorByIndex: Option<map<int, Color>>,
                               dotStyle: Option<Style>, dotStyleByIndex: Option<map<int, Option<Style>>>,
                               tappableDots: Option<bool>, carouselRef: CarouselRef)
    requires p.renderDots.Some?
    ensures DotsOf(p, platform, activeDotIndex)
         == p.renderDots.value(DisplayIndex(platform, p.Vertical(), p.dotsLength, activeDotIndex), p.dotsLength)
    ensures var q := p.(dotElement := dotElement, inactiveDotElement := inactiveDotElement,
                        dotColor := dotColor, dotColorByIndex := dotColorByIndex,
                        dotStyle := dotStyle, dotStyleByIndex := dotStyleByIndex,
                        tappableDots := tappableDots, carouselRef := carouselRef);
            DotsOf(q, platform, activeDotIndex) == DotsOf(p, platform, activeDotIndex)
  {
  }

  /**
   * `tappable` excludes only an `undefined` ref: with `tappableDots` and a
   * `null` ref the component warns, yet its default dots are still tappable.
   */
  lemma NullCarouselRefStaysTappable(p: Props, index: int)
    requires p.TappableDots() && p.carouselRef.Null?
    ensures DefaultDotOf(p, index).kind.tappable
    ensures TappableWithoutCarouselRef in ConfigWarnings(p)
  {
  }

  // ---------------------------------------------------------------------------
  // Container decision (`render`)
  // ---------------------------------------------------------------------------

  datatype FlexDirection = Column | RowReverse | Row

  /** What `render` returns: `false`, or a container view holding the dots. */
  datatype Rendered = Nothing | Container(flexDirection: FlexDirection, containerStyle: Option<Style>, children: seq<Element>)

  /** `!dotsLength || dotsLength < 2`: for an integer count the first test adds nothing. */
  predicate Suppressed(dotsLength: int)
    ensures Suppressed(dotsLength) <==> dotsLength < 2
  {
    dotsLength == 0 || dotsLength < 2
  }

  /** The container flows in a column iff vertical, and is reversed iff the dots are mirrored. */
  function FlexDirectionOf(platform: Platform, vertical: bool): (direction: FlexDirection)
    ensures direction == Column <==> vertical
    ensures direction == RowReverse <==> NeedsRTLAdaptations(platform, vertical)
    ensures direction == Row <==> !vertical && !NeedsRTLAdaptations(platform, vertical)
  {
    if vertical then Column
    else if NeedsRTLAdaptations(platform, vertical) then RowReverse
    else Row
  }

  // ---------------------------------------------------------------------------
  // Configuration warnings
  // ---------------------------------------------------------------------------

  datatype Warning = DotColorPair | DotElementPair | TappableWithoutCarouselRef

  /**
   * The warnings the constructor emits, in order: one for a colour pair with
   * exactly one side truthy, one for an element pair with exactly one side
   * set, one for tappable dots without a truthy carousel ref.
   */
  function ConfigWarnings(p: Props): (w: seq<Warning>)
    ensures multiset(w)[DotColorPair] == if Truthy(p.dotColor) != Truthy(p.inactiveDotColor) then 1 else 0
    ensures multiset(w)[DotElementPair] == if p.dotElement.Some? != p.inactiveDotElement.Some? then 1 else 0
    ensures multiset(w)[TappableWithoutCarouselRef] == if p.TappableDots() && !p.carouselRef.Ref? then 1 else 0
    ensures |w| <= 3
  {
    WarnIf(Truthy(p.dotColor) != Truthy(p.inactiveDotColor), DotColorPair)
    + WarnIf(p.dotElement.Some? != p.inactiveDotElement.Some?, DotElementPair)
    + WarnIf(p.TappableDots() && !p.carouselRef.Ref?, TappableWithoutCarouselRef)
  }

  function WarnIf(condition: bool, w: Warning): seq<Warning> {
    if condition then [w] else []
  }

  // ---------------------------------------------------------------------------
  // The component
  // ---------------------------------------------------------------------------

  class Component {
    const props: Props
    const platform: Platform
    /** What the constructor wrote to `console.warn`. */
    const warnings: seq<Warning>
    /** `this.state.activeDotIndex`. */
    var activeDotIndex: int

    /** Warns once about the configuration and copies the active index into state. */
    constructor (props: Props, platform: Platform)
      ensures this.props == props && this.platform == platform
      ensures warnings == ConfigWarnings(props)
      ensures activeDotIndex == props.activeDotIndex
    {
      this.props := props;
      this.platform := platform;
      var emitted: seq<Warning> := [];
      var dotColor, inactiveDotColor := Truthy(props.dotColor), Truthy(props.inactiveDotColor);
      if (dotColor && !inactiveDotColor) || (!dotColor && inactiveDotColor) {
        emitted := emitted + [DotColorPair];
      }
      assert emitted == WarnIf(dotColor != inactiveDotColor, DotColorPair);
      var dotElement, inactiveDotElement := props.dotElement.Some?, props.inactiveDotElement.Some?;
      if (dotElement && !inactiveDotElement) || (!dotElement && inactiveDotElement) {
        emitted := emitted + [DotElementPair];
      }
      assert emitted == WarnIf(dotColor != inactiveDotColor, DotColorPair)
                      + WarnIf(dotElement != inactiveDotElement, DotElementPair);
      if props.TappableDots() && !props.carouselRef.Ref? {
        emitted := emitted + [TappableWithoutCarouselRef];
      }
      warnings := emitted;
      activeDotIndex := props.activeDotIndex;
    }

    /** The slot drawn as active for the current state. */
    function ActiveDotIndex(): (d: int)
      reads this
      ensures 0 <= d < props.dotsLength <==> 0 <= activeDotIndex < props.dotsLength
    {
      DisplayIndex(platform, props.Vertical(), props.dotsLength, activeDotIndex)
    }

    /** The closure `DefaultDot(index)`: the style list grows by a push, the colour is reassigned. */
    method DefaultDot(index: int) returns (dot: Element)
      ensures dot == DefaultDotOf(props, index)
    {
      var newDotStyle := [props.dotStyle];
      var styleEntry := StyleEntry(props.dotStyleByIndex, index);
      if styleEntry.Some? {
        newDotStyle := newDotStyle + [styleEntry];
      }
      var newDotColor := props.dotColor;
      var colorEntry := ColorEntry(props.dotColorByIndex, index);
      if Truthy(colorEntry) {
        newDotColor := colorEntry;
      }
      dot := Element(None, None, None, PaginationDot(
        carouselRef := props.carouselRef,
        tappable := props.TappableDots() && !props.carouselRef.Undefined?,
        activeOpacity := props.activeOpacity,
        color := newDotColor,
        containerStyle := props.dotContainerStyle,
        style := newDotStyle,
        inactiveColor := props.inactiveDotColor,
        inactiveOpacity := props.InactiveDotOpacity(),
        inactiveScale := props.InactiveDotScale()));
    }

    /** The `dots` getter: the caller's renderer if any, else one cloned dot per slot. */
    method Dots() returns (dots: seq<Element>)
      ensures dots == DotsOf(props, platform, activeDotIndex)
    {
      if props.renderDots.Some? {
        dots := props.renderDots.value(ActiveDotIndex(), props.dotsLength);
        return;
      }
      dots := [];
      var i := 0;
      while i < props.dotsLength
        invariant 0 <= i <= DotCount(props.dotsLength)
        invariant |dots| == i
        invariant forall k :: 0 <= k < i ==> dots[k] == DotAt(props, ActiveDotIndex(), k)
      {
        var isActive := i == ActiveDotIndex();
        var template := if isActive then props.dotElement else props.inactiveDotElement;
        var source: Element;
        if template.Some? {
          source := template.value;
        } else {
          source := DefaultDot(i);
        }
        dots := dots + [Clone(source, i, i == ActiveDotIndex())];
        i := i + 1;
      }
      assert |dots| == |BuiltDots(props, ActiveDotIndex())|;
    }

    /** Replaces the state's active index; nothing else changes. */
    method SetActiveDotIndex(index: int)
      modifies this`activeDotIndex
      ensures activeDotIndex == index
    {
      activeDotIndex := index;
    }

    /** Nothing for fewer than two dots; otherwise a container in the chosen direction. */
    method Render() returns (r: Rendered)
      ensures r.Nothing? <==> props.dotsLength < 2
      ensures r.Container? ==>
        && r.flexDirection == FlexDirectionOf(platform, props.Vertical())
        && r.containerStyle == props.containerStyle
        && r.children == DotsOf(props, platform, activeDotIndex)
    {
      if Suppressed(props.dotsLength) {
        return Nothing;
      }
      var direction := FlexDirectionOf(platform, props.Vertical());
      var children := Dots();
      r := Container(direction, props.containerStyle, children);
    }
  }
}
