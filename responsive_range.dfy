/** The responsive range resolver of the `Inline` layout component: which of the six
    breakpoints lie strictly above `above` and strictly below `below`, and how
    `collapseBelow` turns into a per-breakpoint flex direction. */
module ResponsiveRange {
  import opened JsUtil

  /** The breakpoint names of the theme; `Xxl` is "2xl". */
  datatype Breakpoint = Xs | Sm | Md | Lg | Xl | Xxl

  /** `BREAKPOINTS_NAMES`: the keys of `BREAKPOINTS`, in declaration order. */
  const BreakpointsNames: seq<Breakpoint> := [Xs, Sm, Md, Lg, Xl, Xxl]

  function Name(b: Breakpoint): string {
    match b
    case Xs => "xs"
    case Sm => "sm"
    case Md => "md"
    case Lg => "lg"
    case Xl => "xl"
    case Xxl => "2xl"
  }

  /** The position of a breakpoint in the order, written out. */
  function Position(b: Breakpoint): nat {
    match b
    case Xs => 0
    case Sm => 1
    case Md => 2
    case Lg => 3
    case Xl => 4
    case Xxl => 5
  }

  /** `indexOf` on the names finds each breakpoint at its position; the order has
      no repeats. */
  lemma IndexOfIsPosition(b: Breakpoint)
    ensures IndexOf(BreakpointsNames, b) == Position(b)
    ensures BreakpointsNames[Position(b)] == b
    ensures forall i :: 0 <= i < |BreakpointsNames| ==> (BreakpointsNames[i] == b <==> i == Position(b))
  {
  }

  /** The source's types exclude `above = "2xl"` and `below = "xs"`; the model
      accepts every breakpoint and resolves those two like the code would. */
  datatype ResponsiveRangeProps = ResponsiveRangeProps(above: Option<Breakpoint>, below: Option<Breakpoint>)

  function StartIndex(props: ResponsiveRangeProps): int {
    if props.above.Some? then IndexOf(BreakpointsNames, props.above.value) + 1 else 0
  }

  function EndIndex(props: ResponsiveRangeProps): int {
    if props.below.Some? then IndexOf(BreakpointsNames, props.below.value) - 1 else |BreakpointsNames| - 1
  }

  /** `resolveResponsiveRangeProps`: six flags in the order xs, sm, md, lg, xl, 2xl,
      flag i telling whether the i-th name is in the slice of names from the start index
      to the end index. With neither bound all are false; otherwise flag i is set
      exactly when i lies between the two indices. */
  function ResolveResponsiveRangeProps(props: ResponsiveRangeProps): (flags: seq<bool>)
    ensures |flags| == 6
    ensures props.above.None? && props.below.None? ==> forall i :: 0 <= i < 6 ==> !flags[i]
    ensures props.above.Some? || props.below.Some? ==>
      forall i :: 0 <= i < 6 ==> (flags[i] <==> StartIndex(props) <= i <= EndIndex(props))
  {
    if props.above.None? && props.below.None? then
      [false, false, false, false, false, false]
    else
      var range := Slice(BreakpointsNames, StartIndex(props), EndIndex(props) + 1);
      InRangeIffBetween(props);
      seq(6, i requires 0 <= i < 6 => IndexOf(range, BreakpointsNames[i]) >= 0)
  }

  /** The indices stay within the order: the start is in 0..6 and the end in -1..5. */
  lemma IndicesBounded(props: ResponsiveRangeProps)
    ensures 0 <= StartIndex(props) <= 6 && 0 <= EndIndex(props) + 1 <= 6
    ensures props.above.Some? ==> StartIndex(props) == Position(props.above.value) + 1
    ensures props.below.Some? ==> EndIndex(props) == Position(props.below.value) - 1
  {
    if props.above.Some? { IndexOfIsPosition(props.above.value); }
    if props.below.Some? { IndexOfIsPosition(props.below.value); }
  }

  /** The i-th name is in `slice(lo, hi)` exactly when lo <= i < hi. */
  lemma SliceMembership(lo: int, hi: int, i: int)
    requires 0 <= lo <= 6 && 0 <= hi <= 6 && 0 <= i < 6
    ensures BreakpointsNames[i] in Slice(BreakpointsNames, lo, hi) <==> lo <= i < hi
  {
    var b := BreakpointsNames[i];
    IndexOfIsPosition(b);
    if lo < hi {
      var range := BreakpointsNames[lo..hi];
      assert Slice(BreakpointsNames, lo, hi) == range;
      if b in range {
        var k :| 0 <= k < hi - lo && range[k] == b;
        assert BreakpointsNames[lo + k] == b;
      }
      if lo <= i < hi {
        assert range[i - lo] == b;
      }
    }
  }

  /** A breakpoint is in the resolved slice exactly when its position is between the indices. */
  lemma InRangeIffBetween(props: ResponsiveRangeProps)
    ensures forall i :: 0 <= i < 6 ==>
      (BreakpointsNames[i] in Slice(BreakpointsNames, StartIndex(props), EndIndex(props) + 1) <==>
       StartIndex(props) <= i <= EndIndex(props))
  {
    IndicesBounded(props);
    forall i | 0 <= i < 6
      ensures BreakpointsNames[i] in Slice(BreakpointsNames, StartIndex(props), EndIndex(props) + 1) <==>
        StartIndex(props) <= i <= EndIndex(props)
    {
      SliceMembership(StartIndex(props), EndIndex(props) + 1, i);
    }
  }

  /** `below = b` alone sets exactly the breakpoints strictly before b. */
  lemma BelowOnly(b: Breakpoint)
    ensures var flags := ResolveResponsiveRangeProps(ResponsiveRangeProps(None, Some(b)));
      forall i :: 0 <= i < 6 ==> (flags[i] <==> i < Position(b))
  {
    IndicesBounded(ResponsiveRangeProps(None, Some(b)));
  }

  /** `above = a` alone sets exactly the breakpoints strictly after a. */
  lemma AboveOnly(a: Breakpoint)
    ensures var flags := ResolveResponsiveRangeProps(ResponsiveRangeProps(Some(a), None));
      forall i :: 0 <= i < 6 ==> (flags[i] <==> i > Position(a))
  {
    IndicesBounded(ResponsiveRangeProps(Some(a), None));
  }

  /** When `below` is not at least two positions after `above`, nothing is set. */
  lemma EmptyWhenBoundsTooClose(a: Breakpoint, b: Breakpoint)
    requires Position(b) < Position(a) + 2
    ensures var flags := ResolveResponsiveRangeProps(ResponsiveRangeProps(Some(a), Some(b)));
      forall i :: 0 <= i < 6 ==> !flags[i]
  {
    IndicesBounded(ResponsiveRangeProps(Some(a), Some(b)));
  }

  /** The set flags form one contiguous run. */
  lemma FlagsContiguous(props: ResponsiveRangeProps, i: int, j: int, k: int)
    requires 0 <= i <= j <= k < 6
    ensures var flags := ResolveResponsiveRangeProps(props);
      flags[i] && flags[k] ==> flags[j]
  {
  }

  /** `below: "md"` gives xs and sm, and nothing else. */
  lemma BelowMdExample()
    ensures ResolveResponsiveRangeProps(ResponsiveRangeProps(None, Some(Md))) ==
      [true, true, false, false, false, false]
  {
    BelowOnly(Md);
  }

  // ---------------------------------------------------------------------------
  // `Inline`: `collapseBelow` as a flex direction

  datatype Direction = Row | Col

  /** The `flexDirection` prop of the underlying box, per breakpoint. */
  datatype FlexDirection = FlexDirection(xs: Direction, sm: Direction, md: Direction)

  /** `Inline`'s flex direction: "col" where the first three flags of the range below
      `collapseBelow` are set, "row" elsewhere, unless the caller passed its own
      `flexDirection`, which is spread after the computed one and so wins. */
  function InlineFlexDirection(collapseBelow: Option<Breakpoint>, given: Option<FlexDirection>): (d: FlexDirection)
    ensures given.Some? ==> d == given.value
    ensures given.None? ==>
      var flags := ResolveResponsiveRangeProps(ResponsiveRangeProps(None, collapseBelow));
      (d.xs == Col <==> flags[0]) && (d.sm == Col <==> flags[1]) && (d.md == Col <==> flags[2])
  {
    var flags := ResolveResponsiveRangeProps(ResponsiveRangeProps(None, collapseBelow));
    var computed := FlexDirection(if flags[0] then Col else Row, if flags[1] then Col else Row,
                                  if flags[2] then Col else Row);
    if given.Some? then given.value else computed
  }

  /** Collapsing below a breakpoint stacks the layout exactly at the smaller ones among
      xs, sm and md; without `collapseBelow` the layout stays a row. */
  lemma CollapseBelowStacksSmallerBreakpoints(b: Option<Breakpoint>)
    ensures var d := InlineFlexDirection(b, None);
      (b.None? ==> d == FlexDirection(Row, Row, Row)) &&
      (b.Some? ==> (d.xs == Col <==> 0 < Position(b.value)) && (d.sm == Col <==> 1 < Position(b.value)) &&
                   (d.md == Col <==> 2 < Position(b.value)))
  {
    if b.Some? { BelowOnly(b.value); }
  }
}
