# LogiSheets calculator core: the range operator and bond-function dispatch

This project is a Dafny model of two closed-case parts of the LogiSheets
spreadsheet calculator, with proofs about them.

**The range operator** (`infix/range.rs`) takes two formula operands and
gives the smallest reference covering both, for example `A1:C4` or `B:D`.
Both operands must be references on the same sheet, otherwise the result is
`#VALUE!`. The sheet-less union is a 4×4 case table over the four reference
shapes: single address, column band, row band and rectangle. The model
checks this table against an independent description of a reference: its
extent along each axis (a `Span`), which is either every row or column, or a
closed interval of them. The model proves these facts about the union:
- Its extent on each axis is the join of the operands' extents.
- It exists exactly when that join is not the whole sheet. That rules out
  only a column band combined with a row band.
- It is normalised and never a single address.
- Two addresses are the exception to normalisation: they give
  `Range(lhs, rhs)` with the corners kept in the order written.

From these facts follow symmetry (except for two addresses), idempotence up
to normalisation, associativity, cell containment, minimality, and the
program's unit tests as lemmas.

**YIELDMAT and RECEIVED** (`funcs/bonds/yieldmat.rs`, `funcs/bonds/received.rs`)
are modelled from the arity check through to the call of the bond formula:
- The arity check comes before any connector call.
- Arguments are fetched from left to right. Each one is coerced to a number
  and then checked. The first failing check ends the call with its own error
  kind, and no later argument is fetched.
- Next comes the cross-field check `settlement < maturity`.
- Then the dates are floored to `u32` serial numbers.
- Last, the optional basis argument selects one of five day-count conventions
  (code 0 when the basis is omitted, `#NUM!` outside `0..4`).

A call is observed as an `Evaluation`: the vertex returned and the operands
handed to the connector, in order. "No connector call on bad arity" and
"no later fetch after a failed check" are statements about that sequence.

These inputs are parameters of the model:
- The connector and the number coercion. `Host.fetch` and `Host.asNumber`
  stand in for the connector and for the `assert_f64_from_calc_value!`
  macro, which is not part of this model. A coercion failure is returned
  unchanged.
- The bond formulas `math::bond::yieldmat` and `math::bond::received`. They
  are the `formula` parameter, keyed by the chosen `DayCount.Basis`.

Files:
- `vertex.dfy`: the data model.
- `range_algebra.dfy` and `range_properties.dfy`: `range.rs`.
- `day_count.dfy`: basis codes.
- `dispatch.dfy`: the shared check chain, the float-to-serial truncation and
  the basis argument.
- `yieldmat.dfy` and `received.dfy`: the two `calc` functions.

Two details of the code that the model keeps:
- Two addresses keep their corner order, so `A1:B2` and `B2:A1` are
  different ranges over the same cells
  (`RangeProperties.AddressUnionKeepsCorners`). Every other shape pair gives
  the same union in either order.
- The basis code is converted with `floor`. On the accepted range `0..4`
  this is the same as truncation toward zero.

## Model

| member | source | states |
|---|---|---|
| RangeAlgebra.Order | crates/controller/src/calc_engine/calculator/infix/range.rs:184-191 | the pair holds the same two numbers as its arguments, smaller first |
| RangeAlgebra.IntervalsUnion | crates/controller/src/calc_engine/calculator/infix/range.rs:165-176 | the result is ordered, contains both ends of both intervals, and each end is one of the four input ends, so it is the min and max of all four; as a span it is exactly the join of the two intervals' extents |
| RangeAlgebra.PointAndInterval | crates/controller/src/calc_engine/calculator/infix/range.rs:178-182 | the result is ordered, contains the point and both interval ends, and its ends come from those three values; as a span it is exactly the join of the point and the interval's extent |
| RangeAlgebra.RangeOfAddresses | crates/controller/src/calc_engine/calculator/infix/range.rs:77-79 | two addresses give a range with the corners exactly as given, spanning both cells |
| RangeAlgebra.RangeOfRanges | crates/controller/src/calc_engine/calculator/infix/range.rs:81-101 | two rectangles give the normalised rectangle whose row and column extents are the joins of theirs |
| RangeAlgebra.RangeOfColRanges | crates/controller/src/calc_engine/calculator/infix/range.rs:103-106 | two column bands give the normalised column band spanning both |
| RangeAlgebra.RangeOfRowRanges | crates/controller/src/calc_engine/calculator/infix/range.rs:108-111 | two row bands give the normalised row band spanning both |
| RangeAlgebra.RangeOfAddrAndRange | crates/controller/src/calc_engine/calculator/infix/range.rs:113-132 | an address and a rectangle give the normalised rectangle covering both on each axis |
| RangeAlgebra.RangeOfAddrAndColRange | crates/controller/src/calc_engine/calculator/infix/range.rs:134-137 | an address and a column band give the normalised column band covering the address's column |
| RangeAlgebra.RangeOfAddrAndRowRange | crates/controller/src/calc_engine/calculator/infix/range.rs:139-142 | an address and a row band give the normalised row band covering the address's row |
| RangeAlgebra.RangeOfRangeAndColRange | crates/controller/src/calc_engine/calculator/infix/range.rs:144-151 | a rectangle and a column band give the normalised column band covering the rectangle's columns |
| RangeAlgebra.RangeOfRangeAndRowRange | crates/controller/src/calc_engine/calculator/infix/range.rs:152-159 | a rectangle and a row band give the normalised row band covering the rectangle's rows |
| RangeAlgebra.RangeOfColRangeAndRowRange | crates/controller/src/calc_engine/calculator/infix/range.rs:161-163 | a column band with a row band would need the whole sheet, and no reference is returned |
| RangeAlgebra.UnionWithoutPrefix | crates/controller/src/calc_engine/calculator/infix/range.rs:28-75 | no result exactly when the join of the extents is the whole sheet; otherwise a non-address reference with exactly the joined extents, normalised unless both operands are addresses, in which case the result is `Range(lhs, rhs)` |
| RangeAlgebra.GetRange | crates/controller/src/calc_engine/calculator/infix/range.rs:6-26 | a non-reference operand or two different sheets give `#VALUE!`; a reference comes back exactly when both operands are references on one sheet and the union exists, on the left sheet, with no 3-D anchor; its reference is exactly the sheet-less union, so it has the joined extents, is normalised unless both operands are addresses, and is `Range(lhs, rhs)` when they are; every other outcome is `#VALUE!` |
| RangeProperties.UnionUndefinedExactly | crates/controller/src/calc_engine/calculator/infix/range.rs:46-56 | the union is undefined for a column band with a row band, in either order, and for no other shape pair |
| RangeProperties.UnionSymmetric | crates/controller/src/calc_engine/calculator/infix/range.rs:29-74 | swapping the operands leaves the union unchanged unless both are addresses |
| RangeProperties.AddressUnionKeepsCorners | crates/controller/src/calc_engine/calculator/infix/range.rs:201-212 | two distinct addresses give different ranges in the two orders, over the same cells |
| RangeProperties.UnionIdempotent | crates/controller/src/calc_engine/calculator/infix/range.rs:81-111 | a reference joined with itself gives its normalised form, and an address gives a one-cell range |
| RangeProperties.UnionOfUnionIsFixed | crates/controller/src/calc_engine/calculator/infix/range.rs:165-182 | the union of operands that are not both addresses is a fixed point of joining with itself |
| RangeProperties.UnionContainsOperands | crates/controller/src/calc_engine/calculator/infix/range.rs:166-182 | every cell of either operand is a cell of the union |
| RangeProperties.UnionIsLeast | crates/controller/src/calc_engine/calculator/infix/range.rs:166-176 | any reference covering both operands also covers their union |
| RangeProperties.UnionAssociative | crates/controller/src/calc_engine/calculator/infix/range.rs:28-75 | when both inner unions exist, `(a:b):c` equals `a:(b:c)` |
| RangeProperties.UnionExamples | crates/controller/src/calc_engine/calculator/infix/range.rs:201-312 | the results of the address, range, column-band and row-band unit tests |
| RangeProperties.GetRangeSheetExamples | crates/controller/src/calc_engine/calculator/infix/range.rs:313-350 | two addresses on different sheets give `#VALUE!` whatever their coordinates; on one sheet they give the range of the two cells on that sheet |
| RangeProperties.GetRangeSymmetric | crates/controller/src/calc_engine/calculator/infix/range.rs:6-26 | the range operator on formula operands is symmetric unless both are single addresses |
| DayCount.Code | crates/controller/src/calc_engine/calculator/funcs/bonds/yieldmat.rs:46-52 | every convention has a basis code in 0..4 |
| DayCount.FromCode | crates/controller/src/calc_engine/calculator/funcs/bonds/yieldmat.rs:46-52 | the convention selected by code k has code k |
| DayCount.CodeRoundTrip | crates/controller/src/calc_engine/calculator/funcs/bonds/yieldmat.rs:47-51 | selecting by a convention's own code gives that convention back |
| DayCount.FromCodeInjective | crates/controller/src/calc_engine/calculator/funcs/bonds/yieldmat.rs:47-51 | the five codes select five different conventions |
| DayCount.DefaultIsCodeZero | crates/controller/src/calc_engine/calculator/funcs/bonds/yieldmat.rs:54-55 | the convention used when the basis is omitted is code 0 |
| Dispatch.FetchFields | crates/controller/src/calc_engine/calculator/funcs/bonds/yieldmat.rs:17-35 | the chain succeeds exactly when every argument coerces and passes its check, and then yields each argument's number; otherwise it stops at the first failing argument, whose coercion error is kept unchanged or whose check's error kind is raised; the operands fetched are exactly the arguments up to the last one checked |
| Dispatch.FirstFailureFinds | crates/controller/src/calc_engine/calculator/funcs/bonds/yieldmat.rs:17-35 | scanning the arguments in order from a point before which all pass finds the first failing argument of the chain, or none exactly when every argument passes |
| Dispatch.ChainStopsAtFirstFailure | crates/controller/src/calc_engine/calculator/funcs/bonds/yieldmat.rs:17-35 | the chain is rejected exactly when some argument fails, and then it stops at the first one found by that left-to-right scan, having fetched exactly the arguments up to it |
| Dispatch.FloorToU32 | crates/controller/src/calc_engine/calculator/funcs/bonds/yieldmat.rs:39-41 | a date in the 32-bit range becomes its floor, a larger one saturates at 2^32-1, and a negative one becomes 0 |
| Dispatch.BasisOfNumber | crates/controller/src/calc_engine/calculator/funcs/bonds/yieldmat.rs:45-52 | a basis is selected exactly when the code is in [0, 4], and the selected convention's code is its floor |
| Dispatch.OptionalBasis | crates/controller/src/calc_engine/calculator/funcs/bonds/yieldmat.rs:43-56 | an absent basis selects the default; a present one is selected only if it coerces into [0, 4], with the floored code; a coercion failure is returned unchanged, and an out-of-range code is `#NUM!`; the basis operand, when present, is the only one fetched |
| Yieldmat.Calc | crates/controller/src/calc_engine/calculator/funcs/bonds/yieldmat.rs:10-58 | an arity outside 5..6 gives `#UNSPECIFIED` with no connector call; the calls are always a prefix of the arguments in order; the first failing field ends the call with its error after fetching exactly the arguments up to it |
| Yieldmat.FieldErrors | crates/controller/src/calc_engine/calculator/funcs/bonds/yieldmat.rs:17-35 | settlement or maturity ≤ 0 gives `#VALUE!`; issue ≤ 0, rate < 0 or pr < 0 gives `#NUM!`; each stops the fetching right after the failing argument, and each assumes only that the arguments up to the failing one are numbers |
| Yieldmat.CoercionErrorPassesThrough | crates/controller/src/calc_engine/calculator/funcs/bonds/yieldmat.rs:17-34 | a field that is not a number ends the call with its coercion error unchanged |
| Yieldmat.SettlementNotBeforeMaturity | crates/controller/src/calc_engine/calculator/funcs/bonds/yieldmat.rs:37 | settlement ≥ maturity gives `#NUM!` after the five fields and before the basis fetch |
| Yieldmat.BasisOutOfRange | crates/controller/src/calc_engine/calculator/funcs/bonds/yieldmat.rs:43-45 | a basis below 0 or above 4 gives `#NUM!` |
| Yieldmat.BasisNotANumber | crates/controller/src/calc_engine/calculator/funcs/bonds/yieldmat.rs:43-44 | a basis argument that is not a number ends an otherwise valid call with its coercion error unchanged, after all six arguments were fetched |
| Yieldmat.Succeeds | crates/controller/src/calc_engine/calculator/funcs/bonds/yieldmat.rs:39-57 | a valid call fetches every argument once, in order, and returns the formula for the floored-code convention (the default when omitted), with settlement, maturity and issue floored and rate and pr unchanged |
| Received.Calc | crates/controller/src/calc_engine/calculator/funcs/bonds/received.rs:10-53 | an arity outside 4..5 gives `#UNSPECIFIED` with no connector call; the calls are always a prefix of the arguments in order; the first failing field ends the call with its error after fetching exactly the arguments up to it |
| Received.FieldErrors | crates/controller/src/calc_engine/calculator/funcs/bonds/received.rs:17-31 | settlement or maturity ≤ 0 gives `#VALUE!`; investment ≤ 0 or discount ≤ 0 (zero included) gives `#NUM!`; each stops the fetching right after the failing argument, and each assumes only that the arguments up to the failing one are numbers |
| Received.CoercionErrorPassesThrough | crates/controller/src/calc_engine/calculator/funcs/bonds/received.rs:17-30 | a field that is not a number ends the call with its coercion error unchanged |
| Received.SettlementNotBeforeMaturity | crates/controller/src/calc_engine/calculator/funcs/bonds/received.rs:33 | settlement ≥ maturity gives `#NUM!` after the four fields and before the basis fetch |
| Received.BasisOutOfRange | crates/controller/src/calc_engine/calculator/funcs/bonds/received.rs:38-40 | a basis below 0 or above 4 gives `#NUM!` |
| Received.BasisNotANumber | crates/controller/src/calc_engine/calculator/funcs/bonds/received.rs:38-39 | a basis argument that is not a number ends an otherwise valid call with its coercion error unchanged, after all five arguments were fetched |
| Received.Succeeds | crates/controller/src/calc_engine/calculator/funcs/bonds/received.rs:35-52 | a valid call fetches every argument once, in order, and returns the formula for the floored-code convention (the default when omitted), with only settlement and maturity floored |

## Left out

- Bond maths and day-count arithmetic: `math::bond::yieldmat`, `math::bond::received` and the `day_count` types are not part of this model. They are floating-point numerics, so the model takes them as the `formula` parameter, called with the selected `Basis`.
- Number coercion: the `assert_f64_from_calc_value!` macro is not part of this model. It is the `Host.asNumber` parameter. Its failure is an error vertex of some kind, returned as it is; no particular kind is assumed.
- Connector state: the connector takes `&mut self` and may cache values. The model treats it as a pure function of the operand, which is how it behaves within one action.
- Floating point: numbers are reals. NaN, infinities and rounding are not modelled. A NaN argument, for example, fails every `>` check in the program.
- Machine integers: `usize` coordinates are unbounded naturals. Overflow cannot occur in the range operator, because it only compares and copies coordinates.
- 3-D references: `GetRange` compares only the `sheet` of the two operands and always returns `from_sheet = None`. The model does the same and proves nothing further about `from_sheet`.
- Edit payloads, sheet-shift payloads, the converter, dirty propagation and action effects: these are type declarations whose behaviour lives in code that is not part of this model.
- Straight-line depreciation (`math/sln.rs`) is pure floating-point arithmetic, so it is not modelled.
- The TypeScript bindings, the payload builders, the UI components and the colour test are outside the calculator core.
