/** The range operator of formulas (`A1:B2`, `A:C`, `Sheet1!A1:C4` ...):
    the smallest reference that covers two operands.

    The reference semantics of this module describe a reference by its
    extent along each axis, a `Span`: either every row (column) of the
    sheet, or a closed interval of them. The union of two references is
    then the axis-wise join of their spans, and the program's 4x4 case
    table is proved to compute exactly that join, in normalised form,
    except that two plain addresses keep their corners as written. */
module RangeAlgebra {
  import opened Vertex

  type Interval = (nat, nat)

  // ---------------------------------------------------------------------
  // Specification: spans

  /** The extent of a reference along one axis. */
  datatype Span = Whole | Bounded(lo: nat, hi: nat)

  function Min(a: nat, b: nat): nat { if a <= b then a else b }
  function Max(a: nat, b: nat): nat { if a <= b then b else a }

  /** The closed interval between two unordered ends. */
  function Extent(a: nat, b: nat): Span { Bounded(Min(a, b), Max(a, b)) }

  /** The rows a reference covers. */
  function RowSpan(r: Reference): Span {
    match r
    case Addr(a) => Bounded(a.row, a.row)
    case ColumnRange(_) => Whole
    case RowRange(rr) => Extent(rr.start, rr.end)
    case Range(s, e) => Extent(s.row, e.row)
  }

  /** The columns a reference covers. */
  function ColSpan(r: Reference): Span {
    match r
    case Addr(a) => Bounded(a.col, a.col)
    case ColumnRange(cr) => Extent(cr.start, cr.end)
    case RowRange(_) => Whole
    case Range(s, e) => Extent(s.col, e.col)
  }

  /** The least span covering both spans. */
  function Join(a: Span, b: Span): Span {
    match (a, b)
    case (Bounded(l1, h1), Bounded(l2, h2)) => Bounded(Min(l1, l2), Max(h1, h2))
    case _ => Whole
  }

  predicate InSpan(s: Span, i: nat) {
    s.Whole? || s.lo <= i <= s.hi
  }

  /** Span `outer` contains every index of span `inner`. */
  predicate SpanCovers(outer: Span, inner: Span) {
    match (outer, inner)
    case (Whole, _) => true
    case (Bounded(_, _), Whole) => false
    case (Bounded(lo, hi), Bounded(l, h)) => l > h || (lo <= l && h <= hi)
  }

  /** Cell (row, col) lies in the area referenced by `r`. */
  predicate InReference(r: Reference, row: nat, col: nat) {
    InSpan(RowSpan(r), row) && InSpan(ColSpan(r), col)
  }

  /** Reference `outer` covers reference `inner` on both axes. */
  predicate Covers(outer: Reference, inner: Reference) {
    SpanCovers(RowSpan(outer), RowSpan(inner)) && SpanCovers(ColSpan(outer), ColSpan(inner))
  }

  /** `u` has exactly the axis-wise join of the spans of `l` and `r`. */
  predicate IsBound(u: Reference, l: Reference, r: Reference) {
    RowSpan(u) == Join(RowSpan(l), RowSpan(r)) && ColSpan(u) == Join(ColSpan(l), ColSpan(r))
  }

  /** The union of `l` and `r` would have to cover the whole sheet. */
  predicate WholeSheet(l: Reference, r: Reference) {
    Join(RowSpan(l), RowSpan(r)) == Whole && Join(ColSpan(l), ColSpan(r)) == Whole
  }

  /** Every band and range has its smaller end first. */
  predicate Normalized(r: Reference) {
    match r
    case Addr(_) => true
    case ColumnRange(cr) => cr.start <= cr.end
    case RowRange(rr) => rr.start <= rr.end
    case Range(s, e) => s.row <= e.row && s.col <= e.col
  }

  /** The same area written with ascending ends. */
  function Normalize(r: Reference): Reference {
    match r
    case Addr(a) => Addr(a)
    case ColumnRange(cr) => ColumnRange(ColBand(Min(cr.start, cr.end), Max(cr.start, cr.end)))
    case RowRange(rr) => RowRange(RowBand(Min(rr.start, rr.end), Max(rr.start, rr.end)))
    case Range(s, e) =>
      Range(Address(Min(s.row, e.row), Min(s.col, e.col)), Address(Max(s.row, e.row), Max(s.col, e.col)))
  }

  // ---------------------------------------------------------------------
  // The program's primitives

  /** The two ends of an interval in ascending order. */
  function Order(l: nat, r: nat): (p: Interval)
    ensures p.0 <= p.1
    ensures {p.0, p.1} == {l, r}
  {
    if l < r then (l, r) else (r, l)
  }

  /** Both ends of `i` lie inside `u`. */
  predicate Within(i: Interval, u: Interval) {
    u.0 <= i.0 <= u.1 && u.0 <= i.1 <= u.1
  }

  /** The smallest ordered interval holding both (unordered) intervals. */
  function IntervalsUnion(li: Interval, ri: Interval): (u: Interval)
    ensures u.0 <= u.1
    ensures Within(li, u) && Within(ri, u)
    ensures u.0 in {li.0, li.1, ri.0, ri.1} && u.1 in {li.0, li.1, ri.0, ri.1}
    ensures Bounded(u.0, u.1) == Join(Extent(li.0, li.1), Extent(ri.0, ri.1))
  {
    var lo := Order(li.0, li.1);
    var ro := Order(ri.0, ri.1);
    (Order(lo.0, ro.0).0, Order(lo.1, ro.1).1)
  }

  /** The smallest ordered interval holding a point and an (unordered) interval. */
  function PointAndInterval(p: nat, i: Interval): (u: Interval)
    ensures u.0 <= p <= u.1
    ensures Within(i, u)
    ensures u.0 in {p, i.0, i.1} && u.1 in {p, i.0, i.1}
    ensures Bounded(u.0, u.1) == Join(Bounded(p, p), Extent(i.0, i.1))
  {
    var o := Order(i.0, i.1);
    (Order(p, o.0).0, Order(p, o.1).1)
  }

  // ---------------------------------------------------------------------
  // One helper per shape pair

  function RangeOfAddresses(la: Address, ra: Address): (u: Option<Reference>)
    ensures u.Some? && u.value.Range? && u.value.start == la && u.value.end == ra
    ensures u.Some? && IsBound(u.value, Addr(la), Addr(ra))
    ensures !WholeSheet(Addr(la), Addr(ra))
  {
    Some(Range(la, ra))
  }

  function RangeOfRanges(ls: Address, le: Address, rs: Address, re: Address): (u: Option<Reference>)
    ensures u.Some? && u.value.Range? && Normalized(u.value)
    ensures u.Some? && IsBound(u.value, Range(ls, le), Range(rs, re))
    ensures !WholeSheet(Range(ls, le), Range(rs, re))
  {
    var (colStart, colEnd) := IntervalsUnion((ls.col, le.col), (rs.col, re.col));
    var (rowStart, rowEnd) := IntervalsUnion((ls.row, le.row), (rs.row, re.row));
    Some(Range(Address(rowStart, colStart), Address(rowEnd, colEnd)))
  }

  function RangeOfColRanges(lcr: ColBand, rcr: ColBand): (u: Option<Reference>)
    ensures u.Some? && u.value.ColumnRange? && Normalized(u.value)
    ensures u.Some? && IsBound(u.value, ColumnRange(lcr), ColumnRange(rcr))
    ensures !WholeSheet(ColumnRange(lcr), ColumnRange(rcr))
  {
    var (start, end) := IntervalsUnion((lcr.start, lcr.end), (rcr.start, rcr.end));
    Some(ColumnRange(ColBand(start, end)))
  }

  function RangeOfRowRanges(lrr: RowBand, rrr: RowBand): (u: Option<Reference>)
    ensures u.Some? && u.value.RowRange? && Normalized(u.value)
    ensures u.Some? && IsBound(u.value, RowRange(lrr), RowRange(rrr))
    ensures !WholeSheet(RowRange(lrr), RowRange(rrr))
  {
    var (start, end) := IntervalsUnion((lrr.start, lrr.end), (rrr.start, rrr.end));
    Some(RowRange(RowBand(start, end)))
  }

  function RangeOfAddrAndRange(addr: Address, s: Address, e: Address): (u: Option<Reference>)
    ensures u.Some? && u.value.Range? && Normalized(u.value)
    ensures u.Some? && IsBound(u.value, Addr(addr), Range(s, e))
    ensures !WholeSheet(Addr(addr), Range(s, e))
  {
    var (colStart, colEnd) := PointAndInterval(addr.col, (s.col, e.col));
    var (rowStart, rowEnd) := PointAndInterval(addr.row, (s.row, e.row));
    Some(Range(Address(rowStart, colStart), Address(rowEnd, colEnd)))
  }

  function RangeOfAddrAndColRange(addr: Address, cr: ColBand): (u: Option<Reference>)
    ensures u.Some? && u.value.ColumnRange? && Normalized(u.value)
    ensures u.Some? && IsBound(u.value, Addr(addr), ColumnRange(cr))
    ensures !WholeSheet(Addr(addr), ColumnRange(cr))
  {
    var (start, end) := PointAndInterval(addr.col, (cr.start, cr.end));
    Some(ColumnRange(ColBand(start, end)))
  }

  function RangeOfAddrAndRowRange(addr: Address, rr: RowBand): (u: Option<Reference>)
    ensures u.Some? && u.value.RowRange? && Normalized(u.value)
    ensures u.Some? && IsBound(u.value, Addr(addr), RowRange(rr))
    ensures !WholeSheet(Addr(addr), RowRange(rr))
  {
    var (start, end) := PointAndInterval(addr.row, (rr.start, rr.end));
    Some(RowRange(RowBand(start, end)))
  }

  function RangeOfRangeAndColRange(s: Address, e: Address, cr: ColBand): (u: Option<Reference>)
    ensures u.Some? && u.value.ColumnRange? && Normalized(u.value)
    ensures u.Some? && IsBound(u.value, Range(s, e), ColumnRange(cr))
    ensures !WholeSheet(Range(s, e), ColumnRange(cr))
  {
    var (start, end) := IntervalsUnion((s.col, e.col), (cr.start, cr.end));
    Some(ColumnRange(ColBand(start, end)))
  }

  function RangeOfRangeAndRowRange(s: Address, e: Address, rr: RowBand): (u: Option<Reference>)
    ensures u.Some? && u.value.RowRange? && Normalized(u.value)
    ensures u.Some? && IsBound(u.value, Range(s, e), RowRange(rr))
    ensures !WholeSheet(Range(s, e), RowRange(rr))
  {
    var (start, end) := IntervalsUnion((s.row, e.row), (rr.start, rr.end));
    Some(RowRange(RowBand(start, end)))
  }

  /** A column band and a row band together would need the whole sheet,
      which no reference shape expresses. */
  function RangeOfColRangeAndRowRange(cr: ColBand, rr: RowBand): (u: Option<Reference>)
    ensures WholeSheet(ColumnRange(cr), RowRange(rr)) && u.None?
  {
    None
  }

  // ---------------------------------------------------------------------
  // The union

  /** The smallest reference covering both operands, regardless of sheet. */
  function UnionWithoutPrefix(lhs: Reference, rhs: Reference): (u: Option<Reference>)
    ensures u.None? <==> WholeSheet(lhs, rhs)
    ensures u.Some? ==> IsBound(u.value, lhs, rhs) && !u.value.Addr?
    ensures u.Some? && !(lhs.Addr? && rhs.Addr?) ==> Normalized(u.value)
    ensures lhs.Addr? && rhs.Addr? ==> u == Some(Range(lhs.addr, rhs.addr))
  {
    match (lhs, rhs)
    case (Addr(la), Addr(ra)) => RangeOfAddresses(la, ra)
    case (Addr(addr), ColumnRange(cr)) => RangeOfAddrAndColRange(addr, cr)
    case (Addr(addr), RowRange(rr)) => RangeOfAddrAndRowRange(addr, rr)
    case (Addr(addr), Range(s, e)) => RangeOfAddrAndRange(addr, s, e)
    case (ColumnRange(cr), Addr(addr)) => RangeOfAddrAndColRange(addr, cr)
    case (ColumnRange(lcr), ColumnRange(rcr)) => RangeOfColRanges(lcr, rcr)
    case (ColumnRange(cr), RowRange(rr)) => RangeOfColRangeAndRowRange(cr, rr)
    case (ColumnRange(cr), Range(s, e)) => RangeOfRangeAndColRange(s, e, cr)
    case (RowRange(rr), Addr(addr)) => RangeOfAddrAndRowRange(addr, rr)
    case (RowRange(rr), ColumnRange(cr)) => RangeOfColRangeAndRowRange(cr, rr)
    case (RowRange(lrr), RowRange(rrr)) => RangeOfRowRanges(lrr, rrr)
    case (RowRange(rr), Range(s, e)) => RangeOfRangeAndRowRange(s, e, rr)
    case (Range(s, e), Addr(addr)) => RangeOfAddrAndRange(addr, s, e)
    case (Range(s, e), ColumnRange(cr)) => RangeOfRangeAndColRange(s, e, cr)
    case (Range(s, e), RowRange(rr)) => RangeOfRangeAndRowRange(s, e, rr)
    case (Range(ls, le), Range(rs, re)) => RangeOfRanges(ls, le, rs, re)
  }

  /** The range operator on two formula operands: both must be references
      on the same sheet, and the result is sheet-qualified by the left
      operand's sheet with no 3-D anchor. Every failure is `#VALUE!`. */
  function GetRange(lhs: CalcVertex, rhs: CalcVertex): (v: CalcVertex)
    ensures !(lhs.Reference? && rhs.Reference?) ==> v == ErrorVertex(ErrorKind.Value)
    ensures lhs.Reference? && rhs.Reference? && lhs.calcRef.sheet != rhs.calcRef.sheet
            ==> v == ErrorVertex(ErrorKind.Value)
    ensures v.Reference? <==>
              && lhs.Reference? && rhs.Reference?
              && lhs.calcRef.sheet == rhs.calcRef.sheet
              && !WholeSheet(lhs.calcRef.reference, rhs.calcRef.reference)
    ensures v.Reference? ==>
              && v.calcRef.fromSheet == None
              && v.calcRef.sheet == lhs.calcRef.sheet
              && IsBound(v.calcRef.reference, lhs.calcRef.reference, rhs.calcRef.reference)
              && Some(v.calcRef.reference) == UnionWithoutPrefix(lhs.calcRef.reference, rhs.calcRef.reference)
    ensures v.Reference? && !(lhs.calcRef.reference.Addr? && rhs.calcRef.reference.Addr?)
            ==> Normalized(v.calcRef.reference)
    ensures v.Reference? && lhs.calcRef.reference.Addr? && rhs.calcRef.reference.Addr?
            ==> v.calcRef.reference == Range(lhs.calcRef.reference.addr, rhs.calcRef.reference.addr)
    ensures !v.Reference? ==> v == ErrorVertex(ErrorKind.Value)
  {
    if !(lhs.Reference? && rhs.Reference?) then ErrorVertex(ErrorKind.Value)
    else
      var lr, rr := lhs.calcRef, rhs.calcRef;
      if lr.sheet != rr.sheet then ErrorVertex(ErrorKind.Value)
      else
        match UnionWithoutPrefix(lr.reference, rr.reference)
        case Some(u) => Reference(CalcReference(None, lr.sheet, u))
        case None => ErrorVertex(ErrorKind.Value)
  }
}
