/** Algebraic facts about the range operator: the case table is symmetric
    (up to the corner order of two plain addresses), idempotent up to
    normalisation, associative, covers both operands and is the least
    reference that does. */
module RangeProperties {
  import opened Vertex
  import opened RangeAlgebra

  lemma JoinCommutes(a: Span, b: Span)
    ensures Join(a, b) == Join(b, a)
  {
  }

  lemma JoinAssociates(a: Span, b: Span, c: Span)
    ensures Join(Join(a, b), c) == Join(a, Join(b, c))
  {
  }

  /** A normalised reference other than a single address is determined by
      its two spans. */
  lemma SpansDetermine(x: Reference, y: Reference)
    requires !x.Addr? && !y.Addr? && Normalized(x) && Normalized(y)
    requires RowSpan(x) == RowSpan(y) && ColSpan(x) == ColSpan(y)
    ensures x == y
  {
    match x
    case ColumnRange(_) =>
    case RowRange(_) =>
    case Range(s, e) =>
      assert y.Range?;
      assert s.row == y.start.row && e.row == y.end.row;
      assert s.col == y.start.col && e.col == y.end.col;
  }

  /** The shape pairs without a bounding reference are exactly a column
      band with a row band, in either order. */
  lemma UnionUndefinedExactly(l: Reference, r: Reference)
    ensures UnionWithoutPrefix(l, r).None? <==>
              (l.ColumnRange? && r.RowRange?) || (l.RowRange? && r.ColumnRange?)
  {
  }

  /** Swapping the operands gives the same reference, unless both are
      single addresses. */
  lemma UnionSymmetric(l: Reference, r: Reference)
    requires !(l.Addr? && r.Addr?)
    ensures UnionWithoutPrefix(l, r) == UnionWithoutPrefix(r, l)
  {
    var u, w := UnionWithoutPrefix(l, r), UnionWithoutPrefix(r, l);
    JoinCommutes(RowSpan(l), RowSpan(r));
    JoinCommutes(ColSpan(l), ColSpan(r));
    if u.Some? {
      SpansDetermine(u.value, w.value);
    }
  }

  /** Two distinct addresses give a range over the same cells in either
      order, but its corners follow the operand order. */
  lemma AddressUnionKeepsCorners(a: Address, b: Address)
    requires a != b
    ensures UnionWithoutPrefix(Addr(a), Addr(b)) != UnionWithoutPrefix(Addr(b), Addr(a))
    ensures IsBound(UnionWithoutPrefix(Addr(b), Addr(a)).value, Addr(a), Addr(b))
  {
    JoinCommutes(RowSpan(Addr(a)), RowSpan(Addr(b)));
    JoinCommutes(ColSpan(Addr(a)), ColSpan(Addr(b)));
  }

  /** A reference joined with itself is its normalised form; a single
      address becomes a one-cell range. */
  lemma UnionIdempotent(r: Reference)
    ensures UnionWithoutPrefix(r, r) == Some(if r.Addr? then Range(r.addr, r.addr) else Normalize(r))
  {
    if !r.Addr? {
      SpansDetermine(UnionWithoutPrefix(r, r).value, Normalize(r));
    }
  }

  /** Joining a union with itself changes nothing: a union is already in
      normal form, unless it is the unordered range built from two
      addresses. */
  lemma UnionOfUnionIsFixed(l: Reference, r: Reference)
    requires UnionWithoutPrefix(l, r).Some? && !(l.Addr? && r.Addr?)
    ensures UnionWithoutPrefix(UnionWithoutPrefix(l, r).value, UnionWithoutPrefix(l, r).value)
            == UnionWithoutPrefix(l, r)
  {
    var u := UnionWithoutPrefix(l, r).value;
    UnionIdempotent(u);
    SpansDetermine(Normalize(u), u);
  }

  /** Every cell of either operand is a cell of the union. */
  lemma UnionContainsOperands(l: Reference, r: Reference, row: nat, col: nat)
    requires UnionWithoutPrefix(l, r).Some?
    requires InReference(l, row, col) || InReference(r, row, col)
    ensures InReference(UnionWithoutPrefix(l, r).value, row, col)
  {
    assert IsBound(UnionWithoutPrefix(l, r).value, l, r);
    JoinContains(RowSpan(l), RowSpan(r), row);
    JoinContains(ColSpan(l), ColSpan(r), col);
  }

  /** An index of either span is an index of their join. */
  lemma JoinContains(a: Span, b: Span, i: nat)
    ensures InSpan(a, i) || InSpan(b, i) ==> InSpan(Join(a, b), i)
  {
  }

  /** Every span of a reference is ordered, so none is empty. */
  predicate NonEmpty(s: Span) {
    s.Bounded? ==> s.lo <= s.hi
  }

  lemma SpansNonEmpty(r: Reference)
    ensures NonEmpty(RowSpan(r)) && NonEmpty(ColSpan(r))
  {
  }

  /** A span covering two non-empty spans covers their join. */
  lemma JoinIsLeast(o: Span, a: Span, b: Span)
    requires NonEmpty(a) && NonEmpty(b)
    requires SpanCovers(o, a) && SpanCovers(o, b)
    ensures SpanCovers(o, Join(a, b))
  {
  }

  /** The union is the least reference covering both operands. */
  lemma UnionIsLeast(l: Reference, r: Reference, c: Reference)
    requires UnionWithoutPrefix(l, r).Some?
    requires Covers(c, l) && Covers(c, r)
    ensures Covers(c, UnionWithoutPrefix(l, r).value)
  {
    var u := UnionWithoutPrefix(l, r).value;
    assert IsBound(u, l, r);
    SpansNonEmpty(l);
    SpansNonEmpty(r);
    JoinIsLeast(RowSpan(c), RowSpan(l), RowSpan(r));
    JoinIsLeast(ColSpan(c), ColSpan(l), ColSpan(r));
  }

  /** Grouping does not matter when all the intermediate unions exist. */
  lemma UnionAssociative(a: Reference, b: Reference, c: Reference)
    requires UnionWithoutPrefix(a, b).Some? && UnionWithoutPrefix(b, c).Some?
    ensures UnionWithoutPrefix(UnionWithoutPrefix(a, b).value, c)
            == UnionWithoutPrefix(a, UnionWithoutPrefix(b, c).value)
  {
    var ab, bc := UnionWithoutPrefix(a, b).value, UnionWithoutPrefix(b, c).value;
    var x, y := UnionWithoutPrefix(ab, c), UnionWithoutPrefix(a, bc);
    JoinAssociates(RowSpan(a), RowSpan(b), RowSpan(c));
    JoinAssociates(ColSpan(a), ColSpan(b), ColSpan(c));
    if x.Some? {
      SpansDetermine(x.value, y.value);
    }
  }

  /** The unit tests of the range operator, as facts. */
  lemma UnionExamples()
    ensures UnionWithoutPrefix(Addr(Address(2, 3)), Addr(Address(4, 1)))
            == Some(Range(Address(2, 3), Address(4, 1)))
    ensures UnionWithoutPrefix(Addr(Address(2, 3)), Range(Address(4, 2), Address(6, 5)))
            == Some(Range(Address(2, 2), Address(6, 5)))
    ensures UnionWithoutPrefix(Addr(Address(2, 3)), ColumnRange(ColBand(1, 3)))
            == Some(ColumnRange(ColBand(1, 3)))
    ensures UnionWithoutPrefix(Addr(Address(2, 3)), RowRange(RowBand(5, 6)))
            == Some(RowRange(RowBand(2, 6)))
    ensures UnionWithoutPrefix(Range(Address(6, 3), Address(4, 6)), Range(Address(3, 2), Address(5, 8)))
            == Some(Range(Address(3, 2), Address(6, 8)))
    ensures UnionWithoutPrefix(Range(Address(6, 3), Address(4, 6)), ColumnRange(ColBand(1, 3)))
            == Some(ColumnRange(ColBand(1, 6)))
    ensures UnionWithoutPrefix(RowRange(RowBand(8, 9)), Range(Address(6, 3), Address(4, 6)))
            == Some(RowRange(RowBand(4, 9)))
    ensures UnionWithoutPrefix(ColumnRange(ColBand(3, 6)), ColumnRange(ColBand(1, 4)))
            == Some(ColumnRange(ColBand(1, 6)))
    ensures UnionWithoutPrefix(RowRange(RowBand(8, 9)), ColumnRange(ColBand(3, 6))) == None
    ensures UnionWithoutPrefix(RowRange(RowBand(1, 7)), RowRange(RowBand(3, 6)))
            == Some(RowRange(RowBand(1, 7)))
  {
  }

  /** Two references on different sheets never combine, whatever their
      coordinates; on one sheet, two addresses make a range there. */
  lemma GetRangeSheetExamples(a: Address, b: Address, s: SheetId, t: SheetId)
    requires s != t
    ensures GetRange(Reference(CalcReference(None, s, Addr(a))), Reference(CalcReference(None, t, Addr(b))))
            == ErrorVertex(ErrorKind.Value)
    ensures GetRange(Reference(CalcReference(None, s, Addr(a))), Reference(CalcReference(None, s, Addr(b))))
            == Reference(CalcReference(None, s, Range(a, b)))
  {
  }

  /** The range operator is symmetric on formula operands whenever the two
      references are not both single addresses. */
  lemma GetRangeSymmetric(lhs: CalcVertex, rhs: CalcVertex)
    requires !(lhs.Reference? && rhs.Reference? && lhs.calcRef.reference.Addr? && rhs.calcRef.reference.Addr?)
    ensures GetRange(lhs, rhs) == GetRange(rhs, lhs)
  {
    if lhs.Reference? && rhs.Reference? {
      UnionSymmetric(lhs.calcRef.reference, rhs.calcRef.reference);
    }
  }
}
