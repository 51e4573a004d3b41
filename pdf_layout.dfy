/**
  The part of jsPDF the reports use, as an ordered list of draw commands,
  and the row layout they share: a `yPosition` cursor that advances by 8
  per row and starts a new page at y = 20 once it has passed a limit.
*/
module PdfLayout {

  datatype Draw =
    | TextAt(s: string, x: int, y: int)                 // doc.text(s, x, y)
    | LineAt(x1: int, y1: int, x2: int, y2: int)        // doc.line(x1, y1, x2, y2)
    | PageBreak                                         // doc.addPage()

  /** A jsPDF document: what has been drawn so far, in order. */
  class PdfDocument {
    var commands: seq<Draw>

    constructor ()
      ensures commands == []
    {
      commands := [];
    }

    method Text(s: string, x: int, y: int)
      modifies this
      ensures commands == old(commands) + [TextAt(s, x, y)]
    {
      commands := commands + [TextAt(s, x, y)];
    }

    method Line(x1: int, y1: int, x2: int, y2: int)
      modifies this
      ensures commands == old(commands) + [LineAt(x1, y1, x2, y2)]
    {
      commands := commands + [LineAt(x1, y1, x2, y2)];
    }

    method AddPage()
      modifies this
      ensures commands == old(commands) + [PageBreak]
    {
      commands := commands + [PageBreak];
    }
  }

  const PAGE_TOP := 20
  const ROW_HEIGHT := 8

  /** Where the next row goes: `if (yPosition > limit) { doc.addPage(); yPosition = 20; }`. */
  function Place(y: int, limit: int): int {
    if y > limit then PAGE_TOP else y
  }

  function BreakIf(y: int, limit: int): seq<Draw> {
    if y > limit then [PageBreak] else []
  }

  /** `yPosition` after `n` rows that started at `start`. */
  function CursorAfter(n: nat, start: int, limit: int): int {
    if n == 0 then start else Place(CursorAfter(n - 1, start, limit), limit) + ROW_HEIGHT
  }

  /** The y at which row `k` is drawn. */
  function RowY(k: nat, start: int, limit: int): int {
    Place(CursorAfter(k, start, limit), limit)
  }

  /**
    The commands of a `forEach` over `rows`: before each row a page break when
    the cursor has passed `limit`, then the row's own commands at its y.
  */
  function Paginate<T>(rows: seq<T>, start: int, limit: int, draw: (T, int) -> seq<Draw>): seq<Draw>
    decreases |rows|
  {
    if rows == [] then []
    else
      var n := |rows| - 1;
      Paginate(rows[..n], start, limit, draw) + BreakIf(CursorAfter(n, start, limit), limit)
      + draw(rows[n], RowY(n, start, limit))
  }

  /** Every command of `draws` that writes text writes it at height `y`. */
  ghost predicate TextsAt(draws: seq<Draw>, y: int) {
    forall c :: c in draws && c.TextAt? ==> c.y == y
  }

  /** Every command of `draws` that writes text writes it between `low` and `high`. */
  ghost predicate TextsWithin(draws: seq<Draw>, low: int, high: int) {
    forall c :: c in draws && c.TextAt? ==> low <= c.y <= high
  }

  /** Rows are drawn at least 20 from the top and never below the limit. */
  lemma {:induction false} RowYWithin(k: nat, start: int, limit: int)
    requires PAGE_TOP <= start && PAGE_TOP <= limit
    ensures PAGE_TOP <= RowY(k, start, limit) <= limit
    ensures CursorAfter(k, start, limit) >= PAGE_TOP
    decreases k
  {
    if k > 0 {
      RowYWithin(k - 1, start, limit);
    }
  }

  /** No row text of a paginated table lies above the top margin or below the limit. */
  lemma {:induction false} PaginateWithin<T>(rows: seq<T>, start: int, limit: int, draw: (T, int) -> seq<Draw>)
    requires PAGE_TOP <= start && PAGE_TOP <= limit
    requires forall r, y :: TextsAt(draw(r, y), y)
    ensures TextsWithin(Paginate(rows, start, limit, draw), PAGE_TOP, limit)
    decreases |rows|
  {
    if rows != [] {
      var n := |rows| - 1;
      PaginateWithin(rows[..n], start, limit, draw);
      RowYWithin(n, start, limit);
      assert TextsAt(draw(rows[n], RowY(n, start, limit)), RowY(n, start, limit));
    }
  }

  /** Until the first page break, row `k` sits `8 * k` below the first row. */
  lemma {:induction false} RowsBeforeBreak(k: nat, start: int, limit: int)
    requires start + ROW_HEIGHT * (k - 1) <= limit
    ensures CursorAfter(k, start, limit) == start + ROW_HEIGHT * k
    decreases k
  {
    if k > 0 {
      RowsBeforeBreak(k - 1, start, limit);
    }
  }

  /** The cursor after `m + k` rows is the cursor after `k` rows started where the first `m` ended. */
  lemma {:induction false} CursorCompose(m: nat, k: nat, start: int, limit: int)
    ensures CursorAfter(m + k, start, limit) == CursorAfter(k, CursorAfter(m, start, limit), limit)
    decreases k
  {
    if k > 0 {
      CursorCompose(m, k - 1, start, limit);
    }
  }

  lemma PaginateLast<T>(rows: seq<T>, start: int, limit: int, draw: (T, int) -> seq<Draw>)
    requires rows != []
    ensures Paginate(rows, start, limit, draw)
         == Paginate(rows[..|rows| - 1], start, limit, draw)
            + (BreakIf(CursorAfter(|rows| - 1, start, limit), limit) + draw(rows[|rows| - 1], RowY(|rows| - 1, start, limit)))
  {
  }

  /** A drawing `head + done` extended by a page break and a row is `head` followed by all three. */
  lemma Extend(head: seq<Draw>, done: seq<Draw>, pageBreak: seq<Draw>, row: seq<Draw>)
    ensures (head + done) + (pageBreak + row) == head + (done + pageBreak + row)
  {
  }

  /** Drawing two stretches of rows is drawing the first, then the second from where the cursor stopped. */
  lemma {:induction false} PaginateAppend<T>(a: seq<T>, b: seq<T>, start: int, limit: int, draw: (T, int) -> seq<Draw>)
    ensures Paginate(a + b, start, limit, draw)
         == Paginate(a, start, limit, draw) + Paginate(b, CursorAfter(|a|, start, limit), limit, draw)
    decreases |b|
  {
    if b == [] {
      assert a + b == a;
    } else {
      var n := |b| - 1;
      var mid := CursorAfter(|a|, start, limit);
      var ab := a + b;
      assert ab[..|ab| - 1] == a + b[..n];
      assert ab[|ab| - 1] == b[n];
      PaginateAppend(a, b[..n], start, limit, draw);
      CursorCompose(|a|, n, start, limit);
      var tail := BreakIf(CursorAfter(n, mid, limit), limit) + draw(b[n], RowY(n, mid, limit));
      PaginateLast(ab, start, limit, draw);
      PaginateLast(b, mid, limit, draw);
      assert Paginate(ab, start, limit, draw) == Paginate(a + b[..n], start, limit, draw) + tail;
    }
  }

  /** Each record's row appears in the drawing, after the rows of the records before it. */
  lemma RowInPlace<T>(rows: seq<T>, k: nat, start: int, limit: int, draw: (T, int) -> seq<Draw>)
    requires k < |rows|
    ensures Paginate(rows, start, limit, draw)
         == Paginate(rows[..k], start, limit, draw) + BreakIf(CursorAfter(k, start, limit), limit)
            + draw(rows[k], RowY(k, start, limit))
            + Paginate(rows[k + 1..], CursorAfter(k + 1, start, limit), limit, draw)
  {
    assert rows == rows[..k + 1] + rows[k + 1..];
    PaginateAppend(rows[..k + 1], rows[k + 1..], start, limit, draw);
    assert rows[..k + 1][..k] == rows[..k];
  }

  /** Rows drawn one under the other with no page break (the invoice's item list). */
  function Stack<T>(rows: seq<T>, start: int, draw: (T, int) -> seq<Draw>): seq<Draw>
    decreases |rows|
  {
    if rows == [] then []
    else
      var n := |rows| - 1;
      Stack(rows[..n], start, draw) + draw(rows[n], start + ROW_HEIGHT * n)
  }

  /** In a stack, row `k` is drawn at `start + 8 * k`, after the rows before it. */
  lemma {:induction false} StackRow<T>(rows: seq<T>, k: nat, start: int, draw: (T, int) -> seq<Draw>)
    requires k < |rows|
    ensures Stack(rows[..k + 1], start, draw) == Stack(rows[..k], start, draw) + draw(rows[k], start + ROW_HEIGHT * k)
  {
    assert rows[..k + 1][..k] == rows[..k];
  }

  /** When every row draws `w` commands, a stack of `n` rows holds `w * n` commands. */
  lemma {:induction false} StackLength<T>(rows: seq<T>, start: int, w: nat, draw: (T, int) -> seq<Draw>)
    requires forall r, y :: |draw(r, y)| == w
    ensures |Stack(rows, start, draw)| == w * |rows|
    decreases |rows|
  {
    if rows != [] {
      var n := |rows| - 1;
      StackLength(rows[..n], start, w, draw);
      assert |draw(rows[n], start + ROW_HEIGHT * n)| == w;
      assert w * |rows| == w * n + w;
    }
  }

  /** The stack of the first `m` rows is a prefix of the stack of all of them. */
  lemma {:induction false} StackPrefix<T>(rows: seq<T>, m: nat, start: int, draw: (T, int) -> seq<Draw>)
    requires m <= |rows|
    ensures Stack(rows[..m], start, draw) <= Stack(rows, start, draw)
    decreases |rows| - m
  {
    if m < |rows| {
      StackRow(rows, m, start, draw);
      StackPrefix(rows, m + 1, start, draw);
    } else {
      assert rows[..m] == rows;
    }
  }

  /**
    When every row draws `w` commands, the commands of row `k` are exactly the
    slice `[w * k, w * k + w)` of the stack, drawn at `start + 8 * k`.
  */
  lemma StackSlice<T>(rows: seq<T>, k: nat, start: int, w: nat, draw: (T, int) -> seq<Draw>)
    requires k < |rows|
    requires forall r, y :: |draw(r, y)| == w
    ensures |Stack(rows, start, draw)| == w * |rows|
    ensures Stack(rows, start, draw)[w * k .. w * k + w] == draw(rows[k], start + ROW_HEIGHT * k)
  {
    StackLength(rows, start, w, draw);
    StackLength(rows[..k], start, w, draw);
    StackRow(rows, k, start, draw);
    StackPrefix(rows, k + 1, start, draw);
    var whole := Stack(rows, start, draw);
    var before := Stack(rows[..k], start, draw);
    var row := draw(rows[k], start + ROW_HEIGHT * k);
    assert |row| == w;
    assert before + row <= whole;
    assert whole[..|before| + |row|] == before + row;
    assert whole[|before| .. |before| + |row|] == (before + row)[|before|..];
  }

  /** A paginated table whose rows all fit above the limit is a plain stack. */
  lemma {:induction false} PaginateWithoutBreaks<T>(rows: seq<T>, start: int, limit: int, draw: (T, int) -> seq<Draw>)
    requires start + ROW_HEIGHT * (|rows| - 1) <= limit
    ensures Paginate(rows, start, limit, draw) == Stack(rows, start, draw)
    decreases |rows|
  {
    if rows != [] {
      var n := |rows| - 1;
      PaginateWithoutBreaks(rows[..n], start, limit, draw);
      RowsBeforeBreak(n, start, limit);
      assert BreakIf(CursorAfter(n, start, limit), limit) == [];
      assert RowY(n, start, limit) == start + ROW_HEIGHT * n;
    }
  }
}
