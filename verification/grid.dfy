/**
 The two capability grids of the dashboard: every (MIME type, codec) pair of
 the two probe tables is turned into a media type string, handed to a
 browser query, and the answer is written into one grid cell.

 The browser queries (`MediaSource.isTypeSupported` and
 `HTMLMediaElement.canPlayType`) are parameters; the grid component is
 reduced to the sequence of `setCell(x, y, class)` calls it receives.
 */
module CodecGrid {
  import opened Base
  import opened Catalog

  /** The CSS class a cell is given. */
  datatype CellClass = Pass | Fail | Maybe

  /** The class attribute `setCell` is given. */
  function ClassName(c: CellClass): string {
    match c
    case Pass => "pass"
    case Fail => "fail"
    case Maybe => "maybe"
  }

  /** One `grid.setCell(x, y, class)` call. */
  datatype SetCell = SetCell(x: nat, y: nat, cls: CellClass)

  /** A rendered grid: its axis attributes and the cell writes, in order. */
  datatype Grid = Grid(xAxis: seq<string>, yAxis: seq<string>, calls: seq<SetCell>)

  /** The text between the MIME type and the codec. */
  const CodecsParam := "; codecs=\""

  /** `${mimeType}; codecs="${codec}"` */
  function TypeString(mime: string, codec: string): (t: string)
    ensures |t| == |mime| + |CodecsParam| + |codec| + 1
    ensures t[..|mime|] == mime
    ensures t[|mime|..|mime| + |CodecsParam|] == CodecsParam
    ensures t[|mime| + |CodecsParam|..|t| - 1] == codec
    ensures t[|t| - 1] == '"'
  {
    mime + CodecsParam + codec + "\""
  }

  /** The first position of `c` in `s`, if any. */
  function IndexOf(s: string, c: char): (r: Option<nat>)
    ensures r.Some? ==> r.value < |s| && s[r.value] == c && c !in s[..r.value]
    ensures r.None? ==> c !in s
    decreases |s|
  {
    if |s| == 0 then None
    else if s[0] == c then Some(0)
    else
      match IndexOf(s[1..], c)
      case None => None
      case Some(i) =>
        assert s[..i + 1] == [s[0]] + s[1..][..i];
        Some(i + 1)
  }

  /** Splits a type string back into its MIME type and codec; the MIME type ends at the first `;`. */
  function ParseType(t: string): (r: Option<(string, string)>)
    ensures r.Some? ==> TypeString(r.value.0, r.value.1) == t && ';' !in r.value.0
  {
    match IndexOf(t, ';')
    case None => None
    case Some(i) =>
      if i + |CodecsParam| + 1 <= |t| && t[i..i + |CodecsParam|] == CodecsParam && t[|t| - 1] == '"' then
        var mime, codec := t[..i], t[i + |CodecsParam|..|t| - 1];
        assert t == mime + CodecsParam + codec + "\"";
        Some((mime, codec))
      else None
  }

  /** The type string of a MIME type without `;` parses back to its two parts. */
  lemma {:induction false} ParseTypeRoundTrip(mime: string, codec: string)
    requires ';' !in mime
    ensures ParseType(TypeString(mime, codec)) == Some((mime, codec))
  {
    var t := TypeString(mime, codec);
    IndexOfPrefix(mime, t, ';');
  }

  /** When `s` starts with a `c`-free `p` followed by `c`, the first `c` is at `|p|`. */
  lemma {:induction false} IndexOfPrefix(p: string, s: string, c: char)
    requires c !in p && |p| < |s| && s[..|p|] == p && s[|p|] == c
    ensures IndexOf(s, c) == Some(|p|)
    decreases |p|
  {
    if |p| > 0 {
      assert s[0] == p[0];
      assert p[1..] == s[1..][..|p| - 1];
      IndexOfPrefix(p[1..], s[1..], c);
    }
  }

  /** Distinct cells ask about distinct type strings, as long as no MIME type holds a `;`. */
  lemma TypeStringInjective(m1: string, c1: string, m2: string, c2: string)
    requires ';' !in m1 && ';' !in m2
    requires TypeString(m1, c1) == TypeString(m2, c2)
    ensures m1 == m2 && c1 == c2
  {
    ParseTypeRoundTrip(m1, c1);
    ParseTypeRoundTrip(m2, c2);
  }

  /** No MIME type of the table carries parameters. */
  lemma MimeTypesHaveNoParameters()
    ensures forall i :: 0 <= i < |MimeTypes| ==> ';' !in MimeTypes[i]
  {
  }

  /** The 192 cells of either grid ask the browser 192 different questions. */
  lemma TableQueriesDistinct(y1: nat, x1: nat, y2: nat, x2: nat)
    requires y1 < |MimeTypes| && y2 < |MimeTypes| && x1 < |CodecStrings| && x2 < |CodecStrings|
    requires TypeString(MimeTypes[y1], CodecStrings[x1]) == TypeString(MimeTypes[y2], CodecStrings[x2])
    ensures y1 == y2 && x1 == x2
  {
    TableSizes();
    MimeTypesHaveNoParameters();
    TypeStringInjective(MimeTypes[y1], CodecStrings[x1], MimeTypes[y2], CodecStrings[x2]);
  }

  /** The MSE grid: a supported type passes, anything else fails; never "maybe". */
  function MseClass(supported: bool): (c: CellClass)
    ensures c != Maybe
    ensures c == Pass <==> supported
    ensures ClassName(c) == (if supported then "pass" else "fail")
  {
    if supported then Pass else Fail
  }

  /** The `<video>` grid: "probably" passes, "maybe" is maybe, any other answer (normally "") fails. */
  function VideoClass(level: string): (c: CellClass)
    ensures c == Pass <==> level == "probably"
    ensures c == Maybe <==> level == "maybe"
    ensures c == Fail <==> level != "probably" && level != "maybe"
    ensures ClassName(c) == (if level == "probably" then "pass" else if level == "maybe" then "maybe" else "fail")
  {
    if level == "probably" then Pass
    else if level == "maybe" then Maybe
    else Fail
  }

  /** Cell `a` is written before cell `b` in row-major order. */
  predicate Before(a: SetCell, b: SetCell) {
    a.y < b.y || (a.y == b.y && a.x < b.x)
  }

  /** Some write targets column `x` of row `y`. */
  predicate Written(calls: seq<SetCell>, x: nat, y: nat) {
    exists k :: 0 <= k < |calls| && calls[k].x == x && calls[k].y == y
  }

  /** Every write targets a cell of the grid and carries the class of that cell's type string. */
  predicate Classified(calls: seq<SetCell>, ys: seq<string>, xs: seq<string>, classify: string -> CellClass) {
    forall k :: 0 <= k < |calls| ==>
      calls[k].x < |xs| && calls[k].y < |ys| &&
      calls[k].cls == classify(TypeString(ys[calls[k].y], xs[calls[k].x]))
  }

  /** The writes are in strictly increasing row-major order. */
  predicate RowMajor(calls: seq<SetCell>) {
    forall i, j :: 0 <= i < j < |calls| ==> Before(calls[i], calls[j])
  }

  /** The writes cover rows `0..rows-1` completely and the first `cols` cells of row `rows`. */
  predicate CoversUpTo(calls: seq<SetCell>, width: nat, rows: nat, cols: nat) {
    (forall x: nat, y: nat :: x < width && y < rows ==> Written(calls, x, y)) &&
    (forall x: nat :: x < cols ==> Written(calls, x, rows))
  }

  /** Every write lies before column `cols` of row `row`. */
  predicate AllBefore(calls: seq<SetCell>, row: nat, cols: nat) {
    forall k :: 0 <= k < |calls| ==> Before(calls[k], SetCell(cols, row, Fail))
  }

  /** Appending a write keeps every earlier write and adds its own cell. */
  lemma WrittenAppend(calls: seq<SetCell>, cell: SetCell)
    ensures forall x: nat, y: nat :: Written(calls, x, y) ==> Written(calls + [cell], x, y)
    ensures Written(calls + [cell], cell.x, cell.y)
  {
    var calls' := calls + [cell];
    assert calls'[|calls|] == cell;
    forall x: nat, y: nat | Written(calls, x, y) ensures Written(calls', x, y) {
      var k :| 0 <= k < |calls| && calls[k].x == x && calls[k].y == y;
      assert calls'[k] == calls[k];
    }
  }

  /** The inner `forEach`: writes row `y`, column by column. */
  method RenderRow(ys: seq<string>, xs: seq<string>, classify: string -> CellClass, y: nat, calls0: seq<SetCell>)
    returns (calls: seq<SetCell>)
    requires y < |ys|
    requires Classified(calls0, ys, xs, classify) && RowMajor(calls0)
    requires AllBefore(calls0, y, 0) && CoversUpTo(calls0, |xs|, y, 0)
    ensures |calls| == |calls0| + |xs|
    ensures Classified(calls, ys, xs, classify) && RowMajor(calls)
    ensures AllBefore(calls, y + 1, 0) && CoversUpTo(calls, |xs|, y + 1, 0)
  {
    calls := calls0;
    var x := 0;
    while x < |xs|
      invariant 0 <= x <= |xs|
      invariant |calls| == |calls0| + x
      invariant Classified(calls, ys, xs, classify) && RowMajor(calls)
      invariant AllBefore(calls, y, x) && CoversUpTo(calls, |xs|, y, x)
    {
      var cell := SetCell(x, y, classify(TypeString(ys[y], xs[x])));
      WrittenAppend(calls, cell);
      calls := calls + [cell];
      x := x + 1;
    }
    assert forall xx: nat :: xx < |xs| ==> Written(calls, xx, y);
  }

  /**
   The nested `forEach` of both render functions: rows follow the y axis,
   columns the x axis, and each cell gets the class of its type string.
   */
  method RenderGrid(ys: seq<string>, xs: seq<string>, classify: string -> CellClass) returns (g: Grid)
    ensures g.xAxis == xs && g.yAxis == ys
    ensures |g.calls| == |ys| * |xs|
    ensures forall k :: 0 <= k < |g.calls| ==>
      g.calls[k].x < |xs| && g.calls[k].y < |ys| &&
      g.calls[k].cls == classify(TypeString(ys[g.calls[k].y], xs[g.calls[k].x]))
    ensures forall i, j :: 0 <= i < j < |g.calls| ==> Before(g.calls[i], g.calls[j])
    ensures forall x: nat, y: nat :: x < |xs| && y < |ys| ==> Written(g.calls, x, y)
  {
    var calls: seq<SetCell> := [];
    var y := 0;
    while y < |ys|
      invariant 0 <= y <= |ys|
      invariant |calls| == y * |xs|
      invariant Classified(calls, ys, xs, classify) && RowMajor(calls)
      invariant AllBefore(calls, y, 0) && CoversUpTo(calls, |xs|, y, 0)
    {
      calls := RenderRow(ys, xs, classify, y, calls);
      assert (y + 1) * |xs| == y * |xs| + |xs|;
      y := y + 1;
    }
    g := Grid(xs, ys, calls);
  }

  /** Row-major order writes no cell twice: two writes hit the same cell exactly when they are the same write. */
  lemma ExactlyOnce(calls: seq<SetCell>, i: nat, j: nat)
    requires RowMajor(calls)
    requires i < |calls| && j < |calls|
    ensures calls[i].x == calls[j].x && calls[i].y == calls[j].y <==> i == j
  {
    if i < j {
      assert Before(calls[i], calls[j]);
    } else if j < i {
      assert Before(calls[j], calls[i]);
    }
  }

  /** `renderMseGrid`, with `MediaSource.isTypeSupported` as a parameter. */
  method RenderMseGrid(isTypeSupported: string -> bool) returns (g: Grid)
    ensures g.xAxis == CodecStrings && g.yAxis == MimeTypes
    ensures |g.calls| == 192
    ensures forall k :: 0 <= k < |g.calls| ==>
      g.calls[k].x < 24 && g.calls[k].y < 8 &&
      (g.calls[k].cls == Pass <==> isTypeSupported(TypeString(MimeTypes[g.calls[k].y], CodecStrings[g.calls[k].x]))) &&
      g.calls[k].cls != Maybe
    ensures forall i, j :: 0 <= i < j < |g.calls| ==> Before(g.calls[i], g.calls[j])
    ensures forall x: nat, y: nat :: x < 24 && y < 8 ==> Written(g.calls, x, y)
  {
    TableSizes();
    g := RenderGrid(MimeTypes, CodecStrings, t => MseClass(isTypeSupported(t)));
  }

  /** `renderVideoGrid`, with `video.canPlayType` as a parameter. */
  method RenderVideoGrid(canPlayType: string -> string) returns (g: Grid)
    ensures g.xAxis == CodecStrings && g.yAxis == MimeTypes
    ensures |g.calls| == 192
    ensures forall k :: 0 <= k < |g.calls| ==>
      g.calls[k].x < 24 && g.calls[k].y < 8 &&
      g.calls[k].cls == VideoClass(canPlayType(TypeString(MimeTypes[g.calls[k].y], CodecStrings[g.calls[k].x])))
    ensures forall i, j :: 0 <= i < j < |g.calls| ==> Before(g.calls[i], g.calls[j])
    ensures forall x: nat, y: nat :: x < 24 && y < 8 ==> Written(g.calls, x, y)
  {
    TableSizes();
    g := RenderGrid(MimeTypes, CodecStrings, t => VideoClass(canPlayType(t)));
  }
}
