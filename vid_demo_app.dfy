/** The video demo front end: sampled frames are pasted, left to right and top to bottom, into one
  * grid image, and a YouTube Shorts address is rewritten to the ordinary watch address before the
  * video is fetched. */
module VidDemoApp {
  import opened Wrappers
  import opened Text

  // ---------------------------------------------------------------- the frame grid

  /** The pixel size of a frame. */
  datatype Size = Size(w: nat, h: nat)

  /** One `paste`: frame number `frame`, of size `w` by `h`, with its top-left corner at (`x`, `y`). */
  datatype Tile = Tile(frame: nat, x: nat, y: nat, w: nat, h: nat)

  /** Pixel (`px`, `py`) lies under the tile. */
  predicate Covers(t: Tile, px: nat, py: nat) {
    t.x <= px < t.x + t.w && t.y <= py < t.y + t.h
  }

  /** The grid image: its size is fixed when it is created, and each `paste` draws over what
    * is already there (anything outside the canvas is clipped). */
  class Canvas {
    const width: nat
    const height: nat
    var pastes: seq<Tile>

    constructor (width: nat, height: nat)
      ensures this.width == width && this.height == height && pastes == []
    {
      this.width := width;
      this.height := height;
      pastes := [];
    }

    method Paste(frame: nat, size: Size, x: nat, y: nat)
      modifies this
      ensures pastes == old(pastes) + [Tile(frame, x, y, size.w, size.h)]
    {
      pastes := pastes + [Tile(frame, x, y, size.w, size.h)];
    }
  }

  /** The paste, if any, whose pixels a canvas pixel ends up showing: the last one covering it. */
  function Shown(pastes: seq<Tile>, px: nat, py: nat): (r: Option<nat>)
    ensures r.Some? ==> r.value < |pastes| && Covers(pastes[r.value], px, py)
    ensures r.Some? ==> forall j :: r.value < j < |pastes| ==> !Covers(pastes[j], px, py)
    ensures r.None? ==> forall j :: 0 <= j < |pastes| ==> !Covers(pastes[j], px, py)
  {
    if pastes == [] then None
    else if Covers(pastes[|pastes| - 1], px, py) then Some(|pastes| - 1)
    else Shown(pastes[..|pastes| - 1], px, py)
  }

  /** The top-left corner of cell `idx` in a grid `cols` cells wide with `w` by `h` cells. */
  function Corner(idx: nat, cols: nat, w: nat, h: nat): (nat, nat)
    requires cols > 0
  {
    ((idx % cols) * w, (idx / cols) * h)
  }

  /** Frame `idx` pasted at its cell, the cell size being that of the first frame. */
  function Place(idx: nat, size: Size, cols: nat, cell: Size): Tile
    requires cols > 0
  {
    var (x, y) := Corner(idx, cols, cell.w, cell.h);
    Tile(idx, x, y, size.w, size.h)
  }

  /** The pastes of the first `n` frames, in order. */
  function Tiles(frames: seq<Size>, cols: nat, cell: Size, n: nat): (r: seq<Tile>)
    requires cols > 0 && n <= |frames|
    ensures |r| == n
    ensures forall i :: 0 <= i < n ==> r[i] == Place(i, frames[i], cols, cell)
  {
    if n == 0 then [] else Tiles(frames, cols, cell, n - 1) + [Place(n - 1, frames[n - 1], cols, cell)]
  }

  /** The `grid_size` default, (rows, cols). */
  const DefaultRows: nat := 2
  const DefaultCols: nat := 5

  /** The message of Python's `ZeroDivisionError` for `idx % 0`. */
  const ModuloByZero: string := "integer modulo by zero"

  /** `combine_to_grid(frames, (rows, cols))`: `None` for no frames; otherwise a canvas `cols` first-frame
    * widths wide and `rows` first-frame heights high, with frame `idx` pasted at its cell in order. */
  method CombineToGrid(frames: seq<Size>, rows: nat, cols: nat) returns (r: Result<Option<Canvas>>)
    ensures frames == [] ==> r == Ok(None)
    ensures frames != [] && cols == 0 ==> r == Err(ModuloByZero)
    ensures frames != [] && cols > 0 ==>
      && r.Ok? && r.value.Some? && fresh(r.value.value)
      && r.value.value.width == cols * frames[0].w
      && r.value.value.height == rows * frames[0].h
      && r.value.value.pastes == Tiles(frames, cols, frames[0], |frames|)
  {
    if frames == [] {
      return Ok(None);
    }
    var w, h := frames[0].w, frames[0].h;
    var grid := new Canvas(cols * w, rows * h);
    if cols == 0 {
      return Err(ModuloByZero);
    }
    var idx := 0;
    while idx < |frames|
      invariant idx <= |frames|
      invariant grid.pastes == Tiles(frames, cols, frames[0], idx)
    {
      var (x, y) := Corner(idx, cols, w, h);
      grid.Paste(idx, frames[idx], x, y);
      idx := idx + 1;
    }
    return Ok(Some(grid));
  }

  /** Multiplying by a positive factor preserves order, and a strict order of products is one of
    * the factors. */
  lemma ScaleMonotone(a: int, b: int, c: nat)
    requires a <= b
    ensures a * c <= b * c
  {
    assert b * c - a * c == (b - a) * c;
  }

  lemma ScaleCancel(a: int, b: int, c: nat)
    requires c > 0 && a * c < b * c
    ensures a < b
  {
    assert b * c - a * c == (b - a) * c;
  }

  /** A coordinate lying within one cell's span determines that cell. */
  lemma SameCell(a: nat, b: nat, w: nat, d: nat)
    requires w > 0 && d < w && a * w <= b * w + d < a * w + w
    ensures a == b
  {
    assert a * w < (b + 1) * w;
    ScaleCancel(a, b + 1, w);
    assert b * w < (a + 1) * w;
    ScaleCancel(b, a + 1, w);
  }

  /** A number is its row times the width plus its column. */
  lemma RowColumn(idx: nat, cols: nat)
    requires cols > 0
    ensures idx == (idx / cols) * cols + idx % cols && idx % cols < cols
  {
  }

  /** For cells of positive size, frames with the same corner are the same frame: no two frames
    * share a cell. */
  lemma CornersDistinct(i: nat, j: nat, cols: nat, w: nat, h: nat)
    requires cols > 0 && w > 0 && h > 0
    ensures Corner(i, cols, w, h) == Corner(j, cols, w, h) ==> i == j
  {
    if Corner(i, cols, w, h) == Corner(j, cols, w, h) {
      SameCell(i % cols, j % cols, w, 0);
      SameCell(i / cols, j / cols, h, 0);
      RowColumn(i, cols);
      RowColumn(j, cols);
    }
  }

  /** A frame numbered below `rows * cols` lands wholly inside the canvas. */
  lemma CornerInside(idx: nat, rows: nat, cols: nat, w: nat, h: nat)
    requires cols > 0 && idx < rows * cols
    ensures Corner(idx, cols, w, h).0 + w <= cols * w
    ensures Corner(idx, cols, w, h).1 + h <= rows * h
  {
    var q, m := idx / cols, idx % cols;
    RowColumn(idx, cols);
    ScaleCancel(q, rows, cols);
    ScaleMonotone(m + 1, cols, w);
    assert (m + 1) * w == m * w + w;
    ScaleMonotone(q + 1, rows, h);
    assert (q + 1) * h == q * h + h;
  }

  /** A frame numbered `rows * cols` or more starts at or below the canvas's bottom edge. */
  lemma CornerBelow(idx: nat, rows: nat, cols: nat, w: nat, h: nat)
    requires cols > 0 && idx >= rows * cols
    ensures Corner(idx, cols, w, h).1 >= rows * h
  {
    var q := idx / cols;
    RowColumn(idx, cols);
    assert idx < (q + 1) * cols;
    ScaleCancel(rows, q + 1, cols);
    ScaleMonotone(rows, q, h);
  }

  /** A pixel of a frame's cell is covered by no other frame's paste, when all frames share one size. */
  lemma OnlyOwnTile(frames: seq<Size>, cols: nat, idx: nat, j: nat, dx: nat, dy: nat)
    requires frames != [] && cols > 0 && frames[0].w > 0 && frames[0].h > 0
    requires idx < |frames| && j < |frames| && frames[j] == frames[0]
    requires dx < frames[0].w && dy < frames[0].h
    ensures var (x, y) := Corner(idx, cols, frames[0].w, frames[0].h);
      Covers(Place(j, frames[j], cols, frames[0]), x + dx, y + dy) ==> j == idx
  {
    var w, h := frames[0].w, frames[0].h;
    var (x, y) := Corner(idx, cols, w, h);
    if Covers(Place(j, frames[j], cols, frames[0]), x + dx, y + dy) {
      SameCell(j % cols, idx % cols, w, dx);
      SameCell(j / cols, idx / cols, h, dy);
      CornersDistinct(idx, j, cols, w, h);
    }
  }

  /** Frames of one size and numbered below `rows * cols` are each visible in full in their own cell:
    * no other paste draws over them. */
  lemma {:induction false} FrameVisible(frames: seq<Size>, rows: nat, cols: nat, idx: nat, dx: nat, dy: nat)
    requires frames != [] && cols > 0 && frames[0].w > 0 && frames[0].h > 0
    requires forall i :: 0 <= i < |frames| ==> frames[i] == frames[0]
    requires idx < |frames| && idx < rows * cols && dx < frames[0].w && dy < frames[0].h
    ensures var (x, y) := Corner(idx, cols, frames[0].w, frames[0].h);
      && x + dx < cols * frames[0].w && y + dy < rows * frames[0].h
      && Shown(Tiles(frames, cols, frames[0], |frames|), x + dx, y + dy) == Some(idx)
  {
    var w, h := frames[0].w, frames[0].h;
    var tiles := Tiles(frames, cols, frames[0], |frames|);
    var (x, y) := Corner(idx, cols, w, h);
    CornerInside(idx, rows, cols, w, h);
    assert Covers(tiles[idx], x + dx, y + dy);
    forall j | idx < j < |tiles| ensures !Covers(tiles[j], x + dx, y + dy) {
      OnlyOwnTile(frames, cols, idx, j, dx, dy);
    }
  }

  /** Frames numbered `rows * cols` or more are pasted but never seen: no canvas pixel shows them. */
  lemma FrameClipped(frames: seq<Size>, rows: nat, cols: nat, idx: nat, px: nat, py: nat)
    requires frames != [] && cols > 0
    requires idx < |frames| && idx >= rows * cols && py < rows * frames[0].h
    ensures Shown(Tiles(frames, cols, frames[0], |frames|), px, py) != Some(idx)
  {
    CornerBelow(idx, rows, cols, frames[0].w, frames[0].h);
  }

  // ---------------------------------------------------------------- the Shorts address

  const ShortsMarker: string := "youtube.com/shorts/"
  const ShortsPath: string := "shorts/"
  const WatchHead: string := "https://www.youtube.com/watch?v"
  const WatchPrefix: string := WatchHead + "="

  /** The video id of a Shorts address: after the last `shorts/`, up to the first `?`. */
  function ShortsId(url: string): string {
    Before(AfterLast(url, ShortsPath), "?")
  }

  /** The text before the first `?` holds no `?`. */
  lemma BeforeQuestionMark(s: string)
    ensures '?' !in Before(s, "?")
  {
    var r := Before(s, "?");
    if '?' in r {
      var k :| 0 <= k < |r| && r[k] == '?';
      assert OccursAt(s, "?", k) by { assert s[k..k + 1] == [r[k]]; }
    }
  }

  /** An occurrence in a prefix is an occurrence in the whole. */
  lemma ContainsPrefix(s: string, t: string, p: string)
    requires s <= t && Contains(s, p)
    ensures Contains(t, p)
  {
    var j := IndexOf(s, p).value;
    assert t[j..j + |p|] == s[j..j + |p|];
    ContainsAt(t, p, j);
  }

  /** An occurrence of a pattern holds an occurrence of each of its tails. */
  lemma ContainsTail(s: string, p: string, i: nat)
    requires i <= |p| && Contains(s, p)
    ensures Contains(s, p[i..])
  {
    var j := IndexOf(s, p).value;
    assert s[j + i..j + |p|] == s[j..j + |p|][i..];
    ContainsAt(s, p[i..], j + i);
  }

  /** A Shorts id holds neither `?` nor `shorts/`, hence no Shorts marker either. */
  lemma ShortsIdClean(url: string)
    ensures '?' !in ShortsId(url)
    ensures !Contains(ShortsId(url), ShortsMarker)
  {
    BeforeQuestionMark(AfterLast(url, ShortsPath));
    if Contains(ShortsId(url), ShortsMarker) {
      ContainsTail(ShortsId(url), ShortsMarker, 12);
      assert ShortsMarker[12..] == ShortsPath;
      ContainsPrefix(ShortsId(url), AfterLast(url, ShortsPath), ShortsPath);
    }
  }

  lemma MarkerLacksEquals()
    ensures '=' !in ShortsMarker
  {
  }

  /** The watch address for an id that lacks the Shorts marker does not hold it either. */
  lemma WatchAddressPlain(id: string)
    requires !Contains(id, ShortsMarker)
    ensures !Contains(WatchPrefix + id, ShortsMarker)
  {
    assert !Contains(WatchHead, ShortsMarker) by {
      assert ShortsMarker[15] == 'r';
      assert 'r' !in WatchHead;
      AbsentChar(WatchHead, ShortsMarker, 15);
    }
    MarkerLacksEquals();
    SplitOnAbsent(WatchHead, '=', id, ShortsMarker);
  }

  /** The address the demo plays and downloads: a Shorts address becomes the watch address of its id,
    * and any other address is kept. */
  function WatchUrl(url: string): (r: string)
    ensures Contains(url, ShortsMarker) ==>
      && StartsWith(r, WatchPrefix) && '?' !in r[|WatchPrefix|..] && r[|WatchPrefix|..] == ShortsId(url)
    ensures !Contains(url, ShortsMarker) ==> r == url
    ensures !Contains(r, ShortsMarker)
  {
    if Contains(url, ShortsMarker) then
      ShortsIdClean(url);
      WatchAddressPlain(ShortsId(url));
      assert (WatchPrefix + ShortsId(url))[|WatchPrefix|..] == ShortsId(url);
      WatchPrefix + ShortsId(url)
    else url
  }

  /** Rewriting an address already rewritten changes nothing. */
  lemma WatchUrlIdempotent(url: string)
    ensures WatchUrl(WatchUrl(url)) == WatchUrl(url)
  {
  }
}
