/** The compact board encoding of run.py: `state2z` turns a grid of cells in
    {-1, 0, 1} into one character per cell, row-major, over the alphabet
    `z` (-1), `0` (0), `Z` (1); `z2state` reads the first 196 characters of a
    string back as 14 rows of up to 14 cells. */
module BoardCodec {
  import opened Wrappers
  import opened Text

  type Grid = seq<seq<int>>

  predicate IsCell(v: int) {
    v == -1 || v == 0 || v == 1
  }

  predicate IsSymbol(c: char) {
    c == 'z' || c == '0' || c == 'Z'
  }

  /** The symbol table of `state2z`: -1 is `z`, 0 is `0`, 1 is `Z`. */
  function SymbolOf(v: int): (c: char)
    requires IsCell(v)
    ensures IsSymbol(c)
    ensures CellOf(c) == v
  {
    if v == -1 then 'z' else if v == 1 then 'Z' else '0'
  }

  /** The cell table of `z2state`, the inverse of the symbol table. */
  function CellOf(c: char): (v: int)
    requires IsSymbol(c)
    ensures IsCell(v)
    ensures c == 'z' <==> v == -1
    ensures c == 'Z' <==> v == 1
  {
    if c == 'z' then -1 else if c == 'Z' then 1 else 0
  }

  lemma SymbolOfCellOf(c: char)
    requires IsSymbol(c)
    ensures SymbolOf(CellOf(c)) == c
  {
  }

  /** Every cell of every row holds -1, 0 or 1. */
  predicate AllCells(g: Grid) {
    forall i, j :: 0 <= i < |g| && 0 <= j < |g[i]| ==> IsCell(g[i][j])
  }

  /** A well-formed board: 14 rows of 14 cells, each in {-1, 0, 1}. */
  predicate IsBoard(g: Grid) {
    |g| == 14 && (forall i :: 0 <= i < |g| ==> |g[i]| == 14) && AllCells(g)
  }

  /** A full encoding: 196 characters, each in the alphabet. */
  predicate IsEncoding(s: string) {
    |s| == 196 && forall k :: 0 <= k < |s| ==> IsSymbol(s[k])
  }

  /** Total number of cells across all rows: the length of the encoding. */
  function CellCount(g: Grid): nat {
    if |g| == 0 then 0 else |g[0]| + CellCount(g[1..])
  }

  /** The inner `"".join(...)` of `state2z` for one row; None where the
      symbol table has no entry (Python raises KeyError). */
  function EncodeRow(row: seq<int>): (r: Option<string>)
    ensures r.Some? <==> forall j :: 0 <= j < |row| ==> IsCell(row[j])
    ensures r.Some? ==> |r.value| == |row|
    ensures r.Some? ==> forall j :: 0 <= j < |row| ==> r.value[j] == SymbolOf(row[j])
  {
    if |row| == 0 then Some("")
    else if !IsCell(row[0]) then None
    else match EncodeRow(row[1..])
      case None => None
      case Some(t) => Some([SymbolOf(row[0])] + t)
  }

  /** A grid's cells are all valid exactly when its first row's and the remaining rows' are. */
  lemma AllCellsSplit(g: Grid)
    requires |g| > 0
    ensures AllCells(g) <==> (forall j :: 0 <= j < |g[0]| ==> IsCell(g[0][j])) && AllCells(g[1..])
  {
    if (forall j :: 0 <= j < |g[0]| ==> IsCell(g[0][j])) && AllCells(g[1..]) {
      forall i, j | 0 <= i < |g| && 0 <= j < |g[i]|
        ensures IsCell(g[i][j])
      {
        if i > 0 {
          assert g[i] == g[1..][i - 1];
        }
      }
    }
  }

  /** `state2z`: the rows' encodings concatenated. The grid's shape is not checked;
      it fails exactly when some cell is outside {-1, 0, 1}. */
  function Encode(g: Grid): (r: Option<string>)
    ensures r.Some? <==> AllCells(g)
    ensures r.Some? ==> |r.value| == CellCount(g)
  {
    if |g| == 0 then Some("")
    else
      AllCellsSplit(g);
      match EncodeRow(g[0])
      case None => None
      case Some(head) =>
        match Encode(g[1..])
        case None => None
        case Some(tail) => Some(head + tail)
  }

  /** The number of characters row `i` takes from a string of length `n`:
      the length of `z[14*i : 14*i+14]` under Python's clamped slicing. */
  function RowLength(n: nat, i: nat): nat {
    Min(14 * i + 14, n) - Min(14 * i, n)
  }

  /** The inner list of `z2state` for one row. */
  function DecodeRow(t: string): (r: Option<seq<int>>)
    ensures r.Some? <==> forall k :: 0 <= k < |t| ==> IsSymbol(t[k])
    ensures r.Some? ==> |r.value| == |t|
    ensures r.Some? ==> forall k :: 0 <= k < |t| ==> r.value[k] == CellOf(t[k])
  {
    if |t| == 0 then Some([])
    else if !IsSymbol(t[0]) then None
    else match DecodeRow(t[1..])
      case None => None
      case Some(rest) => Some([CellOf(t[0])] + rest)
  }

  /** Characters `14*i .. 14*i+13` of `z`, clamped to its length: the slice row `i` reads. */
  function RowSlice(z: string, i: nat): (t: string)
    ensures |t| == RowLength(|z|, i)
    ensures forall q :: 0 <= q < |t| ==> 14 * i + q < |z| && t[q] == z[14 * i + q]
  {
    Slice(z, 14 * i, 14 * i + 14)
  }

  /** Every one of the first 196 characters is in the alphabet. */
  predicate SymbolPrefix(z: string) {
    forall k :: 0 <= k < |z| && k < 196 ==> IsSymbol(z[k])
  }

  /** The 14 rows of a string whose first 196 characters are all in the alphabet. */
  function Rows(z: string): (rows: Grid)
    requires SymbolPrefix(z)
    ensures |rows| == 14 && AllCells(rows)
    ensures forall i :: 0 <= i < 14 ==> |rows[i]| == RowLength(|z|, i)
    ensures forall i, j :: 0 <= i < 14 && 0 <= j < |rows[i]| ==>
              14 * i + j < |z| && 14 * i + j < 196 && rows[i][j] == CellOf(z[14 * i + j])
  {
    seq(14, i requires 0 <= i < 14 => DecodeRow(RowSlice(z, i)).value)
  }

  /** `z2state`: 14 rows read from `z[0:14]`, `z[14:28]`, ..., `z[182:196]`. It fails
      exactly when one of the first 196 characters is outside the alphabet; the length
      is not checked, so a short string gives short (possibly empty) rows and
      characters after the 196th are ignored. */
  function Decode(z: string): (r: Option<Grid>)
    ensures r.Some? <==> forall k :: 0 <= k < |z| && k < 196 ==> IsSymbol(z[k])
    ensures r.Some? ==> |r.value| == 14 && AllCells(r.value)
    ensures r.Some? ==> forall i :: 0 <= i < 14 ==> |r.value[i]| == RowLength(|z|, i)
    ensures r.Some? ==> forall i, j :: 0 <= i < 14 && 0 <= j < |r.value[i]| ==>
              14 * i + j < |z| && 14 * i + j < 196 && r.value[i][j] == CellOf(z[14 * i + j])
  {
    if SymbolPrefix(z) then Some(Rows(z)) else None
  }

  /** Every row of `g` has 14 cells. */
  predicate FullRows(g: Grid) {
    forall i :: 0 <= i < |g| ==> |g[i]| == 14
  }

  /** On full rows, character `14*i+j` of the encoding is the symbol of cell `(i, j)`. */
  lemma {:induction false} EncodeIndex(g: Grid)
    requires FullRows(g) && AllCells(g)
    ensures Encode(g).Some?
    ensures |Encode(g).value| == 14 * |g|
    ensures forall i, j :: 0 <= i < |g| && 0 <= j < 14 ==>
              Encode(g).value[14 * i + j] == SymbolOf(g[i][j])
  {
    if |g| > 0 {
      var tail := g[1..];
      assert AllCells(tail) by {
        forall i, j | 0 <= i < |tail| && 0 <= j < |tail[i]|
          ensures IsCell(tail[i][j])
        {
          assert tail[i] == g[i + 1];
        }
      }
      EncodeIndex(tail);
      var head := EncodeRow(g[0]).value;
      var e := Encode(g).value;
      assert e == head + Encode(tail).value;
      forall i, j | 0 <= i < |g| && 0 <= j < 14
        ensures e[14 * i + j] == SymbolOf(g[i][j])
      {
        if i > 0 {
          assert e[14 * i + j] == Encode(tail).value[14 * (i - 1) + j];
          assert tail[i - 1] == g[i];
        }
      }
    }
  }

  /** The cells of the first `i` rows: those of row 0, then those of the next `i - 1`. */
  lemma CellCountPrefix(g: Grid, i: nat)
    requires 0 < i <= |g|
    ensures CellCount(g[..i]) == |g[0]| + CellCount(g[1..][..i - 1])
  {
    assert g[..i][1..] == g[1..][..i - 1];
  }

  /** Where `state2z` puts cell `(i, j)`: `j` past all the cells of the rows before row `i`. */
  function CellPosition(g: Grid, i: nat, j: nat): nat
    requires i <= |g|
  {
    CellCount(g[..i]) + j
  }

  /** Cell `(i, j)` of a grid of any shape is encoded at its `CellPosition`. */
  lemma {:induction false} EncodeAt(g: Grid, i: nat, j: nat)
    requires AllCells(g) && i < |g| && j < |g[i]|
    ensures Encode(g).Some?
    ensures CellPosition(g, i, j) < |Encode(g).value|
    ensures Encode(g).value[CellPosition(g, i, j)] == SymbolOf(g[i][j])
    decreases i
  {
    AllCellsSplit(g);
    var tail := g[1..];
    var head := EncodeRow(g[0]).value;
    assert Encode(g).value == head + Encode(tail).value;
    if i == 0 {
      assert g[..i] == [];
    } else {
      assert tail[i - 1] == g[i];
      EncodeAt(tail, i - 1, j);
      CellCountPrefix(g, i);
    }
  }

  /** `state2z` on a grid of any shape: row after row, each cell's symbol in order. */
  lemma {:induction false} EncodeContents(g: Grid)
    requires AllCells(g)
    ensures Encode(g).Some?
    ensures forall i, j :: 0 <= i < |g| && 0 <= j < |g[i]| ==>
              CellPosition(g, i, j) < |Encode(g).value|
              && Encode(g).value[CellPosition(g, i, j)] == SymbolOf(g[i][j])
  {
    forall i, j | 0 <= i < |g| && 0 <= j < |g[i]|
      ensures CellPosition(g, i, j) < |Encode(g).value|
              && Encode(g).value[CellPosition(g, i, j)] == SymbolOf(g[i][j])
    {
      EncodeAt(g, i, j);
    }
  }

  /** The encoding of a board is a full 196-character string over the alphabet. */
  lemma {:induction false} EncodeBoardIsEncoding(g: Grid)
    requires IsBoard(g)
    ensures Encode(g).Some? && IsEncoding(Encode(g).value)
  {
    EncodeIndex(g);
    var e := Encode(g).value;
    forall k | 0 <= k < |e|
      ensures IsSymbol(e[k])
    {
      var i, j := k / 14, k % 14;
      assert k == 14 * i + j;
      assert e[k] == SymbolOf(g[i][j]);
    }
  }

  /** Grid round trip: encoding a board and decoding the result gives the board back. */
  lemma {:induction false} GridRoundTrip(g: Grid)
    requires IsBoard(g)
    ensures Encode(g).Some? && IsEncoding(Encode(g).value)
    ensures Decode(Encode(g).value) == Some(g)
  {
    EncodeBoardIsEncoding(g);
    EncodeIndex(g);
    var e := Encode(g).value;
    var d := Decode(e).value;
    forall i | 0 <= i < 14
      ensures d[i] == g[i]
    {
      forall j | 0 <= j < 14
        ensures d[i][j] == g[i][j]
      {
        assert d[i][j] == CellOf(e[14 * i + j]);
      }
    }
    assert d == g;
  }

  /** Position `k` of an encoding is cell `(k / 14, k % 14)`. */
  lemma RowAndColumn(k: nat) returns (i: nat, j: nat)
    requires k < 196
    ensures i < 14 && j < 14 && k == 14 * i + j
  {
    i, j := k / 14, k % 14;
  }

  /** String round trip: a full encoding decodes to a board, and encoding that board
      gives the string back. */
  lemma StringRoundTrip(s: string)
    requires IsEncoding(s)
    ensures Decode(s).Some? && IsBoard(Decode(s).value)
    ensures Encode(Decode(s).value) == Some(s)
  {
    var d := Decode(s).value;
    assert IsBoard(d);
    EncodeIndex(d);
    var e := Encode(d).value;
    forall k | 0 <= k < 196
      ensures e[k] == s[k]
    {
      var i, j := RowAndColumn(k);
      assert e[k] == SymbolOf(d[i][j]);
      assert d[i][j] == CellOf(s[k]);
      SymbolOfCellOf(s[k]);
    }
    assert e == s;
  }

  /** Characters after the 196th play no part in decoding. */
  lemma DecodeIgnoresTail(s: string, t: string)
    requires |s| >= 196
    ensures Decode(s + t) == Decode(s)
  {
    var u := s + t;
    assert forall k :: 0 <= k < 196 ==> u[k] == s[k];
    if Decode(s).Some? {
      var a, b := Decode(u).value, Decode(s).value;
      forall i | 0 <= i < 14
        ensures a[i] == b[i]
      {
        assert |a[i]| == |b[i]|;
        forall j | 0 <= j < |a[i]|
          ensures a[i][j] == b[i][j]
        {
          assert u[14 * i + j] == s[14 * i + j];
        }
      }
      assert a == b;
    }
  }

  /** Distinct boards have distinct encodings. */
  lemma {:induction false} EncodeInjective(g: Grid, h: Grid)
    requires IsBoard(g) && IsBoard(h)
    ensures Encode(g) == Encode(h) <==> g == h
  {
    GridRoundTrip(g);
    GridRoundTrip(h);
  }
}
