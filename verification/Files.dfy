/**
 Batching files into partitions: greedy filling by size and number of files, where files that do not
 fit may be split just after a separator.
 */
module Files {
  import opened Sequences

  type Content = seq<int>

  /** A range of a file. */
  datatype Piece = Piece(file: nat, offset: nat, length: nat)

  datatype Limits = Limits(bytes: nat, files: nat)

  // ---- searching -----------------------------------------------------------------------------

  predicate MatchAt(content: Content, sep: Content, i: int) {
    0 <= i && i + |sep| <= |content| && forall k :: 0 <= k < |sep| ==> content[i + k] == sep[k]
  }

  /** The last occurrence that starts from lo and ends up to hi, or -1. */
  function RFind(content: Content, sep: Content, lo: nat, hi: nat): (r: int)
    requires sep != []
    ensures r == -1 || (lo <= r && r + |sep| <= hi && r + |sep| <= |content|)
    decreases hi
  {
    if lo + |sep| > hi then -1
    else if MatchAt(content, sep, hi - |sep|) then hi - |sep|
    else RFind(content, sep, lo, hi - 1)
  }

  lemma {:induction false} RFindIsLast(content: Content, sep: Content, lo: nat, hi: nat)
    requires sep != []
    ensures var r := RFind(content, sep, lo, hi);
      && (r >= 0 ==> MatchAt(content, sep, r))
      && forall i :: i > r && lo <= i && i + |sep| <= hi ==> !MatchAt(content, sep, i)
    decreases hi
  {
    if lo + |sep| <= hi && !MatchAt(content, sep, hi - |sep|) {
      RFindIsLast(content, sep, lo, hi - 1);
    }
  }

  /** The first occurrence from lo, or -1. */
  function Find(content: Content, sep: Content, lo: nat): (r: int)
    requires sep != []
    ensures r == -1 || (lo <= r && r + |sep| <= |content|)
    decreases |content| - lo
  {
    if lo + |sep| > |content| then -1
    else if MatchAt(content, sep, lo) then lo
    else Find(content, sep, lo + 1)
  }

  lemma {:induction false} FindIsFirst(content: Content, sep: Content, lo: nat)
    requires sep != []
    ensures var r := Find(content, sep, lo);
      && (r >= 0 ==> MatchAt(content, sep, r))
      && forall i :: lo <= i && (r < 0 || i < r) ==> !MatchAt(content, sep, i)
    decreases |content| - lo
  {
    if lo + |sep| <= |content| && !MatchAt(content, sep, lo) {
      FindIsFirst(content, sep, lo + 1);
    }
  }

  // ---- what is promised ----------------------------------------------------------------------

  function Bytes(batch: seq<Piece>): nat {
    if batch == [] then 0 else Bytes(batch[..|batch| - 1]) + batch[|batch| - 1].length
  }

  /** Within the limits, unless it is a single piece; at most one piece of each file. */
  ghost predicate Fits(batch: seq<Piece>, limits: Limits) {
    && (Bytes(batch) <= limits.bytes || |batch| == 1)
    && (limits.files > 0 ==> |batch| <= limits.files)
    && forall i, j :: 0 <= i < j < |batch| ==> batch[i].file < batch[j].file
  }

  /** The pieces follow one another from the start of the file up to an end; each cut is just after a separator. */
  ghost predicate Tiles(pieces: seq<Piece>, file: nat, content: Content, sep: Content, end: nat)
    decreases |pieces|
  {
    if pieces == [] then end == 0
    else
      var last := pieces[|pieces| - 1];
      && last.file == file && last.offset + last.length == end <= |content|
      && (end == |content| || (sep != [] && last.length > 0 && MatchAt(content, sep, end - |sep|)))
      && Tiles(pieces[..|pieces| - 1], file, content, sep, last.offset)
  }

  /** All pieces of all files, in order. */
  ghost predicate Covers(pieces: seq<Piece>, files: seq<Content>, sep: Content) {
    exists tilings: seq<seq<Piece>> :: CoversAs(pieces, files, sep, tilings)
  }

  ghost predicate CoversAs(pieces: seq<Piece>, files: seq<Content>, sep: Content, tilings: seq<seq<Piece>>) {
    && |tilings| == |files| && pieces == Flatten(tilings)
    && forall f :: 0 <= f < |files| ==> tilings[f] != [] && Tiles(tilings[f], f, files[f], sep, |files[f]|)
  }

  // ---- filling batches -----------------------------------------------------------------------

  /** The batches so far, of which the last one is open, and the space left in it. */
  datatype Filling = Filling(closed: seq<seq<Piece>>, batch: seq<Piece>, space: int)

  function NewBatch(s: Filling, limits: Limits): Filling {
    Filling(s.closed + [s.batch], [], limits.bytes)
  }

  function Put(s: Filling, p: Piece): Filling {
    Filling(s.closed, s.batch + [p], s.space - p.length)
  }

  ghost function Pieces(s: Filling): seq<Piece> { Flatten(s.closed) + s.batch }

  /** All batches fit, and hold pieces of the files before next. */
  ghost predicate Good(s: Filling, limits: Limits, next: nat) {
    && s.space == limits.bytes - Bytes(s.batch)
    && Fits(s.batch, limits) && (forall i :: 0 <= i < |s.closed| ==> Fits(s.closed[i], limits))
    && forall i :: 0 <= i < |s.batch| ==> s.batch[i].file < next
  }

  lemma NewBatchGood(s: Filling, limits: Limits, next: nat)
    requires Good(s, limits, next)
    ensures Good(NewBatch(s, limits), limits, next) && Pieces(NewBatch(s, limits)) == Pieces(s)
  {
    FlattenAppend(s.closed, s.batch);
  }

  /** A piece of a new file that fits, or that has the batch for itself. */
  lemma PutGood(s: Filling, limits: Limits, p: Piece)
    requires Good(s, limits, p.file) && (limits.files > 0 ==> |s.batch| < limits.files)
    requires p.length <= s.space || s.batch == []
    ensures Good(Put(s, p), limits, p.file + 1) && Pieces(Put(s, p)) == Pieces(s) + [p]
  {
    BytesNext(s.batch, p);
    FitsNext(s, limits, p);
    PutPieces(s, p);
  }

  lemma BytesNext(batch: seq<Piece>, p: Piece)
    ensures Bytes(batch + [p]) == Bytes(batch) + p.length
  {
    assert (batch + [p])[..|batch|] == batch;
  }

  lemma PutPieces(s: Filling, p: Piece)
    ensures Pieces(Put(s, p)) == Pieces(s) + [p]
  {
  }

  lemma FitsNext(s: Filling, limits: Limits, p: Piece)
    requires Good(s, limits, p.file) && (limits.files > 0 ==> |s.batch| < limits.files)
    requires p.length <= s.space || s.batch == []
    ensures Fits(s.batch + [p], limits)
  {
    BytesNext(s.batch, p);
  }

  lemma TilesNext(pieces: seq<Piece>, file: nat, content: Content, sep: Content, p: Piece)
    requires Tiles(pieces, file, content, sep, p.offset) && p.file == file && p.offset + p.length <= |content|
    requires p.offset + p.length == |content|
      || (sep != [] && p.length > 0 && MatchAt(content, sep, p.offset + p.length - |sep|))
    ensures Tiles(pieces + [p], file, content, sep, p.offset + p.length)
  {
    assert (pieces + [p])[..|pieces|] == pieces;
  }

  /** The open batch has no piece of this file yet, and room for one more. */
  ghost predicate Room(s: Filling, limits: Limits, file: nat) {
    Good(s, limits, file) && s.space >= 0 && (limits.files > 0 ==> |s.batch| < limits.files)
  }

  /** The open batch has a piece of this file: then it has no room for another one. */
  ghost predicate Spent(s: Filling, limits: Limits, file: nat, content: Content, sep: Content, offset: nat)
    requires sep != []
  {
    && Good(s, limits, file + 1) && s.space >= 0 && s.batch != []
    && RFind(content, sep, offset, offset + s.space) < 0
  }

  /**
   Where the next piece ends: after the last separator within the space, or after the next one at all,
   or at the end.
   */
  function Cut(content: Content, sep: Content, offset: nat, space: nat): (end: nat)
    requires sep != [] && offset < |content|
    ensures offset < end <= |content|
  {
    var r := RFind(content, sep, offset, offset + space);
    if r >= 0 then r + |sep|
    else
      var f := Find(content, sep, offset);
      if f >= 0 then f + |sep| else |content|
  }

  /** A cut is the end or after a separator; within the space, what remains of it has no separator. */
  lemma AfterCut(content: Content, sep: Content, offset: nat, space: nat)
    requires sep != [] && offset < |content|
    ensures var end := Cut(content, sep, offset, space);
      && (end == |content| || MatchAt(content, sep, end - |sep|))
      && (RFind(content, sep, offset, offset + space) >= 0 ==> end - offset <= space)
      && (end - offset <= space ==> RFind(content, sep, end, offset + space) < 0)
  {
    var end := Cut(content, sep, offset, space);
    RFindIsLast(content, sep, offset, offset + space);
    FindIsFirst(content, sep, offset);
    RFindIsLast(content, sep, end, offset + space);
  }

  /** The state after a piece has been put in a batch with room for it. */
  function Extended(s: Filling, limits: Limits, piece: Piece, sep: Content): Filling {
    var t := Put(s, piece);
    if t.space < |sep| then NewBatch(t, limits) else t
  }

  lemma ExtendedGood(s: Filling, limits: Limits, p: Piece, content: Content, sep: Content)
    requires sep != [] && Room(s, limits, p.file) && (p.length <= s.space || s.batch == [])
    requires p.length <= s.space ==> RFind(content, sep, p.offset + p.length, p.offset + s.space) < 0
    ensures Pieces(Extended(s, limits, p, sep)) == Pieces(s) + [p]
    ensures Room(Extended(s, limits, p, sep), limits, p.file)
      || Spent(Extended(s, limits, p, sep), limits, p.file, content, sep, p.offset + p.length)
  {
    PutGood(s, limits, p);
    if Put(s, p).space < |sep| {
      NewBatchRoom(Put(s, p), limits, p.file);
    } else {
      PutSpent(s, limits, p, content, sep);
    }
  }

  lemma NewBatchRoom(s: Filling, limits: Limits, file: nat)
    requires Good(s, limits, file + 1)
    ensures Room(NewBatch(s, limits), limits, file) && Pieces(NewBatch(s, limits)) == Pieces(s)
  {
    NewBatchGood(s, limits, file + 1);
    assert NewBatch(s, limits).batch == [];
  }

  lemma PutSpent(s: Filling, limits: Limits, p: Piece, content: Content, sep: Content)
    requires sep != [] && Good(Put(s, p), limits, p.file + 1) && Put(s, p).space >= 0
    requires s.space >= 0 && RFind(content, sep, p.offset + p.length, p.offset + s.space) < 0
    ensures Spent(Put(s, p), limits, p.file, content, sep, p.offset + p.length)
  {
  }

  lemma OpenedGood(s: Filling, limits: Limits, file: nat, content: Content, sep: Content, offset: nat)
    requires sep != [] && (Room(s, limits, file) || Spent(s, limits, file, content, sep, offset))
    ensures Room(NewBatch(s, limits), limits, file) && Pieces(NewBatch(s, limits)) == Pieces(s)
  {
    if Room(s, limits, file) {
      NewBatchGood(s, limits, file);
    } else {
      NewBatchGood(s, limits, file + 1);
    }
  }

  lemma SpentHasNone(s: Filling, limits: Limits, file: nat, content: Content, sep: Content, offset: nat)
    requires sep != [] && Spent(s, limits, file, content, sep, offset)
    ensures RFind(content, sep, offset, offset + s.space) < 0 && s.batch != []
  {
  }

  /** The file has been split up to an offset. */
  ghost predicate SplitUpTo(
    start: Filling, s: Filling, pieces: seq<Piece>, limits: Limits, file: nat, content: Content, sep: Content,
    offset: nat)
    requires sep != []
  {
    && offset <= |content| && Pieces(s) == Pieces(start) + pieces && Tiles(pieces, file, content, sep, offset)
    && (offset > 0 ==> pieces != [])
    && (Room(s, limits, file) || Spent(s, limits, file, content, sep, offset))
  }

  lemma OpenStep(
    start: Filling, s: Filling, pieces: seq<Piece>, limits: Limits, file: nat, content: Content, sep: Content,
    offset: nat)
    requires sep != [] && SplitUpTo(start, s, pieces, limits, file, content, sep, offset)
    ensures SplitUpTo(start, NewBatch(s, limits), pieces, limits, file, content, sep, offset)
  {
    OpenedGood(s, limits, file, content, sep, offset);
  }

  lemma RoomToCut(
    start: Filling, s: Filling, pieces: seq<Piece>, limits: Limits, file: nat, content: Content, sep: Content,
    offset: nat)
    requires sep != [] && SplitUpTo(start, s, pieces, limits, file, content, sep, offset)
    requires RFind(content, sep, offset, offset + s.space) >= 0 || s.batch == []
    ensures Room(s, limits, file)
  {
    if !Room(s, limits, file) {
      SpentHasNone(s, limits, file, content, sep, offset);
    }
  }

  lemma CutStep(
    start: Filling, s: Filling, pieces: seq<Piece>, limits: Limits, file: nat, content: Content, sep: Content,
    offset: nat, piece: Piece, t: Filling, end: nat)
    requires sep != [] && offset < |content| && SplitUpTo(start, s, pieces, limits, file, content, sep, offset)
      && s.space >= 0
    requires RFind(content, sep, offset, offset + s.space) >= 0 || s.batch == []
    requires end == Cut(content, sep, offset, s.space) && piece == Piece(file, offset, end - offset)
    requires t == Extended(s, limits, piece, sep)
    ensures SplitUpTo(start, t, pieces + [piece], limits, file, content, sep, end)
  {
    CutProperties(s, content, sep, piece);
    assert offset + piece.length == end;
    TilesNext(pieces, file, content, sep, piece);
    RoomToCut(start, s, pieces, limits, file, content, sep, offset);
    ExtendedGood(s, limits, piece, content, sep);
    ConcatAssociative(Pieces(start), pieces, [piece]);
  }

  lemma CutProperties(s: Filling, content: Content, sep: Content, p: Piece)
    requires sep != [] && p.offset < |content| && s.space >= 0
      && p.length == Cut(content, sep, p.offset, s.space) - p.offset
    requires RFind(content, sep, p.offset, p.offset + s.space) >= 0 || s.batch == []
    ensures p.length <= s.space || s.batch == []
    ensures p.length <= s.space ==> RFind(content, sep, p.offset + p.length, p.offset + s.space) < 0
    ensures 0 < p.length && p.offset + p.length <= |content|
    ensures p.offset + p.length == |content| || MatchAt(content, sep, p.offset + p.length - |sep|)
  {
    AfterCut(content, sep, p.offset, s.space);
  }

  // ---- batches are filled --------------------------------------------------------------------

  ghost predicate NoSeparator(content: Content, sep: Content, lo: int, hi: int) {
    forall i :: lo <= i && i + |sep| <= hi ==> !MatchAt(content, sep, i)
  }

  /** Full in number, or without space for a separator. */
  ghost predicate FullAnyway(batch: seq<Piece>, limits: Limits, sep: Content) {
    (limits.files > 0 && |batch| >= limits.files) || (sep != [] && limits.bytes - Bytes(batch) < |sep|)
  }

  /** What comes next in a file has no separator within the space left, and is not a file that fits as a whole. */
  ghost predicate NoneWithin(
    batch: seq<Piece>, file: nat, offset: nat, limits: Limits, files: seq<Content>, sep: Content)
  {
    && batch != [] && file < |files| && (offset == 0 ==> Bytes(batch) + |files[file]| > limits.bytes)
    && NoSeparator(files[file], sep, offset, offset + limits.bytes - Bytes(batch))
  }

  ghost predicate FullBefore(batch: seq<Piece>, p: Piece, limits: Limits, files: seq<Content>, sep: Content) {
    if sep == [] then Bytes(batch) + p.length > limits.bytes
    else NoneWithin(batch, p.file, p.offset, limits, files, sep)
  }

  /** The first piece of the next batch had no place in this one. */
  ghost predicate Full(batch: seq<Piece>, next: seq<Piece>, limits: Limits, files: seq<Content>, sep: Content) {
    FullAnyway(batch, limits, sep) || (next != [] && FullBefore(batch, next[0], limits, files, sep))
  }

  /** Every batch but the last is full. */
  ghost predicate Dense(batches: seq<seq<Piece>>, limits: Limits, files: seq<Content>, sep: Content) {
    forall i :: 0 <= i < |batches| - 1 ==> Full(batches[i], batches[i + 1], limits, files, sep)
  }

  /** A piece beyond the limit ends at the first separator. */
  ghost predicate Tight(pieces: seq<Piece>, limits: Limits, files: seq<Content>, sep: Content) {
    forall p :: p in pieces && sep != [] && p.length > limits.bytes ==>
      p.file < |files| && NoSeparator(files[p.file], sep, p.offset, p.offset + p.length - 1)
  }

  ghost predicate Filled(s: Filling, limits: Limits, files: seq<Content>, sep: Content) {
    Dense(s.closed + [s.batch], limits, files, sep) && Tight(Pieces(s), limits, files, sep)
  }

  lemma DenseAppend(
    closed: seq<seq<Piece>>, batch: seq<Piece>, next: seq<Piece>, limits: Limits, files: seq<Content>, sep: Content)
    requires Dense(closed + [batch], limits, files, sep) && Full(batch, next, limits, files, sep)
    ensures Dense(closed + [batch] + [next], limits, files, sep)
  {
    var all := closed + [batch] + [next];
    forall i | 0 <= i < |all| - 1 ensures Full(all[i], all[i + 1], limits, files, sep) {
      assert i < |closed| ==> Full((closed + [batch])[i], (closed + [batch])[i + 1], limits, files, sep);
    }
  }

  lemma DensePut(
    closed: seq<seq<Piece>>, batch: seq<Piece>, p: Piece, limits: Limits, files: seq<Content>, sep: Content)
    requires Dense(closed + [batch], limits, files, sep)
    ensures Dense(closed + [batch + [p]], limits, files, sep)
  {
    var all := closed + [batch + [p]];
    forall i | 0 <= i < |all| - 1 ensures Full(all[i], all[i + 1], limits, files, sep) {
      assert Full((closed + [batch])[i], (closed + [batch])[i + 1], limits, files, sep);
    }
  }

  lemma PutFilled(s: Filling, p: Piece, limits: Limits, files: seq<Content>, sep: Content)
    requires Filled(s, limits, files, sep) && Tight([p], limits, files, sep)
    ensures Filled(Put(s, p), limits, files, sep)
  {
    DensePut(s.closed, s.batch, p, limits, files, sep);
    PutPieces(s, p);
    assert p in [p];
  }

  lemma NewFilled(s: Filling, limits: Limits, files: seq<Content>, sep: Content)
    requires Filled(s, limits, files, sep) && FullAnyway(s.batch, limits, sep)
    ensures Filled(NewBatch(s, limits), limits, files, sep)
  {
    DenseAppend(s.closed, s.batch, [], limits, files, sep);
    FlattenAppend(s.closed, s.batch);
  }

  lemma OpenedFilled(s: Filling, p: Piece, limits: Limits, files: seq<Content>, sep: Content)
    requires Filled(s, limits, files, sep) && FullBefore(s.batch, p, limits, files, sep)
    requires Tight([p], limits, files, sep)
    ensures Filled(Put(NewBatch(s, limits), p), limits, files, sep)
  {
    DenseAppend(s.closed, s.batch, [p], limits, files, sep);
    FlattenAppend(s.closed, s.batch);
    PutPieces(NewBatch(s, limits), p);
    assert Put(NewBatch(s, limits), p).batch == [p];
    assert p in [p];
  }

  lemma CutTight(s: Filling, limits: Limits, f: nat, files: seq<Content>, sep: Content, offset: nat)
    requires sep != [] && f < |files| && offset < |files[f]| && 0 <= s.space <= limits.bytes
    requires RFind(files[f], sep, offset, offset + s.space) >= 0 || s.space == limits.bytes
    ensures Tight([Piece(f, offset, Cut(files[f], sep, offset, s.space) - offset)], limits, files, sep)
  {
    AfterCut(files[f], sep, offset, s.space);
    FindIsFirst(files[f], sep, offset);
  }

  method NextCut(content: Content, sep: Content, offset: nat, space: nat, r: int) returns (end: nat)
    requires sep != [] && offset < |content| && r == RFind(content, sep, offset, offset + space)
    ensures end == Cut(content, sep, offset, space)
  {
    if r >= 0 {
      return r + |sep|;
    }
    var f := Find(content, sep, offset);
    if f >= 0 {
      return f + |sep|;
    }
    return |content|;
  }

  /** A new batch was started for what comes next in a file. */
  ghost predicate Started(
    before: Filling, s: Filling, file: nat, offset: nat, limits: Limits, files: seq<Content>, sep: Content)
  {
    s == NewBatch(before, limits) && Filled(before, limits, files, sep)
      && NoneWithin(before.batch, file, offset, limits, files, sep)
  }

  /** The file has been split up to an offset; isNew tells whether a batch was just started for what comes next. */
  ghost predicate Splitting(
    start: Filling, s: Filling, pieces: seq<Piece>, limits: Limits, file: nat, files: seq<Content>, sep: Content,
    offset: nat, isNew: bool, before: Filling)
    requires sep != []
  {
    && file < |files| && SplitUpTo(start, s, pieces, limits, file, files[file], sep, offset) && s.space >= 0
    && (if isNew then offset < |files[file]| && Started(before, s, file, offset, limits, files, sep)
        else Filled(s, limits, files, sep))
    && (offset == 0 && !isNew ==> s == start)
  }

  lemma OpenRound(
    start: Filling, s: Filling, pieces: seq<Piece>, limits: Limits, file: nat, files: seq<Content>, sep: Content,
    offset: nat, isNew: bool, before: Filling)
    requires sep != [] && Splitting(start, s, pieces, limits, file, files, sep, offset, isNew, before)
    requires offset < |files[file]| && RFind(files[file], sep, offset, offset + s.space) < 0 && s.batch != []
    requires start.batch == [] || start.space < |files[file]|
    ensures Splitting(start, NewBatch(s, limits), pieces, limits, file, files, sep, offset, true, s)
  {
    OpenStep(start, s, pieces, limits, file, files[file], sep, offset);
    RFindIsLast(files[file], sep, offset, offset + s.space);
    assert s.space == limits.bytes - Bytes(s.batch);
    assert NoneWithin(s.batch, file, offset, limits, files, sep);
  }

  lemma CutRound(
    start: Filling, s: Filling, pieces: seq<Piece>, limits: Limits, file: nat, files: seq<Content>, sep: Content,
    offset: nat, isNew: bool, before: Filling, t: Filling, piece: Piece, end: nat)
    requires sep != [] && Splitting(start, s, pieces, limits, file, files, sep, offset, isNew, before)
    requires offset < |files[file]| && end == Cut(files[file], sep, offset, s.space)
    requires RFind(files[file], sep, offset, offset + s.space) >= 0 || s.batch == []
    requires piece == Piece(file, offset, end - offset) && t == Extended(s, limits, piece, sep)
    ensures Splitting(start, t, pieces + [piece], limits, file, files, sep, end, false, s)
  {
    CutStep(start, s, pieces, limits, file, files[file], sep, offset, piece, t, end);
    SplitSpace(start, t, pieces + [piece], limits, file, files[file], sep, end);
    CutRoundFilled(start, s, pieces, limits, file, files, sep, offset, isNew, before, piece);
  }

  lemma CutRoundFilled(
    start: Filling, s: Filling, pieces: seq<Piece>, limits: Limits, file: nat, files: seq<Content>, sep: Content,
    offset: nat, isNew: bool, before: Filling, piece: Piece)
    requires sep != [] && Splitting(start, s, pieces, limits, file, files, sep, offset, isNew, before)
    requires offset < |files[file]|
    requires RFind(files[file], sep, offset, offset + s.space) >= 0 || s.batch == []
    requires piece == Piece(file, offset, Cut(files[file], sep, offset, s.space) - offset)
    ensures Filled(Extended(s, limits, piece, sep), limits, files, sep)
  {
    SplitSpace(start, s, pieces, limits, file, files[file], sep, offset);
    CutFilled(isNew, before, s, file, offset, limits, files, sep);
    ExtendedFilled(s, piece, limits, files, sep);
  }

  lemma ExtendedFilled(s: Filling, p: Piece, limits: Limits, files: seq<Content>, sep: Content)
    requires sep != [] && Filled(Put(s, p), limits, files, sep)
    requires s.space == limits.bytes - Bytes(s.batch)
    ensures Filled(Extended(s, limits, p, sep), limits, files, sep)
  {
    var t := Put(s, p);
    if t.space < |sep| {
      BytesNext(s.batch, p);
      NewFilled(t, limits, files, sep);
    }
  }

  lemma SplitSpace(
    start: Filling, s: Filling, pieces: seq<Piece>, limits: Limits, file: nat, content: Content, sep: Content,
    offset: nat)
    requires sep != [] && SplitUpTo(start, s, pieces, limits, file, content, sep, offset)
    ensures s.space >= 0 && s.space == limits.bytes - Bytes(s.batch)
  {
  }

  lemma StartsSplitting(start: Filling, limits: Limits, file: nat, files: seq<Content>, sep: Content)
    requires sep != [] && file < |files| && Room(start, limits, file) && Filled(start, limits, files, sep)
    ensures Splitting(start, start, [], limits, file, files, sep, 0, false, start)
  {
  }

  lemma EndsSplitting(
    start: Filling, s: Filling, pieces: seq<Piece>, limits: Limits, file: nat, files: seq<Content>, sep: Content,
    offset: nat, isNew: bool, before: Filling)
    requires sep != [] && Splitting(start, s, pieces, limits, file, files, sep, offset, isNew, before)
    requires offset >= |files[file]| > 0
    ensures Good(s, limits, file + 1) && s.space >= 0 && Filled(s, limits, files, sep) && pieces != []
    ensures Pieces(s) == Pieces(start) + pieces && Tiles(pieces, file, files[file], sep, |files[file]|)
  {
  }

  /** Puts the next piece, and starts a new batch if no separator has space behind it. */
  method PutNext(
    s: Filling, limits: Limits, file: nat, content: Content, sep: Content, offset: nat, r: int)
    returns (t: Filling, ghost piece: Piece, end: nat)
    requires sep != [] && offset < |content| && s.space >= 0
    requires r == RFind(content, sep, offset, offset + s.space)
    ensures t == Extended(s, limits, piece, sep) && end == Cut(content, sep, offset, s.space)
    ensures piece == Piece(file, offset, end - offset)
  {
    end := NextCut(content, sep, offset, s.space, r);
    piece := Piece(file, offset, end - offset);
    t := Put(s, Piece(file, offset, end - offset));
    if t.space < |sep| {
      t := NewBatch(t, limits);
    }
  }

  /** One file, split at separators.  A round that only opens a new batch is followed by one that fills it. */
  method SplitFile(
    start: Filling, limits: Limits, file: nat, content: Content, sep: Content, ghost files: seq<Content>)
    returns (s: Filling, ghost pieces: seq<Piece>)
    requires sep != [] && content != [] && Room(start, limits, file) && file < |files| && files[file] == content
    requires Filled(start, limits, files, sep) && (start.batch == [] || start.space < |content|)
    ensures Good(s, limits, file + 1) && s.space >= 0 && Filled(s, limits, files, sep)
    ensures Pieces(s) == Pieces(start) + pieces && Tiles(pieces, file, content, sep, |content|) && pieces != []
  {
    s, pieces := start, [];
    var offset: nat := 0;
    ghost var isNew, before := false, start;
    StartsSplitting(start, limits, file, files, sep);
    while offset < |content|
      invariant Splitting(start, s, pieces, limits, file, files, sep, offset, isNew, before)
      decreases |content| - offset, |s.batch|
    {
      var r := RFind(content, sep, offset, offset + s.space);
      if r < 0 && s.batch != [] {
        OpenRound(start, s, pieces, limits, file, files, sep, offset, isNew, before);
        isNew, before := true, s;
        s := NewBatch(s, limits);
      } else {
        var t, piece, end := PutNext(s, limits, file, content, sep, offset, r);
        CutRound(start, s, pieces, limits, file, files, sep, offset, isNew, before, t, piece, end);
        s, pieces, offset, isNew, before := t, pieces + [piece], end, false, s;
      }
    }
    EndsSplitting(start, s, pieces, limits, file, files, sep, offset, isNew, before);
  }

  lemma CutFilled(
    isNew: bool, before: Filling, s: Filling, file: nat, offset: nat, limits: Limits, files: seq<Content>, sep: Content)
    requires sep != [] && file < |files| && offset < |files[file]|
    requires s.space >= 0 && s.space == limits.bytes - Bytes(s.batch)
    requires RFind(files[file], sep, offset, offset + s.space) >= 0 || s.batch == []
    requires if isNew then Started(before, s, file, offset, limits, files, sep) else Filled(s, limits, files, sep)
    ensures Filled(Put(s, Piece(file, offset, Cut(files[file], sep, offset, s.space) - offset)), limits, files, sep)
  {
    var piece := Piece(file, offset, Cut(files[file], sep, offset, s.space) - offset);
    CutTight(s, limits, file, files, sep, offset);
    if isNew {
      OpenedFilled(before, piece, limits, files, sep);
    } else {
      PutFilled(s, piece, limits, files, sep);
    }
  }

  lemma CoversMore(pieces: seq<Piece>, files: seq<Content>, sep: Content, f: nat, more: seq<Piece>)
    requires f < |files| && Covers(pieces, files[..f], sep) && more != [] && Tiles(more, f, files[f], sep, |files[f]|)
    ensures Covers(pieces + more, files[..f + 1], sep)
  {
    var tilings: seq<seq<Piece>> :| CoversAs(pieces, files[..f], sep, tilings);
    var all := tilings + [more];
    FlattenAppend(tilings, more);
    assert CoversAs(pieces + more, files[..f + 1], sep, all);
  }

  lemma WholeTiles(file: nat, content: Content, sep: Content)
    ensures Tiles([Piece(file, 0, |content|)], file, content, sep, |content|)
  {
    var p := Piece(file, 0, |content|);
    assert [p][..0] == [];
  }

  /** What holds between files: without splitting, an open batch may be over its limit, and then holds a single file. */
  ghost predicate Between(s: Filling, limits: Limits, f: nat, files: seq<Content>, sep: Content) {
    f <= |files| && Good(s, limits, f) && (sep != [] ==> s.space >= 0) && Covers(Pieces(s), files[..f], sep)
  }

  lemma BetweenPut(s: Filling, limits: Limits, f: nat, files: seq<Content>, sep: Content)
    requires f < |files| && Between(s, limits, f, files, sep) && (limits.files > 0 ==> |s.batch| < limits.files)
    requires |files[f]| <= s.space || (s.batch == [] && sep == [])
    ensures Between(Put(s, Piece(f, 0, |files[f]|)), limits, f + 1, files, sep)
  {
    var p := Piece(f, 0, |files[f]|);
    PutGood(s, limits, p);
    WholeTiles(f, files[f], sep);
    CoversMore(Pieces(s), files, sep, f, [p]);
  }

  lemma BetweenNew(s: Filling, limits: Limits, f: nat, files: seq<Content>, sep: Content)
    requires Between(s, limits, f, files, sep)
    ensures Between(NewBatch(s, limits), limits, f, files, sep)
  {
    NewBatchGood(s, limits, f);
  }

  ghost predicate Held(s: Filling, limits: Limits, f: nat, files: seq<Content>, sep: Content) {
    Between(s, limits, f, files, sep) && Filled(s, limits, files, sep)
  }

  lemma HeldNew(s: Filling, limits: Limits, f: nat, files: seq<Content>, sep: Content)
    requires Held(s, limits, f, files, sep) && FullAnyway(s.batch, limits, sep)
    ensures Held(NewBatch(s, limits), limits, f, files, sep)
  {
    BetweenNew(s, limits, f, files, sep);
    NewFilled(s, limits, files, sep);
  }

  lemma HeldPut(s: Filling, limits: Limits, f: nat, files: seq<Content>, sep: Content)
    requires f < |files| && Held(s, limits, f, files, sep) && (limits.files > 0 ==> |s.batch| < limits.files)
    requires |files[f]| <= s.space || (s.batch == [] && sep == [])
    ensures Held(Put(s, Piece(f, 0, |files[f]|)), limits, f + 1, files, sep)
  {
    BetweenPut(s, limits, f, files, sep);
    PutFilled(s, Piece(f, 0, |files[f]|), limits, files, sep);
  }

  /** A file that does not fit opens a batch. */
  lemma HeldOpened(s: Filling, limits: Limits, f: nat, files: seq<Content>, sep: Content)
    requires f < |files| && Held(s, limits, f, files, sep) && sep == [] && s.space < |files[f]|
    ensures Held(Put(NewBatch(s, limits), Piece(f, 0, |files[f]|)), limits, f + 1, files, sep)
  {
    BetweenNew(s, limits, f, files, sep);
    BetweenPut(NewBatch(s, limits), limits, f, files, sep);
    OpenedFilled(s, Piece(f, 0, |files[f]|), limits, files, sep);
  }

  /** One file: put in the open batch, in a new one, or split. */
  method AddFile(start: Filling, limits: Limits, f: nat, files: seq<Content>, sep: Content) returns (s: Filling)
    requires f < |files| && Held(start, limits, f, files, sep)
    ensures Held(s, limits, f + 1, files, sep)
  {
    s := start;
    if limits.files > 0 && |s.batch| >= limits.files {
      HeldNew(s, limits, f, files, sep);
      s := NewBatch(s, limits);
    }
    if s.space < |files[f]| {
      if sep != [] {
        if s.space == 0 {
          HeldNew(s, limits, f, files, sep);
          s := NewBatch(s, limits);
        }
        s := AddSplit(s, limits, f, files, sep);
        return;
      } else if s.batch != [] {
        HeldOpened(s, limits, f, files, sep);
        s := NewBatch(s, limits);
        s := Put(s, Piece(f, 0, |files[f]|));
        return;
      }
    }
    HeldPut(s, limits, f, files, sep);
    s := Put(s, Piece(f, 0, |files[f]|));
  }

  method AddSplit(start: Filling, limits: Limits, f: nat, files: seq<Content>, sep: Content) returns (s: Filling)
    requires f < |files| && Held(start, limits, f, files, sep) && sep != [] && files[f] != []
    requires limits.files > 0 ==> |start.batch| < limits.files
    requires start.batch == [] || start.space < |files[f]|
    ensures Held(s, limits, f + 1, files, sep)
  {
    ghost var pieces;
    s, pieces := SplitFile(start, limits, f, files[f], sep, files);
    CoversMore(Pieces(start), files, sep, f, pieces);
  }

  /**
   The pieces of each file tile it, cut after separators only; each batch is within the limits or a
   single piece, has at most one piece of each file, and is as full as can be.  An empty separator
   stands for no splitting.
   */
  method BatchFiles(files: seq<Content>, limits: Limits, sep: Content) returns (batches: seq<seq<Piece>>)
    ensures Covers(Flatten(batches), files, sep)
    ensures forall i :: 0 <= i < |batches| ==> Fits(batches[i], limits)
    ensures Dense(batches, limits, files, sep) && Tight(Flatten(batches), limits, files, sep)
  {
    var s := Filling([], [], limits.bytes);
    StartBetween(limits, files, sep);
    var f := 0;
    while f < |files|
      invariant f <= |files| && Held(s, limits, f, files, sep)
    {
      s := AddFile(s, limits, f, files, sep);
      f := f + 1;
    }
    assert files[..f] == files;
    NewBatchGood(s, limits, f);
    batches := s.closed + [s.batch];
    assert Pieces(NewBatch(s, limits)) == Flatten(batches) + [];
    assert Flatten(batches) == Pieces(s);
  }

  lemma StartBetween(limits: Limits, files: seq<Content>, sep: Content)
    ensures Between(Filling([], [], limits.bytes), limits, 0, files, sep)
  {
    var none: seq<seq<Piece>> := [];
    assert CoversAs([], files[..0], sep, none);
    assert Pieces(Filling([], [], limits.bytes)) == [];
  }

  // ---- reading the pieces back ---------------------------------------------------------------

  /** The bytes of the pieces of a file, one after the other. */
  function Read(pieces: seq<Piece>, content: Content): Content
    requires forall i :: 0 <= i < |pieces| ==> pieces[i].offset + pieces[i].length <= |content|
  {
    if pieces == [] then []
    else
      var last := pieces[|pieces| - 1];
      Read(pieces[..|pieces| - 1], content) + content[last.offset..last.offset + last.length]
  }

  /** Pieces that tile a file read back as the file. */
  lemma {:induction false} TilesReadBack(pieces: seq<Piece>, file: nat, content: Content, sep: Content, end: nat)
    requires Tiles(pieces, file, content, sep, end)
    ensures end <= |content| && forall i :: 0 <= i < |pieces| ==>
      pieces[i].file == file && pieces[i].offset + pieces[i].length <= |content|
    ensures Read(pieces, content) == content[..end]
  {
    if pieces != [] {
      var front, last := pieces[..|pieces| - 1], pieces[|pieces| - 1];
      TilesReadBack(front, file, content, sep, last.offset);
      assert forall i :: 0 <= i < |pieces| ==> pieces[i] == if i < |front| then front[i] else last;
      assert content[..end] == content[..last.offset] + content[last.offset..end];
    }
  }

  // ---- a minimum number of batches -----------------------------------------------------------

  /** No batch can be divided. */
  ghost predicate Indivisible<T>(batches: seq<seq<T>>) {
    forall i :: 0 <= i < |batches| ==> |batches[i]| <= 1
  }

  lemma Halved<T>(batches: seq<seq<T>>, i: nat, idx: nat)
    requires i < |batches| && idx <= |batches[i]|
    ensures multiset(Flatten(batches[i := batches[i][..idx]] + [batches[i][idx..]])) == multiset(Flatten(batches))
  {
    var head, tail := batches[i][..idx], batches[i][idx..];
    var shrunk := batches[i := head];
    FlattenAppend(shrunk, tail);
    FlattenSplit(batches, i);
    FlattenSplit(shrunk, i);
    assert shrunk[..i] == batches[..i] && shrunk[i + 1..] == batches[i + 1..];
    assert batches[i] == head + tail;
  }

  /** Less than one away from an equal share of n for p. */
  ghost predicate Share(m: nat, n: nat, p: nat) { (m - 1) * p < n < (m + 1) * p }

  /** The batch is as large as halving one of the batches at the start can make it, p being a power of two. */
  ghost predicate PartOf<T>(batch: seq<T>, start: seq<seq<T>>, p: nat) {
    exists s :: s in start && Share(|batch|, |s|, p)
  }

  ghost predicate AllPartsOf<T>(batches: seq<seq<T>>, start: seq<seq<T>>, p: nat) {
    forall b :: b in batches ==> PartOf(b, start, p)
  }

  lemma ShareHalved(m: nat, n: nat, p: nat)
    requires Share(m, n, p)
    ensures Share(m / 2, n, 2 * p) && Share(m - m / 2, n, 2 * p) && (m <= 1 ==> Share(m, n, 2 * p))
  {
    HalfShare(m, m / 2, n, p);
    HalfShare(m, m - m / 2, n, p);
    if m <= 1 {
      assert p > 0;
    }
  }

  lemma HalfShare(m: nat, h: nat, n: nat, p: nat)
    requires Share(m, n, p) && m - 1 <= 2 * h <= m + 1
    ensures Share(h, n, 2 * p)
  {
    assert (h - 1) * (2 * p) == (2 * h - 2) * p;
    assert (h + 1) * (2 * p) == (2 * h + 2) * p;
    Scaled(2 * h - 2, m - 1, p);
    Scaled(m + 1, 2 * h + 2, p);
  }

  lemma Scaled(a: int, b: int, p: nat)
    requires a <= b
    ensures a * p <= b * p
  {
  }

  lemma PartHalved<T>(batch: seq<T>, start: seq<seq<T>>, p: nat)
    requires PartOf(batch, start, p)
    ensures var idx := |batch| / 2;
      PartOf(batch[..idx], start, 2 * p) && PartOf(batch[idx..], start, 2 * p)
    ensures |batch| <= 1 ==> PartOf(batch, start, 2 * p)
  {
    var s :| s in start && Share(|batch|, |s|, p);
    ShareHalved(|batch|, |s|, p);
  }

  function PowerOfTwo(k: nat): nat { if k == 0 then 1 else 2 * PowerOfTwo(k - 1) }

  /** Every batch comes from k or from k + 1 halvings of one of the batches at the start. */
  ghost predicate HalvedEvenly<T>(batches: seq<seq<T>>, start: seq<seq<T>>, k: nat) {
    forall b :: b in batches ==> PartOf(b, start, PowerOfTwo(k)) || PartOf(b, start, PowerOfTwo(k + 1))
  }

  /** One pass over the batches there were, halving those that can be divided until there are enough. */
  method HalveOnce<T>(given: seq<seq<T>>, min: nat, ghost start: seq<seq<T>>, ghost k: nat)
    returns (batches: seq<seq<T>>, splits: nat)
    requires |given| < min && AllPartsOf(given, start, PowerOfTwo(k))
    ensures multiset(Flatten(batches)) == multiset(Flatten(given)) && |given| + splits == |batches| <= min
    ensures splits == 0 ==> batches == given && Indivisible(given)
    ensures HalvedEvenly(batches, start, k)
    ensures |batches| < min ==> AllPartsOf(batches, start, PowerOfTwo(k + 1))
  {
    batches, splits := given, 0;
    ghost var p, q := PowerOfTwo(k), PowerOfTwo(k + 1);
    var i := 0;
    while i < |given| && |batches| < min
      invariant 0 <= i <= |given| && |given| + splits == |batches| <= min
      invariant multiset(Flatten(batches)) == multiset(Flatten(given))
      invariant forall j :: i <= j < |given| ==> batches[j] == given[j]
      invariant splits == 0 ==> batches == given && forall j :: 0 <= j < i ==> |given[j]| <= 1
      invariant PassedTo(batches, |given|, i, start, q)
    {
      PassNext(batches, |given|, i, start, p);
      if |batches[i]| > 1 {
        var idx := |batches[i]| / 2;
        Halved(batches, i, idx);
        batches := batches[i := batches[i][..idx]] + [batches[i][idx..]];
        splits := splits + 1;
      }
      i := i + 1;
    }
    PassEvenly(given, batches, i, start, k);
  }

  /** The first i batches, and those appended to the first n, were halved or could not be divided. */
  ghost predicate PassedTo<T>(batches: seq<seq<T>>, n: nat, i: nat, start: seq<seq<T>>, q: nat) {
    forall j :: 0 <= j < |batches| && (j < i || n <= j) ==> PartOf(batches[j], start, q)
  }

  lemma PassNext<T>(batches: seq<seq<T>>, n: nat, i: nat, start: seq<seq<T>>, p: nat)
    requires i < n <= |batches| && PassedTo(batches, n, i, start, 2 * p) && PartOf(batches[i], start, p)
    ensures var idx := |batches[i]| / 2;
      PassedTo(batches[i := batches[i][..idx]] + [batches[i][idx..]], n, i + 1, start, 2 * p)
    ensures |batches[i]| <= 1 ==> PassedTo(batches, n, i + 1, start, 2 * p)
  {
    PartHalved(batches[i], start, p);
  }

  lemma PassEvenly<T>(given: seq<seq<T>>, batches: seq<seq<T>>, i: nat, start: seq<seq<T>>, k: nat)
    requires i <= |given| <= |batches| && AllPartsOf(given, start, PowerOfTwo(k))
    requires PassedTo(batches, |given|, i, start, PowerOfTwo(k + 1))
    requires forall j :: i <= j < |given| ==> batches[j] == given[j]
    ensures HalvedEvenly(batches, start, k)
    ensures i == |given| ==> AllPartsOf(batches, start, PowerOfTwo(k + 1))
  {
    forall b | b in batches ensures PartOf(b, start, PowerOfTwo(k)) || PartOf(b, start, PowerOfTwo(k + 1)) {
      var j :| 0 <= j < |batches| && batches[j] == b;
      assert i <= j < |given| ==> given[j] in given;
    }
  }

  /**
   Batches are divided until there are enough of them or none can be divided.  The pieces stay the
   same, and the batches come from equally many halvings, give or take one.
   */
  method EnsureMinimum<T>(start: seq<seq<T>>, min: nat) returns (batches: seq<seq<T>>)
    ensures multiset(Flatten(batches)) == multiset(Flatten(start))
    ensures |batches| >= min || Indivisible(batches)
    ensures |start| >= min ==> batches == start
    ensures |start| < min ==> |start| <= |batches| <= min
    ensures exists k: nat :: HalvedEvenly(batches, start, k)
  {
    batches := start;
    ghost var k := 0;
    assert forall s: seq<T> :: Share(|s|, |s|, PowerOfTwo(0));
    assert HalvedEvenly(batches, start, 0);
    while |batches| < min
      invariant multiset(Flatten(batches)) == multiset(Flatten(start))
      invariant |start| >= min ==> batches == start
      invariant |start| < min ==> |start| <= |batches| <= min
      invariant HalvedEvenly(batches, start, k)
      invariant |batches| < min ==> AllPartsOf(batches, start, PowerOfTwo(k))
      decreases min - |batches|
    {
      var splits;
      batches, splits := HalveOnce(batches, min, start, k);
      if splits == 0 {
        return;
      }
      if |batches| < min {
        k := k + 1;
      }
    }
  }
}
