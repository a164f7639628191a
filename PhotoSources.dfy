// The small pure rules applied to the outputs of the photo data streams:
// which bytes a photo is decoded from, which stream values are dropped as
// duplicates or as empty, and how a fitted size snaps to its bounding size.

module PhotoSources {
  import opened Common

  type Bytes = seq<bv8>

  // ---------------------------------------------------------------------
  // Source selection
  // ---------------------------------------------------------------------

  /** One value of the photo data stream: thumbnail bytes, full-size bytes
    * and whether the full-size resource is complete. */
  datatype PhotoDatas = PhotoDatas(thumbnail: Option<Bytes>, fullSize: Option<Bytes>, fullSizeComplete: bool)

  /** Whether a stream value says the full-size image is ready. */
  predicate FullSizeReady(d: PhotoDatas)
  {
    d.fullSize.Some? && d.fullSizeComplete
  }

  /** The bytes a raw message photo is decoded from: the full-size bytes once
    * they are complete, the thumbnail bytes before that. */
  function RawPhotoSource(d: PhotoDatas): Option<Bytes> {
    if FullSizeReady(d) then d.fullSize else d.thumbnail
  }

  /** `rawMessagePhoto`: decodes the complete full-size bytes if there are
    * any, otherwise the thumbnail; `decode` stands for image decoding and
    * pre-composition. */
  function RawMessagePhoto<Image>(d: PhotoDatas, decode: Bytes -> Option<Image>): Option<Image>
  {
    if FullSizeReady(d) then decode(d.fullSize.value)
    else if d.thumbnail.Some? then decode(d.thumbnail.value)
    else None
  }

  /** The album-art source: the first of the complete full-size bytes and the
    * thumbnail bytes that decodes. */
  function AlbumArtImage<Image>(d: PhotoDatas, decode: Bytes -> Option<Image>): Option<Image>
  {
    if FullSizeReady(d) && decode(d.fullSize.value).Some? then decode(d.fullSize.value)
    else if d.thumbnail.Some? && decode(d.thumbnail.value).Some? then decode(d.thumbnail.value)
    else None
  }

  /** A raw message photo is exactly the decoding of the selected source,
    * and nothing when there is no source. */
  lemma RawMessagePhotoDecodesSource<Image>(d: PhotoDatas, decode: Bytes -> Option<Image>)
    ensures RawPhotoSource(d).None? ==> RawMessagePhoto(d, decode).None?
    ensures RawPhotoSource(d).Some? ==> RawMessagePhoto(d, decode) == decode(RawPhotoSource(d).value)
  {
  }

  /** Once the full size is complete, a raw message photo never falls back to
    * the thumbnail, even when the full-size bytes do not decode. */
  lemma RawMessagePhotoNoFallback<Image>(d: PhotoDatas, decode: Bytes -> Option<Image>)
    requires FullSizeReady(d) && decode(d.fullSize.value).None?
    ensures RawMessagePhoto(d, decode).None?
  {
  }

  /** The two selectors differ exactly when the full size is complete but
    * does not decode while the thumbnail does: album art then shows the
    * thumbnail and the raw photo shows nothing. */
  lemma RawAndAlbumArtDiffer<Image>(d: PhotoDatas, decode: Bytes -> Option<Image>)
    ensures RawMessagePhoto(d, decode) != AlbumArtImage(d, decode)
        <==> (&& FullSizeReady(d) && decode(d.fullSize.value).None?
              && d.thumbnail.Some? && decode(d.thumbnail.value).Some?)
    ensures RawMessagePhoto(d, decode) != AlbumArtImage(d, decode)
        ==> RawMessagePhoto(d, decode).None? && AlbumArtImage(d, decode) == decode(d.thumbnail.value)
  {
  }

  // ---------------------------------------------------------------------
  // Stream predicates
  // ---------------------------------------------------------------------

  /** A stream value that carries neither thumbnail nor full-size bytes. */
  predicate NoData(d: PhotoDatas)
  {
    d.thumbnail.None? && d.fullSize.None?
  }

  /** The `isEqual` given to `distinctUntilChanged` on the photo stream:
    * two values count as the same only when both carry no bytes at all. */
  predicate SameForDistinct(lhs: PhotoDatas, rhs: PhotoDatas)
  {
    NoData(lhs) && NoData(rhs)
  }

  /** `distinctUntilChanged`: a value is passed on unless it counts as the
    * same as the last value passed on. */
  function DistinctUntilChanged(xs: seq<PhotoDatas>, last: Option<PhotoDatas>): seq<PhotoDatas>
  {
    if xs == [] then []
    else if last.Some? && SameForDistinct(last.value, xs[0]) then DistinctUntilChanged(xs[1..], last)
    else [xs[0]] + DistinctUntilChanged(xs[1..], Some(xs[0]))
  }

  /** The values that carry some bytes, in order. */
  function WithData(xs: seq<PhotoDatas>): seq<PhotoDatas>
  {
    if xs == [] then []
    else (if NoData(xs[0]) then [] else [xs[0]]) + WithData(xs[1..])
  }

  lemma {:induction false} WithDataAppend(a: seq<PhotoDatas>, b: seq<PhotoDatas>)
    ensures WithData(a + b) == WithData(a) + WithData(b)
    decreases |a|
  {
    if a == [] {
      assert a + b == b;
    } else {
      assert (a + b)[1..] == a[1..] + b;
      WithDataAppend(a[1..], b);
    }
  }

  /** Every value carrying bytes gets through, in order: only empty values
    * are ever dropped. */
  lemma {:induction false} DistinctKeepsData(xs: seq<PhotoDatas>, last: Option<PhotoDatas>)
    ensures WithData(DistinctUntilChanged(xs, last)) == WithData(xs)
    decreases |xs|
  {
    if xs != [] {
      if last.Some? && SameForDistinct(last.value, xs[0]) {
        DistinctKeepsData(xs[1..], last);
      } else {
        DistinctKeepsData(xs[1..], Some(xs[0]));
        WithDataAppend([xs[0]], DistinctUntilChanged(xs[1..], Some(xs[0])));
        assert [xs[0]][1..] == [];
      }
    }
  }

  /** What is passed on never holds two empty values in a row, nor an empty
    * value right after an empty `last`. */
  lemma {:induction false} DistinctNoRepeatedEmpty(xs: seq<PhotoDatas>, last: Option<PhotoDatas>)
    ensures var out := DistinctUntilChanged(xs, last);
      && (forall i :: 0 <= i < |out| - 1 ==> !(NoData(out[i]) && NoData(out[i + 1])))
      && (last.Some? && NoData(last.value) && |out| > 0 ==> !NoData(out[0]))
    decreases |xs|
  {
    if xs != [] {
      if last.Some? && SameForDistinct(last.value, xs[0]) {
        DistinctNoRepeatedEmpty(xs[1..], last);
      } else {
        DistinctNoRepeatedEmpty(xs[1..], Some(xs[0]));
      }
    }
  }

  /** A value passed on is always one of the inputs. */
  lemma {:induction false} DistinctFromInput(xs: seq<PhotoDatas>, last: Option<PhotoDatas>)
    ensures forall y :: y in DistinctUntilChanged(xs, last) ==> y in xs
    decreases |xs|
  {
    if xs != [] {
      if last.Some? && SameForDistinct(last.value, xs[0]) {
        DistinctFromInput(xs[1..], last);
      } else {
        DistinctFromInput(xs[1..], Some(xs[0]));
      }
    }
  }

  /** One value of the file data stream: thumbnail bytes, the path of the
    * full-size file and whether it is complete. */
  datatype FileDatas = FileDatas(thumbnail: Option<Bytes>, fullSizePath: Option<string>, complete: bool)

  /** The `filter` on the file stream: values with neither thumbnail nor
    * path are dropped, every other value passes, in order. */
  function DropEmptyFileDatas(xs: seq<FileDatas>): (out: seq<FileDatas>)
    ensures |out| <= |xs|
    ensures forall y :: y in out ==> y in xs && (y.thumbnail.Some? || y.fullSizePath.Some?)
    ensures forall y :: y in xs && (y.thumbnail.Some? || y.fullSizePath.Some?) ==> y in out
  {
    if xs == [] then []
    else
      var rest := DropEmptyFileDatas(xs[1..]);
      assert forall y :: y in xs[1..] ==> y in xs;
      assert forall y :: y in xs ==> y == xs[0] || y in xs[1..];
      if xs[0].thumbnail != None || xs[0].fullSizePath != None then [xs[0]] + rest else rest
  }

  /** The filter works value by value and keeps the order of what passes:
    * filtering a concatenation concatenates the filtered parts, and a single
    * value passes exactly when it has a thumbnail or a path. */
  lemma {:induction false} DropEmptyFileDatasAppend(xs: seq<FileDatas>, ys: seq<FileDatas>)
    ensures DropEmptyFileDatas(xs + ys) == DropEmptyFileDatas(xs) + DropEmptyFileDatas(ys)
    decreases |xs|
  {
    if xs == [] {
      assert xs + ys == ys;
    } else {
      var x := xs[0];
      var kept := if x.thumbnail != None || x.fullSizePath != None then [x] else [];
      assert DropEmptyFileDatas(xs + ys) == kept + DropEmptyFileDatas(xs[1..] + ys) by {
        assert (xs + ys)[0] == x;
        assert (xs + ys)[1..] == xs[1..] + ys;
      }
      DropEmptyFileDatasAppend(xs[1..], ys);
      SeqAssoc(kept, DropEmptyFileDatas(xs[1..]), DropEmptyFileDatas(ys));
    }
  }

  lemma DropEmptyFileDatasOne(x: FileDatas)
    ensures DropEmptyFileDatas([x]) == (if x.thumbnail.Some? || x.fullSizePath.Some? then [x] else [])
  {
    assert [x][1..] == [];
  }

  /** Filtering a filtered stream changes nothing. */
  lemma {:induction false} DropEmptyFileDatasIdempotent(xs: seq<FileDatas>)
    ensures DropEmptyFileDatas(DropEmptyFileDatas(xs)) == DropEmptyFileDatas(xs)
    decreases |xs|
  {
    if xs != [] {
      DropEmptyFileDatasIdempotent(xs[1..]);
      var rest := DropEmptyFileDatas(xs[1..]);
      if xs[0].thumbnail != None || xs[0].fullSizePath != None {
        assert ([xs[0]] + rest)[1..] == rest;
      }
    }
  }

  // ---------------------------------------------------------------------
  // Fit snapping
  // ---------------------------------------------------------------------

  datatype Size = Size(width: real, height: real)

  function Abs(x: real): real
  {
    if x < 0.0 then -x else x
  }

  /** A fitted dimension within one point of the bounding dimension takes the
    * bounding dimension. */
  function SnapDimension(fitted: real, bounding: real): real
  {
    if Abs(fitted - bounding) <= 1.0 then bounding else fitted
  }

  function SnapFittedSize(fitted: Size, bounding: Size): Size
  {
    Size(SnapDimension(fitted.width, bounding.width), SnapDimension(fitted.height, bounding.height))
  }

  /** After snapping, each dimension equals the bounding dimension or is more
    * than a point away from it; it moves by at most a point, and only when
    * it was within a point; snapping again changes nothing. */
  lemma SnapFittedSizeFacts(fitted: Size, bounding: Size)
    ensures var s := SnapFittedSize(fitted, bounding);
      && (s.width == bounding.width || Abs(s.width - bounding.width) > 1.0)
      && (s.height == bounding.height || Abs(s.height - bounding.height) > 1.0)
      && Abs(s.width - fitted.width) <= 1.0
      && Abs(s.height - fitted.height) <= 1.0
      && (s.width != fitted.width ==> Abs(fitted.width - bounding.width) <= 1.0)
      && (s.height != fitted.height ==> Abs(fitted.height - bounding.height) <= 1.0)
      && SnapFittedSize(s, bounding) == s
  {
  }
}
