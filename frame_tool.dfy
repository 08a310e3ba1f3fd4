/**
 * ui/edit/tools/FrameToolManager.kt: the frame list, the decoded-frame cache, routing
 * a chosen frame to the image layer, preloading, and the power-of-two sample size
 * used when a frame resource is decoded.
 */
module FrameTools {
  import opened Wrappers
  import opened Graphics
  import opened EditScreen

  /** The drawable resources the frame list refers to. */
  datatype Drawable = TextPlaceholder | Frame1 | Frame2 | Frame3 | Frame4 | Frame5

  datatype FrameItem = FrameItem(frameResourceId: Drawable, name: string)

  const NONE_FRAME: string := "None"

  /** loadFrames(): the placeholder "None" entry, then the five frames. */
  function LoadFrames(): (frames: seq<FrameItem>)
    ensures |frames| == 6 && frames[0].name == NONE_FRAME
    ensures forall i :: 1 <= i < |frames| ==> frames[i].name != NONE_FRAME
    ensures forall i, j :: 0 <= i < j < |frames| ==> frames[i].frameResourceId != frames[j].frameResourceId
  {
    [FrameItem(TextPlaceholder, "None"), FrameItem(Frame1, "Frame 1"), FrameItem(Frame2, "Frame 2"),
     FrameItem(Frame3, "Frame 3"), FrameItem(Frame4, "Frame 4"), FrameItem(Frame5, "Frame 5")]
  }

  // ---------------------------------------------------------------------------
  // calculateInSampleSize
  // ---------------------------------------------------------------------------

  predicate IsPowerOfTwo(n: int)
    decreases if n > 0 then n else 0
  {
    n == 1 || (n > 1 && n % 2 == 0 && IsPowerOfTwo(n / 2))
  }

  /** Both halved sides, divided by `s` as Kotlin's Int division does, still reach the request. */
  predicate StillLarge(halfHeight: int, halfWidth: int, s: int, reqWidth: int, reqHeight: int)
    requires s > 0
  {
    KDiv(halfHeight, s) >= reqHeight && KDiv(halfWidth, s) >= reqWidth
  }

  lemma DivAtLeastOne(a: int, s: int, r: int)
    requires s > 0 && r >= 1 && KDiv(a, s) >= r
    ensures a >= s
  {
    if a >= 0 {
      assert a / s >= 1;
    }
  }

  /**
   * calculateInSampleSize(options, reqWidth, reqHeight) for a resource of the given
   * raw size: the largest power of two that keeps both halved sides at or above
   * the request, or 1 when the resource already fits.
   */
  method CalculateInSampleSize(height: int, width: int, reqWidth: int, reqHeight: int) returns (s: int)
    requires reqWidth > 0 && reqHeight > 0
    ensures s >= 1 && IsPowerOfTwo(s)
    ensures height <= reqHeight && width <= reqWidth ==> s == 1
    ensures (height > reqHeight || width > reqWidth) ==> !StillLarge(KDiv(height, 2), KDiv(width, 2), s, reqWidth, reqHeight)
    ensures s > 1 ==> StillLarge(KDiv(height, 2), KDiv(width, 2), s / 2, reqWidth, reqHeight)
  {
    s := 1;
    if height > reqHeight || width > reqWidth {
      var halfHeight := KDiv(height, 2);
      var halfWidth := KDiv(width, 2);
      while KDiv(halfHeight, s) >= reqHeight && KDiv(halfWidth, s) >= reqWidth
        invariant s >= 1 && IsPowerOfTwo(s)
        invariant s > 1 ==> StillLarge(halfHeight, halfWidth, s / 2, reqWidth, reqHeight)
        decreases halfHeight - s
      {
        DivAtLeastOne(halfHeight, s, reqHeight);
        assert (2 * s) / 2 == s;
        s := s * 2;
      }
    }
  }

  /** The size a frame is scaled to: the image rectangle's sides, truncated. */
  function TargetSize(imageRect: Rect): (int, int)
  {
    (Trunc(imageRect.right - imageRect.left), Trunc(imageRect.bottom - imageRect.top))
  }

  /** One decode of a frame resource: which one, and at which sample size. */
  datatype Decode = Decode(resource: Drawable, inSampleSize: int)

  /** Preloading decodes a frame only when it is not "None" and not cached yet. */
  predicate NeedsDecode(cache: map<Drawable, Bitmap>, f: FrameItem)
  {
    f.name != NONE_FRAME && f.frameResourceId !in cache
  }

  /** The cache after preloading one frame. */
  function CacheAfter(cache: map<Drawable, Bitmap>, f: FrameItem, target: Bitmap): (c: map<Drawable, Bitmap>)
    ensures NeedsDecode(cache, f) ==> c == cache[f.frameResourceId := target]
    ensures !NeedsDecode(cache, f) ==> c == cache
  {
    if NeedsDecode(cache, f) then cache[f.frameResourceId := target] else cache
  }

  /** The cache after preloading `frames` at the given target size. */
  function Preloaded(cache: map<Drawable, Bitmap>, frames: seq<FrameItem>, target: Bitmap): map<Drawable, Bitmap>
    decreases |frames|
  {
    if |frames| == 0 then cache
    else Preloaded(CacheAfter(cache, frames[0], target), frames[1..], target)
  }

  /** The resources preloading `frames` decodes, in order. */
  function PreloadDecodes(cache: map<Drawable, Bitmap>, frames: seq<FrameItem>, target: Bitmap): seq<Drawable>
    decreases |frames|
  {
    if |frames| == 0 then []
    else
      (if NeedsDecode(cache, frames[0]) then [frames[0].frameResourceId] else [])
      + PreloadDecodes(CacheAfter(cache, frames[0], target), frames[1..], target)
  }

  /**
   * After preloading, every frame other than "None" is cached; an entry that was
   * cached before is kept as it was; and a new entry holds the target-size bitmap.
   */
  lemma {:induction false} PreloadCovers(cache: map<Drawable, Bitmap>, frames: seq<FrameItem>, target: Bitmap)
    ensures var c := Preloaded(cache, frames, target);
      && (forall i :: 0 <= i < |frames| && frames[i].name != NONE_FRAME ==> frames[i].frameResourceId in c)
      && (forall d :: d in cache ==> d in c && c[d] == cache[d])
      && (forall d :: d in c && d !in cache ==> c[d] == target)
    decreases |frames|
  {
    if |frames| > 0 {
      var cache1 := CacheAfter(cache, frames[0], target);
      PreloadCovers(cache1, frames[1..], target);
      var c := Preloaded(cache, frames, target);
      assert c == Preloaded(cache1, frames[1..], target);
      forall i | 0 <= i < |frames| && frames[i].name != NONE_FRAME
        ensures frames[i].frameResourceId in c
      {
        if i > 0 {
          assert frames[i] == frames[1..][i - 1];
        } else {
          assert frames[0].frameResourceId in cache1;
        }
      }
    }
  }

  /** No resource of `ds` is in `cache`. */
  predicate Uncached(ds: seq<Drawable>, cache: map<Drawable, Bitmap>)
  {
    forall k :: 0 <= k < |ds| ==> ds[k] !in cache
  }

  /** Every resource of `ds` belongs to a frame of `frames` other than "None". */
  predicate FromFrames(ds: seq<Drawable>, frames: seq<FrameItem>)
  {
    forall k :: 0 <= k < |ds| ==> InFrames(ds[k], frames)
  }

  /** `d` is the resource of a frame of `frames` other than "None". */
  predicate InFrames(d: Drawable, frames: seq<FrameItem>)
  {
    exists i :: 0 <= i < |frames| && frames[i].frameResourceId == d && frames[i].name != NONE_FRAME
  }

  predicate Distinct(ds: seq<Drawable>)
  {
    forall k, l :: 0 <= k < l < |ds| ==> ds[k] != ds[l]
  }

  /** Preloading never decodes a frame that was already cached. */
  lemma {:induction false} PreloadUncached(cache: map<Drawable, Bitmap>, frames: seq<FrameItem>, target: Bitmap)
    ensures Uncached(PreloadDecodes(cache, frames, target), cache)
    decreases |frames|
  {
    if |frames| > 0 {
      var cache1 := CacheAfter(cache, frames[0], target);
      PreloadUncached(cache1, frames[1..], target);
      var tail := PreloadDecodes(cache1, frames[1..], target);
      var head := if NeedsDecode(cache, frames[0]) then [frames[0].frameResourceId] else [];
      var ds := PreloadDecodes(cache, frames, target);
      assert ds == head + tail;
      forall k | 0 <= k < |ds| ensures ds[k] !in cache {
        if k >= |head| {
          assert ds[k] == tail[k - |head|];
        }
      }
    }
  }

  /** Preloading decodes only frames of the list, and never "None". */
  lemma {:induction false} PreloadFromFrames(cache: map<Drawable, Bitmap>, frames: seq<FrameItem>, target: Bitmap)
    ensures FromFrames(PreloadDecodes(cache, frames, target), frames)
    decreases |frames|
  {
    if |frames| > 0 {
      var rest := frames[1..];
      var cache1 := CacheAfter(cache, frames[0], target);
      PreloadFromFrames(cache1, rest, target);
      var tail := PreloadDecodes(cache1, rest, target);
      var head := if NeedsDecode(cache, frames[0]) then [frames[0].frameResourceId] else [];
      var ds := PreloadDecodes(cache, frames, target);
      assert ds == head + tail;
      forall k | 0 <= k < |ds| ensures InFrames(ds[k], frames) {
        if k < |head| {
          assert frames[0].frameResourceId == ds[k] && frames[0].name != NONE_FRAME;
        } else {
          assert ds[k] == tail[k - |head|];
          assert InFrames(tail[k - |head|], rest);
          var i :| 0 <= i < |rest| && rest[i].frameResourceId == tail[k - |head|] && rest[i].name != NONE_FRAME;
          assert frames[i + 1] == rest[i];
        }
      }
    }
  }

  /** Preloading decodes each resource at most once. */
  lemma {:induction false} PreloadDistinct(cache: map<Drawable, Bitmap>, frames: seq<FrameItem>, target: Bitmap)
    ensures Distinct(PreloadDecodes(cache, frames, target))
    decreases |frames|
  {
    if |frames| > 0 {
      var cache1 := CacheAfter(cache, frames[0], target);
      PreloadDistinct(cache1, frames[1..], target);
      PreloadUncached(cache1, frames[1..], target);
      var tail := PreloadDecodes(cache1, frames[1..], target);
      var head := if NeedsDecode(cache, frames[0]) then [frames[0].frameResourceId] else [];
      var ds := PreloadDecodes(cache, frames, target);
      assert ds == head + tail;
      forall k, l | 0 <= k < l < |ds| ensures ds[k] != ds[l] {
        if k < |head| {
          assert ds[l] == tail[l - 1] && tail[l - 1] !in cache1;
        } else {
          assert ds[k] == tail[k - |head|] && ds[l] == tail[l - |head|];
        }
      }
    }
  }

  /**
   * The frame tool: the frame list's visibility, the cache keyed by resource, the
   * frame the image layer currently shows, and the decodes made so far. `rawSize`
   * gives the pixel size BitmapFactory reports for each resource.
   */
  class FrameToolManager {
    const rawSize: Drawable -> Bitmap
    /** The list the frame adapter shows, built once by loadFrames(). */
    const frameItems: seq<FrameItem>
    /** The screen whose frame list this tool shows and hides. */
    const screen: Screen
    var frameCache: map<Drawable, Bitmap>
    var frameLayer: Option<Bitmap>
    var decodes: seq<Decode>

    constructor (screen: Screen, rawSize: Drawable -> Bitmap)
      ensures this.screen == screen && this.rawSize == rawSize && frameItems == LoadFrames()
      ensures frameCache == map[] && frameLayer == None && decodes == []
    {
      this.screen := screen;
      this.rawSize := rawSize;
      frameItems := LoadFrames();
      frameCache := map[];
      frameLayer := None;
      decodes := [];
    }

    method Activate()
      modifies screen
      ensures screen.vis == old(screen.vis).(frameList := true)
    {
      screen.vis := screen.vis.(frameList := true);
    }

    method Deactivate()
      modifies screen
      ensures screen.vis == old(screen.vis).(frameList := false)
    {
      screen.vis := screen.vis.(frameList := false);
    }

    method IsToolActive() returns (active: bool)
      ensures active == screen.vis.frameList
    {
      return screen.vis.frameList;
    }

    /** decodeSampledBitmapFromResource(resId, reqWidth, reqHeight), scaled to the target size. */
    method DecodeScaled(res: Drawable, targetWidth: int, targetHeight: int) returns (b: Bitmap)
      requires targetWidth > 0 && targetHeight > 0
      modifies this
      ensures b == Bitmap(targetWidth, targetHeight)
      ensures |decodes| == |old(decodes)| + 1 && decodes[..|old(decodes)|] == old(decodes)
      ensures decodes[|old(decodes)|].resource == res && IsPowerOfTwo(decodes[|old(decodes)|].inSampleSize)
      ensures frameCache == old(frameCache) && frameLayer == old(frameLayer)
    {
      var raw := rawSize(res);
      var inSampleSize := CalculateInSampleSize(raw.height, raw.width, targetWidth, targetHeight);
      decodes := decodes + [Decode(res, inSampleSize)];
      b := Bitmap(targetWidth, targetHeight);
    }

    /** onFrameSelected(frame), with the decoding job run to completion. */
    method OnFrameSelected(frame: FrameItem, imageRect: Rect)
      requires imageRect.Width() >= 0.0 && imageRect.Height() >= 0.0
      modifies this
      ensures frame.name == NONE_FRAME ==>
        frameLayer == None && frameCache == old(frameCache) && decodes == old(decodes)
      ensures frame.name != NONE_FRAME && frame.frameResourceId in old(frameCache) ==>
        frameLayer == Some(old(frameCache)[frame.frameResourceId]) && frameCache == old(frameCache) && decodes == old(decodes)
      ensures var (w, h) := TargetSize(imageRect);
        frame.name != NONE_FRAME && frame.frameResourceId !in old(frameCache) ==>
          if w == 0 || h == 0 then
            frameLayer == old(frameLayer) && frameCache == old(frameCache) && decodes == old(decodes)
          else
            && frameLayer == Some(Bitmap(w, h))
            && frameCache == old(frameCache)[frame.frameResourceId := Bitmap(w, h)]
            && |decodes| == |old(decodes)| + 1 && decodes[|old(decodes)|].resource == frame.frameResourceId
    {
      if frame.name == NONE_FRAME {
        frameLayer := None;
        return;
      }
      if frame.frameResourceId in frameCache {
        frameLayer := Some(frameCache[frame.frameResourceId]);
        return;
      }
      var targetWidth := Trunc(imageRect.right - imageRect.left);
      var targetHeight := Trunc(imageRect.bottom - imageRect.top);
      if targetWidth == 0 || targetHeight == 0 {
        return;
      }
      var scaled := DecodeScaled(frame.frameResourceId, targetWidth, targetHeight);
      frameCache := frameCache[frame.frameResourceId := scaled];
      frameLayer := Some(scaled);
    }

    /** preloadFrames(), with every decoding job run to completion, in list order. */
    method PreloadFrames(imageRect: Rect)
      requires imageRect.Width() >= 0.0 && imageRect.Height() >= 0.0
      modifies this
      ensures frameLayer == old(frameLayer)
      ensures var (w, h) := TargetSize(imageRect);
        if w == 0 || h == 0 then frameCache == old(frameCache) && decodes == old(decodes)
        else
          && frameCache == Preloaded(old(frameCache), frameItems, Bitmap(w, h))
          && |decodes| >= |old(decodes)|
          && Resources(decodes[|old(decodes)|..]) == PreloadDecodes(old(frameCache), frameItems, Bitmap(w, h))
      ensures forall i :: 0 <= i < |frameItems| && frameItems[i].name != NONE_FRAME && TargetSize(imageRect).0 > 0 && TargetSize(imageRect).1 > 0
                ==> frameItems[i].frameResourceId in frameCache
      ensures forall d :: d in old(frameCache) ==> d in frameCache && frameCache[d] == old(frameCache)[d]
    {
      var targetWidth := Trunc(imageRect.right - imageRect.left);
      var targetHeight := Trunc(imageRect.bottom - imageRect.top);
      if targetWidth == 0 || targetHeight == 0 {
        return;
      }
      PreloadList(frameItems, targetWidth, targetHeight);
      PreloadCovers(old(frameCache), frameItems, Bitmap(targetWidth, targetHeight));
    }

    /** The preloading jobs for `frames`, run one after another in list order. */
    method PreloadList(frames: seq<FrameItem>, targetWidth: int, targetHeight: int)
      requires targetWidth > 0 && targetHeight > 0
      modifies this
      ensures frameLayer == old(frameLayer)
      ensures frameCache == Preloaded(old(frameCache), frames, Bitmap(targetWidth, targetHeight))
      ensures |decodes| >= |old(decodes)|
      ensures Resources(decodes[|old(decodes)|..]) == PreloadDecodes(old(frameCache), frames, Bitmap(targetWidth, targetHeight))
    {
      var target := Bitmap(targetWidth, targetHeight);
      var i := 0;
      while i < |frames|
        invariant 0 <= i <= |frames|
        invariant |decodes| >= |old(decodes)|
        invariant Preloaded(frameCache, frames[i..], target) == Preloaded(old(frameCache), frames, target)
        invariant Resources(decodes[|old(decodes)|..]) + PreloadDecodes(frameCache, frames[i..], target) ==
                  PreloadDecodes(old(frameCache), frames, target)
        invariant frameLayer == old(frameLayer)
      {
        ghost var before, cache := decodes, frameCache;
        PreloadFrame(frames[i], targetWidth, targetHeight);
        PreloadStep(old(frameCache), cache, frameCache, frames, i, target, before, decodes, |old(decodes)|);
        i := i + 1;
      }
    }

    /** One job of preloadFrames(): decode and cache the frame unless it is "None" or cached already. */
    method PreloadFrame(frame: FrameItem, targetWidth: int, targetHeight: int)
      requires targetWidth > 0 && targetHeight > 0
      modifies this
      ensures frameCache == CacheAfter(old(frameCache), frame, Bitmap(targetWidth, targetHeight))
      ensures |decodes| >= |old(decodes)| && decodes[..|old(decodes)|] == old(decodes)
      ensures Resources(decodes[|old(decodes)|..]) ==
              if NeedsDecode(old(frameCache), frame) then [frame.frameResourceId] else []
      ensures frameLayer == old(frameLayer)
    {
      if frame.name != NONE_FRAME && frame.frameResourceId !in frameCache {
        var scaled := DecodeScaled(frame.frameResourceId, targetWidth, targetHeight);
        frameCache := frameCache[frame.frameResourceId := scaled];
      }
    }
  }

  /** Preloading from position `i` is preloading frame `i`, then the frames after it. */
  lemma PreloadUnfold(cache: map<Drawable, Bitmap>, frames: seq<FrameItem>, i: nat, target: Bitmap)
    requires i < |frames|
    ensures Preloaded(cache, frames[i..], target) == Preloaded(CacheAfter(cache, frames[i], target), frames[i + 1..], target)
    ensures PreloadDecodes(cache, frames[i..], target) ==
            (if NeedsDecode(cache, frames[i]) then [frames[i].frameResourceId] else [])
            + PreloadDecodes(CacheAfter(cache, frames[i], target), frames[i + 1..], target)
  {
    assert frames[i..][0] == frames[i] && frames[i..][1..] == frames[i + 1..];
  }

  /** The resources of a run of decodes. */
  function Resources(ds: seq<Decode>): (rs: seq<Drawable>)
    ensures |rs| == |ds| && forall k :: 0 <= k < |ds| ==> rs[k] == ds[k].resource
  {
    if |ds| == 0 then [] else [ds[0].resource] + Resources(ds[1..])
  }

  /** One job of the preloading loop keeps both of its invariants. */
  lemma PreloadStep(cache0: map<Drawable, Bitmap>, cache: map<Drawable, Bitmap>, next: map<Drawable, Bitmap>,
                    frames: seq<FrameItem>, i: nat, target: Bitmap, before: seq<Decode>, after: seq<Decode>, from: nat)
    requires i < |frames| && from <= |before| <= |after| && after[..|before|] == before
    requires Preloaded(cache, frames[i..], target) == Preloaded(cache0, frames, target)
    requires Resources(before[from..]) + PreloadDecodes(cache, frames[i..], target) == PreloadDecodes(cache0, frames, target)
    requires next == CacheAfter(cache, frames[i], target)
    requires Resources(after[|before|..]) == if NeedsDecode(cache, frames[i]) then [frames[i].frameResourceId] else []
    ensures Preloaded(next, frames[i + 1..], target) == Preloaded(cache0, frames, target)
    ensures Resources(after[from..]) + PreloadDecodes(next, frames[i + 1..], target) == PreloadDecodes(cache0, frames, target)
  {
    PreloadUnfold(cache, frames, i, target);
    DecodesStep(before, after, from);
    var done, added, rest := Resources(before[from..]), Resources(after[|before|..]), PreloadDecodes(next, frames[i + 1..], target);
    assert done + (added + rest) == (done + added) + rest;
  }

  /** Decodes appended after `before` extend the resources decoded since position `from`. */
  lemma DecodesStep(before: seq<Decode>, after: seq<Decode>, from: nat)
    requires from <= |before| <= |after| && after[..|before|] == before
    ensures Resources(after[from..]) == Resources(before[from..]) + Resources(after[|before|..])
  {
    ResourcesSplit(after, from, |before|);
    assert after[from..|before|] == before[from..];
  }

  lemma ResourcesSplit(ds: seq<Decode>, from: nat, mid: nat)
    requires from <= mid <= |ds|
    ensures Resources(ds[from..]) == Resources(ds[from..mid]) + Resources(ds[mid..])
  {
    assert ds[from..] == ds[from..mid] + ds[mid..];
    var a, b := ds[from..mid], ds[mid..];
    assert Resources(a + b) == Resources(a) + Resources(b);
  }
}
