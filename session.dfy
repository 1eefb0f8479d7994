/**
 The page's mutable state and the handlers that change it: the accumulated
 image list, the last merged result (the data URL, abstracted here to what it
 encodes) and whether the download button is enabled.
 */
module App {
  import opened Layout
  import Planner

  datatype Option<T> = None | Some(value: T)

  /**
   What `lastMergedDataUrl` holds after a merge. It stands for the PNG of the
   canvas: the layout choice, the clamped gap, the background colour (passed
   through uninterpreted) and the plan that was drawn. The images' pixels are
   abstracted away.
   */
  datatype Composite = Composite(mode: Mode, gap: nat, background: string, plan: Plan)

  /** What the merge button does: a merge, or the "at least 2 images" alert. */
  datatype MergeOutcome = Merged(composite: Composite) | TooFewImages

  /** The merge button refuses to run with fewer images than this. */
  const MinImages: nat := 2

  /**
   `Promise.all` over one upload batch: every decoded size, in submission
   order, or nothing at all when one file fails to decode.
   */
  function AllLoaded(batch: seq<Option<Size>>): (r: Option<seq<Size>>)
    ensures r.Some? <==> forall i :: 0 <= i < |batch| ==> batch[i].Some?
    ensures r.Some? ==> |r.value| == |batch| && forall i :: 0 <= i < |batch| ==> r.value[i] == batch[i].value
  {
    if batch == [] then Some([])
    else
      match AllLoaded(batch[..|batch| - 1])
      case None => None
      case Some(front) =>
        match batch[|batch| - 1]
        case None => None
        case Some(last) => Some(front + [last])
  }

  class Session {
    /** `images`: the sizes of every image uploaded since the last clear, in upload order. */
    var images: seq<Size>
    /** `lastMergedDataUrl`, None for null. */
    var lastMerged: Option<Composite>
    /** `!downloadBtn.disabled`. */
    var downloadEnabled: bool

    /**
     Download is enabled exactly when a merged result is held, and a held result
     is the merge of the current image list.
     */
    ghost predicate Valid()
      reads this
    {
      && (downloadEnabled <==> lastMerged.Some?)
      && (lastMerged.Some? ==>
            && |images| >= MinImages
            && lastMerged.value.gap <= MaxGap
            && lastMerged.value.plan == PlanOf(images, lastMerged.value.mode, lastMerged.value.gap))
    }

    /** The page as loaded: no images, no result, download disabled. */
    constructor ()
      ensures Valid()
      ensures images == [] && lastMerged == None && !downloadEnabled
    {
      images := [];
      lastMerged := None;
      downloadEnabled := false;
    }

    /**
     The file input's change handler. An empty selection returns at once; a
     batch in which one file fails to decode rejects before anything is
     assigned; otherwise the batch is appended after the images already held,
     in order, and the previous result is dropped.
     */
    method Upload(batch: seq<Option<Size>>)
      requires Valid()
      modifies this
      ensures Valid()
      ensures batch == [] || AllLoaded(batch).None? ==> unchanged(this)
      ensures batch != [] && AllLoaded(batch).Some? ==>
        && images == old(images) + AllLoaded(batch).value
        && lastMerged == None
        && !downloadEnabled
    {
      if batch == [] {
        return;
      }
      var loaded := AllLoaded(batch);
      if loaded.None? {
        return;
      }
      images := images + loaded.value;
      downloadEnabled := false;
      lastMerged := None;
    }

    /**
     The merge button's click handler: with fewer than two images nothing
     changes; otherwise `mergeImages` runs on the current list and its result
     becomes the held result, with download enabled.
     */
    method Merge(mode: Mode, gapInput: int, background: string) returns (outcome: MergeOutcome)
      requires Valid()
      modifies this
      ensures Valid()
      ensures |old(images)| < MinImages ==> outcome == TooFewImages && unchanged(this)
      ensures |old(images)| >= MinImages ==>
        var gap := Clamp(gapInput, MinGap, MaxGap);
        && images == old(images)
        && outcome == Merged(Composite(mode, gap, background, PlanOf(images, mode, gap)))
        && lastMerged == Some(outcome.composite)
        && downloadEnabled
    {
      if |images| < MinImages {
        return TooFewImages;
      }
      var plan := Planner.MergeImages(images, mode, gapInput);
      var composite := Composite(mode, Clamp(gapInput, MinGap, MaxGap), background, plan);
      lastMerged := Some(composite);
      downloadEnabled := true;
      outcome := Merged(composite);
    }

    /** The clear button's handler: no images, no result, download disabled. */
    method Clear()
      requires Valid()
      modifies this
      ensures Valid()
      ensures images == [] && lastMerged == None && !downloadEnabled
    {
      images := [];
      downloadEnabled := false;
      lastMerged := None;
    }
  }

  /**
   Two images merge; after a clear, the same merge button is refused, and a
   single uploaded image is refused too.
   */
  method ClearThenMerge(a: Size, b: Size, mode: Mode, gapInput: int)
    returns (first: MergeOutcome, afterClear: MergeOutcome, single: MergeOutcome)
    ensures first.Merged? && first.composite.plan == PlanOf([a, b], mode, Clamp(gapInput, MinGap, MaxGap))
    ensures afterClear == TooFewImages && single == TooFewImages
  {
    var session := new Session();
    session.Upload([Some(a), Some(b)]);
    assert session.images == [a, b];
    first := session.Merge(mode, gapInput, "#ffffff");
    session.Clear();
    afterClear := session.Merge(mode, gapInput, "#ffffff");
    session.Upload([Some(a)]);
    single := session.Merge(mode, gapInput, "#ffffff");
  }
}
