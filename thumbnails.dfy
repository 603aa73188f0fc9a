/**
 * The thumbnail gallery (`initGallery`): one image for each of the first six
 * entities, a placeholder where an entity has no usable first image, a
 * screen-reader announcement on Enter or Space, and the image counters.
 */
module Thumbnails {
  import opened Wrappers
  import opened Dataset
  import opened Dom

  /** How many entities the gallery previews: `povos.slice(0, 6)`. */
  const Limit: nat := 6

  function Min(a: nat, b: nat): nat {
    if a < b then a else b
  }

  /** A thumbnail's source: the entity's first image when it is truthy, else the placeholder; never empty. */
  function ThumbSource(p: Povo): (src: string)
    ensures src != ""
    ensures FirstImage(p).Some? ==> src == Urls(p)[0]
    ensures FirstImage(p).None? ==> src == Placeholder
  {
    match FirstImage(p)
    case Some(u) => u
    case None => Placeholder
  }

  /** The thumbnails `initGallery` appends: the first `min(6, |povos|)` entities in dataset order. */
  function Preview(povos: seq<Povo>): (r: seq<Picture>)
    ensures |r| == Min(Limit, |povos|)
    ensures forall i :: 0 <= i < |r| ==> r[i].owner == povos[i] && r[i].src == ThumbSource(povos[i])
  {
    PicturesOf(povos[..Min(Limit, |povos|)], ThumbSource)
  }

  /** What the live region says when a thumbnail is activated: `${p.nome}: ${p.resumo}`. */
  function Announcement(p: Povo): (r: string)
    ensures |r| == |p.nome| + 2 + |p.resumo|
    ensures r[..|p.nome|] == p.nome && r[|p.nome|..|p.nome| + 2] == ": " && r[|p.nome| + 2..] == p.resumo
  {
    p.nome + ": " + p.resumo
  }

  /** The `#gallery` element, the live region it writes to and the shared counters. */
  class Gallery {
    var thumbs: seq<Picture>
    const live: LiveRegion?
    const stats: Stats?

    constructor (live: LiveRegion?, stats: Stats?)
      ensures thumbs == [] && this.live == live && this.stats == stats
    {
      thumbs := [];
      this.live := live;
      this.stats := stats;
    }

    /** `initGallery(povos)`: appends the preview thumbnails; nothing already there is removed. */
    method Init(povos: seq<Povo>)
      modifies this
      ensures thumbs == old(thumbs) + Preview(povos)
    {
      var shown := povos[..Min(Limit, |povos|)];
      for i := 0 to |shown|
        invariant thumbs == old(thumbs) + Preview(povos)[..i]
      {
        var p := shown[i];
        thumbs := thumbs + [Picture(ThumbSource(p), p)];
      }
    }

    /** The `error` handler of thumbnail `k`: fall back to the placeholder and count a failure. */
    method OnError(k: nat)
      requires k < |thumbs|
      modifies this, stats
      ensures thumbs == WithPlaceholder(old(thumbs), k)
      ensures stats != null ==> stats.imagesFailed == old(stats.imagesFailed) + 1
      ensures stats != null ==> stats.imagesLoaded == old(stats.imagesLoaded)
    {
      thumbs := WithPlaceholder(thumbs, k);
      if stats != null {
        stats.ImageFailed();
      }
    }

    /** The `load` handler of a thumbnail: count a loaded image. */
    method OnLoad()
      modifies stats
      ensures stats != null ==> stats.imagesLoaded == old(stats.imagesLoaded) + 1
      ensures stats != null ==> stats.imagesFailed == old(stats.imagesFailed)
    {
      if stats != null {
        stats.ImageLoaded();
      }
    }

    /** The `keydown` handler of thumbnail `k`: Enter or Space announces the entity's name and summary. */
    method OnKeyDown(k: nat, key: string)
      requires k < |thumbs|
      modifies live
      ensures live != null && IsActivationKey(key) ==> live.text == Announcement(thumbs[k].owner)
      ensures live != null && !IsActivationKey(key) ==> live.text == old(live.text)
    {
      if IsActivationKey(key) && live != null {
        live.text := Announcement(thumbs[k].owner);
      }
    }
  }
}
