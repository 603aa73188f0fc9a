/**
 * The dataset the page is driven by (`loadData`): the entities read from
 * `data.json`, and the image counters (`window._vt_stats`) that the image
 * load and error handlers of the gallery and the sidebar increment.
 */
module Dataset {
  import opened Wrappers

  /** A coordinate as read from the JSON file; the page only ever compares coordinates with `===`. */
  type Coord(==)

  /** One people ("povo"); fields that the JSON may omit are optional. */
  datatype Povo = Povo(
    nome: string,
    lat: Coord,
    lon: Coord,
    regiao: string,
    lingua: string,
    resumo: string,
    imagens: Option<seq<string>>,
    caption: Option<string>,
    credit: Option<string>)

  /** The parsed `data.json`: a top-level object whose `povos` key may be missing. */
  datatype Document = Document(povos: Option<seq<Povo>>)

  /** The entities of a document: `data.povos || []`. */
  function Povos(d: Document): (r: seq<Povo>)
    ensures d.povos.None? ==> r == []
    ensures d.povos.Some? ==> r == d.povos.value
  {
    d.povos.GetOr([])
  }

  /** The image URLs of an entity, none when `imagens` is absent: `p.imagens || []`. */
  function Urls(p: Povo): seq<string> {
    p.imagens.GetOr([])
  }

  /** One entity's share of the expected total: `(p.imagens && p.imagens.length) || 0`. */
  function ImageCount(p: Povo): nat {
    |Urls(p)|
  }

  /** The `reduce` of `loadData`: folds the entities from the left into the accumulator. */
  function CountFrom(acc: nat, ps: seq<Povo>): (r: nat)
    ensures r >= acc
    ensures ps == [] ==> r == acc
    decreases |ps|
  {
    if ps == [] then acc else CountFrom(acc + ImageCount(ps[0]), ps[1..])
  }

  /** `povos.reduce((acc, p) => acc + …, 0)`: the number of images the page expects. */
  function TotalImages(ps: seq<Povo>): (r: nat)
    ensures ps == [] ==> r == 0
    ensures |ps| == 1 ==> r == ImageCount(ps[0])
  {
    CountFrom(0, ps)
  }

  /** Reference definition: the sum of the image counts, entity by entity. */
  function SumImages(ps: seq<Povo>): nat
  {
    if ps == [] then 0 else SumImages(ps[..|ps| - 1]) + ImageCount(ps[|ps| - 1])
  }

  lemma {:induction false} SumImagesAppend(a: seq<Povo>, b: seq<Povo>)
    ensures SumImages(a + b) == SumImages(a) + SumImages(b)
    decreases |b|
  {
    if b == [] {
      assert a + b == a;
    } else {
      var b' := b[..|b| - 1];
      assert (a + b)[..|a + b| - 1] == a + b';
      SumImagesAppend(a, b');
    }
  }

  /** The left fold adds the sum of the entities' image counts to its accumulator. */
  lemma {:induction false} CountFromIsSum(acc: nat, ps: seq<Povo>)
    ensures CountFrom(acc, ps) == acc + SumImages(ps)
    decreases |ps|
  {
    if ps != [] {
      CountFromIsSum(acc + ImageCount(ps[0]), ps[1..]);
      assert ps == [ps[0]] + ps[1..];
      SumImagesAppend([ps[0]], ps[1..]);
      assert [ps[0]][..0] == [];
    }
  }

  /** The expected total is the sum of `|imagens|` over the entities, an absent `imagens` counting 0. */
  lemma TotalImagesIsSum(ps: seq<Povo>)
    ensures TotalImages(ps) == SumImages(ps)
  {
    CountFromIsSum(0, ps);
  }

  /** The expected total of two parts of a dataset is the sum of their totals. */
  lemma TotalImagesAppend(a: seq<Povo>, b: seq<Povo>)
    ensures TotalImages(a + b) == TotalImages(a) + TotalImages(b)
  {
    TotalImagesIsSum(a + b);
    TotalImagesIsSum(a);
    TotalImagesIsSum(b);
    SumImagesAppend(a, b);
  }

  /** No image is expected exactly when no entity lists one. */
  lemma {:induction false} TotalImagesZeroIff(ps: seq<Povo>)
    ensures TotalImages(ps) == 0 <==> forall i :: 0 <= i < |ps| ==> Urls(ps[i]) == []
    decreases |ps|
  {
    TotalImagesIsSum(ps);
    if ps != [] {
      var front := ps[..|ps| - 1];
      TotalImagesZeroIff(front);
      TotalImagesIsSum(front);
      assert forall i :: 0 <= i < |front| ==> front[i] == ps[i];
    }
  }

  /**
   * The first image of an entity when JavaScript finds it truthy
   * (`p.imagens && p.imagens[0]`): present, and not the empty string.
   */
  function FirstImage(p: Povo): (r: Option<string>)
    ensures r.Some? <==> Urls(p) != [] && Urls(p)[0] != ""
    ensures r.Some? ==> r.value == Urls(p)[0]
  {
    if Urls(p) != [] && Urls(p)[0] != "" then Some(Urls(p)[0]) else None
  }

  /** `window._vt_stats`: the dataset's size, the images it expects, and the load and failure counters. */
  class Stats {
    const totalPovos: nat
    const totalImages: nat
    var imagesLoaded: nat
    var imagesFailed: nat

    /** `{ totalPovos: povos.length, totalImages, imagesLoaded: 0, imagesFailed: 0 }` */
    constructor (povos: seq<Povo>)
      ensures totalPovos == |povos| && totalImages == TotalImages(povos)
      ensures imagesLoaded == 0 && imagesFailed == 0
    {
      totalPovos := |povos|;
      totalImages := TotalImages(povos);
      imagesLoaded, imagesFailed := 0, 0;
    }

    /** `imagesLoaded++`, run by an image's load handler. */
    method ImageLoaded()
      modifies this
      ensures imagesLoaded == old(imagesLoaded) + 1 && imagesFailed == old(imagesFailed)
    {
      imagesLoaded := imagesLoaded + 1;
    }

    /** `imagesFailed++`, run by an image's error handler. */
    method ImageFailed()
      modifies this
      ensures imagesFailed == old(imagesFailed) + 1 && imagesLoaded == old(imagesLoaded)
    {
      imagesFailed := imagesFailed + 1;
    }
  }

  /**
   * `loadData`: `response` is the parsed `data.json`, or None when the fetch
   * or the JSON parse failed. On failure the page gets no entities and no
   * counters (the `catch` returns before `_vt_stats` is assigned).
   */
  method LoadData(response: Option<Document>) returns (povos: seq<Povo>, stats: Stats?)
    ensures response.None? ==> povos == [] && stats == null
    ensures response.Some? ==> povos == Povos(response.value)
    ensures response.Some? ==> stats != null && fresh(stats)
    ensures stats != null ==> stats.totalPovos == |povos| && stats.totalImages == TotalImages(povos)
    ensures stats != null ==> stats.imagesLoaded == 0 && stats.imagesFailed == 0
  {
    if response.None? {
      return [], null;
    }
    povos := Povos(response.value);
    stats := new Stats(povos);
  }
}
