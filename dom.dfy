/** The pieces of the page the widgets share: image elements, the placeholder, the live region, key handling. */
module Dom {
  import opened Dataset

  /** The image every failed or missing picture falls back to. */
  const Placeholder: string :=
    "https://upload.wikimedia.org/wikipedia/commons/thumb/6/6b/Placeholder_no_text.svg/800px-Placeholder_no_text.svg.png"

  /** An `<img>` element: its current `src`, and the entity its handlers close over (its `alt` is `owner.nome`). */
  datatype Picture = Picture(src: string, owner: Povo)

  /** One picture per entity, in dataset order, each with the source `source` chooses for it. */
  function PicturesOf(ps: seq<Povo>, source: Povo -> string): (r: seq<Picture>)
    ensures |r| == |ps|
    ensures forall i :: 0 <= i < |ps| ==> r[i].owner == ps[i] && r[i].src == source(ps[i])
  {
    if ps == [] then [] else [Picture(source(ps[0]), ps[0])] + PicturesOf(ps[1..], source)
  }

  /** `pics` after the error handler of picture `k` has replaced its source by the placeholder. */
  function WithPlaceholder(pics: seq<Picture>, k: nat): (r: seq<Picture>)
    requires k < |pics|
    ensures |r| == |pics| && r[k].src == Placeholder && r[k].owner == pics[k].owner
    ensures forall j :: 0 <= j < |pics| && j != k ==> r[j] == pics[j]
  {
    pics[k := pics[k].(src := Placeholder)]
  }

  /** The `#sr-live` element that screen readers announce. */
  class LiveRegion {
    var text: string

    constructor ()
      ensures text == ""
    {
      text := "";
    }
  }

  /** The keys that activate a focused thumbnail or sidebar row: `e.key === 'Enter' || e.key === ' '`. */
  predicate IsActivationKey(key: string) {
    key == "Enter" || key == " "
  }
}
