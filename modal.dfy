/**
 * The image dialog (`initModal`): an "open gallery" button opens it on the
 * named entity's images and caption; the close button, or a click on the
 * backdrop itself, closes it.
 */
module ModalDialog {
  import opened Wrappers
  import opened Dataset
  import opened Dom

  /** `povos.find(x => x.nome === name)`, as an index: the first entity with that name, if any. */
  function FindByName(povos: seq<Povo>, name: string): (r: Option<nat>)
    ensures r.Some? ==> r.value < |povos| && povos[r.value].nome == name
    ensures r.Some? ==> forall j :: 0 <= j < r.value ==> povos[j].nome != name
    ensures r.None? ==> forall j :: 0 <= j < |povos| ==> povos[j].nome != name
  {
    if povos == [] then None
    else if povos[0].nome == name then Some(0)
    else match FindByName(povos[1..], name)
      case None => None
      case Some(k) => Some(k + 1)
  }

  /** The words put before the credit. */
  const CreditLabel: string := "Crédito: "

  /** The separator of the caption's parts: `join(' — ')`. */
  const Separator: string := " — "

  /** `filter(Boolean)` on strings: the non-empty ones, in order. */
  function NonEmpty(parts: seq<string>): (r: seq<string>)
    ensures |r| <= |parts|
    ensures forall k :: 0 <= k < |r| ==> r[k] != ""
    ensures r == [] <==> forall k :: 0 <= k < |parts| ==> parts[k] == ""
  {
    if parts == [] then []
    else (if parts[0] == "" then [] else [parts[0]]) + NonEmpty(parts[1..])
  }

  /** A single part is kept exactly when it is not empty. */
  lemma NonEmptySingle(s: string)
    ensures NonEmpty([s]) == if s == "" then [] else [s]
  {
    assert [s][1..] == [];
  }

  /** Filtering a concatenation filters each side and keeps their order. */
  lemma {:induction false} NonEmptyAppend(a: seq<string>, b: seq<string>)
    ensures NonEmpty(a + b) == NonEmpty(a) + NonEmpty(b)
    decreases |a|
  {
    if a != [] {
      assert (a + b)[1..] == a[1..] + b;
      NonEmptyAppend(a[1..], b);
    } else {
      assert a + b == b;
    }
  }

  /** `parts.join(sep)`: nothing for no parts, otherwise starting with the first part and ending with the last. */
  function Join(parts: seq<string>, sep: string): (r: string)
    ensures parts == [] ==> r == ""
    ensures parts != [] ==> |parts[0]| <= |r| && r[..|parts[0]|] == parts[0]
    ensures parts != [] ==> |parts[|parts| - 1]| <= |r| && r[|r| - |parts[|parts| - 1]|..] == parts[|parts| - 1]
  {
    if parts == [] then ""
    else if |parts| == 1 then parts[0]
    else parts[0] + sep + Join(parts[1..], sep)
  }

  /** Filtering and joining two parts: both with the separator between them, either one alone, or nothing. */
  lemma JoinPair(a: string, b: string, sep: string)
    ensures Join(NonEmpty([a, b]), sep) ==
      if a != "" && b != "" then a + sep + b else if a != "" then a else b
  {
    assert [a, b][1..] == [b];
    assert [b][1..] == [];
    assert NonEmpty([b][1..]) == [];
    var rest := NonEmpty([b]);
    assert rest == if b == "" then [] else [b];
    if a != "" && b != "" {
      assert NonEmpty([a, b]) == [a, b];
      assert [a, b][1..] == [b];
    } else if a != "" {
      assert NonEmpty([a, b]) == [a];
    } else {
      assert NonEmpty([a, b]) == rest;
    }
  }

  /** `p.caption ? p.caption : ''` */
  function CaptionPart(p: Povo): (r: string)
    ensures r == "" <==> p.caption.GetOr("") == ""
    ensures r != "" ==> r == p.caption.value
  {
    p.caption.GetOr("")
  }

  /** `p.credit ? ('Crédito: ' + p.credit) : ''` */
  function CreditPart(p: Povo): (r: string)
    ensures r == "" <==> p.credit.GetOr("") == ""
    ensures r != "" ==> r == CreditLabel + p.credit.value
  {
    if p.credit.GetOr("") == "" then "" else CreditLabel + p.credit.value
  }

  /** The dialog's caption: `[cap, cred].filter(Boolean).join(' — ')`; empty exactly when neither is given. */
  function Caption(p: Povo): (r: string)
    ensures r == "" <==> p.caption.GetOr("") == "" && p.credit.GetOr("") == ""
  {
    JoinPair(CaptionPart(p), CreditPart(p), Separator);
    Join(NonEmpty([CaptionPart(p), CreditPart(p)]), Separator)
  }

  /** The caption case by case: both parts joined by the separator, either one alone, or nothing. */
  lemma CaptionCases(p: Povo)
    ensures var cap, cred := p.caption.GetOr(""), p.credit.GetOr("");
      Caption(p) ==
        if cap != "" && cred != "" then cap + Separator + CreditLabel + cred
        else if cap != "" then cap
        else if cred != "" then CreditLabel + cred
        else ""
  {
    JoinPair(CaptionPart(p), CreditPart(p), Separator);
  }

  /** One picture per URL of `urls`, in order, all of them for entity `p`. */
  function PicturesFor(urls: seq<string>, p: Povo): (r: seq<Picture>)
    ensures |r| == |urls|
    ensures forall k :: 0 <= k < |urls| ==> r[k] == Picture(urls[k], p)
  {
    if urls == [] then [] else [Picture(urls[0], p)] + PicturesFor(urls[1..], p)
  }

  /** What a click lands on, as the dialog's three listeners tell it apart. */
  datatype Target =
    | CloseButton               // `#modal-close`
    | Backdrop                  // `#gallery-modal` itself, outside its content
    | Content                   // anything inside the dialog's content
    | OpenGallery(nome: string) // an `.open-gallery` button and its `data-nome`
    | Elsewhere                 // anything else on the page

  /** `#gallery-modal` with its `#modal-gallery` images and its `#modal-caption`. */
  class Modal {
    var open: bool
    var images: seq<Picture>
    var caption: string

    constructor ()
      ensures !open && images == [] && caption == ""
    {
      open, images, caption := false, [], "";
    }

    /**
     * `openGalleryByName(name)` over the entities of the fetched `data.json`.
     * No entity of that name: nothing changes. Otherwise the first such entity
     * replaces the images and the caption, and the dialog is open.
     */
    method OpenByName(name: string, povos: seq<Povo>)
      modifies this
      ensures FindByName(povos, name).None? ==>
        open == old(open) && images == old(images) && caption == old(caption)
      ensures FindByName(povos, name).Some? ==>
        var p := povos[FindByName(povos, name).value];
        open && images == PicturesFor(Urls(p), p) && caption == Caption(p)
    {
      var found := FindByName(povos, name);
      if found.None? {
        return;
      }
      var p := povos[found.value];
      images := [];
      caption := p.nome;
      var urls := Urls(p);
      for k := 0 to |urls|
        invariant images == PicturesFor(urls, p)[..k]
      {
        assert PicturesFor(urls, p)[..k + 1] == PicturesFor(urls, p)[..k] + [Picture(urls[k], p)];
        images := images + [Picture(urls[k], p)];
      }
      assert PicturesFor(urls, p)[..|urls|] == PicturesFor(urls, p);
      caption := Caption(p);
      open := true;
    }

    /** Removes the `open` class (and sets `aria-hidden`): closed, contents kept. */
    method Close()
      modifies this
      ensures !open && images == old(images) && caption == old(caption)
    {
      open := false;
    }

    /**
     * A click, dispatched to the close button's listener, the dialog's own
     * listener (`e.target === modal`) and the document's listener for
     * `.open-gallery` buttons.
     */
    method Click(target: Target, povos: seq<Povo>)
      modifies this
      ensures target == CloseButton || target == Backdrop ==>
        !open && images == old(images) && caption == old(caption)
      ensures target == Content || target == Elsewhere ==>
        open == old(open) && images == old(images) && caption == old(caption)
      ensures target.OpenGallery? && FindByName(povos, target.nome).None? ==>
        open == old(open) && images == old(images) && caption == old(caption)
      ensures target.OpenGallery? && FindByName(povos, target.nome).Some? ==>
        var p := povos[FindByName(povos, target.nome).value];
        open && images == PicturesFor(Urls(p), p) && caption == Caption(p)
    {
      match target
      case CloseButton => Close();
      case Backdrop => Close();
      case OpenGallery(nome) => OpenByName(nome, povos);
      case _ =>
    }

    /** The `error` handler of image `k`: fall back to the placeholder; the counters are not touched. */
    method OnImageError(k: nat)
      requires k < |images|
      modifies this
      ensures images == WithPlaceholder(old(images), k)
      ensures open == old(open) && caption == old(caption)
    {
      images := WithPlaceholder(images, k);
    }
  }
}
