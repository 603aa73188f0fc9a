/**
 * The startup sequence: load the dataset, then build the widgets. Without
 * Leaflet `#mapid`, when present, shows a notice, and the map and the sidebar are skipped;
 * the gallery, the commitment form, the quiz and the dialog are built anyway.
 */
module Startup {
  import opened Wrappers
  import opened Dataset
  import opened Dom
  import opened Thumbnails
  import opened Commits
  import opened QuizEngine
  import opened SidebarList
  import opened ModalDialog

  /** The text `#mapid` shows when Leaflet did not load. */
  const MapUnavailable: string :=
    "Mapa indisponível — biblioteca Leaflet não foi carregada. Tente recarregar a página."

  /** The page once startup is over. */
  datatype Page = Page(
    povos: seq<Povo>,
    stats: Stats?,
    layers: Option<seq<Layer>>,// the map's layers; None when there is no map
    mapNotice: Option<string>, // the fallback text in `#mapid`
    gallery: Gallery,
    commits: CommitForm,
    quiz: Quiz,
    sidebar: Option<Sidebar>,
    modal: Modal)

  /**
   * The startup function: `response` is the parsed `data.json` (None when
   * the fetch failed), `leaflet` whether the map library loaded, `live` the
   * live region if the page has one, `mapdiv` whether the page has a `#mapid`
   * element for the notice.
   */
  method Boot(response: Option<Document>, leaflet: bool, mapdiv: bool, live: LiveRegion?) returns (page: Page)
    ensures page.povos == (if response.Some? then Povos(response.value) else [])
    ensures page.stats != null <==> response.Some?
    ensures page.stats != null ==> fresh(page.stats)
    ensures page.stats != null ==>
      page.stats.totalPovos == |page.povos| && page.stats.totalImages == TotalImages(page.povos)
    ensures page.stats != null ==> page.stats.imagesLoaded == 0 && page.stats.imagesFailed == 0
    ensures page.layers == (if leaflet then Some(MapLayers(page.povos)) else None)
    ensures page.mapNotice == (if !leaflet && mapdiv then Some(MapUnavailable) else None)
    ensures fresh(page.gallery) && page.gallery.thumbs == Preview(page.povos)
    ensures page.gallery.live == live && page.gallery.stats == page.stats
    ensures fresh(page.commits) && page.commits.Valid()
    ensures page.commits.entries == [] && page.commits.draft == "" && page.commits.live == live
    ensures fresh(page.quiz) && page.quiz.Valid() && page.quiz.idx == 0 && page.quiz.score == 0
    ensures page.sidebar.Some? <==> leaflet
    ensures page.sidebar.Some? ==> fresh(page.sidebar.value)
    ensures page.sidebar.Some? ==>
      page.sidebar.value.rows == Rows(page.povos) && page.sidebar.value.stats == page.stats
    ensures fresh(page.modal) && !page.modal.open && page.modal.images == [] && page.modal.caption == ""
  {
    var povos, stats := LoadData(response);
    var gallery := new Gallery(live, stats);
    var commits := new CommitForm(live);
    var quiz := new Quiz();
    var modal := new Modal();
    if !leaflet {
      gallery.Init(povos);
      var notice := if mapdiv then Some(MapUnavailable) else None;
      return Page(povos, stats, None, notice, gallery, commits, quiz, None, modal);
    }
    var layers := MapLayers(povos);
    gallery.Init(povos);
    var sidebar := new Sidebar(stats);
    sidebar.Init(povos);
    page := Page(povos, stats, Some(layers), None, gallery, commits, quiz, Some(sidebar), modal);
  }
}
