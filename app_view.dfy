/**
 * What the page shows for a state: the display panel, the download link and
 * whether the generate button is disabled. The conditions in the page are
 * JavaScript truthiness tests, so `null` and `""` both count as absent.
 */
module AppView {
  import opened Wrappers
  import opened AppState

  /** The name the download link gives the saved file. */
  const DownloadFileName: string := "ai-thumbnail.jpg"

  /** The four things the display panel can hold. */
  datatype Panel = LoadingPanel | ErrorPanel(message: string) | ImagePanel(src: string) | PlaceholderPanel

  /** The download anchor: its `href` and its `download` file name. */
  datatype DownloadLink = DownloadLink(href: string, fileName: string)

  /** JavaScript truthiness of a `string | null` cell. */
  predicate Truthy(v: Option<string>)
  {
    v.Some? && v.value != ""
  }

  /**
   * The display panel: loading wins, then a truthy error, then a truthy
   * image, then the placeholder.
   */
  function View(s: UiState): (p: Panel)
    ensures p.LoadingPanel? <==> s.isLoading
    ensures p.ErrorPanel? <==> !s.isLoading && Truthy(s.error)
    ensures p.ImagePanel? <==> !s.isLoading && !Truthy(s.error) && Truthy(s.generatedImage)
    ensures p.PlaceholderPanel? <==> !s.isLoading && !Truthy(s.error) && !Truthy(s.generatedImage)
    ensures p.ErrorPanel? ==> Some(p.message) == s.error && p.message != ""
    ensures p.ImagePanel? ==> Some(p.src) == s.generatedImage && p.src != ""
  {
    if s.isLoading then LoadingPanel
    else if Truthy(s.error) then ErrorPanel(s.error.value)
    else if Truthy(s.generatedImage) then ImagePanel(s.generatedImage.value)
    else PlaceholderPanel
  }

  /** The download link, present only for a truthy image once loading is over. */
  function Download(s: UiState): (d: Option<DownloadLink>)
    ensures d.Some? <==> Truthy(s.generatedImage) && !s.isLoading
    ensures d.Some? ==> Some(d.value.href) == s.generatedImage && d.value.fileName == DownloadFileName
  {
    if Truthy(s.generatedImage) && !s.isLoading then Some(DownloadLink(s.generatedImage.value, DownloadFileName))
    else None
  }

  /** The generate button's `disabled` attribute. */
  function TriggerDisabled(s: UiState): bool
  {
    s.isLoading
  }

  /** The button is disabled exactly while the panel shows the loading indicator, and never beside a download link. */
  lemma TriggerDisabledWhileLoadingShown(s: UiState)
    ensures TriggerDisabled(s) <==> View(s) == LoadingPanel
    ensures Download(s).Some? ==> !TriggerDisabled(s)
  {
  }

  /** On the abstract lifecycle, which panel is shown; an empty message or URI falls through to the placeholder. */
  lemma ViewOfLifecycle(l: Lifecycle)
    ensures View(Encode(l)) == match l
      case Idle => PlaceholderPanel
      case Loading => LoadingPanel
      case Succeeded(uri) => if uri == "" then PlaceholderPanel else ImagePanel(uri)
      case Failed(message) => if message == "" then PlaceholderPanel else ErrorPanel(message)
  {
  }

  /**
   * In consistent cells the download link is offered exactly when an image
   * is shown, and it downloads the image on display.
   */
  lemma DownloadMatchesShownImage(s: UiState)
    requires Consistent(s)
    ensures Download(s).Some? <==> View(s).ImagePanel?
    ensures Download(s).Some? ==> View(s) == ImagePanel(Download(s).value.href)
  {
  }

  /**
   * The state between the `try` or `catch` step and the `finally` block still
   * has loading on: if it is rendered at all, it shows the loading panel and
   * no download link.
   */
  lemma IntermediateShowsLoading(s: UiState, o: Outcome)
    ensures View(Step(Step(s, Begin), OutcomeEvent(o))) == LoadingPanel
    ensures Download(Step(Step(s, Begin), OutcomeEvent(o))).None?
  {
  }

  /** While a run is loading no stale image, error or download link is visible and the trigger is disabled. */
  lemma NothingStaleWhileLoading(s: UiState)
    ensures View(Step(s, Begin)) == LoadingPanel
    ensures Download(Step(s, Begin)) == None
    ensures TriggerDisabled(Step(s, Begin))
  {
  }

  /**
   * What a settled run shows: the payload's image with its download link, or
   * the error message with no link; an `Error` with an empty message shows
   * the placeholder, because there is no fallback for it.
   */
  lemma ShownAfterRun(s: UiState, o: Outcome)
    requires !s.isLoading
    ensures View(Generate(s, o)) == match o
      case Resolved(imageB64) => ImagePanel(DataUri(imageB64))
      case Rejected(thrown) =>
        if ErrorMessage(thrown) == "" then PlaceholderPanel else ErrorPanel(ErrorMessage(thrown))
    ensures Download(Generate(s, o)) == match o
      case Resolved(imageB64) => Some(DownloadLink(DataUri(imageB64), DownloadFileName))
      case Rejected(_) => None
    ensures !TriggerDisabled(Generate(s, o))
  {
  }

  /** An `Error` with an empty message leaves the page with no sign that the run failed. */
  lemma EmptyErrorMessageShowsPlaceholder(s: UiState)
    requires !s.isLoading
    ensures Generate(s, Rejected(ErrorValue(""))).error == Some("")
    ensures View(Generate(s, Rejected(ErrorValue("")))) == PlaceholderPanel
    ensures Download(Generate(s, Rejected(ErrorValue("")))) == None
  {
  }
}
