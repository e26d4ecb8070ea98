/**
 * The resources page: a load state machine (loading, then loaded or errored)
 * fed by one GET of the resource list, a fixed order of precedence for what
 * the section shows, and one card per resource with its detail and download
 * links built from the API's base URL.
 */
module ResourcePage {
  import opened Wrappers
  import opened Text

  /** The API's base URL. */
  const ApiUrl := "https://backend.easi.ac.ug"

  /** The URL the list is fetched from. */
  const ResourcesUrl := ApiUrl + "/resources/"

  const LoadFailedMessage := "Failed to load resources. Please try again later."
  const NoDescription := "No description available"

  /**
   * The ids a JavaScript number holds exactly: the non-negative integers
   * below 2^53. Each of them renders in plain decimal in a template literal.
   */
  type SafeId = n: nat | n < 0x20_0000_0000_0000

  /** A resource as the API returns it; a missing or null field is `None`. */
  datatype Resource = Resource(id: SafeId, title: string, description: Option<string>, createdAt: Option<string>)

  /** The outcome of the GET: the response body, or a rejection. */
  datatype Fetch = Fetched(data: seq<Resource>) | FetchFailed

  /** A string-valued field is truthy when it is present and not empty. */
  predicate Truthy(v: Option<string>) {
    v.Some? && v.value != ""
  }

  // ---------------------------------------------------------------------------
  // Links
  // ---------------------------------------------------------------------------

  /** `${API_URL}/resources/${resource.id}` */
  function DetailUrl(id: SafeId): string {
    ApiUrl + "/resources/" + Decimal(id)
  }

  /** `${API_URL}/resources/${resource.id}/download` */
  function DownloadUrl(id: SafeId): string {
    DetailUrl(id) + "/download"
  }

  /** Distinct resources get distinct detail links. */
  lemma DetailUrlInjective(a: SafeId, b: SafeId)
    requires DetailUrl(a) == DetailUrl(b)
    ensures a == b
  {
    var prefix := ApiUrl + "/resources/";
    assert Decimal(a) == DetailUrl(a)[|prefix|..];
    assert Decimal(b) == DetailUrl(b)[|prefix|..];
    DecimalInjective(a, b);
  }

  /** Distinct resources get distinct download links. */
  lemma DownloadUrlInjective(a: SafeId, b: SafeId)
    requires DownloadUrl(a) == DownloadUrl(b)
    ensures a == b
  {
    var n := |DownloadUrl(a)| - |"/download"|;
    assert DetailUrl(a) == DownloadUrl(a)[..n];
    assert DetailUrl(b) == DownloadUrl(b)[..n];
    DetailUrlInjective(a, b);
  }

  /** A detail link never doubles as a download link: one ends in a digit, the other in 'd'. */
  lemma DetailNeverDownload(a: SafeId, b: SafeId)
    ensures DetailUrl(a) != DownloadUrl(b)
  {
    var d := DetailUrl(a);
    assert d[|d| - 1] == Decimal(a)[|Decimal(a)| - 1];
    assert DownloadUrl(b)[|DownloadUrl(b)| - 1] == 'd';
  }

  // ---------------------------------------------------------------------------
  // Cards and the section's view
  // ---------------------------------------------------------------------------

  /** What one card shows; `added` is the raw `created_at` that the date line formats. */
  datatype Card = Card(title: string, added: Option<string>, description: string,
                       detailUrl: string, downloadUrl: string)

  datatype View = Spinner | ErrorPanel(message: string) | EmptyNotice | CardGrid(cards: seq<Card>)

  function RenderCard(r: Resource): Card {
    Card(r.title,
         if Truthy(r.createdAt) then r.createdAt else None,
         if Truthy(r.description) then r.description.value else NoDescription,
         DetailUrl(r.id),
         DownloadUrl(r.id))
  }

  /**
   * A card shows the resource's description when it is truthy and the fixed
   * fallback otherwise, shows the date line (with the resource's
   * `created_at`) exactly when `created_at` is truthy, and links to the
   * resource's own URLs.
   */
  lemma RenderCardShows(r: Resource)
    ensures var c := RenderCard(r);
            c.description != ""
            && (Truthy(r.description) ==> c.description == r.description.value)
            && (!Truthy(r.description) ==> c.description == NoDescription)
            && (c.added.Some? <==> Truthy(r.createdAt))
            && (c.added.Some? ==> c.added == r.createdAt)
            && c.detailUrl == DetailUrl(r.id) && c.downloadUrl == DetailUrl(r.id) + "/download"
  {
  }

  /** `resources.map(resource => <card/>)`: one card per resource, in the fetched order. */
  function RenderCards(rs: seq<Resource>): (cs: seq<Card>)
    ensures |cs| == |rs|
    ensures forall k :: 0 <= k < |rs| ==> cs[k] == RenderCard(rs[k])
  {
    if rs == [] then [] else [RenderCard(rs[0])] + RenderCards(rs[1..])
  }

  /**
   * The section's precedence: the spinner while loading; then the error with
   * its retry button; then the empty-list notice; then the grid of cards.
   */
  function Render(loading: bool, error: Option<string>, resources: seq<Resource>): (v: View)
    ensures v.Spinner? <==> loading
    ensures v.ErrorPanel? <==> !loading && Truthy(error)
    ensures v.EmptyNotice? <==> !loading && !Truthy(error) && resources == []
    ensures v.ErrorPanel? ==> v.message == error.value
    ensures v.CardGrid? ==> |v.cards| == |resources| > 0
                            && forall k :: 0 <= k < |resources| ==> v.cards[k] == RenderCard(resources[k])
  {
    if loading then Spinner
    else if Truthy(error) then ErrorPanel(error.value)
    else if |resources| == 0 then EmptyNotice
    else CardGrid(RenderCards(resources))
  }

  // ---------------------------------------------------------------------------
  // The page's state
  // ---------------------------------------------------------------------------

  class ResourceLister {
    var resources: seq<Resource>
    var loading: bool
    var error: Option<string>

    /** Loading, no resources, no error. */
    constructor ()
      ensures loading && resources == [] && error == None
    {
      resources := [];
      loading := true;
      error := None;
    }

    /** The effect starts: `setLoading(true)`, then the GET goes out. */
    method StartLoad()
      modifies this
      ensures loading && resources == old(resources) && error == old(error)
    {
      loading := true;
    }

    /**
     * The GET settles. On success the list becomes the response body exactly;
     * on failure the fixed message is set and the list stays. Loading ends
     * either way.
     */
    method FinishLoad(outcome: Fetch)
      modifies this
      ensures !loading
      ensures outcome.Fetched? ==> resources == outcome.data && error == old(error)
      ensures outcome.FetchFailed? ==> error == Some(LoadFailedMessage) && resources == old(resources)
    {
      match outcome {
        case Fetched(data) =>
          resources := data;
        case FetchFailed =>
          error := Some(LoadFailedMessage);
      }
      loading := false;
    }

    /** What the section shows for the current state. */
    function View(): View
      reads this
    {
      Render(loading, error, resources)
    }
  }

  /**
   * The page loads a two-item list: the grid shows two cards, the first for
   * resource 1 and the second for resource 2.
   */
  method TwoResourcesScenario() returns (v: View)
    ensures v.CardGrid? && |v.cards| == 2
    ensures v.cards[0].title == "A" && v.cards[1].title == "B"
    ensures v.cards[0].detailUrl == DetailUrl(1) && v.cards[1].detailUrl == DetailUrl(2)
  {
    var page := new ResourceLister();
    page.StartLoad();
    var a := Resource(1, "A", None, None);
    var b := Resource(2, "B", None, None);
    page.FinishLoad(Fetched([a, b]));
    v := page.View();
  }

  /** A failed load shows the error panel with the fixed message. */
  method FailedLoadScenario() returns (v: View)
    ensures v == ErrorPanel(LoadFailedMessage)
  {
    var page := new ResourceLister();
    page.StartLoad();
    page.FinishLoad(FetchFailed);
    v := page.View();
  }
}
