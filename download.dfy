/** Files named in the start-up manifest: where each one is fetched from, and what a
    response turns into. */
module Download {
  import opened Types
  import opened Strings
  import opened Intake

  datatype DownloadItem = DownloadItem(name: string, url: string, basename: string)

  /** The item for one manifest entry: a URL is fetched as it is and named after its
      file name; anything else is a file under the local data directory. */
  function ItemFor(env: Classifiers, name: string): DownloadItem
  {
    if HasSchemeSeparator(name) then DownloadItem(name, name, env.getUrlFilename(name))
    else DownloadItem(name, "/data/" + name, name)
  }

  /** `prepFilesForDownload`: the items for the manifest, in order, without those whose
      file name is not a readable type. */
  function PrepFilesForDownload(env: Classifiers, names: seq<string>): (r: seq<DownloadItem>)
    ensures |r| <= |names|
    ensures forall k :: 0 <= k < |r| ==>
      r[k].name in names && r[k] == ItemFor(env, r[k].name) && IsReadableFileType(env, r[k].basename)
    ensures forall i :: 0 <= i < |names| && IsReadableFileType(env, ItemFor(env, names[i]).basename) ==>
      ItemFor(env, names[i]) in r
    decreases |names|
  {
    if |names| == 0 then []
    else
      var item := ItemFor(env, names[0]);
      var rest := PrepFilesForDownload(env, names[1..]);
      if IsReadableFileType(env, item.basename) then [item] + rest else rest
  }

  /** Items are produced in the order of their names, one per readable name, so the
      preparation distributes over concatenation. */
  lemma {:induction false} PrepFilesConcat(env: Classifiers, a: seq<string>, b: seq<string>)
    ensures PrepFilesForDownload(env, a + b) == PrepFilesForDownload(env, a) + PrepFilesForDownload(env, b)
    decreases |a|
  {
    if |a| > 0 {
      assert (a + b)[0] == a[0];
      assert (a + b)[1..] == a[1..] + b;
      PrepFilesConcat(env, a[1..], b);
    } else {
      assert a + b == b;
    }
  }

  /** A single name gives its item when the item's base name is readable, and nothing
      otherwise. */
  lemma PrepFilesSingle(env: Classifiers, n: string)
    ensures PrepFilesForDownload(env, [n]) ==
      if IsReadableFileType(env, ItemFor(env, n).basename) then [ItemFor(env, n)] else []
  {
    assert [n][1..] == [];
  }

  /** The local items keep their name and live under "/data/"; the URL items keep
      their URL. */
  lemma ItemLocations(env: Classifiers, names: seq<string>)
    ensures forall k :: 0 <= k < |PrepFilesForDownload(env, names)| ==>
      var it := PrepFilesForDownload(env, names)[k];
      if HasSchemeSeparator(it.name) then it.url == it.name
      else it.url == "/data/" + it.name && it.basename == it.name
  {
  }

  /** What the request reports at `loadend`: its status, whether `load` fired, and the
      response body `load` saw. */
  datatype Response = Response(status: int, loaded: bool, body: Option<Content>)

  /** The blob kept by the `load` handler: only a response with status 200. */
  function BlobOf(resp: Response): Option<Content>
  {
    if resp.loaded && resp.status == 200 then resp.body else None
  }

  function NotFoundMessage(item: DownloadItem): string
  {
    "Not&nbsp;found:&nbsp;" + item.name
  }

  const LoadErrorHint: string :=
    ". Possible causes include: wrong URL, no network connection, server not configured for cross-domain sharing (CORS)."

  function LoadErrorMessage(item: DownloadItem): string
  {
    "Error&nbsp;loading&nbsp;" + item.name + LoadErrorHint
  }

  /** The `loadend` handler of `downloadNextFile`: 404 first, then a missing blob, else
      the blob renamed to the item's base name. */
  function ClassifyResponse(item: DownloadItem, resp: Response): (r: Result<File, string>)
    ensures r.Ok? <==> resp.status == 200 && resp.loaded && resp.body.Some?
    ensures r.Ok? ==> r.value == File(item.basename, resp.body.value)
    ensures resp.status == 404 ==> r == Err(NotFoundMessage(item))
    ensures resp.status != 404 && r.Err? ==> r == Err(LoadErrorMessage(item))
  {
    if resp.status == 404 then Err(NotFoundMessage(item))
    else if BlobOf(resp).None? then Err(LoadErrorMessage(item))
    else Ok(File(item.basename, BlobOf(resp).value))
  }

  /** The sequential fetch of all items, stopping at the first error. `fetch` stands
      for what the network answers for an item. */
  function CollectDownloads(items: seq<DownloadItem>, fetch: DownloadItem -> Response): (r: Result<seq<File>, string>)
    ensures r.Ok? <==> forall k :: 0 <= k < |items| ==> ClassifyResponse(items[k], fetch(items[k])).Ok?
    ensures r.Ok? ==> |r.value| == |items|
    ensures r.Ok? ==>
      forall k :: 0 <= k < |items| ==> r.value[k] == ClassifyResponse(items[k], fetch(items[k])).value
    ensures r.Err? ==>
      exists k :: 0 <= k < |items| && ClassifyResponse(items[k], fetch(items[k])) == Err(r.error) &&
        (forall j :: 0 <= j < k ==> ClassifyResponse(items[j], fetch(items[j])).Ok?)
    decreases |items|
  {
    if |items| == 0 then Ok([])
    else
      match ClassifyResponse(items[0], fetch(items[0]))
      case Err(e) => Err(e)
      case Ok(f) =>
        match CollectDownloads(items[1..], fetch)
        case Err(e) => Err(e)
        case Ok(fs) => Ok([f] + fs)
  }
}
