/** The scan page (src/pages/Index.tsx): the scanning flag, the last scanned
    id and its profile address. */
module Index {
  import opened Options

  const ProfilePrefix: string := "https://myserver.com/profile/"

  /** The address a scanned id resolves to: the fixed prefix followed by the
      id, so it always begins with the prefix and what follows is the id. */
  function ProfileUrl(accountId: string): (url: string)
    ensures |url| == |ProfilePrefix| + |accountId|
    ensures url[..|ProfilePrefix|] == ProfilePrefix
    ensures url[|ProfilePrefix|..] == accountId
  {
    ProfilePrefix + accountId
  }

  /** The id a profile address names, if it is one. */
  function ProfileIdOf(url: string): (id: Option<string>)
  {
    if |ProfilePrefix| <= |url| && url[..|ProfilePrefix|] == ProfilePrefix
    then Some(url[|ProfilePrefix|..])
    else None
  }

  /** `ProfileIdOf` inverts `ProfileUrl`, and only profile addresses have an
      id; in particular two ids never share an address. */
  lemma ProfileUrlRoundTrip(accountId: string, url: string)
    ensures ProfileIdOf(ProfileUrl(accountId)) == Some(accountId)
    ensures ProfileIdOf(url) == Some(accountId) <==> url == ProfileUrl(accountId)
  {
    if ProfileIdOf(url) == Some(accountId) {
      assert url == url[..|ProfilePrefix|] + url[|ProfilePrefix|..];
    }
  }

  class IndexPage {
    var lastScannedId: Option<string>
    var lastScannedUrl: Option<string>
    var isScanning: bool

    /** The two "last" fields are set together, and the address is always
        the profile address of the id. */
    predicate Valid()
      reads this
    {
      (lastScannedId.Some? <==> lastScannedUrl.Some?) &&
      (lastScannedId.Some? ==> lastScannedUrl.value == ProfileUrl(lastScannedId.value))
    }

    constructor ()
      ensures Valid()
      ensures lastScannedId == None && lastScannedUrl == None && !isScanning
    {
      lastScannedId := None;
      lastScannedUrl := None;
      isScanning := false;
    }

    /** The guard `lastScannedId || lastScannedUrl` under which the page
        mounts its info component; since an address is never empty, it holds
        exactly when a scan has been recorded. */
    predicate InfoMounted()
      reads this
      requires Valid()
      ensures InfoMounted() <==> lastScannedId.Some?
    {
      Truthy(lastScannedId) || Truthy(lastScannedUrl)
    }

    /** The info card actually drawn: the mounted component renders nothing
        unless both the id and the address are truthy. An empty id is
        recorded but shows no card. */
    predicate CardVisible()
      reads this
      requires Valid()
      ensures CardVisible() <==> lastScannedId.Some? && lastScannedId.value != ""
      ensures CardVisible() ==> InfoMounted()
    {
      InfoMounted() && Truthy(lastScannedId) && Truthy(lastScannedUrl)
    }

    /** `disabled={isScanning}` on the scan button. */
    predicate ScanEnabled()
      reads this
    {
      !isScanning
    }

    /** `startScanning`, reachable only through the enabled button. */
    method StartScanning()
      requires Valid() && ScanEnabled()
      modifies this`isScanning
      ensures Valid()
      ensures isScanning
    {
      isScanning := true;
    }

    /** A click on the scan button: it starts a scan when enabled and is
        ignored while a scan runs, so at most one scan is in flight. Either
        way the last id and address stay as they were. */
    method PressScanButton()
      requires Valid()
      modifies this`isScanning
      ensures Valid()
      ensures isScanning
      ensures old(isScanning) ==> unchanged(this)
    {
      if ScanEnabled() {
        StartScanning();
      }
    }

    /** `handleScan`: records the id and its address together and ends the
        scan. The address is returned in place of `window.open(url)`. */
    method HandleScan(accountId: string) returns (address: string)
      requires Valid()
      modifies this
      ensures Valid()
      ensures lastScannedId == Some(accountId)
      ensures lastScannedUrl == Some(ProfileUrl(accountId))
      ensures !isScanning
      ensures address == ProfileUrl(accountId)
    {
      lastScannedId := Some(accountId);
      var url := ProfileUrl(accountId);
      lastScannedUrl := Some(url);
      isScanning := false;
      address := url;
    }

    /** `handleScanError`: ends the scan and keeps the last result. */
    method HandleScanError(message: string)
      requires Valid()
      modifies this`isScanning
      ensures Valid()
      ensures !isScanning
    {
      isScanning := false;
    }
  }

  /** What reaches the page: a press of the scan button, or the scanner
      reporting a tag or an error. */
  datatype PageEvent = Press | TagRead(accountId: string) | ReadFailed(message: string)

  /** The id of the most recent successful read in a trace. */
  function LastTagRead(events: seq<PageEvent>): (r: Option<string>)
    ensures r.Some? ==> exists i :: 0 <= i < |events| && events[i] == TagRead(r.value)
    ensures r == None ==> forall i :: 0 <= i < |events| ==> !events[i].TagRead?
  {
    if events == [] then None
    else if events[|events| - 1].TagRead? then Some(events[|events| - 1].accountId)
    else LastTagRead(events[..|events| - 1])
  }

  /** Replays a trace of events on a fresh page; a press while the button is
      disabled is dropped. The page then holds the last id read and its
      profile address, and is scanning exactly when the trace ends with a
      press. */
  method RunPage(events: seq<PageEvent>)
    returns (shownId: Option<string>, shownUrl: Option<string>, scanning: bool)
    ensures shownId == LastTagRead(events)
    ensures shownUrl == if shownId.Some? then Some(ProfileUrl(shownId.value)) else None
    ensures scanning <==> events != [] && events[|events| - 1] == Press
  {
    var page := new IndexPage();
    var i := 0;
    while i < |events|
      invariant 0 <= i <= |events|
      invariant page.Valid()
      invariant page.lastScannedId == LastTagRead(events[..i])
      invariant page.isScanning <==> i > 0 && events[i - 1] == Press
    {
      match events[i] {
        case Press =>
          page.PressScanButton();
        case TagRead(id) =>
          var _ := page.HandleScan(id);
        case ReadFailed(message) =>
          page.HandleScanError(message);
      }
      assert events[..i + 1][..i] == events[..i];
      i := i + 1;
    }
    assert events[..i] == events;
    shownId, shownUrl, scanning := page.lastScannedId, page.lastScannedUrl, page.isScanning;
  }
}
