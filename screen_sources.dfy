/** The host's screenshot capture: the guards, the nearest display to the window's
    top-left corner, and the choice of screen source. The window, the capturer and the
    screen module are oracle values. */
module ScreenSources {
  import opened Wrappers

  const NoWindow := "Window not available"
  const NoSources := "No screen sources found"

  /** A display identifier, compared by equality. */
  type DisplayId = int

  /** A screen source: the display it shows and its thumbnail as a data URL. */
  datatype Source = Source(id: string, displayId: DisplayId, thumbnail: string)

  datatype Bounds = Bounds(x: int, y: int, width: int, height: int)

  datatype Point = Point(x: int, y: int)

  /** The index of the first source showing `display`. */
  function FindDisplay(sources: seq<Source>, display: DisplayId): (r: Option<nat>)
    ensures r.Some? ==> r.value < |sources| && sources[r.value].displayId == display
    ensures r.Some? ==> forall j :: 0 <= j < r.value ==> sources[j].displayId != display
    ensures r.None? ==> forall j :: 0 <= j < |sources| ==> sources[j].displayId != display
  {
    if sources == [] then None
    else if sources[0].displayId == display then Some(0)
    else match FindDisplay(sources[1..], display)
      case None => None
      case Some(i) => Some(i + 1)
  }

  /** `sources.find(s => s.display_id === display) || sources[0]`. */
  function SelectSource(sources: seq<Source>, display: DisplayId): (s: Source)
    requires |sources| > 0
    ensures s in sources
    ensures (exists j :: 0 <= j < |sources| && sources[j].displayId == display) ==> s.displayId == display
    ensures (forall j :: 0 <= j < |sources| ==> sources[j].displayId != display) ==> s == sources[0]
  {
    match FindDisplay(sources, display)
    case Some(i) => sources[i]
    case None => sources[0]
  }

  /** The selected source is the first one showing the display, if any does. */
  lemma SelectFirstMatch(sources: seq<Source>, display: DisplayId, i: nat)
    requires i < |sources| && sources[i].displayId == display
    requires forall j :: 0 <= j < i ==> sources[j].displayId != display
    ensures SelectSource(sources, display) == sources[i]
  {
    var r := FindDisplay(sources, display);
    assert r.Some?;
  }

  /** `captureScreenshot` in the screenshot module and the 'capture-screenshot' handler:
      no window fails before the source query; an empty list fails; otherwise the
      thumbnail of the source selected for the display nearest the window's top-left
      corner. */
  function Capture(window: Option<Bounds>, sources: Result<seq<Source>>, nearest: Point -> DisplayId): Result<string> {
    if window.None? then Err(NoWindow)
    else match sources
      case Err(message) => Err(message)
      case Ok(list) =>
        if |list| == 0 then Err(NoSources)
        else Ok(SelectSource(list, nearest(Point(window.value.x, window.value.y))).thumbnail)
  }

  /** Without a window the outcome does not depend on the sources at all; with one, a
      successful capture is a thumbnail of one of the sources returned. */
  lemma CaptureProperties(window: Option<Bounds>, sources: Result<seq<Source>>, other: Result<seq<Source>>,
                          nearest: Point -> DisplayId)
    ensures window.None? ==> Capture(window, sources, nearest) == Err(NoWindow) == Capture(window, other, nearest)
    ensures window.Some? && sources == Ok([]) ==> Capture(window, sources, nearest) == Err(NoSources)
    ensures Capture(window, sources, nearest).Ok? ==>
      sources.Ok? && exists s :: s in sources.value && Capture(window, sources, nearest).value == s.thumbnail
    ensures Capture(window, sources, nearest).Ok? ==>
      Capture(window, sources, nearest).value ==
        SelectSource(sources.value, nearest(Point(window.value.x, window.value.y))).thumbnail
  {
    if Capture(window, sources, nearest).Ok? {
      var s := SelectSource(sources.value, nearest(Point(window.value.x, window.value.y)));
      assert s in sources.value;
    }
  }
}
