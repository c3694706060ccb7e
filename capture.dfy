/** The renderer's screenshot service: capture through the host bridge, the first image
    of a paste, and forwarding a global shortcut request to the host. */
module ScreenshotService {
  import opened Wrappers
  import opened JsString

  const NotAvailable := "Screenshot capture is not available"
  const CaptureFailed := "Failed to capture screenshot"

  /** `captureScreenshot`, given whether the bridge offers capture and what the host's
      capture returned ("" standing for any falsy result). A host error is rethrown. */
  function CaptureScreenshot(bridge: bool, host: Result<string>): (r: Result<string>)
    ensures !bridge ==> r == Err(NotAvailable)
    ensures bridge && host.Ok? && host.value == "" ==> r == Err(CaptureFailed)
    ensures bridge && host.Ok? && host.value != "" ==> r == host
    ensures bridge && host.Err? ==> r == host
    ensures r.Ok? ==> r.value != ""
  {
    if !bridge then Err(NotAvailable)
    else match host
      case Err(message) => Err(message)
      case Ok(url) => if url == "" then Err(CaptureFailed) else Ok(url)
  }

  /** A clipboard item: its MIME type and what reading its file as a data URL yields. */
  datatype Item = Item(kind: string, dataUrl: string)

  /** The item the paste handler reads. */
  predicate IsImageItem(item: Item) {
    Contains(item.kind, "image")
  }

  /** Item `i` is an image and no earlier one is. */
  predicate FirstImageAt(items: seq<Item>, i: int) {
    0 <= i < |items| && IsImageItem(items[i]) && forall j :: 0 <= j < i ==> !IsImageItem(items[j])
  }

  /** The scan over the items: the index of the first whose type contains "image". */
  method FirstImageIndex(items: seq<Item>) returns (r: Option<nat>)
    ensures r.Some? ==> r.value < |items| && IsImageItem(items[r.value])
    ensures r.Some? ==> forall j :: 0 <= j < r.value ==> !IsImageItem(items[j])
    ensures r.None? <==> forall j :: 0 <= j < |items| ==> !IsImageItem(items[j])
  {
    for i := 0 to |items|
      invariant forall j :: 0 <= j < i ==> !IsImageItem(items[j])
    {
      if IsImageItem(items[i]) {
        return Some(i);
      }
    }
    return None;
  }

  /** `handleImagePaste`: `None` (null) when the event has no clipboard data or items,
      or when no item is an image; otherwise the first image item's data URL, later
      items being ignored. */
  method HandleImagePaste(items: Option<seq<Item>>) returns (r: Option<string>)
    ensures items.None? ==> r.None?
    ensures items.Some? && r.None? ==> forall j :: 0 <= j < |items.value| ==> !IsImageItem(items.value[j])
    ensures r.Some? ==> items.Some? && exists i :: FirstImageAt(items.value, i) && r.value == items.value[i].dataUrl
  {
    if items.None? {
      return None;
    }
    var index := FirstImageIndex(items.value);
    if index.None? {
      return None;
    }
    r := Some(items.value[index.value].dataUrl);
  }

  /** `setupGlobalShortcut`: what is forwarded to the host, and nothing when the bridge
      or its method is missing. */
  function ForwardShortcut(bridge: bool, accelerator: string, kind: string): (r: Option<(string, string)>)
    ensures r.Some? <==> bridge
    ensures r.Some? ==> r.value == (accelerator, kind)
  {
    if bridge then Some((accelerator, kind)) else None
  }
}
