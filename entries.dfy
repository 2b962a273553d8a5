/**
 * The performance entries the trackers receive, one variant per observed
 * entry type, carrying the fields the trackers read. Times are integer
 * milliseconds relative to the page's time origin.
 */
module Entries {
  import opened Js

  /** `Node.TEXT_NODE`. */
  const TEXT_NODE: nat := 3

  /** A DOM node as far as the logger looks at it: its type and its parent element, if any. */
  datatype DomNode = DomNode(id: nat, nodeType: nat, parentElement: Option<DomNode>)

  datatype Rect = Rect(top: int, right: int, bottom: int, left: int)

  /** One `LayoutShiftAttribution`; its `node` is null when the node is no longer in the document. */
  datatype ShiftSource = ShiftSource(previousRect: Rect, currentRect: Rect, node: Option<DomNode>)

  datatype Entry =
    | Navigation(name: string, domContentLoadedEventStart: int, domContentLoadedEventEnd: int,
                 loadEventStart: int, loadEventEnd: int)
    | Paint(name: string, startTime: int)
    | FirstInput(name: string, startTime: int, duration: int, target: Option<DomNode>)
    | LargestContentfulPaint(url: string, startTime: int, element: Option<DomNode>)
      /** `scoreText` is the text of the shift value rounded to five decimals. */
    | LayoutShift(scoreText: string, startTime: int, sources: seq<ShiftSource>)
    | LongTask(startTime: int, duration: int)
    | Resource(name: string, startTime: int, duration: int, initiatorType: string,
               renderBlockingStatus: string)

  /** The observer `type` under which the host delivers an entry. */
  function EntryType(e: Entry): string
  {
    match e
    case Navigation(_, _, _, _, _) => "navigation"
    case Paint(_, _) => "paint"
    case FirstInput(_, _, _, _) => "first-input"
    case LargestContentfulPaint(_, _, _) => "largest-contentful-paint"
    case LayoutShift(_, _, _) => "layout-shift"
    case LongTask(_, _) => "longtask"
    case Resource(_, _, _, _, _) => "resource"
  }
}
