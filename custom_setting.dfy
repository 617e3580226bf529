/** The web console's layout store: for each page, the panels it shows and their CSS style.
    `togglePanel` flips a panel between hidden and shown, `setLayoutInfo` records a new
    size for a visible panel, and the two getters read a panel or its style. Styles are
    property maps whose values are JavaScript values, so `display` and `width` may be
    absent (undefined). */
module CustomSetting {
  import opened Wrappers
  import opened Js

  /** `TLayoutConfig`: a panel's id and its inline style. */
  datatype Panel = Panel(id: string, style: map<string, Value>)

  type Layout = map<string, map<string, Panel>>

  /** `style.display` of a stored panel. */
  function Display(p: Panel): Value { if "display" in p.style then p.style["display"] else Undefined }

  /** `style.width` of a stored panel. */
  function Width(p: Panel): Value { if "width" in p.style then p.style["width"] else Undefined }

  predicate Present(layout: Layout, pageId: string, panelId: string) {
    pageId in layout && panelId in layout[pageId]
  }

  /** The display a toggle writes: "flex" for a hidden panel, "none" for anything else
      (a shown panel, or one whose display was never set). */
  function Toggled(display: Value): (r: Value)
    ensures r == Str("flex") || r == Str("none")
    ensures r == Str("flex") <==> display == Str("none")
  {
    if display == Str("none") then Str("flex") else Str("none")
  }

  /** The layout with one panel's style replaced. */
  function WithStyle(layout: Layout, pageId: string, panelId: string, style: map<string, Value>): Layout
    requires Present(layout, pageId, panelId)
  {
    var page := layout[pageId];
    layout[pageId := page[panelId := page[panelId].(style := style)]]
  }

  /** The layout after `togglePanel(pageId, panelId)`. */
  function ToggleLayout(layout: Layout, pageId: string, panelId: string): Layout
    requires Present(layout, pageId, panelId)
  {
    var p := layout[pageId][panelId];
    WithStyle(layout, pageId, panelId, p.style["display" := Toggled(Display(p))])
  }

  /** The layout after `setLayoutInfo(pageId, panelId, {width, height})`: unchanged for a
      hidden panel; otherwise the width if the panel has a truthy width, else the height. */
  function ResizeLayout(layout: Layout, pageId: string, panelId: string, width: int, height: int): Layout
    requires Present(layout, pageId, panelId)
  {
    var p := layout[pageId][panelId];
    if Display(p) == Str("none") then layout
    else if Truthy(Width(p)) then WithStyle(layout, pageId, panelId, p.style["width" := Num(width)])
    else WithStyle(layout, pageId, panelId, p.style["height" := Num(height)])
  }

  /** The initial layout of the three pages; `panelMinHeight` is the shared minimum height. */
  function DefaultLayout(panelMinHeight: int): (r: Layout)
    ensures r.Keys == {"functionPage", "collectionPage", "storagePage"}
    ensures r["functionPage"].Keys == {"SideBar", "RightPanel", "DependencePanel", "ConsolePanel", "RunningPanel", "Bottom"}
    ensures r["collectionPage"].Keys == {"SideBar", "CollectionPanel", "PolicyPanel", "Bottom"}
    ensures r["storagePage"].Keys == {"SideBar"}
  {
    map[
      "functionPage" := map[
        "SideBar" := Panel("SideBar", map["width" := Num(272), "minWidth" := Num(0)]),
        "RightPanel" := Panel("RightPanel", map["width" := Num(320), "minWidth" := Num(0)]),
        "DependencePanel" := Panel("DependencePanel",
          map["height" := Num(300), "minHeight" := Num(panelMinHeight), "maxHeight" := Num(500)]),
        "ConsolePanel" := Panel("ConsolePanel", map["height" := Num(200), "minHeight" := Num(panelMinHeight)]),
        "RunningPanel" := Panel("RunningPanel", map["height" := Num(200), "minHeight" := Num(panelMinHeight)]),
        "Bottom" := Panel("Bottom", map["height" := Num(40)])],
      "collectionPage" := map[
        "SideBar" := Panel("SideBar", map["width" := Num(300), "minWidth" := Num(0)]),
        "CollectionPanel" := Panel("CollectionPanel", map[]),
        "PolicyPanel" := Panel("PolicyPanel",
          map["height" := Num(200), "minHeight" := Num(panelMinHeight), "maxHeight" := Num(500)]),
        "Bottom" := Panel("Bottom", map["height" := Num(40)])],
      "storagePage" := map[
        "SideBar" := Panel("SideBar", map["width" := Num(300), "minWidth" := Num(0), "maxWidth" := Num(800)])]
    ]
  }

  /** The store. Reaching a page or panel that is not in the layout makes the store's
      callback throw, so the state stays as it was; the mutators report that as `false`. */
  class CustomSettingStore {
    var layoutInfo: Layout

    constructor (panelMinHeight: int)
      ensures layoutInfo == DefaultLayout(panelMinHeight)
    {
      layoutInfo := DefaultLayout(panelMinHeight);
    }

    /** `togglePanel(pageId, panelId)`. */
    method TogglePanel(pageId: string, panelId: string) returns (found: bool)
      modifies this
      ensures found <==> Present(old(layoutInfo), pageId, panelId)
      ensures found ==> layoutInfo == ToggleLayout(old(layoutInfo), pageId, panelId)
      ensures !found ==> layoutInfo == old(layoutInfo)
    {
      if pageId !in layoutInfo || panelId !in layoutInfo[pageId] {
        return false;
      }
      var panel := layoutInfo[pageId][panelId];
      var display := Display(panel);
      var next := if display == Str("none") then Str("flex") else Str("none");
      var page := layoutInfo[pageId];
      layoutInfo := layoutInfo[pageId := page[panelId := panel.(style := panel.style["display" := next])]];
      found := true;
    }

    /** `setLayoutInfo(pageId, panelId, position)`. */
    method SetLayoutInfo(pageId: string, panelId: string, width: int, height: int) returns (found: bool)
      modifies this
      ensures found <==> Present(old(layoutInfo), pageId, panelId)
      ensures found ==> layoutInfo == ResizeLayout(old(layoutInfo), pageId, panelId, width, height)
      ensures !found ==> layoutInfo == old(layoutInfo)
    {
      if pageId !in layoutInfo || panelId !in layoutInfo[pageId] {
        return false;
      }
      found := true;
      var panel := layoutInfo[pageId][panelId];
      if Display(panel) == Str("none") {
        return;
      }
      var page := layoutInfo[pageId];
      var style := if Truthy(Width(panel)) then panel.style["width" := Num(width)] else panel.style["height" := Num(height)];
      layoutInfo := layoutInfo[pageId := page[panelId := panel.(style := style)]];
    }

    /** `getLayoutInfo(pageId, panelId)`: the stored panel. */
    function GetLayoutInfo(pageId: string, panelId: string): (r: Option<Panel>)
      reads this
      ensures r.Some? <==> Present(layoutInfo, pageId, panelId)
      ensures r.Some? ==> r.value == layoutInfo[pageId][panelId]
    {
      if Present(layoutInfo, pageId, panelId) then Some(layoutInfo[pageId][panelId]) else None
    }

    /** `getLayoutInfoStyle(pageId, panelId)`: the stored panel's style. */
    function GetLayoutInfoStyle(pageId: string, panelId: string): (r: Option<map<string, Value>>)
      reads this
      ensures r.Some? <==> GetLayoutInfo(pageId, panelId).Some?
      ensures r.Some? ==> r.value == GetLayoutInfo(pageId, panelId).value.style
    {
      if Present(layoutInfo, pageId, panelId) then Some(layoutInfo[pageId][panelId].style) else None
    }
  }

  // ---------------------------------------------------------------------------
  // Properties

  /** A toggle writes only `display` of the one panel: every other property of its style,
      its id, and every other panel and page are unchanged. */
  lemma ToggleIsLocal(layout: Layout, pageId: string, panelId: string)
    requires Present(layout, pageId, panelId)
    ensures var after := ToggleLayout(layout, pageId, panelId);
      && after.Keys == layout.Keys
      && after[pageId].Keys == layout[pageId].Keys
      && after[pageId][panelId].id == layout[pageId][panelId].id
      && after[pageId][panelId].style.Keys == layout[pageId][panelId].style.Keys + {"display"}
      && Display(after[pageId][panelId]) == Toggled(Display(layout[pageId][panelId]))
      && (forall k :: k in layout[pageId][panelId].style && k != "display" ==>
            after[pageId][panelId].style[k] == layout[pageId][panelId].style[k])
      && (forall q :: q in layout[pageId] && q != panelId ==> after[pageId][q] == layout[pageId][q])
      && (forall g :: g in layout && g != pageId ==> after[g] == layout[g])
  {
  }

  /** Toggling twice restores a panel that was hidden or shown with "flex"; a panel whose
      display was unset (or anything else) ends up shown with "flex". */
  lemma {:induction false} ToggleTwice(layout: Layout, pageId: string, panelId: string)
    requires Present(layout, pageId, panelId)
    ensures var d := Display(layout[pageId][panelId]);
      var twice := ToggleLayout(ToggleLayout(layout, pageId, panelId), pageId, panelId);
      && (d == Str("none") || d == Str("flex") ==> Display(twice[pageId][panelId]) == d)
      && (d != Str("none") ==> Display(twice[pageId][panelId]) == Str("flex"))
  {
    var once := ToggleLayout(layout, pageId, panelId);
    ToggleIsLocal(layout, pageId, panelId);
    ToggleIsLocal(once, pageId, panelId);
  }

  /** A hidden panel does not resize: the whole layout is unchanged. */
  lemma HiddenPanelKeepsLayout(layout: Layout, pageId: string, panelId: string, width: int, height: int)
    requires Present(layout, pageId, panelId) && Display(layout[pageId][panelId]) == Str("none")
    ensures ResizeLayout(layout, pageId, panelId, width, height) == layout
  {
  }

  /** On a visible panel, exactly one of `width` and `height` is written: the width when the
      panel has a truthy width, the height otherwise. Its `display`, its other properties,
      and all other panels and pages stay as they were. */
  lemma ResizeIsLocal(layout: Layout, pageId: string, panelId: string, width: int, height: int)
    requires Present(layout, pageId, panelId) && Display(layout[pageId][panelId]) != Str("none")
    ensures var before := layout[pageId][panelId];
      var after := ResizeLayout(layout, pageId, panelId, width, height);
      var key := if Truthy(Width(before)) then "width" else "height";
      var value := if Truthy(Width(before)) then width else height;
      && after.Keys == layout.Keys
      && after[pageId].Keys == layout[pageId].Keys
      && after[pageId][panelId].id == before.id
      && after[pageId][panelId].style.Keys == before.style.Keys + {key}
      && after[pageId][panelId].style[key] == Num(value)
      && (forall k :: k in before.style && k != key ==> after[pageId][panelId].style[k] == before.style[k])
      && (forall q :: q in layout[pageId] && q != panelId ==> after[pageId][q] == layout[pageId][q])
      && (forall g :: g in layout && g != pageId ==> after[g] == layout[g])
  {
  }

  /** Resizing never changes whether a panel is hidden or shown. */
  lemma ResizeKeepsDisplay(layout: Layout, pageId: string, panelId: string, width: int, height: int)
    requires Present(layout, pageId, panelId)
    ensures var after := ResizeLayout(layout, pageId, panelId, width, height);
      Present(after, pageId, panelId) && Display(after[pageId][panelId]) == Display(layout[pageId][panelId])
  {
    if Display(layout[pageId][panelId]) != Str("none") {
      ResizeIsLocal(layout, pageId, panelId, width, height);
    }
  }

  /** A panel with a zero width is falsy, so a resize writes its height, not its width. */
  lemma ZeroWidthResizesHeight(layout: Layout, pageId: string, panelId: string, width: int, height: int)
    requires Present(layout, pageId, panelId)
    requires Display(layout[pageId][panelId]) != Str("none") && Width(layout[pageId][panelId]) == Num(0)
    ensures var after := ResizeLayout(layout, pageId, panelId, width, height);
      after[pageId][panelId].style["height"] == Num(height)
      && Width(after[pageId][panelId]) == Num(0)
  {
    ResizeIsLocal(layout, pageId, panelId, width, height);
  }
}
