/**
 * The dashboard "tab panel": a panel whose configuration is an ordered list of
 * tabs, each naming another panel.  Rendering produces a tab strip (with edit
 * affordances in edit mode) and one content block per tab, of which only the
 * first is visible on page load.
 *
 * Markup is not built: the render result is an abstract description of the
 * menu items, the content blocks and the client-side metadata.  The JSON
 * decoder, the policy check and the nested rendering engine are parameters.
 */
module DashboardTabsPanel {
  import opened Wrappers

  type Phid = string

  /** One configured tab: the referenced panel's ID and an optional label. */
  datatype TabSpec = TabSpec(panelID: Option<int>, name: Option<string>)

  /**
   * The stored `config` property: a structured list, or any other value, which
   * older versions of the panel stored as raw JSON text.
   */
  datatype RawConfig = Structured(specs: seq<TabSpec>) | LegacyJson(text: string)

  datatype Panel = Panel(id: int, phid: Phid, name: string, uri: string, config: RawConfig)

  /** What the rendering engine tells this panel type about the render in progress. */
  datatype Engine = Engine(isEditMode: bool, parentPanelPhids: seq<Phid>)

  /** The workflow endpoints linked from the tab strip, with their query parameters. */
  datatype Uri =
    | RenameTabUri(panelID: int, target: nat)
    | RemoveTabUri(panelID: int, target: nat)
    | AddTabUri(panelID: int, after: Option<nat>)
    | EditPanelUri(subpanelID: Option<int>)
    | PanelDetailsUri(uri: string)

  /** An entry of a dropdown action list. */
  datatype Action =
    | Action(name: string, icon: string, href: Option<Uri>, workflow: bool, disabled: bool)
    | Divider

  /**
   * An item of the tab strip.  Tab items carry their config index as metadata;
   * the trailing "Add Tab..." item carries none.
   */
  datatype MenuItem = MenuItem(name: string, selected: bool, tabIndex: Option<nat>, dropdown: Option<seq<Action>>)

  /** A page-unique DOM node id, drawn from a global counter. */
  datatype NodeId = UniqueNode(serial: nat)

  /** What a content block shows: a nested panel render, or the placeholder. */
  datatype PanelContent =
    | Nested(panel: Panel, parentPanelPhids: seq<Phid>, asyncRendering: bool, showHeader: bool, movable: bool)
    | InvalidPanel

  datatype ContentBlock = ContentBlock(id: NodeId, hidden: bool, content: PanelContent)

  datatype Body = Blocks(blocks: seq<ContentBlock>) | EmptyState(message: string)

  /**
   * The container: the tab strip, the body, and the `panels` metadata mapping
   * each config index to the node id of its content block.
   */
  datatype Rendered = Rendered(items: seq<MenuItem>, body: Body, panels: map<nat, NodeId>)

  /** The tab selected on every page load; selection is not persisted. */
  const SelectedTab: nat := 0

  const UnnamedTab := "Unnamed Tab"
  const AddTabLabel := "Add Tab..."
  const EditEmptyMessage := "This tab panel does not have any tabs yet. Use \"Add Tab\" to create or place a tab."
  const ViewEmptyMessage := "This tab panel does not have any tabs yet."

  /**
   * `getPanelConfiguration`: a structured list is returned as it is; anything
   * else is decoded as JSON, and a decoding failure gives the empty list.
   * The function is total: it never fails.
   */
  function PanelConfiguration(config: RawConfig, jsonDecode: string -> Option<seq<TabSpec>>): (r: seq<TabSpec>)
    ensures config.Structured? ==> r == config.specs
    ensures config.LegacyJson? && jsonDecode(config.text).Some? ==> r == jsonDecode(config.text).value
    ensures config.LegacyJson? && jsonDecode(config.text).None? ==> r == []
  {
    match config
    case Structured(specs) => specs
    case LegacyJson(text) =>
      match jsonDecode(text)
      case Some(specs) => specs
      case None => []
  }

  /**
   * The two encodings agree: a list stored as JSON text by an encoder that the
   * decoder inverts reads back as the same list stored natively.
   */
  lemma LegacyEncodingAgrees(specs: seq<TabSpec>, jsonEncode: seq<TabSpec> -> string,
                             jsonDecode: string -> Option<seq<TabSpec>>)
    requires jsonDecode(jsonEncode(specs)) == Some(specs)
    ensures PanelConfiguration(LegacyJson(jsonEncode(specs)), jsonDecode)
         == PanelConfiguration(Structured(specs), jsonDecode)
  {
  }

  /** The sub-panel a tab refers to, if the lookup found it. */
  function Subpanel(spec: TabSpec, panels: map<int, Panel>): (r: Option<Panel>)
    ensures r.Some? <==> spec.panelID.Some? && spec.panelID.value in panels
    ensures r.Some? ==> r.value == panels[spec.panelID.value]
  {
    if spec.panelID.Some? && spec.panelID.value in panels then Some(panels[spec.panelID.value]) else None
  }

  predicate HasExplicitName(spec: TabSpec)
  {
    spec.name.Some? && |spec.name.value| > 0
  }

  predicate HasNamedSubpanel(subpanel: Option<Panel>)
  {
    subpanel.Some? && |subpanel.value.name| > 0
  }

  /**
   * A tab's label: a non-empty explicit name wins; otherwise the sub-panel's
   * name; if that is missing or empty, "Unnamed Tab".  A label is never empty.
   */
  function TabLabel(spec: TabSpec, subpanel: Option<Panel>): (r: string)
    ensures |r| > 0
    ensures HasExplicitName(spec) ==> r == spec.name.value
    ensures !HasExplicitName(spec) && HasNamedSubpanel(subpanel) ==> r == subpanel.value.name
    ensures !HasExplicitName(spec) && !HasNamedSubpanel(subpanel) ==> r == UnnamedTab
  {
    var name := spec.name.GetOr("");
    var name := if |name| == 0 && subpanel.Some? then subpanel.value.name else name;
    if |name| == 0 then UnnamedTab else name
  }

  /**
   * A tab's edit-mode dropdown: Rename Tab, Remove Tab, a divider, Edit Panel
   * and View Panel Details, in that order.  Rename and remove target this tab's
   * index; Edit Panel is disabled exactly when there is no sub-panel or the
   * viewer cannot edit it; View Panel Details is disabled and has no href
   * exactly when there is no sub-panel.
   */
  function TabDropdown(panelID: int, idx: nat, spec: TabSpec, subpanel: Option<Panel>,
                       canEdit: Panel -> bool): (r: seq<Action>)
    ensures |r| == 5
    ensures forall k :: 0 <= k < 5 ==> (r[k].Divider? <==> k == 2)
    ensures r[0].name == "Rename Tab" && r[0].href == Some(RenameTabUri(panelID, idx))
    ensures r[1].name == "Remove Tab" && r[1].href == Some(RemoveTabUri(panelID, idx))
    ensures r[3].name == "Edit Panel" && r[3].href == Some(EditPanelUri(spec.panelID))
    ensures r[4].name == "View Panel Details"
    ensures r[0].workflow && r[1].workflow && r[3].workflow && !r[4].workflow
    ensures !r[0].disabled && !r[1].disabled
    ensures r[3].disabled <==> subpanel.None? || !canEdit(subpanel.value)
    ensures r[4].disabled <==> subpanel.None?
    ensures subpanel.None? ==> r[4].href.None?
    ensures subpanel.Some? ==> r[4].href == Some(PanelDetailsUri(subpanel.value.uri))
  {
    var detailsUri := if subpanel.Some? then Some(PanelDetailsUri(subpanel.value.uri)) else None;
    var mayEdit := if subpanel.Some? then canEdit(subpanel.value) else false;
    [ Action("Rename Tab", "fa-pencil", Some(RenameTabUri(panelID, idx)), true, false),
      Action("Remove Tab", "fa-times", Some(RemoveTabUri(panelID, idx)), true, false),
      Divider,
      Action("Edit Panel", "fa-pencil", Some(EditPanelUri(spec.panelID)), true, !mayEdit),
      Action("View Panel Details", "fa-window-maximize", detailsUri, false, subpanel.None?) ]
  }

  /**
   * The tab-strip item for the tab at `idx`: its label, selected exactly when
   * it is the first tab, its index as metadata, and a dropdown exactly in
   * edit mode.
   */
  function TabItem(panelID: int, idx: nat, spec: TabSpec, subpanel: Option<Panel>,
                   canEdit: Panel -> bool, isEdit: bool): (r: MenuItem)
    ensures r.name == TabLabel(spec, subpanel)
    ensures r.selected <==> idx == 0
    ensures r.tabIndex == Some(idx)
    ensures r.dropdown.Some? <==> isEdit
    ensures isEdit ==> r.dropdown.value == TabDropdown(panelID, idx, spec, subpanel, canEdit)
  {
    var dropdown := if isEdit then Some(TabDropdown(panelID, idx, spec, subpanel, canEdit)) else None;
    MenuItem(TabLabel(spec, subpanel), idx == SelectedTab, Some(idx), dropdown)
  }

  /**
   * The `after` parameter of the add-tab link.  The source tests the last
   * index for truthiness, so a last index of 0 (a single tab) gives no
   * parameter, exactly as no tab at all does.
   */
  function AfterParameter(lastIdx: Option<nat>): (r: Option<nat>)
    ensures r.Some? <==> lastIdx.Some? && lastIdx.value != 0
    ensures r.Some? ==> r == lastIdx
  {
    if lastIdx.Some? && lastIdx.value != 0 then lastIdx else None
  }

  /** The trailing "Add Tab..." item: never selected, one "Add Existing Panel" action. */
  function AddTabItem(panelID: int, lastIdx: Option<nat>): (r: MenuItem)
    ensures r.name == AddTabLabel && !r.selected && r.tabIndex.None?
    ensures r.dropdown.Some? && |r.dropdown.value| == 1
    ensures r.dropdown.value[0].Action? && r.dropdown.value[0].name == "Add Existing Panel"
    ensures r.dropdown.value[0].workflow && !r.dropdown.value[0].disabled
    ensures r.dropdown.value[0].href == Some(AddTabUri(panelID, AfterParameter(lastIdx)))
  {
    var addLast := AddTabUri(panelID, AfterParameter(lastIdx));
    MenuItem(AddTabLabel, false, None,
             Some([Action("Add Existing Panel", "fa-window-maximize", Some(addLast), true, false)]))
  }

  /** The last config index, as the first loop leaves it. */
  function LastIndex(n: nat): (r: Option<nat>)
    ensures r.Some? <==> n > 0
    ensures r.Some? ==> r.value == n - 1
  {
    if n == 0 then None else Some(n - 1)
  }

  /**
   * After a full pass over `n` tabs, the add-tab link carries `after` exactly
   * when there are at least two tabs, and then it names the last index.
   */
  lemma AfterNeedsTwoTabs(n: nat)
    ensures AfterParameter(LastIndex(n)).Some? <==> n >= 2
    ensures n >= 2 ==> AfterParameter(LastIndex(n)) == Some(n - 1)
  {
  }

  /**
   * What a tab's content block shows: the nested render of its sub-panel,
   * given the parent chain extended by this panel, with asynchronous rendering
   * enabled, without headers and not movable; or the "(Invalid Panel)" placeholder when there is no sub-panel.
   */
  function TabContent(subpanel: Option<Panel>, parentPhids: seq<Phid>): (r: PanelContent)
    ensures r.InvalidPanel? <==> subpanel.None?
    ensures r.Nested? ==> r.panel == subpanel.value && r.parentPanelPhids == parentPhids
    ensures r.Nested? ==> r.asyncRendering && !r.showHeader && !r.movable
  {
    if subpanel.Some? then Nested(subpanel.value, parentPhids, true, false, false) else InvalidPanel
  }

  /** The empty-state text, which differs between edit and view mode. */
  function EmptyMessage(isEdit: bool): (r: string)
    ensures isEdit ==> r == EditEmptyMessage
    ensures !isEdit ==> r == ViewEmptyMessage
  {
    if isEdit then EditEmptyMessage else ViewEmptyMessage
  }

  /** Edit mode and view mode show different empty-state texts. */
  lemma EmptyMessagesDiffer()
    ensures EmptyMessage(true) != EmptyMessage(false)
  {
    assert |EmptyMessage(true)| != |EmptyMessage(false)|;
  }

  /**
   * The first loop of `renderPanelContent`: one fresh node id per config
   * index.  `serial` is the page's unique-id counter, returned advanced.
   */
  method GenerateNodeIds(n: nat, serial: nat) returns (nodeIds: map<nat, NodeId>, nextSerial: nat)
    ensures forall i: nat :: i in nodeIds <==> i < n
    ensures nextSerial == serial + n
    ensures forall i :: i in nodeIds ==> serial <= nodeIds[i].serial < nextSerial
    ensures forall i, j :: i in nodeIds && j in nodeIds && i != j ==> nodeIds[i] != nodeIds[j]
  {
    nodeIds := map[];
    nextSerial := serial;
    var i := 0;
    while i < n
      invariant 0 <= i <= n
      invariant nextSerial == serial + i
      invariant forall k: nat :: k in nodeIds <==> k < i
      invariant forall k :: k in nodeIds ==> nodeIds[k] == UniqueNode(serial + k)
    {
      nodeIds := nodeIds[i := UniqueNode(nextSerial)];
      nextSerial := nextSerial + 1;
      i := i + 1;
    }
  }

  /**
   * The second loop of `renderPanelContent` and the add-tab item after it:
   * one tab item per config entry in order, then "Add Tab..." in edit mode.
   * Exactly the first tab is selected, and every label is non-empty.
   */
  method BuildTabStrip(panelID: int, config: seq<TabSpec>, panels: map<int, Panel>,
                       canEdit: Panel -> bool, isEdit: bool)
    returns (items: seq<MenuItem>)
    ensures |items| == |config| + (if isEdit then 1 else 0)
    ensures forall i :: 0 <= i < |config| ==>
      items[i] == TabItem(panelID, i, config[i], Subpanel(config[i], panels), canEdit, isEdit)
    ensures isEdit ==> items[|config|] == AddTabItem(panelID, LastIndex(|config|))
    ensures forall i :: 0 <= i < |items| ==> (items[i].selected <==> i == 0 && i < |config|)
    ensures forall i :: 0 <= i < |items| ==> |items[i].name| > 0
  {
    items := [];
    var lastIdx: Option<nat> := None;
    var i := 0;
    while i < |config|
      invariant 0 <= i <= |config|
      invariant |items| == i
      invariant lastIdx == LastIndex(i)
      invariant forall k :: 0 <= k < i ==>
        items[k] == TabItem(panelID, k, config[k], Subpanel(config[k], panels), canEdit, isEdit)
    {
      var subpanel := Subpanel(config[i], panels);
      items := items + [TabItem(panelID, i, config[i], subpanel, canEdit, isEdit)];
      lastIdx := Some(i);
      i := i + 1;
    }

    if isEdit {
      items := items + [AddTabItem(panelID, lastIdx)];
    }
  }

  /**
   * The third loop of `renderPanelContent`: one content block per config
   * entry in order, keyed by that index's node id, hidden unless it is the
   * selected (first) tab.
   */
  method BuildContentBlocks(config: seq<TabSpec>, panels: map<int, Panel>,
                            nodeIds: map<nat, NodeId>, parentPhids: seq<Phid>)
    returns (content: seq<ContentBlock>)
    requires forall i: nat :: i < |config| ==> i in nodeIds
    ensures |content| == |config|
    ensures forall i :: 0 <= i < |content| ==>
      && content[i].id == nodeIds[i]
      && (content[i].hidden <==> i != 0)
      && content[i].content == TabContent(Subpanel(config[i], panels), parentPhids)
  {
    content := [];
    var i := 0;
    while i < |config|
      invariant 0 <= i <= |config|
      invariant |content| == i
      invariant forall k :: 0 <= k < i ==>
        content[k] == ContentBlock(nodeIds[k], k != SelectedTab, TabContent(Subpanel(config[k], panels), parentPhids))
    {
      var subpanel := Subpanel(config[i], panels);
      content := content + [ContentBlock(nodeIds[i], i != SelectedTab, TabContent(subpanel, parentPhids))];
      i := i + 1;
    }
  }

  /**
   * `renderPanelContent`.  `panels` is the result of looking up the config's
   * panel IDs for the viewer, `canEdit` the viewer's edit capability, and
   * `serial` the state of the page's unique-node-id counter, returned updated.
   */
  method RenderPanelContent(panel: Panel, engine: Engine, panels: map<int, Panel>,
                            canEdit: Panel -> bool, jsonDecode: string -> Option<seq<TabSpec>>,
                            serial: nat)
    returns (out: Rendered, nextSerial: nat)
    // The node-id map: one entry per config index, fresh and pairwise distinct ids.
    ensures var n := |PanelConfiguration(panel.config, jsonDecode)|;
      && (forall i: nat :: i in out.panels <==> i < n)
      && nextSerial == serial + n
      && (forall i :: i in out.panels ==> serial <= out.panels[i].serial < nextSerial)
      && (forall i, j :: i in out.panels && j in out.panels && i != j ==> out.panels[i] != out.panels[j])
    // The tab strip: one item per tab in config order, then "Add Tab..." in edit mode.
    ensures var config := PanelConfiguration(panel.config, jsonDecode);
      && |out.items| == |config| + (if engine.isEditMode then 1 else 0)
      && (forall i :: 0 <= i < |config| ==>
            out.items[i] == TabItem(panel.id, i, config[i], Subpanel(config[i], panels), canEdit, engine.isEditMode))
      && (engine.isEditMode ==> out.items[|config|] == AddTabItem(panel.id, LastIndex(|config|)))
    ensures var config := PanelConfiguration(panel.config, jsonDecode);
      forall i :: 0 <= i < |out.items| ==> (out.items[i].selected <==> i == 0 && i < |config|)
    ensures forall i :: 0 <= i < |out.items| ==> |out.items[i].name| > 0
    // The body: one block per tab in config order, only the first visible; or the empty state.
    ensures var config := PanelConfiguration(panel.config, jsonDecode);
      && (|config| == 0 <==> out.body.EmptyState?)
      && (out.body.EmptyState? ==> out.body.message == EmptyMessage(engine.isEditMode))
      && (out.body.Blocks? ==> |out.body.blocks| == |config|)
    ensures var config := PanelConfiguration(panel.config, jsonDecode);
      out.body.Blocks? ==> forall i :: 0 <= i < |out.body.blocks| ==>
        && i in out.panels
        && out.body.blocks[i].id == out.panels[i]
        && (out.body.blocks[i].hidden <==> i != 0)
        && out.body.blocks[i].content
           == TabContent(Subpanel(config[i], panels), engine.parentPanelPhids + [panel.phid])
  {
    var isEdit := engine.isEditMode;
    var config := PanelConfiguration(panel.config, jsonDecode);

    var nodeIds;
    nodeIds, nextSerial := GenerateNodeIds(|config|, serial);

    var items := BuildTabStrip(panel.id, config, panels, canEdit, isEdit);

    var parentPhids := engine.parentPanelPhids + [panel.phid];
    var content := BuildContentBlocks(config, panels, nodeIds, parentPhids);

    var body := if |content| == 0 then EmptyState(EmptyMessage(isEdit)) else Blocks(content);
    out := Rendered(items, body, nodeIds);
  }

  /**
   * A scenario in view mode: the first tab has no name and resolves to panel
   * "A"; the second is named "B" and refers to a panel that was not found.
   */
  method ViewModeScenario(canEdit: Panel -> bool, jsonDecode: string -> Option<seq<TabSpec>>)
  {
    var a := Panel(1, "PHID-DSHP-a", "A", "/W1", Structured([]));
    var config := [TabSpec(Some(1), None), TabSpec(Some(2), Some("B"))];
    var host := Panel(9, "PHID-DSHP-tabs", "Tabs", "/W9", Structured(config));
    var out, next := RenderPanelContent(host, Engine(false, ["PHID-DSHP-root"]), map[1 := a], canEdit, jsonDecode, 7);
    assert |out.items| == 2;
    assert out.items[0].name == "A" && out.items[0].selected && out.items[0].dropdown.None?;
    assert out.items[1].name == "B" && !out.items[1].selected;
    assert out.body.Blocks? && |out.body.blocks| == 2;
    assert out.body.blocks[0].content == Nested(a, ["PHID-DSHP-root", "PHID-DSHP-tabs"], true, false, false);
    assert !out.body.blocks[0].hidden;
    assert out.body.blocks[1].content == InvalidPanel && out.body.blocks[1].hidden;
    assert next == 9;
  }

  /**
   * A scenario in edit mode: one unnamed tab whose panel was not found.  Its
   * actions on the panel are disabled, and the add-tab link carries no
   * `after` parameter.
   */
  method SingleTabEditScenario(canEdit: Panel -> bool, jsonDecode: string -> Option<seq<TabSpec>>)
  {
    var host := Panel(9, "PHID-DSHP-tabs", "Tabs", "/W9", Structured([TabSpec(Some(4), None)]));
    var out, next := RenderPanelContent(host, Engine(true, []), map[], canEdit, jsonDecode, 0);
    assert |out.items| == 2;
    assert out.items[0].name == UnnamedTab;
    assert out.items[0].dropdown.value[0].href == Some(RenameTabUri(9, 0));
    assert out.items[0].dropdown.value[3].disabled && out.items[0].dropdown.value[4].disabled;
    assert out.items[1].dropdown.value[0].href == Some(AddTabUri(9, None));
    assert out.body.Blocks? && out.body.blocks[0].content == InvalidPanel;
  }
}
