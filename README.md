# Tab panel rendering and the unhandled-exception page

A Dafny model of two presentation components of Phabricator.

- **The dashboard tab panel** (`DashboardTabsPanel`, in `tabs_panel.dfy`) is a panel
  whose stored configuration lists tabs. Each tab names another panel.
  - `PanelConfiguration` reads the configuration. It accepts a structured list, or JSON
    text from older versions, and falls back to the empty list.
  - `RenderPanelContent` describes the rendered panel: the tab strip with its edit-mode
    dropdowns and the trailing "Add Tab..." item, one content block per tab, and the
    `panels` metadata that maps each tab index to the node id of its content block.
    It calls `GenerateNodeIds`, `BuildTabStrip` and `BuildContentBlocks`, which hold the
    source's three loops; `BuildTabStrip` also tracks the per-iteration `$last_idx`.
  - The rules for labels, selection, dropdowns and content are functions (`TabLabel`,
    `TabItem`, `TabDropdown`, `AddTabItem`, `TabContent`, `EmptyMessage`). Their
    contracts state the rules. The method's contract ties each item and block to
    these functions and also states the rules over the whole render.
- **The unhandled-exception response** (`UnhandledException`, in `unhandled_exception.dfy`)
  is a class. Its fields are the exception, the show-stack-traces flag and a ghost count
  of log calls.
  - Setting the exception logs it, except for a malformed-request exception marked as
    unlogged.
  - The derived members give the status code (always 500), the page title, the detail
    block (heading, message, CSS classes, optional stack block) and the plain-text line.

The collaborators are parameters:
- the JSON decoder is a partial function `string -> Option<seq<TabSpec>>`;
- the panel query result is a map from ID to `Panel`;
- the viewer's edit capability is a predicate `Panel -> bool`;
- the stack-trace renderer is `seq<StackFrame> -> Option<string>`, where `None` stands for a
  renderer that throws;
- logging is the ghost counter `logCount`.

The page's unique-node-id counter is threaded through `RenderPanelContent`. It takes the
counter's value and returns it advanced by the ids this panel draws, which are
`UniqueNode(serial)`; ids drawn by the nested renders are not counted (see "## Left out").

With 0 or 1 tabs, the "Add Tab..." link carries no `after` parameter. The source tests
`$last_idx` for truthiness, so a single tab at index 0 is treated like no tabs at all.
The model keeps this behaviour (`AfterParameter`, `AfterNeedsTwoTabs`). The model does
not call this a bug, because the add endpoint is not modelled, so what it does without
the parameter is not known here.

## Model

| member | source | states |
|---|---|---|
| DashboardTabsPanel.PanelConfiguration | src/applications/dashboard/paneltype/PhabricatorDashboardTabsPanelType.php:31-44 | Total. A structured list is returned unchanged. Any other stored value is JSON-decoded. A decoding failure gives the empty list. |
| DashboardTabsPanel.LegacyEncodingAgrees | src/applications/dashboard/paneltype/PhabricatorDashboardTabsPanelType.php:31-44 | A list stored as JSON text, by an encoder that the decoder inverts, reads back the same as that list stored natively. |
| DashboardTabsPanel.Subpanel | src/applications/dashboard/paneltype/PhabricatorDashboardTabsPanelType.php:87-88 | A tab has a sub-panel exactly when it has a panel ID and the lookup map holds that ID. The sub-panel is the map's entry. |
| DashboardTabsPanel.TabLabel | src/applications/dashboard/paneltype/PhabricatorDashboardTabsPanelType.php:90-99 | A non-empty explicit name wins. Otherwise a non-empty sub-panel name is used. Otherwise the label is "Unnamed Tab". The label is never empty. |
| DashboardTabsPanel.TabDropdown | src/applications/dashboard/paneltype/PhabricatorDashboardTabsPanelType.php:108-169 | Five entries in order: Rename Tab, Remove Tab, a divider, Edit Panel, View Panel Details. Rename and remove target the tab's index. Edit Panel is disabled iff there is no sub-panel or the viewer cannot edit it. View Panel Details is disabled iff there is no sub-panel, and its href is then absent. |
| DashboardTabsPanel.TabItem | src/applications/dashboard/paneltype/PhabricatorDashboardTabsPanelType.php:101-170 | A tab item has the tab's label and its index as metadata. It is selected iff its index is 0. It has a dropdown iff in edit mode, and the dropdown is `TabDropdown`. |
| DashboardTabsPanel.AfterParameter | src/applications/dashboard/paneltype/PhabricatorDashboardTabsPanelType.php:181-184 | `after` is present iff the last index exists and is non-zero (PHP truthiness). When present it is that index. |
| DashboardTabsPanel.LastIndex | src/applications/dashboard/paneltype/PhabricatorDashboardTabsPanelType.php:85-175 | After the tab loop, `$last_idx` is null for no tabs and otherwise the last index, n - 1. |
| DashboardTabsPanel.AfterNeedsTwoTabs | src/applications/dashboard/paneltype/PhabricatorDashboardTabsPanelType.php:177-184 | After n tabs, `after` is present iff n >= 2, and it is then n - 1. With zero tabs or a single tab there is no `after`. |
| DashboardTabsPanel.AddTabItem | src/applications/dashboard/paneltype/PhabricatorDashboardTabsPanelType.php:177-199 | The "Add Tab..." item is never selected and has no tab index. It has one enabled workflow action, "Add Existing Panel", linking to the add endpoint with the truthiness-filtered `after`. |
| DashboardTabsPanel.TabContent | src/applications/dashboard/paneltype/PhabricatorDashboardTabsPanelType.php:212-228 | "(Invalid Panel)" iff there is no sub-panel. Otherwise the nested render of the sub-panel, given the extended parent chain, with asynchronous rendering enabled, without headers and not movable. |
| DashboardTabsPanel.EmptyMessage | src/applications/dashboard/paneltype/PhabricatorDashboardTabsPanelType.php:239-247 | The empty-state text differs between edit mode (mentions "Add Tab") and view mode. |
| DashboardTabsPanel.EmptyMessagesDiffer | src/applications/dashboard/paneltype/PhabricatorDashboardTabsPanelType.php:239-247 | The edit-mode and view-mode empty-state texts are different. |
| DashboardTabsPanel.GenerateNodeIds | src/applications/dashboard/paneltype/PhabricatorDashboardTabsPanelType.php:57-60 | The map has exactly the keys 0..n-1. Its ids are pairwise distinct and drawn from the counter range [serial, serial + n). The counter advances by n. |
| DashboardTabsPanel.BuildTabStrip | src/applications/dashboard/paneltype/PhabricatorDashboardTabsPanelType.php:83-199 | One `TabItem` per config entry, in config order. In edit mode only, `AddTabItem` follows, with the last index the loop left behind. Exactly item 0 is selected, and only when a tab exists. Every label is non-empty. |
| DashboardTabsPanel.BuildContentBlocks | src/applications/dashboard/paneltype/PhabricatorDashboardTabsPanelType.php:210-237 | One block per config entry, in order. Block i carries the node id generated for index i. It is hidden iff i is not 0. It holds `TabContent` of the tab's sub-panel and the given parent chain. |
| DashboardTabsPanel.RenderPanelContent | src/applications/dashboard/paneltype/PhabricatorDashboardTabsPanelType.php:46-275 | The node-id map has exactly the keys 0..n-1. Its ids are fresh and pairwise distinct, and the same map is the container's `panels` metadata. The items are one `TabItem` per tab in config order, then `AddTabItem` in edit mode only. Exactly item 0 is selected, and only when a tab exists. Every label is non-empty. With no tabs the body is the mode's empty-state message. Otherwise there is one block per tab in order, block i has node id `panels[i]`, only block 0 is visible, and its content is `TabContent` with the engine's parent PHIDs plus this panel's PHID. |
| UnhandledException.UnhandledExceptionResponse.constructor | src/aphront/response/AphrontUnhandledExceptionResponse.php:6-7 | There is no exception before one is set. Stack traces are off (PHP null is falsy). Nothing has been logged. |
| UnhandledException.UnhandledExceptionResponse.SetShowStackTraces | src/aphront/response/AphrontUnhandledExceptionResponse.php:9-16 | The getter then returns the value passed. The exception and the log are unchanged. |
| UnhandledException.UnhandledExceptionResponse.SetException | src/aphront/response/AphrontUnhandledExceptionResponse.php:18-37 | The exception is stored in every case. It is logged exactly once, except that a malformed-request exception with `isUnlogged` is logged zero times. The stack-trace flag is unchanged. |
| UnhandledException.UnhandledExceptionResponse.HTTPResponseCode | src/aphront/response/AphrontUnhandledExceptionResponse.php:39-41 | Always 500, whatever the exception kind. |
| UnhandledException.UnhandledExceptionResponse.ResponseTitle | src/aphront/response/AphrontUnhandledExceptionResponse.php:50-58 | A malformed-request exception gives its own title. Any other exception, or none, gives "Unhandled Exception". |
| UnhandledException.UnhandledExceptionResponse.DetailHeading | src/aphront/response/AphrontUnhandledExceptionResponse.php:67-71 | A malformed-request exception gives its title. Any other exception gives its class name. |
| UnhandledException.UnhandledExceptionResponse.ResponseBody | src/aphront/response/AphrontUnhandledExceptionResponse.php:64-122 | The heading is `DetailHeading` and the body is the message. The classes start with `unhandled-exception-detail`. `unhandled-exception-with-stack` is added, and a stack block produced, iff traces are shown and rendering succeeded. A rendering failure leaves no stack block and the classes exactly `[unhandled-exception-detail]`, as does traces off. |
| UnhandledException.UnhandledExceptionResponse.PlainTextResponseString | src/aphront/response/AphrontUnhandledExceptionResponse.php:124-131 | "{className}: {message}". It uses the class name even for a malformed-request exception. |
| UnhandledException.TitleAndHeading | src/aphront/response/AphrontUnhandledExceptionResponse.php:50-71 | For a malformed request, the page title and the detail heading are the same. Otherwise the title is the generic literal and the heading is the class name. |

## Left out

- HTML construction and escaping: `phutil_tag`, `javelin_tag`, `hsprintf` and `phutil_escape_html_newlines`. The output is an abstract description and the message is carried unescaped.
- JSON parsing: `phutil_json_decode` is a parameter returning `Option`. A stored value that is neither a list nor text, such as null, is treated as text given to the decoder.
- Panel querying: the query result is given as a map. How `ipull` collects IDs, including tabs without a `panelID`, is not modelled, and neither is the skipped query when no IDs are present.
- Policy checks: `hasCapability(CAN_EDIT)` is the predicate `canEdit`, with the viewer implicit.
- Nested rendering: the engine's `renderPanel` is not modelled. A content block records the sub-panel and the settings it is rendered with: the parent chain, asynchronous rendering on, headers off, not movable. The viewer is implicit.
- `AphrontStackTraceView` formatting: modelled as opaque and possibly failing. Only the swallowing of its failure is modelled.
- `phlog`: only counted, in the ghost field `logCount`.
- Unique node ids: `celerity_generate_unique_node_id` uses a global counter. It is modelled as a counter value passed in and returned.
- DashboardTabsPanel.RenderPanelContent: the returned counter `serial + n` counts only this panel's n node ids. In the source the nested renders run inside the third loop, before the method returns, and may draw further ids from the same counter; the model does not count those.
- UnhandledException.UnhandledExceptionResponse.DetailHeading: requires that an exception is set. In the source, `get_class(null)` fails when the body is rendered before `setException`; the requires excludes that failure.
- UnhandledException.UnhandledExceptionResponse.ResponseBody: requires that an exception is set. In the source, rendering the body before `setException` fails (`get_class` and `getMessage` on null); the requires excludes that failure.
- UnhandledException.UnhandledExceptionResponse.PlainTextResponseString: requires that an exception is set. In the source, building the plain text before `setException` fails (`get_class` and `getMessage` on null); the requires excludes that failure.
- URI building (`urisprintf`, `PhutilURI`): URIs are datatype values holding the panel ID and the `target`/`after` parameter.
- Not modelled: translation (`pht`); the CSS resources (`getResources`, `getResponseBodyClass`); `Javelin::initBehavior`; sigils; the `'#'` item hrefs; the constant getters (`getPanelTypeKey`, `getPanelTypeName`, `getIcon`, `getPanelTypeDescription`, `newEditEngineFields`, `shouldRenderAsync`).
- PHP loose equality and non-integer array keys: the configuration is a sequence indexed 0..n-1.
- The exception values: PHP type inspection (`instanceof`, `get_class`) becomes the two constructors of `Exception`, each with a class name.
