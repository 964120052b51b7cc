# Workflow builder, configuration panel, connectors, voice routing and Figma export, in Dafny

This project is a Dafny model of the core of a React single-page "agent architect"
application. The model covers five parts:

- **The workflow editor** (pages/WorkflowBuilder.tsx). It holds a canvas of nodes and
  edges, a selected node and a transient status notice. The page can update a node by id,
  delete a node, add a node, clear the canvas, export the graph as a JSON document and
  import one back. On import, every node is restyled from its type.
- **The node configuration side panel** (components/ConfigurationPanel.tsx). It keeps a
  form buffer synchronised with the selected node. It forwards label, agent and type edits
  unconditionally. A config edit is forwarded only when it is blank or parses as JSON.
  Deleting takes two presses: "Remove", then "Delete".
- **The data-connector page** (pages/Integrations.tsx). Each connector's status can be
  toggled. A disconnected Figma opens a three-step setup wizard instead. The wizard has a
  token field with an advisory prefix warning. The page shows a count of active services.
- **The floating voice-command button** (components/VoiceController.tsx). It lower-cases
  the transcript and navigates to the route of the first keyword the transcript contains.
- **The Figma service** (services/figmaService.ts). It maps each node to a rectangle,
  builds the link to the target file, and validates a token by its length.

State the source changes in place is a Dafny `class`: `WorkflowEditor`, `ConfigPanel`,
`IntegrationsPage` and `VoiceController`. Their methods have `modifies` clauses, and their
`ensures` clauses give the new state. The pure list, string and record transformations are
functions with lemmas about them.

The project has nine files:

| file | module | contents |
|---|---|---|
| wrappers.dfy | `Wrappers` | `Option` and `Result` |
| node_style.dfy | `NodeStyle` | the node-type table and `getNodeStyle` |
| workflow_graph.dfy | `WorkflowGraph` | nodes, edges, update, delete, add, export and import as values |
| workflow_builder.dfy | `WorkflowBuilder` | the editor's state and its handlers |
| json_text.dfy | `JsonText` | `String.prototype.trim` and a recognizer for the JSON grammar of RFC 8259 |
| configuration_panel.dfy | `ConfigurationPanel` | the side panel |
| integrations.dfy | `Integrations` | the connector page |
| voice_controller.dfy | `Voice` | the voice command router |
| figma_service.dfy | `FigmaExport` | the Figma mapping, link and token check |

Some behaviour of the code that the contracts pin down:

- The middle node category is the type string `default`. Apart from the Object.prototype
  names (see Findings), any type other than `input` and `output` is drawn in the `default`
  style.
- `handleDeleteNode` always clears the selection, whichever node is deleted.
- Export followed by import returns the same graph when every node already carries the
  style its type calls for (`ExportImportRoundTrip`). For any other graph, import replaces
  each style and keeps everything else (`ExportImportKeepsContent`).
- Node ids are `nodes.length + Date.now()`. Nothing in the code makes them unique, so no
  uniqueness property is claimed.
- `exportWorkflowToFigma` builds the rectangles but does not return them. Its result is
  only the success flag, the link and the timestamp (`ExportIgnoresGraph`).
- Toggling a connector twice restores the statuses for every id except `figma`. For a
  connected Figma, the second toggle opens the setup wizard instead of reconnecting
  (`FigmaToggleTwice`).

## Model

| member | source | states |
|---|---|---|
| NodeStyle.ConfigFor | pages/WorkflowBuilder.tsx:54-76 | the table entry is one of the three entries, and any type other than input/default/output gets the `default` entry (the corrected lookup of the first Findings row; LookupAsWritten gives the code as written) |
| NodeStyle.GetNodeStyle | pages/WorkflowBuilder.tsx:75-89 | every node gets the same background, colour, radius, padding, font, width 160 and centring; the border and shadow are the input, the output or the default colours according to the type (the corrected lookup of the first Findings row; LookupAsWritten gives the code as written) |
| NodeStyle.Category | pages/WorkflowBuilder.tsx:75-76 | the category of a type is always a known type, and a known type is its own category (the corrected lookup of the first Findings row; LookupAsWritten gives the code as written) |
| NodeStyle.UnknownTypeIsDefault | pages/WorkflowBuilder.tsx:76 | getNodeStyle is total: an unknown type is drawn exactly like a `default` node (the corrected lookup of the first Findings row; LookupAsWritten gives the code as written) |
| NodeStyle.StyleIdentifiesCategory | pages/WorkflowBuilder.tsx:54-89 | two types get the same style if and only if they fall into the same category (the corrected lookup of the first Findings row; LookupAsWritten gives the code as written) |
| NodeStyle.LookupAsWritten | pages/WorkflowBuilder.tsx:76 | indexing the table object finds an own entry exactly for input/default/output, and an inherited member exactly for the Object.prototype names |
| NodeStyle.ShadowAsWritten | pages/WorkflowBuilder.tsx:76-82 | the shadow as written: undefined for an Object.prototype name, the corrected shadow for every other type |
| NodeStyle.BorderAsWritten | pages/WorkflowBuilder.tsx:76-80 | the border as written: "2px solid undefined" for an Object.prototype name, the corrected border for every other type |
| NodeStyle.PrototypeKeyBorder | pages/WorkflowBuilder.tsx:76-82 | for type "constructor", the border as written is "2px solid undefined" and the shadow is undefined, instead of the `default` border and shadow that the fallback intends |
| WorkflowGraph.TypeOrDefault | pages/WorkflowBuilder.tsx:267 | `type \|\| 'default'` is never empty, and it is the node's own type when that type is non-empty |
| WorkflowGraph.MergeData | pages/WorkflowBuilder.tsx:180 | the merged data has the union of the keys; patch keys take the patch's value and other keys keep the node's |
| WorkflowGraph.RetypesNode | pages/WorkflowBuilder.tsx:183 | a patch retypes the node only when it carries a non-empty type, which the style lookup then reads verbatim |
| WorkflowGraph.ApplyPatch | pages/WorkflowBuilder.tsx:177-188 | id and position are kept and the data is merged; a non-empty `type` in the patch sets the type and the style getNodeStyle(type); otherwise type and style are unchanged |
| WorkflowGraph.UpdateNodes | pages/WorkflowBuilder.tsx:174-193 | same length and ids in the same order; nodes with the id are patched, all others are unchanged; an unknown id leaves the list unchanged |
| WorkflowGraph.UpdateKeepsCanonical | pages/WorkflowBuilder.tsx:174-193 | an update keeps every node drawn in the style its type calls for |
| WorkflowGraph.RetypeSetsStyle | pages/WorkflowBuilder.tsx:183-186 | an update with type t gives every node with that id type t, style getNodeStyle(t) and data.type t |
| WorkflowGraph.RemoveNode | pages/WorkflowBuilder.tsx:195-197 | the result is no longer than the input and holds no node with the id; an unknown id leaves the list unchanged |
| WorkflowGraph.RemoveNodeMembers | pages/WorkflowBuilder.tsx:196 | a node is kept if and only if it was in the list and its id differs from the deleted id |
| WorkflowGraph.RemoveNodeDistributes | pages/WorkflowBuilder.tsx:196 | the filter distributes over concatenation, so relative order is preserved |
| WorkflowGraph.RemoveNodeKeepsOtherIds | pages/WorkflowBuilder.tsx:196 | every other id is present after the deletion if and only if it was present before |
| WorkflowGraph.RemoveKeepsCanonical | pages/WorkflowBuilder.tsx:196 | a deletion keeps every remaining node's style canonical |
| WorkflowGraph.NewNode | pages/WorkflowBuilder.tsx:214-224 | the new node has the given id, position and type, data exactly {label: title, agentId: "", config: "{}"}, and the style of its type |
| WorkflowGraph.ExportDocument | pages/WorkflowBuilder.tsx:231-236 | the document holds the current nodes and edges, the export time and version "1.0.0" |
| WorkflowGraph.Restyle | pages/WorkflowBuilder.tsx:265-268 | a restyled node agrees with the original on everything but the style, and its style is canonical; an already canonical node is unchanged |
| WorkflowGraph.RestyleAll | pages/WorkflowBuilder.tsx:265-268 | the list keeps its length and order, and each node is restyled |
| WorkflowGraph.ImportGraph | pages/WorkflowBuilder.tsx:258-279 | import succeeds if and only if the text parses and both `nodes` and `edges` are arrays; unparseable text is an InvalidJson failure; on success the edges are taken verbatim and every node keeps all fields but a canonical style |
| WorkflowGraph.RestyleAllCanonical | pages/WorkflowBuilder.tsx:265-268 | restyling a list that is already canonical changes nothing |
| WorkflowGraph.ExportImportRoundTrip | pages/WorkflowBuilder.tsx:229-272 | export then import gives back the same graph whenever every style is canonical |
| WorkflowGraph.ExportImportKeepsContent | pages/WorkflowBuilder.tsx:229-272 | for any graph, export then import succeeds, keeps the edges and keeps every node field except the style |
| WorkflowGraph.ImportedGraphIsStable | pages/WorkflowBuilder.tsx:263-272 | a graph that was imported once survives any later export and import unchanged |
| WorkflowGraph.RejectsMissingArrays | pages/WorkflowBuilder.tsx:263-276 | a document without an array in `nodes` or `edges` is rejected with a structural error |
| WorkflowBuilder.WorkflowEditor.constructor | pages/WorkflowBuilder.tsx:91-125 | the three initial nodes and two initial edges, no selection and no notice; every style is canonical |
| WorkflowBuilder.WorkflowEditor.SelectNode | pages/WorkflowBuilder.tsx:166-168 | the clicked node becomes the selection, and the selection is on the canvas |
| WorkflowBuilder.WorkflowEditor.ClearSelection | pages/WorkflowBuilder.tsx:170-172 | a pane click clears the selection |
| WorkflowBuilder.WorkflowEditor.OnNodesChange | pages/WorkflowBuilder.tsx:144-154 | the nodes become the library's result; the selection is cleared if and only if some remove change names its id; if the library keeps unremoved nodes, a selection on the canvas stays on the canvas |
| WorkflowBuilder.WorkflowEditor.UpdateNode | pages/WorkflowBuilder.tsx:174-193 | the nodes become UpdateNodes of the old nodes; canonical styles and a selection on the canvas are preserved |
| WorkflowBuilder.WorkflowEditor.DeleteNode | pages/WorkflowBuilder.tsx:195-198 | the nodes become RemoveNode of the old nodes, the selection becomes empty, the edges are untouched and canonical styles are preserved |
| WorkflowBuilder.WorkflowEditor.AddNode | pages/WorkflowBuilder.tsx:214-226 | exactly one new node is appended at the end and the existing nodes are unchanged; canonical styles and the selection are preserved |
| WorkflowBuilder.WorkflowEditor.ClearCanvasAsWritten | pages/WorkflowBuilder.tsx:433-434 | as written: the nodes are emptied, edges and selection are kept, and a kept selection is no longer on the canvas |
| WorkflowBuilder.WorkflowEditor.ClearCanvas | pages/WorkflowBuilder.tsx:433-434 | corrected: the nodes are emptied, the edges are kept and the selection is cleared, so the selection invariant holds |
| WorkflowBuilder.WorkflowEditor.ExportToJson | pages/WorkflowBuilder.tsx:229-251 | returns the document of the current graph and posts the success notice |
| WorkflowBuilder.WorkflowEditor.ImportFromJson | pages/WorkflowBuilder.tsx:258-281 | on success the graph is replaced by the imported one, the selection is cleared and the success notice is posted; on failure only the error notice changes |
| WorkflowBuilder.ClearCanvasKeepsStaleSelection | pages/WorkflowBuilder.tsx:433-434 | after selecting node "1" and clearing the canvas as written, the selection still names a node that is not on the canvas |
| JsonText.TrimStart | components/ConfigurationPanel.tsx:51 | drops exactly the leading trimmable code points |
| JsonText.TrimEnd | components/ConfigurationPanel.tsx:51 | drops exactly the trailing trimmable code points |
| JsonText.Trim | components/ConfigurationPanel.tsx:51 | the trimmed text is empty if and only if the text is blank; otherwise it starts and ends with a non-whitespace code point |
| JsonText.Value | components/ConfigurationPanel.tsx:51 | a recognised JSON value starts with a character that can open a value and consumes at least one character |
| JsonText.Element | components/ConfigurationPanel.tsx:51 | a recognised element has, after its leading whitespace, a character that opens a value |
| JsonText.IsJson | components/ConfigurationPanel.tsx:51 | JSON.parse accepts the whole text as one element, so after leading whitespace the text has a character that opens a value |
| JsonText.JsonIsNotBlank | components/ConfigurationPanel.tsx:51 | text that parses as JSON is never blank |
| ConfigurationPanel.FormFromNode | components/ConfigurationPanel.tsx:32-41 | the buffer's type is never empty, and a node without config gets "{}" |
| ConfigurationPanel.ConfigAccepted | components/ConfigurationPanel.tsx:50-56 | the gate passes exactly when the text is blank or parses as JSON |
| ConfigurationPanel.ConfigAcceptedIff | components/ConfigurationPanel.tsx:50-57 | a config edit is forwarded if and only if it is blank or is JSON, and never both |
| ConfigurationPanel.OneMemberObjectIsJson | components/ConfigurationPanel.tsx:51 | text of the form {"k":d}, with a one-character key k and a one-digit value d, parses as JSON |
| ConfigurationPanel.RejectsUnquotedKey | components/ConfigurationPanel.tsx:50-56 | an object whose first member name is unquoted (any character other than `"`, `}` or JSON whitespace after the `{`) is rejected |
| ConfigurationPanel.GateOnExampleTexts | components/ConfigurationPanel.tsx:48-57 | the gate accepts {"a":1}, rejects {invalid and accepts {"b":2} |
| ConfigurationPanel.ForwardedEditKeepsBufferInSync | components/ConfigurationPanel.tsx:60-73 | after any forwarded edit, re-reading the updated node gives exactly the edited buffer |
| ConfigurationPanel.StoredConfig | components/ConfigurationPanel.tsx:54 | a forwarded config edit is what the updated node then stores |
| ConfigurationPanel.PressDelete | components/ConfigurationPanel.tsx:198-225 | a press deletes if and only if it is "Delete", which is shown only when armed; "Remove" arms and "Cancel" disarms |
| ConfigurationPanel.DeleteFollowsArming | components/ConfigurationPanel.tsx:198-225 | in any run of presses, a delete is sent only from the armed state |
| ConfigurationPanel.DeleteNeedsTwoPresses | components/ConfigurationPanel.tsx:198-225 | from the disarmed state, every delete is preceded by a press that is not "Cancel" |
| ConfigurationPanel.ConfigPanel.constructor | components/ConfigurationPanel.tsx:27-29 | the initial buffer is ("", "", "{}", "default"), the config is valid and the panel is disarmed |
| ConfigurationPanel.ConfigPanel.SyncSelection | components/ConfigurationPanel.tsx:31-45 | a new selection re-initialises the buffer from the node, disarms the panel and resets validity; no selection changes nothing |
| ConfigurationPanel.ConfigPanel.HandleConfigChange | components/ConfigurationPanel.tsx:47-58 | the buffer always takes the text and validity records the gate; the editor updates the selected id only when the gate passes, otherwise nothing in the editor changes |
| ConfigurationPanel.ConfigPanel.HandleLabelChange | components/ConfigurationPanel.tsx:60-63 | the buffer's label takes the value, and exactly one {label} update is sent for the selected id |
| ConfigurationPanel.ConfigPanel.HandleAgentChange | components/ConfigurationPanel.tsx:65-68 | the buffer's agent takes the value, and exactly one unchecked {agentId} update is sent |
| ConfigurationPanel.ConfigPanel.HandleTypeChange | components/ConfigurationPanel.tsx:70-73 | the buffer's type takes the value, and exactly one {type} update is sent |
| ConfigurationPanel.ConfigPanel.PressDeleteControl | components/ConfigurationPanel.tsx:198-225 | the armed flag follows PressDelete; "Delete" removes the selected node and clears the selection; the other presses change nothing in the editor |
| ConfigurationPanel.ConfigGatingScenario | components/ConfigurationPanel.tsx:47-58 | valid, then invalid, then valid text: the invalid edit leaves the earlier config stored and marks the field invalid; the next valid edit is stored and marks it valid |
| Integrations.Flip | pages/Integrations.tsx:46 | a toggle always changes the status |
| Integrations.FindStatus | pages/Integrations.tsx:40 | no status exactly when no connector has the id; otherwise the status of the first connector with it |
| Integrations.FlipStatuses | pages/Integrations.tsx:44-48 | same length; connectors with the id flip, all others are unchanged |
| Integrations.OpensFigmaSetup | pages/Integrations.tsx:40-42 | a toggle opens the wizard only for id "figma" when a Figma connector is disconnected |
| Integrations.ToggledConnectors | pages/Integrations.tsx:39-49 | a toggle that opens the Figma wizard changes no connector; every other toggle flips the status of each connector with that id; an unknown id changes nothing |
| Integrations.ConnectFigma | pages/Integrations.tsx:55-57 | Figma becomes connected and every other connector is unchanged |
| Integrations.ActiveCount | pages/Integrations.tsx:79 | the active count never exceeds the number of connectors |
| Integrations.ActiveCountIsMultiplicity | pages/Integrations.tsx:79 | the active count equals the number of `connected` statuses |
| Integrations.FlipTwiceRestores | pages/Integrations.tsx:44-48 | flipping the same id twice restores every connector |
| Integrations.ToggleTwiceRestores | pages/Integrations.tsx:39-49 | for every id other than "figma", toggling twice restores the connectors |
| Integrations.FindStatusAfterFlip | pages/Integrations.tsx:40-48 | after a flip of an id, the first connector with that id has the flipped status |
| Integrations.FigmaToggleTwice | pages/Integrations.tsx:39-49 | a connected Figma toggled once is disconnected, and the next toggle opens the wizard instead of reconnecting |
| Integrations.ActiveCountAfterFlip | pages/Integrations.tsx:44-48 | a flip removes the id's connected entries from the count and adds its disconnected ones |
| Integrations.ActiveCountAfterConnectFigma | pages/Integrations.tsx:55-57 | completing setup raises the count by the number of disconnected Figma entries |
| Integrations.ShowsPrefixWarning | pages/Integrations.tsx:226 | the warning shows exactly for a non-empty token that is shorter than five characters or does not begin with "figd_" |
| Integrations.SubmitEnabled | pages/Integrations.tsx:238 | submission is enabled only with a non-empty token and while not verifying |
| Integrations.IsStepMove | pages/Integrations.tsx:164-235 | every wizard move goes between adjacent steps within 1..3 |
| Integrations.PrefixWarningIsAdvisory | pages/Integrations.tsx:226-238 | the warning shows if and only if the token is non-empty and lacks the "figd_" prefix; submission is enabled (when not verifying) if and only if the token is non-empty, so a warned token can still be submitted |
| Integrations.IntegrationsPage.constructor | pages/Integrations.tsx:33-37 | the initial connectors, wizard hidden at step 1, empty token, not verifying |
| Integrations.IntegrationsPage.ToggleConnection | pages/Integrations.tsx:39-49 | a disconnected Figma opens the wizard and changes no status; any other toggle flips the connectors with that id |
| Integrations.IntegrationsPage.GoToStep | pages/Integrations.tsx:164-235 | only the moves 1→2, 2→1, 2→3 and 3→2 are possible, and the step stays in 1..3 |
| Integrations.IntegrationsPage.EnterToken | pages/Integrations.tsx:221 | typing on the last page sets the token |
| Integrations.IntegrationsPage.CompleteSetup | pages/Integrations.tsx:51-52 | submission, only possible with a token and while not verifying, starts verification |
| Integrations.IntegrationsPage.VerificationFinished | pages/Integrations.tsx:54-62 | Figma becomes connected with all other connectors unchanged; the wizard closes at step 1 with an empty token |
| Integrations.IntegrationsPage.CloseSetup | pages/Integrations.tsx:65-69 | the wizard closes at step 1 with an empty token, and no connector changes |
| Voice.LowerChar | components/VoiceController.tsx:12 | A-Z map to a-z, and every other character is kept |
| Voice.ToLower | components/VoiceController.tsx:12 | the same length, lower-cased pointwise, with no capital letter left |
| Voice.ToLowerIdempotent | components/VoiceController.tsx:12 | lower-casing twice is lower-casing once |
| Voice.Contains | components/VoiceController.tsx:15-19 | `includes` can only hold when the keyword is no longer than the command |
| Voice.ContainsIff | components/VoiceController.tsx:15-19 | `includes` holds if and only if the keyword occurs at some offset |
| Voice.RouteFor | components/VoiceController.tsx:15-19 | any route chosen is one of the five routes |
| Voice.RouteIsFirstKeyword | components/VoiceController.tsx:15-19 | the route of keyword k is chosen if and only if k is the first keyword of the table the command contains |
| Voice.NoKeywordNoRoute | components/VoiceController.tsx:15-19 | no navigation happens if and only if the command contains none of the keywords |
| Voice.WorkflowBeatsAgent | components/VoiceController.tsx:16-19 | a command with "workflow" and "agent" but no "dashboard" goes to /workflow, not /agent-dev |
| Voice.Navigations | components/VoiceController.tsx:15-19 | a command causes at most one navigation, and none without a route |
| Voice.OpenWorkflowLowerCase | components/VoiceController.tsx:12 | "Open WORKFLOW" lower-cases to "open workflow" |
| Voice.WorkflowWithoutLetterA | components/VoiceController.tsx:15-16 | a command containing "workflow" and no letter a goes to /workflow |
| Voice.OpenWorkflowRoutesToWorkflow | components/VoiceController.tsx:12-16 | "Open WORKFLOW" routes to /workflow |
| Voice.VoiceController.constructor | components/VoiceController.tsx:7-8 | not listening, no last command, no navigation yet |
| Voice.VoiceController.ProcessCommand | components/VoiceController.tsx:11-19 | the last command is the lower-cased transcript, and the navigations grow by the one route RouteFor picks, or by none |
| Voice.VoiceController.ToggleListening | components/VoiceController.tsx:65 | the button negates the listening flag |
| FigmaExport.LabelOf | services/figmaService.ts:11 | a label is present exactly when the node's data has one, and it is that value |
| FigmaExport.RectFor | services/figmaService.ts:9-34 | a RECTANGLE named by the label at the node's x and y, 180 by 60, corner radius 8, stroke weight 1, with one TEXT child "Label" that shows the label in Inter 600 at size 14 |
| FigmaExport.FigmaNodes | services/figmaService.ts:9-34 | exactly one rectangle per node, in the same order |
| FigmaExport.FigmaNodesKeepLabelsAndPositions | services/figmaService.ts:9-34 | every node's label and position can be read back from its rectangle, and the text child repeats the name |
| FigmaExport.FigmaNodesAppend | services/figmaService.ts:9 | the mapping commutes with concatenation |
| FigmaExport.OrDefault | services/figmaService.ts:48 | a non-empty value is kept, and an empty one is replaced by the fallback |
| FigmaExport.FigmaFileUrl | services/figmaService.ts:48 | for every setting, the link is https://www.figma.com/file/, then the file key (ABC123XYZ when empty), then '/', then the frame name (Workflow_Export when empty) |
| FigmaExport.ParseFigmaUrl | services/figmaService.ts:48 | a parsed link is rebuilt exactly from its file key and frame name |
| FigmaExport.FigmaUrlRoundTrip | services/figmaService.ts:48 | for a file key without '/', the link parses back to the configured file key and frame name, or ABC123XYZ and Workflow_Export for empty settings |
| FigmaExport.ExportWorkflowToFigma | services/figmaService.ts:7-51 | the export resolves successfully with the file link and the given timestamp |
| FigmaExport.ExportIgnoresGraph | services/figmaService.ts:7-51 | the export's result does not depend on the nodes or the edges |
| FigmaExport.Utf16Length | services/figmaService.ts:55 | a token's length in UTF-16 units lies between its character count and twice that |
| FigmaExport.ValidateFigmaConnection | services/figmaService.ts:53-57 | fails with "Invalid Token format" if and only if the token is shorter than 10 UTF-16 units; otherwise returns the user "Architect Pro User" with id "u123" |
| FigmaExport.ValidationByCharacterCount | services/figmaService.ts:55 | ten or more characters always pass, and fewer than five always fail |
| FigmaExport.FiveAstralCharactersPass | services/figmaService.ts:55 | five characters above U+FFFF already pass the length check |

## Left out

- The canvas library's `applyNodeChanges`, `applyEdgeChanges` and `addEdge` are left out,
  along with dragging, pan/zoom and `fitView`. `OnNodesChange` takes the library's result
  as a parameter. Its selection guarantee assumes only that the library keeps every node
  that no remove change names (`KeepsUnremoved`).
- Edge changes and new connections (pages/WorkflowBuilder.tsx:156-164) change only the edge
  list, through the same library, and are not modelled.
- Reading the chosen file, the Blob and download link in `exportToJson`, and the reset of
  the file input are browser I/O. The text of an imported file arrives already parsed
  (`ParsedFile`), and JSON serialisation is taken as lossless. The early return when no
  file is chosen changes nothing and is not modelled.
- `exportToJson`'s catch branch ("Export failed") has no counterpart: writing the document
  cannot fail in the model.
- Timers are left out: the 3-second auto-dismiss of the status notice, the 2.5-second Figma
  latency and the 3-second clearing of the voice `lastCommand`. The 2-second Figma
  verification is split into the press (`CompleteSetup`) and the timer firing
  (`VerificationFinished`), with `isVerifying` standing for the pending timer.
- The generative AI suggestions (`handleAIRequest` and the suggestion list) call a foreign
  service. Adding a suggested node is `AddNode` with the suggestion's type.
- The Figma export dialog in the editor (`handleFigmaExport`, `resetFigmaModal` and its
  flags) is display state around `ExportWorkflowToFigma` and is not modelled. Its settings
  are always strings, so `FigmaConfig` holds strings and the empty string is the only falsy
  value.
- The Figma fill and stroke colours are left out of `FigmaRect`. The commented-out REST call
  is not part of this model.
- Speech recognition setup, start, stop and its error and end callbacks
  (components/VoiceController.tsx:25-53) are a browser API. `ProcessCommand` receives the
  transcript directly.
- Voice.LowerChar: maps only A-Z. JavaScript's `toLowerCase` also maps non-ASCII capitals,
  some of them to ASCII letters (the Kelvin sign becomes "k").
- Voice.ToLower: is built from LowerChar, so it has the same gap. A transcript with
  non-ASCII capitals can route differently from the model.
- A node's `data` is a map from strings to strings. Non-string config values and the
  `JSON.stringify` branch of the sync effect (components/ConfigurationPanel.tsx:37-39) are
  left out. An empty label or agent id is stored as "", which is what `|| ''` would give.
- JsonText.Value: recognises the JSON grammar. It does not build the parsed value, which
  the panel discards.
- Imported nodes are records of the node shape, so `ImportGraph`'s iff is read over
  well-formed entries. A file whose `nodes` array holds `null` is rejected by the code with
  "Invalid workflow file", since reading `.type` of it throws inside the `try`
  (pages/WorkflowBuilder.tsx:267, 277-279). A number or boolean entry becomes an object
  holding only a style, and a string entry also keeps its characters under the keys "0",
  "1", and so on. None of these cases is modelled.
- FigmaExport.FigmaUrlRoundTrip: parses the link back to the settings only for a file key
  without '/'. The dialog accepts any text, and a key holding '/' is split at its first '/'
  instead. `FigmaFileUrl` itself states the link's exact layout for every setting.
- WorkflowBuilder.WorkflowEditor.AddNode: takes the node type as a required parameter.
  `addNode` defaults it to `'default'`, but every call site passes a type.
- Node ids come from the clock and positions from a random source, so `AddNode` takes both
  as parameters. Id uniqueness is not modelled.
- Rendering, styling classes, icons and the static pages outside these five files are not
  part of this model.

## Findings

| source | as written | input that shows it | evidently intended | confidence | as-written member | corrected member |
|---|---|---|---|---|---|---|
| pages/WorkflowBuilder.tsx:76 | `NODE_TYPES_CONFIG[type] \|\| NODE_TYPES_CONFIG.default` indexes a plain object, so a type naming an Object.prototype member finds that member: the border becomes "2px solid undefined" and the shadow is undefined | a node of type "constructor", from an imported file or an AI suggestion | every type outside input/default/output is drawn in the `default` style | not executed | NodeStyle.PrototypeKeyBorder | NodeStyle.GetNodeStyle |
| pages/WorkflowBuilder.tsx:434 | "Clear Canvas" empties the nodes but keeps the selection, so the configuration panel stays bound to a node that is gone, and its edits go nowhere | select node "1", then press Clear Canvas | clear the selection with the nodes, as `handleDeleteNode` does | not executed | WorkflowBuilder.ClearCanvasKeepsStaleSelection | WorkflowBuilder.WorkflowEditor.ClearCanvas |
