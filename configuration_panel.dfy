/**
 * The node configuration side panel (components/ConfigurationPanel.tsx): a form buffer
 * re-initialised from the selected node, handlers that forward edits to the editor, a
 * JSON-validity gate on the config field and a two-step delete confirmation.
 */
module ConfigurationPanel {
  import opened Wrappers
  import opened WorkflowGraph
  import opened JsonText
  import opened WorkflowBuilder

  /** The panel's form buffer. */
  datatype FormData = FormData(nodeLabel: string, agentId: string, config: string, nodeType: string)

  const InitialForm := FormData("", "", "{}", "default")

  /** `data[key]` when the key is present, `fallback` otherwise. */
  function DataOr(d: NodeData, key: string, fallback: string): string {
    if key in d then d[key] else fallback
  }

  /**
   * The buffer the sync effect builds from a node: label and agent default to "", a missing
   * config to "{}" (what `JSON.stringify({})` gives), and the type to "default".
   */
  function FormFromNode(n: Node): (f: FormData)
    ensures f.nodeType != ""
    ensures "config" !in n.data ==> f.config == "{}"
  {
    FormData(DataOr(n.data, "label", ""), DataOr(n.data, "agentId", ""), DataOr(n.data, "config", "{}"),
             TypeOrDefault(n.nodeType))
  }

  /** `if (value.trim()) JSON.parse(value)` does not throw. */
  predicate ConfigAccepted(v: string)
    ensures ConfigAccepted(v) <==> IsBlank(v) || IsJson(v)
  {
    Trim(v) == [] || IsJson(v)
  }

  /** A config edit is forwarded exactly when it is blank or JSON, and never for both reasons. */
  lemma ConfigAcceptedIff(v: string)
    ensures ConfigAccepted(v) <==> IsBlank(v) || IsJson(v)
    ensures !(IsBlank(v) && IsJson(v))
  {
    if IsJson(v) {
      JsonIsNotBlank(v);
    }
  }

  /** `{"k":d}` with a one-character key and a one-digit value is JSON. */
  lemma {:induction false} OneMemberObjectIsJson(s: string, key: char, digit: char)
    requires s == ['{', '"', key, '"', ':', digit, '}']
    requires IsDigit(digit) && key != '"' && key != '\\' && key >= ' '
    ensures IsJson(s)
  {
    assert SkipWs(s, 7) == 7;
    assert SkipWs(s, 6) == 6;
    assert Digits(s, 6) == 6;
    assert Number(s, 5) == Some(6);
    assert SkipWs(s, 5) == 5;
    assert Value(s, 5) == Some(6);
    assert Element(s, 5) == Some(6);
    assert SkipWs(s, 4) == 4;
    assert StringBody(s, 3) == Some(4);
    assert StringBody(s, 2) == Some(4);
    assert SkipWs(s, 1) == 1;
    assert Members(s, 1) == Some(7);
    assert Object(s, 1) == Some(7);
    assert SkipWs(s, 0) == 0;
    assert Value(s, 0) == Some(7);
  }

  /** The gate on three config texts typed in turn: `{"a":1}` passes, `{invalid` fails, `{"b":2}` passes. */
  lemma GateOnExampleTexts()
    ensures ConfigAccepted("{\"a\":1}")
    ensures !ConfigAccepted("{invalid")
    ensures ConfigAccepted("{\"b\":2}")
  {
    OneMemberObjectIsJson("{\"a\":1}", 'a', '1');
    OneMemberObjectIsJson("{\"b\":2}", 'b', '2');
    RejectsUnquotedKey("{invalid");
  }

  /** An object whose first member name is not quoted is neither JSON nor blank. */
  lemma {:induction false} RejectsUnquotedKey(t: string)
    requires |t| >= 2 && t[0] == '{' && t[1] != '"' && t[1] != '}' && !IsJsonWs(t[1])
    ensures !ConfigAccepted(t)
  {
    assert SkipWs(t, 1) == 1;
    assert Members(t, 1) == None;
    assert SkipWs(t, 0) == 0;
    assert Value(t, 0) == None;
    assert !IsBlank(t) by {
      assert !IsTrimmable(t[0]);
    }
  }

  /** The buffer after a handler stores `v` in the field that `key` names. */
  function EditForm(f: FormData, key: string, v: string): FormData {
    if key == "label" then f.(nodeLabel := v)
    else if key == "agentId" then f.(agentId := v)
    else if key == "config" then f.(config := v)
    else if key == "type" then f.(nodeType := v)
    else f
  }

  /**
   * Every forwarded edit keeps buffer and model in step: re-reading the updated node gives
   * exactly the edited buffer (for a type edit, when the type is non-empty, as the panel's
   * three category buttons always send).
   */
  lemma ForwardedEditKeepsBufferInSync(n: Node, key: string, v: string)
    requires key == "label" || key == "agentId" || key == "config" || (key == "type" && v != "")
    ensures FormFromNode(ApplyPatch(n, map[key := v])) == EditForm(FormFromNode(n), key, v)
  {
    var m := ApplyPatch(n, map[key := v]);
    assert m.data[key] == v;
    if key != "type" {
      assert !RetypesNode(map[key := v]);
    }
  }

  /** A forwarded config edit is what the updated node then stores. */
  lemma StoredConfig(ns: seq<Node>, id: string, k: nat, v: string)
    requires k < |ns| && ns[k].id == id
    ensures var r := UpdateNodes(ns, id, map["config" := v]);
            k < |r| && r[k].id == id && "config" in r[k].data && r[k].data["config"] == v
  {
    var r := UpdateNodes(ns, id, map["config" := v]);
    assert r[k] == ApplyPatch(ns[k], map["config" := v]);
  }

  /** The controls the panel's footer shows: "Remove" when disarmed, "Delete"/"Cancel" when armed. */
  datatype DeleteControl = RemoveButton | DeleteButton | CancelButton

  function DeleteControls(armed: bool): set<DeleteControl> {
    if armed then {DeleteButton, CancelButton} else {RemoveButton}
  }

  /** The delete confirmation after a press: the new armed state and whether a delete is sent. */
  datatype DeleteOutcome = DeleteOutcome(armed: bool, deletes: bool)

  function PressDelete(armed: bool, c: DeleteControl): (r: DeleteOutcome)
    requires c in DeleteControls(armed)
    ensures r.deletes <==> c == DeleteButton
    ensures r.deletes ==> armed
    ensures r.armed <==> c != CancelButton
    ensures !armed ==> r.armed
  {
    match c
    case RemoveButton => DeleteOutcome(true, false)
    case DeleteButton => DeleteOutcome(armed, true)
    case CancelButton => DeleteOutcome(false, false)
  }

  /** A sequence of presses, each on a control shown at that moment. */
  predicate ValidRun(armed: bool, cs: seq<DeleteControl>)
    decreases |cs|
  {
    cs == [] || (cs[0] in DeleteControls(armed) && ValidRun(PressDelete(armed, cs[0]).armed, cs[1..]))
  }

  /**
   * In any run of presses, a delete is sent only from the armed state: either the panel was
   * already armed at the start, or the press before it was not "Cancel".
   */
  lemma {:induction false} DeleteFollowsArming(armed: bool, cs: seq<DeleteControl>)
    requires ValidRun(armed, cs)
    ensures forall k :: 0 <= k < |cs| && cs[k] == DeleteButton ==>
              (k == 0 && armed) || (0 < k && cs[k - 1] != CancelButton)
    decreases |cs|
  {
    if cs != [] {
      var next := PressDelete(armed, cs[0]).armed;
      DeleteFollowsArming(next, cs[1..]);
      forall k | 0 < k < |cs| && cs[k] == DeleteButton
        ensures cs[k - 1] != CancelButton
      {
        assert cs[1..][k - 1] == DeleteButton;
        if k == 1 {
          assert next;
        } else {
          assert cs[1..][k - 2] == cs[k - 1];
        }
      }
    }
  }

  /** From a freshly synced (disarmed) panel, no single press deletes and every delete needs "Remove" first. */
  lemma DeleteNeedsTwoPresses(cs: seq<DeleteControl>)
    requires ValidRun(false, cs)
    ensures forall k :: 0 <= k < |cs| && cs[k] == DeleteButton ==> 0 < k && cs[k - 1] != CancelButton
  {
    DeleteFollowsArming(false, cs);
  }

  class ConfigPanel {
    var formData: FormData
    var isValidJson: bool
    var isConfirmingDelete: bool

    constructor ()
      ensures formData == InitialForm && isValidJson && !isConfirmingDelete
    {
      formData := InitialForm;
      isValidJson := true;
      isConfirmingDelete := false;
    }

    /**
     * The sync effect, run when the selection changes: a newly selected node re-initialises
     * the buffer, disarms the delete confirmation and resets the validity flag; a cleared
     * selection leaves the panel's state as it was.
     */
    method SyncSelection(selected: Option<Node>)
      modifies this
      ensures selected.Some? ==> formData == FormFromNode(selected.value) && isValidJson && !isConfirmingDelete
      ensures selected.None? ==>
                formData == old(formData) && isValidJson == old(isValidJson) &&
                isConfirmingDelete == old(isConfirmingDelete)
    {
      if selected.Some? {
        formData := FormFromNode(selected.value);
        isConfirmingDelete := false;
        isValidJson := true;
      }
    }

    /**
     * handleConfigChange: the buffer always takes the text; the validity flag records the
     * gate; the editor receives `{config: value}` for the selected id only when the gate
     * passes, and otherwise keeps its previous config.
     */
    method HandleConfigChange(host: WorkflowEditor, value: string)
      requires host.selected.Some?
      modifies this`formData, this`isValidJson, host
      ensures formData == old(formData).(config := value)
      ensures isValidJson == ConfigAccepted(value)
      ensures host.nodes == if ConfigAccepted(value)
                            then UpdateNodes(old(host.nodes), old(host.selected.value.id), map["config" := value])
                            else old(host.nodes)
      ensures host.edges == old(host.edges) && host.selected == old(host.selected) && host.status == old(host.status)
    {
      formData := formData.(config := value);
      if ConfigAccepted(value) {
        isValidJson := true;
        host.UpdateNode(host.selected.value.id, map["config" := value]);
      } else {
        isValidJson := false;
      }
    }

    /** handleLabelChange: store the label and always forward `{label: value}`. */
    method HandleLabelChange(host: WorkflowEditor, value: string)
      requires host.selected.Some?
      modifies this`formData, host
      ensures formData == old(formData).(nodeLabel := value)
      ensures host.nodes == UpdateNodes(old(host.nodes), old(host.selected.value.id), map["label" := value])
      ensures host.edges == old(host.edges) && host.selected == old(host.selected) && host.status == old(host.status)
    {
      formData := formData.(nodeLabel := value);
      host.UpdateNode(host.selected.value.id, map["label" := value]);
    }

    /** handleAgentChange: store the agent id and always forward `{agentId: value}`, unchecked. */
    method HandleAgentChange(host: WorkflowEditor, value: string)
      requires host.selected.Some?
      modifies this`formData, host
      ensures formData == old(formData).(agentId := value)
      ensures host.nodes == UpdateNodes(old(host.nodes), old(host.selected.value.id), map["agentId" := value])
      ensures host.edges == old(host.edges) && host.selected == old(host.selected) && host.status == old(host.status)
    {
      formData := formData.(agentId := value);
      host.UpdateNode(host.selected.value.id, map["agentId" := value]);
    }

    /** handleTypeChange: store the type and always forward `{type: value}`, which restyles the node. */
    method HandleTypeChange(host: WorkflowEditor, value: string)
      requires host.selected.Some?
      modifies this`formData, host
      ensures formData == old(formData).(nodeType := value)
      ensures host.nodes == UpdateNodes(old(host.nodes), old(host.selected.value.id), map["type" := value])
      ensures host.edges == old(host.edges) && host.selected == old(host.selected) && host.status == old(host.status)
    {
      formData := formData.(nodeType := value);
      host.UpdateNode(host.selected.value.id, map["type" := value]);
    }

    /**
     * A press on one of the footer's delete controls. "Remove" arms, "Cancel" disarms, and
     * "Delete" asks the editor to delete the selected node (which clears the selection and
     * hides the panel; the armed flag stays set until the next selection resets it).
     */
    method PressDeleteControl(host: WorkflowEditor, c: DeleteControl)
      requires host.selected.Some?
      requires c in DeleteControls(isConfirmingDelete)
      modifies this`isConfirmingDelete, host
      ensures isConfirmingDelete == PressDelete(old(isConfirmingDelete), c).armed
      ensures PressDelete(old(isConfirmingDelete), c).deletes ==>
                host.nodes == RemoveNode(old(host.nodes), old(host.selected.value.id)) && host.selected == None
      ensures !PressDelete(old(isConfirmingDelete), c).deletes ==>
                host.nodes == old(host.nodes) && host.selected == old(host.selected)
      ensures host.edges == old(host.edges) && host.status == old(host.status)
    {
      match c
      case RemoveButton =>
        isConfirmingDelete := true;
      case DeleteButton =>
        host.DeleteNode(host.selected.value.id);
      case CancelButton =>
        isConfirmingDelete := false;
    }
  }

  /**
   * A valid config edit, then an invalid one, then a valid one: for a first text `a` and a
   * later text `b` that pass the gate and a text `bad` in between that does not
   * (GateOnExampleTexts shows that `{"a":1}`, `{invalid` and `{"b":2}` are such texts).
   * With node k selected: typing `a` stores it; typing `bad` leaves `a` stored and marks
   * the field invalid; typing `b` stores it and marks the field valid again.
   */
  method ConfigGatingScenario(editor: WorkflowEditor, panel: ConfigPanel, k: nat, a: string, bad: string, b: string)
    returns (afterInvalid: string, validAfterInvalid: bool, afterValid: string, validAfterValid: bool)
    requires editor.selected.Some? && k < |editor.nodes| && editor.nodes[k].id == editor.selected.value.id
    requires ConfigAccepted(a) && !ConfigAccepted(bad) && ConfigAccepted(b)
    modifies editor, panel
    ensures afterInvalid == a && !validAfterInvalid
    ensures afterValid == b && validAfterValid
  {
    var id := editor.selected.value.id;
    panel.HandleConfigChange(editor, a);
    StoredConfig(old(editor.nodes), id, k, a);
    panel.HandleConfigChange(editor, bad);
    afterInvalid := editor.nodes[k].data["config"];
    validAfterInvalid := panel.isValidJson;
    label AfterBad:
    panel.HandleConfigChange(editor, b);
    StoredConfig(old@AfterBad(editor.nodes), id, k, b);
    afterValid := editor.nodes[k].data["config"];
    validAfterValid := panel.isValidJson;
  }
}
