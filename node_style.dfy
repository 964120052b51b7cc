/**
 * The visual treatment of workflow nodes: the three-entry table of node types and the
 * style a node of a given type is drawn with (pages/WorkflowBuilder.tsx, NODE_TYPES_CONFIG
 * and getNodeStyle).
 */
module NodeStyle {
  import opened Wrappers

  /** One entry of the node-type table. */
  datatype TypeConfig = TypeConfig(displayLabel: string, border: string, bg: string, shadow: string)

  /** The inline style object a node is drawn with. */
  datatype Style = Style(
    background: string,
    color: string,
    border: string,
    borderRadius: string,
    boxShadow: string,
    padding: string,
    fontSize: string,
    fontWeight: string,
    width: int,
    textAlign: string)

  const InputConfig := TypeConfig("Input Source", "#10b981", "#064e3b", "0 0 12px rgba(16, 185, 129, 0.2)")
  const DefaultConfig := TypeConfig("Process Node", "#6366f1", "#1e1b4b", "0 0 12px rgba(99, 102, 241, 0.2)")
  const OutputConfig := TypeConfig("Output Sink", "#f59e0b", "#451a03", "0 0 12px rgba(245, 158, 11, 0.2)")

  /** The three node types the table has entries for. */
  predicate IsKnownType(t: string) {
    t == "input" || t == "default" || t == "output"
  }

  /**
   * The table entry for `t`, falling back to the `default` entry for every other type: the
   * lookup the `||` fallback intends. LookupAsWritten is the lookup as the code performs it.
   */
  function ConfigFor(t: string): (c: TypeConfig)
    ensures c == InputConfig || c == DefaultConfig || c == OutputConfig
    ensures !IsKnownType(t) ==> c == DefaultConfig
  {
    if t == "input" then InputConfig
    else if t == "output" then OutputConfig
    else DefaultConfig
  }

  /**
   * The style of a node of type `t`. Only the border colour and the shadow depend on the
   * type; every other property is the same for all nodes.
   */
  function GetNodeStyle(t: string): (s: Style)
    ensures s.background == "#1e293b" && s.color == "#f8fafc" && s.borderRadius == "12px"
    ensures s.padding == "10px" && s.fontSize == "12px" && s.fontWeight == "600"
    ensures s.width == 160 && s.textAlign == "center"
    ensures t == "input" ==> s.border == "2px solid #10b981" && s.boxShadow == "0 0 12px rgba(16, 185, 129, 0.2)"
    ensures t == "output" ==> s.border == "2px solid #f59e0b" && s.boxShadow == "0 0 12px rgba(245, 158, 11, 0.2)"
    ensures t != "input" && t != "output" ==>
              s.border == "2px solid #6366f1" && s.boxShadow == "0 0 12px rgba(99, 102, 241, 0.2)"
  {
    var c := ConfigFor(t);
    Style("#1e293b", "#f8fafc", "2px solid " + c.border, "12px", c.shadow, "10px", "12px", "600", 160, "center")
  }

  /** The visual category a type string falls into: its own entry, or `default`. */
  function Category(t: string): (c: string)
    ensures IsKnownType(c)
    ensures IsKnownType(t) ==> c == t
  {
    if IsKnownType(t) then t else "default"
  }

  /** Under the intended lookup, an unknown type is drawn exactly like a `default` node. */
  lemma UnknownTypeIsDefault(t: string)
    requires !IsKnownType(t)
    ensures GetNodeStyle(t) == GetNodeStyle("default")
  {
  }

  /**
   * The style tells the three categories apart: two types get the same style exactly when
   * they fall into the same category.
   */
  lemma {:induction false} StyleIdentifiesCategory(t1: string, t2: string)
    ensures GetNodeStyle(t1) == GetNodeStyle(t2) <==> Category(t1) == Category(t2)
  {
    var s1, s2 := GetNodeStyle(t1), GetNodeStyle(t2);
    if Category(t1) != Category(t2) {
      assert s1.border != s2.border by {
        var b1, b2 := s1.border, s2.border;
        assert b1[11] != b2[11] || b1[12] != b2[12];
      }
    }
  }

  // ---------------------------------------------------------------------------------------
  // The lookup as written: `NODE_TYPES_CONFIG[type] || NODE_TYPES_CONFIG.default` indexes a
  // plain object literal, so a type that names a member inherited from Object.prototype
  // finds that member (a function or an object, both truthy) and the fallback is not taken.

  /** Names every plain JavaScript object inherits from Object.prototype. */
  predicate IsObjectPrototypeKey(t: string) {
    t == "constructor" || t == "hasOwnProperty" || t == "isPrototypeOf" ||
    t == "propertyIsEnumerable" || t == "toLocaleString" || t == "toString" ||
    t == "valueOf" || t == "__proto__" || t == "__defineGetter__" ||
    t == "__defineSetter__" || t == "__lookupGetter__" || t == "__lookupSetter__"
  }

  /** What indexing the table object with `t` yields. */
  datatype ConfigLookup = OwnEntry(config: TypeConfig) | InheritedMember | NoEntry

  function LookupAsWritten(t: string): (r: ConfigLookup)
    ensures r.OwnEntry? <==> IsKnownType(t)
    ensures r.InheritedMember? <==> IsObjectPrototypeKey(t)
  {
    if IsKnownType(t) then OwnEntry(ConfigFor(t))
    else if IsObjectPrototypeKey(t) then InheritedMember
    else NoEntry
  }

  /**
   * The border getNodeStyle computes as written. An inherited member has no `border`
   * property, and the template literal renders the missing value as the text "undefined".
   */
  function BorderAsWritten(t: string): (b: string)
    ensures !IsObjectPrototypeKey(t) ==> b == GetNodeStyle(t).border
    ensures IsObjectPrototypeKey(t) ==> b == "2px solid undefined"
  {
    match LookupAsWritten(t)
    case OwnEntry(c) => "2px solid " + c.border
    case InheritedMember => "2px solid undefined"
    case NoEntry => "2px solid " + DefaultConfig.border
  }

  /**
   * The shadow getNodeStyle computes as written. An inherited member has no `shadow`
   * property either, so `boxShadow` is undefined and the node is drawn without a shadow.
   */
  function ShadowAsWritten(t: string): (s: Option<string>)
    ensures !IsObjectPrototypeKey(t) ==> s == Some(GetNodeStyle(t).boxShadow)
    ensures IsObjectPrototypeKey(t) ==> s == None
  {
    match LookupAsWritten(t)
    case OwnEntry(c) => Some(c.shadow)
    case InheritedMember => None
    case NoEntry => Some(DefaultConfig.shadow)
  }

  /**
   * A node whose type is "constructor" (reachable through import or an AI suggestion) is
   * drawn with the border "2px solid undefined" and no shadow, not with the `default`
   * treatment.
   */
  lemma PrototypeKeyBorder()
    ensures BorderAsWritten("constructor") == "2px solid undefined"
    ensures GetNodeStyle("constructor").border == "2px solid #6366f1"
    ensures BorderAsWritten("constructor") != GetNodeStyle("constructor").border
    ensures ShadowAsWritten("constructor") == None
    ensures GetNodeStyle("constructor").boxShadow == "0 0 12px rgba(99, 102, 241, 0.2)"
  {
    assert IsObjectPrototypeKey("constructor");
    var b := BorderAsWritten("constructor");
    assert b[10] != GetNodeStyle("constructor").border[10];
  }
}
