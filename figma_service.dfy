/**
 * The Figma service (services/figmaService.ts): the mapping of canvas nodes to Figma
 * rectangles, the link to the target file, and the token check.
 */
module FigmaExport {
  import opened Wrappers
  import opened WorkflowGraph

  /** The "Label" text layer inside each rectangle. */
  datatype FigmaText = FigmaText(
    kind: string, name: string, characters: Option<string>,
    fontFamily: string, fontWeight: int, fontSize: int)

  /** One rectangle per node; a label the node lacks stays absent (`undefined`). */
  datatype FigmaRect = FigmaRect(
    kind: string, name: Option<string>, x: real, y: real,
    width: int, height: int, cornerRadius: int, strokeWeight: int,
    children: seq<FigmaText>)

  /** `node.data.label`. */
  function LabelOf(n: Node): (r: Option<string>)
    ensures r.Some? <==> "label" in n.data
    ensures r.Some? ==> r.value == n.data["label"]
  {
    if "label" in n.data then Some(n.data["label"]) else None
  }

  /** The rectangle built for one node. */
  function RectFor(n: Node): (r: FigmaRect)
    ensures r.kind == "RECTANGLE" && r.width == 180 && r.height == 60
    ensures r.cornerRadius == 8 && r.strokeWeight == 1
    ensures r.name == LabelOf(n) && r.x == n.position.x && r.y == n.position.y
    ensures |r.children| == 1 && r.children[0].kind == "TEXT" && r.children[0].name == "Label"
    ensures r.children[0].characters == LabelOf(n)
    ensures r.children[0].fontFamily == "Inter" && r.children[0].fontWeight == 600 && r.children[0].fontSize == 14
  {
    FigmaRect("RECTANGLE", LabelOf(n), n.position.x, n.position.y, 180, 60, 8, 1,
              [FigmaText("TEXT", "Label", LabelOf(n), "Inter", 600, 14)])
  }

  /** `nodes.map(...)`: one rectangle per node, in the same order. */
  function FigmaNodes(nodes: seq<Node>): (r: seq<FigmaRect>)
    ensures |r| == |nodes|
    ensures forall i :: 0 <= i < |nodes| ==> r[i] == RectFor(nodes[i])
  {
    if nodes == [] then [] else [RectFor(nodes[0])] + FigmaNodes(nodes[1..])
  }

  /** What a rectangle records of its node: the label and the top-left corner. */
  function NodeSummary(n: Node): (summary: (Option<string>, Position)) {
    (LabelOf(n), n.position)
  }

  /** Reads the label and the position back from a rectangle. */
  function RectSummary(r: FigmaRect): (summary: (Option<string>, Position)) {
    (r.name, Position(r.x, r.y))
  }

  /**
   * The mapping loses nothing it carries: the label and the position of every node can be
   * read back from its rectangle, and the text layer repeats the rectangle's name.
   */
  lemma {:induction false} FigmaNodesKeepLabelsAndPositions(nodes: seq<Node>)
    ensures forall i :: 0 <= i < |nodes| ==>
              RectSummary(FigmaNodes(nodes)[i]) == NodeSummary(nodes[i]) &&
              FigmaNodes(nodes)[i].children[0].characters == FigmaNodes(nodes)[i].name
  {
    var rs := FigmaNodes(nodes);
    forall i | 0 <= i < |nodes|
      ensures RectSummary(rs[i]) == NodeSummary(nodes[i]) && rs[i].children[0].characters == rs[i].name
    {
      assert rs[i] == RectFor(nodes[i]);
    }
  }

  /** The mapping commutes with concatenation: each node is mapped on its own. */
  lemma {:induction false} FigmaNodesAppend(a: seq<Node>, b: seq<Node>)
    ensures FigmaNodes(a + b) == FigmaNodes(a) + FigmaNodes(b)
  {
    if a != [] {
      FigmaNodesAppend(a[1..], b);
      assert (a + b)[1..] == a[1..] + b;
    }
  }

  /** The export dialog's settings (the scale and comment options are never read). */
  datatype FigmaConfig = FigmaConfig(fileKey: string, frameName: string)

  const DefaultFileKey: string := "ABC123XYZ"
  const DefaultFrameName: string := "Workflow_Export"
  const FigmaFilePrefix: string := "https://www.figma.com/file/"

  /** `value || fallback` on a string: the empty string is falsy. */
  function OrDefault(value: string, fallback: string): (r: string)
    ensures value != "" ==> r == value
    ensures value == "" ==> r == fallback
  {
    if value != "" then value else fallback
  }

  /**
   * The link returned by the export: the prefix, the file key (or its default), a '/' and
   * the frame name (or its default), whatever characters the settings hold.
   */
  function FigmaFileUrl(config: FigmaConfig): (url: string)
    ensures |url| > |FigmaFilePrefix|
    ensures url[..|FigmaFilePrefix|] == FigmaFilePrefix
    ensures var key := OrDefault(config.fileKey, DefaultFileKey);
            var frame := OrDefault(config.frameName, DefaultFrameName);
            var p := |FigmaFilePrefix|;
            |url| == p + |key| + 1 + |frame| &&
            url[p..p + |key|] == key && url[p + |key|] == '/' && url[p + |key| + 1..] == frame
  {
    FigmaFilePrefix + OrDefault(config.fileKey, DefaultFileKey) + "/" + OrDefault(config.frameName, DefaultFrameName)
  }

  /** The index of the first '/' in `s`, or |s| when there is none. */
  function FirstSlash(s: string): (k: nat)
    ensures k <= |s|
    ensures forall j :: 0 <= j < k ==> s[j] != '/'
    ensures k < |s| ==> s[k] == '/'
  {
    if s == [] || s[0] == '/' then 0 else 1 + FirstSlash(s[1..])
  }

  /** Splits a file link into its file key and frame name. */
  function ParseFigmaUrl(url: string): (r: Option<(string, string)>)
    ensures r.Some? ==> FigmaFilePrefix + r.value.0 + "/" + r.value.1 == url
  {
    if |url| < |FigmaFilePrefix| || url[..|FigmaFilePrefix|] != FigmaFilePrefix then None
    else
      var rest := url[|FigmaFilePrefix|..];
      var k := FirstSlash(rest);
      if k == |rest| then None
      else
        assert rest == rest[..k] + "/" + rest[k + 1..];
        assert url == FigmaFilePrefix + rest;
        Some((rest[..k], rest[k + 1..]))
  }

  /**
   * The link names the configured file and frame, or the defaults for empty settings: it
   * parses back to exactly those when the file key holds no '/'.
   */
  lemma FigmaUrlRoundTrip(config: FigmaConfig)
    requires '/' !in config.fileKey
    ensures ParseFigmaUrl(FigmaFileUrl(config)) ==
            Some((OrDefault(config.fileKey, DefaultFileKey), OrDefault(config.frameName, DefaultFrameName)))
  {
    var key := OrDefault(config.fileKey, DefaultFileKey);
    var frame := OrDefault(config.frameName, DefaultFrameName);
    var url := FigmaFileUrl(config);
    var p := |FigmaFilePrefix|;
    var rest := url[p..];
    assert rest[..|key|] == url[p..p + |key|] == key;
    assert rest[|key|] == '/';
    assert rest[|key| + 1..] == frame;
    assert '/' !in key by {
      if config.fileKey == "" {
        assert forall j :: 0 <= j < |DefaultFileKey| ==> DefaultFileKey[j] != '/';
      }
    }
    assert forall j :: 0 <= j < |key| ==> rest[j] == key[j];
    assert FirstSlash(rest) == |key|;
  }

  /** The value the export resolves to; the rectangles are built but never sent anywhere. */
  datatype ExportReceipt = ExportReceipt(success: bool, url: string, timestamp: string)

  /**
   * exportWorkflowToFigma, with the clock reading passed in. The rectangles the source
   * builds (FigmaNodes) are discarded, so the receipt does not depend on the graph.
   */
  function ExportWorkflowToFigma(nodes: seq<Node>, edges: seq<Edge>, config: FigmaConfig, timestamp: string): (r: ExportReceipt)
    ensures r.success && r.timestamp == timestamp && r.url == FigmaFileUrl(config)
  {
    ExportReceipt(true, FigmaFileUrl(config), timestamp)
  }

  /** The receipt depends on the settings and the clock only, never on the graph. */
  lemma ExportIgnoresGraph(n1: seq<Node>, e1: seq<Edge>, n2: seq<Node>, e2: seq<Edge>, config: FigmaConfig, t: string)
    ensures ExportWorkflowToFigma(n1, e1, config, t) == ExportWorkflowToFigma(n2, e2, config, t)
  {
  }

  /** `token.length`: JavaScript counts UTF-16 code units, two for a character above U+FFFF. */
  function Utf16Length(s: string): (n: nat)
    ensures |s| <= n <= 2 * |s|
  {
    if s == [] then 0 else (if s[0] as int >= 0x1_0000 then 2 else 1) + Utf16Length(s[1..])
  }

  datatype FigmaUser = FigmaUser(user: string, id: string)

  /** validateFigmaConnection: a rejected promise becomes a Failure carrying its message. */
  function ValidateFigmaConnection(token: string): (r: Result<FigmaUser, string>)
    ensures r.Failure? <==> Utf16Length(token) < 10
    ensures r.Failure? ==> r.error == "Invalid Token format"
    ensures r.Success? ==> r.value == FigmaUser("Architect Pro User", "u123")
  {
    if Utf16Length(token) < 10 then Failure("Invalid Token format")
    else Success(FigmaUser("Architect Pro User", "u123"))
  }

  /**
   * In characters: a token of ten or more characters always passes and one of four or
   * fewer always fails; between them it depends on how many lie above U+FFFF.
   */
  lemma ValidationByCharacterCount(token: string)
    ensures |token| >= 10 ==> ValidateFigmaConnection(token).Success?
    ensures |token| < 5 ==> ValidateFigmaConnection(token).Failure?
  {
  }

  /** Five characters above U+FFFF already make a token long enough. */
  lemma FiveAstralCharactersPass(token: string)
    requires token == ['\U{1F600}', '\U{1F600}', '\U{1F600}', '\U{1F600}', '\U{1F600}']
    ensures ValidateFigmaConnection(token).Success?
  {
    assert Utf16Length(token[4..]) == 2;
    assert Utf16Length(token[3..]) == 4;
    assert Utf16Length(token[2..]) == 6;
    assert Utf16Length(token[1..]) == 8;
  }
}
