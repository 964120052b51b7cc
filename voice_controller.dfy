/**
 * The floating voice-command button (components/VoiceController.tsx): a spoken transcript
 * is lower-cased and routed by the first keyword it contains.
 */
module Voice {
  import opened Wrappers

  /** Lower-cases one character; only the ASCII letters A-Z are mapped. */
  function LowerChar(c: char): (r: char)
    ensures 'A' <= c <= 'Z' ==> 'a' <= r <= 'z' && r as int - c as int == 32
    ensures !('A' <= c <= 'Z') ==> r == c
  {
    if 'A' <= c <= 'Z' then (c as int + 32) as char else c
  }

  /** `transcript.toLowerCase()`, character by character. */
  function ToLower(s: string): (r: string)
    ensures |r| == |s|
    ensures forall i :: 0 <= i < |s| ==> r[i] == LowerChar(s[i])
    ensures forall i :: 0 <= i < |r| ==> !('A' <= r[i] <= 'Z')
  {
    if s == [] then [] else [LowerChar(s[0])] + ToLower(s[1..])
  }

  /** Lower-casing a lower-cased string changes nothing. */
  lemma ToLowerIdempotent(s: string)
    ensures ToLower(ToLower(s)) == ToLower(s)
  {
    var once := ToLower(s);
    var twice := ToLower(once);
    assert forall i :: 0 <= i < |once| ==> twice[i] == once[i];
  }

  /** `sub` occurs in `s` starting at offset `i`. */
  predicate OccursAt(s: string, sub: string, i: int) {
    0 <= i && i + |sub| <= |s| && s[i..i + |sub|] == sub
  }

  /** `s.includes(sub)`, searched from the left. */
  predicate Contains(s: string, sub: string)
    ensures Contains(s, sub) ==> |sub| <= |s|
    decreases |s|
  {
    if |sub| > |s| then false
    else if s[..|sub|] == sub then true
    else |s| > 0 && Contains(s[1..], sub)
  }

  /** The search finds `sub` exactly when it occurs at some offset. */
  lemma {:induction false} ContainsIff(s: string, sub: string)
    ensures Contains(s, sub) <==> exists i :: OccursAt(s, sub, i)
    decreases |s|
  {
    if |sub| > |s| {
      forall i | OccursAt(s, sub, i) ensures false { }
    } else if s[..|sub|] == sub {
      assert OccursAt(s, sub, 0);
    } else if |s| > 0 {
      ContainsIff(s[1..], sub);
      if Contains(s, sub) {
        var i :| OccursAt(s[1..], sub, i);
        assert s[i + 1..i + 1 + |sub|] == s[1..][i..i + |sub|];
        assert OccursAt(s, sub, i + 1);
      } else {
        forall i | OccursAt(s, sub, i) ensures false {
          assert i != 0;
          assert s[i..i + |sub|] == s[1..][i - 1..i - 1 + |sub|];
          assert OccursAt(s[1..], sub, i - 1);
        }
      }
    } else {
      forall i | OccursAt(s, sub, i) ensures false { }
    }
  }

  /** The keywords in the order the cascade tests them, and the route each one selects. */
  const Keywords: seq<string> := ["dashboard", "workflow", "analytics", "settings", "agent"]
  const Routes: seq<string> := ["/dashboard", "/workflow", "/analytics", "/settings", "/agent-dev"]

  /** The cascade of `includes` tests in processCommand. */
  function RouteFor(cmd: string): (r: Option<string>)
    ensures r.Some? ==> r.value in Routes
  {
    if Contains(cmd, "dashboard") then Some("/dashboard")
    else if Contains(cmd, "workflow") then Some("/workflow")
    else if Contains(cmd, "analytics") then Some("/analytics")
    else if Contains(cmd, "settings") then Some("/settings")
    else if Contains(cmd, "agent") then Some("/agent-dev")
    else None
  }

  /**
   * The cascade selects the route of keyword `k` exactly when `k` is the first keyword of
   * the table that the command contains.
   */
  lemma RouteIsFirstKeyword(cmd: string, k: int)
    requires 0 <= k < |Keywords|
    ensures RouteFor(cmd) == Some(Routes[k]) <==>
            Contains(cmd, Keywords[k]) && forall j :: 0 <= j < k ==> !Contains(cmd, Keywords[j])
  {
    assert Keywords[0] == "dashboard" && Keywords[1] == "workflow" && Keywords[2] == "analytics";
    assert Keywords[3] == "settings" && Keywords[4] == "agent";
    assert Routes[0] == "/dashboard" && Routes[1] == "/workflow" && Routes[2] == "/analytics";
    assert Routes[3] == "/settings" && Routes[4] == "/agent-dev";
    assert Routes[1][1] != Routes[3][1];
    assert |Routes[0]| == 10 && |Routes[1]| == 9 && |Routes[2]| == 10 && |Routes[4]| == 10;
    assert Routes[0][1] != Routes[2][1] && Routes[0][1] != Routes[4][1] && Routes[2][2] != Routes[4][2];
  }

  /** No navigation happens exactly when the command contains none of the keywords. */
  lemma NoKeywordNoRoute(cmd: string)
    ensures RouteFor(cmd).None? <==> forall k :: 0 <= k < |Keywords| ==> !Contains(cmd, Keywords[k])
  {
    if RouteFor(cmd).None? {
      forall k | 0 <= k < |Keywords| ensures !Contains(cmd, Keywords[k]) {
      }
    } else {
      assert Keywords[0] == "dashboard" && Keywords[1] == "workflow" && Keywords[2] == "analytics";
      assert Keywords[3] == "settings" && Keywords[4] == "agent";
      if Contains(cmd, "dashboard") {
        assert Contains(cmd, Keywords[0]);
      } else if Contains(cmd, "workflow") {
        assert Contains(cmd, Keywords[1]);
      } else if Contains(cmd, "analytics") {
        assert Contains(cmd, Keywords[2]);
      } else if Contains(cmd, "settings") {
        assert Contains(cmd, Keywords[3]);
      } else {
        assert Contains(cmd, Keywords[4]);
      }
    }
  }

  /** A command naming both a workflow and an agent goes to the workflow builder. */
  lemma WorkflowBeatsAgent(cmd: string)
    requires Contains(cmd, "workflow") && Contains(cmd, "agent") && !Contains(cmd, "dashboard")
    ensures RouteFor(cmd) == Some("/workflow")
  {
  }

  /** The navigations one command causes: none or exactly one. */
  function Navigations(route: Option<string>): (r: seq<string>)
    ensures |r| <= 1
    ensures r == [] <==> route.None?
  {
    if route.Some? then [route.value] else []
  }

  /** "Open WORKFLOW" lower-cases to "open workflow". */
  lemma OpenWorkflowLowerCase(s: string)
    requires s == "Open WORKFLOW"
    ensures ToLower(s) == "open workflow"
  {
    var r := ToLower(s);
    assert r[0] == 'o' && r[1] == 'p' && r[2] == 'e' && r[3] == 'n' && r[4] == ' ';
    assert r[5] == 'w' && r[6] == 'o' && r[7] == 'r' && r[8] == 'k';
    assert r[9] == 'f' && r[10] == 'l' && r[11] == 'o' && r[12] == 'w';
  }

  /** A command that mentions "workflow" and has no letter 'a' (so no "dashboard") goes to the builder. */
  lemma WorkflowWithoutLetterA(cmd: string)
    requires exists i :: OccursAt(cmd, "workflow", i)
    requires forall i :: 0 <= i < |cmd| ==> cmd[i] != 'a'
    ensures RouteFor(cmd) == Some("/workflow")
  {
    ContainsIff(cmd, "workflow");
    ContainsIff(cmd, "dashboard");
    forall i | 0 <= i && i + 9 <= |cmd| ensures !OccursAt(cmd, "dashboard", i) {
      assert cmd[i..i + 9][1] == cmd[i + 1] != 'a';
    }
  }

  /** "Open WORKFLOW" is routed to the workflow builder: matching ignores case. */
  lemma OpenWorkflowRoutesToWorkflow(s: string)
    requires s == "Open WORKFLOW"
    ensures RouteFor(ToLower(s)) == Some("/workflow")
  {
    OpenWorkflowLowerCase(s);
    var cmd := ToLower(s);
    assert OccursAt(cmd, "workflow", 5);
    WorkflowWithoutLetterA(cmd);
  }

  class VoiceController {
    var isListening: bool
    var lastCommand: string
    /** The routes handed to `navigate`, oldest first. */
    var navigations: seq<string>

    constructor ()
      ensures !isListening && lastCommand == "" && navigations == []
    {
      isListening := false;
      lastCommand := "";
      navigations := [];
    }

    /**
     * processCommand: records the lower-cased transcript and navigates at most once, to the
     * route of the first keyword it contains.
     */
    method ProcessCommand(transcript: string)
      modifies this`lastCommand, this`navigations
      ensures lastCommand == ToLower(transcript)
      ensures navigations == old(navigations) + Navigations(RouteFor(ToLower(transcript)))
    {
      var cmd := ToLower(transcript);
      lastCommand := cmd;
      if Contains(cmd, "dashboard") {
        navigations := navigations + ["/dashboard"];
      } else if Contains(cmd, "workflow") {
        navigations := navigations + ["/workflow"];
      } else if Contains(cmd, "analytics") {
        navigations := navigations + ["/analytics"];
      } else if Contains(cmd, "settings") {
        navigations := navigations + ["/settings"];
      } else if Contains(cmd, "agent") {
        navigations := navigations + ["/agent-dev"];
      }
    }

    /** The microphone button. */
    method ToggleListening()
      modifies this`isListening
      ensures isListening == !old(isListening)
    {
      isListening := !isListening;
    }
  }
}
