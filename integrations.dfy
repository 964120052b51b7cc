/**
 * The data-connector page (pages/Integrations.tsx): connector status toggles, the count of
 * active services, and the three-step Figma setup wizard with its token field.
 */
module Integrations {
  import opened Wrappers

  datatype ConnStatus = Connected | Disconnected

  /** A connector card; the icon is left out. */
  datatype Connector = Connector(id: string, name: string, desc: string, status: ConnStatus, color: string)

  const InitialConnectors: seq<Connector> := [
    Connector("gh", "GitHub", "Sync agents with repo logic", Connected, "bg-slate-800"),
    Connector("slack", "Slack", "Trigger workflows via commands", Connected, "bg-emerald-600"),
    Connector("figma", "Figma", "Design to agent mapping", Disconnected, "bg-indigo-600"),
    Connector("gdrive", "Google Drive", "Fetch training data assets", Disconnected, "bg-blue-600"),
    Connector("notion", "Notion", "Publish results to workspace", Connected, "bg-slate-800"),
    Connector("zapier", "Zapier", "Connect 5000+ external apps", Disconnected, "bg-orange-600"),
    Connector("chrome", "Chrome", "In-browser agent control", Connected, "bg-rose-600"),
    Connector("vercel", "Vercel", "Automated deployment hub", Disconnected, "bg-black")
  ]

  /** `status === 'connected' ? 'disconnected' : 'connected'`. */
  function Flip(s: ConnStatus): (r: ConnStatus)
    ensures r != s
  {
    if s == Connected then Disconnected else Connected
  }

  /** `connectors.find(c => c.id === id)?.status`: the status of the first connector with that id. */
  function FindStatus(cs: seq<Connector>, id: string): (r: Option<ConnStatus>)
    ensures r.None? <==> forall i :: 0 <= i < |cs| ==> cs[i].id != id
    ensures r.Some? ==> exists i :: 0 <= i < |cs| && cs[i].id == id && cs[i].status == r.value &&
                                    forall j :: 0 <= j < i ==> cs[j].id != id
  {
    if cs == [] then None
    else if cs[0].id == id then Some(cs[0].status)
    else FindStatus(cs[1..], id)
  }

  /** A toggle of `id` opens the Figma wizard instead of changing any status. */
  predicate OpensFigmaSetup(cs: seq<Connector>, id: string)
    ensures OpensFigmaSetup(cs, id) ==>
              id == "figma" && exists i :: 0 <= i < |cs| && cs[i].id == "figma" && cs[i].status == Disconnected
  {
    id == "figma" && FindStatus(cs, "figma") == Some(Disconnected)
  }

  /** The `map` in toggleConnection: every connector with id `id` flips, the rest stay. */
  function FlipStatuses(cs: seq<Connector>, id: string): (r: seq<Connector>)
    ensures |r| == |cs|
    ensures forall i :: 0 <= i < |cs| && cs[i].id != id ==> r[i] == cs[i]
    ensures forall i :: 0 <= i < |cs| && cs[i].id == id ==> r[i] == cs[i].(status := Flip(cs[i].status))
  {
    if cs == [] then []
    else [if cs[0].id == id then cs[0].(status := Flip(cs[0].status)) else cs[0]] + FlipStatuses(cs[1..], id)
  }

  /** The connectors after toggleConnection(id). */
  function ToggledConnectors(cs: seq<Connector>, id: string): (r: seq<Connector>)
    ensures OpensFigmaSetup(cs, id) ==> r == cs
    ensures (forall i :: 0 <= i < |cs| ==> cs[i].id != id) ==> r == cs
    ensures !OpensFigmaSetup(cs, id) ==> r == FlipStatuses(cs, id)
  {
    if OpensFigmaSetup(cs, id) then cs else FlipStatuses(cs, id)
  }

  /** The `map` in the verification callback: Figma becomes connected, the rest stay. */
  function ConnectFigma(cs: seq<Connector>): (r: seq<Connector>)
    ensures |r| == |cs|
    ensures forall i :: 0 <= i < |cs| && cs[i].id != "figma" ==> r[i] == cs[i]
    ensures forall i :: 0 <= i < |cs| && cs[i].id == "figma" ==> r[i] == cs[i].(status := Connected)
  {
    if cs == [] then []
    else [if cs[0].id == "figma" then cs[0].(status := Connected) else cs[0]] + ConnectFigma(cs[1..])
  }

  /** `connectors.filter(c => c.status === 'connected').length`. */
  function ActiveCount(cs: seq<Connector>): (n: nat)
    ensures n <= |cs|
  {
    if cs == [] then 0 else (if cs[0].status == Connected then 1 else 0) + ActiveCount(cs[1..])
  }

  /** The number of connectors with id `id` in status `s`. */
  function CountWith(cs: seq<Connector>, id: string, s: ConnStatus): (n: nat)
    ensures n <= |cs|
  {
    if cs == [] then 0 else (if cs[0].id == id && cs[0].status == s then 1 else 0) + CountWith(cs[1..], id, s)
  }

  /** The statuses of the connectors, in order. */
  function StatusesOf(cs: seq<Connector>): (r: seq<ConnStatus>)
    ensures |r| == |cs| && forall i :: 0 <= i < |cs| ==> r[i] == cs[i].status
  {
    if cs == [] then [] else [cs[0].status] + StatusesOf(cs[1..])
  }

  /** The active-service count is the number of occurrences of `connected` among the statuses. */
  lemma {:induction false} ActiveCountIsMultiplicity(cs: seq<Connector>)
    ensures ActiveCount(cs) == multiset(StatusesOf(cs))[Connected]
  {
    if cs != [] {
      ActiveCountIsMultiplicity(cs[1..]);
      assert StatusesOf(cs) == [cs[0].status] + StatusesOf(cs[1..]);
    }
  }

  /** Flipping `id` twice restores every status. */
  lemma {:induction false} FlipTwiceRestores(cs: seq<Connector>, id: string)
    ensures FlipStatuses(FlipStatuses(cs, id), id) == cs
  {
    var once := FlipStatuses(cs, id);
    var twice := FlipStatuses(once, id);
    forall i | 0 <= i < |cs| ensures twice[i] == cs[i] {
      if cs[i].id == id {
        assert Flip(Flip(cs[i].status)) == cs[i].status;
      }
    }
  }

  /** For every id other than "figma", toggling twice restores the connectors. */
  lemma ToggleTwiceRestores(cs: seq<Connector>, id: string)
    requires id != "figma"
    ensures ToggledConnectors(ToggledConnectors(cs, id), id) == cs
  {
    FlipTwiceRestores(cs, id);
  }

  /** The first connector with `id` flips under a flip of `id`. */
  lemma {:induction false} FindStatusAfterFlip(cs: seq<Connector>, id: string)
    requires FindStatus(cs, id).Some?
    ensures FindStatus(FlipStatuses(cs, id), id) == Some(Flip(FindStatus(cs, id).value))
  {
    if cs[0].id != id {
      FindStatusAfterFlip(cs[1..], id);
      assert FlipStatuses(cs, id)[1..] == FlipStatuses(cs[1..], id);
    }
  }

  /**
   * Figma is the exception to the toggle-twice rule: a connected Figma is disconnected by
   * the first toggle, and the second toggle opens the setup wizard instead of reconnecting.
   */
  lemma FigmaToggleTwice(cs: seq<Connector>)
    requires FindStatus(cs, "figma") == Some(Connected)
    ensures !OpensFigmaSetup(cs, "figma")
    ensures FindStatus(ToggledConnectors(cs, "figma"), "figma") == Some(Disconnected)
    ensures OpensFigmaSetup(ToggledConnectors(cs, "figma"), "figma")
  {
    FindStatusAfterFlip(cs, "figma");
  }

  /** A flip of `id` turns its connected entries off and its disconnected entries on. */
  lemma {:induction false} ActiveCountAfterFlip(cs: seq<Connector>, id: string)
    ensures ActiveCount(FlipStatuses(cs, id)) + CountWith(cs, id, Connected) ==
            ActiveCount(cs) + CountWith(cs, id, Disconnected)
  {
    if cs != [] {
      ActiveCountAfterFlip(cs[1..], id);
      assert FlipStatuses(cs, id)[1..] == FlipStatuses(cs[1..], id);
    }
  }

  /** Completing the Figma setup adds exactly its disconnected entries to the active count. */
  lemma {:induction false} ActiveCountAfterConnectFigma(cs: seq<Connector>)
    ensures ActiveCount(ConnectFigma(cs)) == ActiveCount(cs) + CountWith(cs, "figma", Disconnected)
  {
    if cs != [] {
      ActiveCountAfterConnectFigma(cs[1..]);
      assert ConnectFigma(cs)[1..] == ConnectFigma(cs[1..]);
    }
  }

  /** `s.startsWith(p)`. */
  predicate StartsWith(s: string, p: string) {
    |p| <= |s| && s[..|p|] == p
  }

  /** `token.length > 0 && !token.startsWith('figd_')`: the advisory prefix warning. */
  predicate ShowsPrefixWarning(token: string)
    ensures ShowsPrefixWarning(token) <==> |token| > 0 && (|token| < 5 || token[..5] != "figd_")
  {
    |token| > 0 && !StartsWith(token, "figd_")
  }

  /** `disabled={!token || isVerifying}`, negated. */
  predicate SubmitEnabled(token: string, verifying: bool)
    ensures SubmitEnabled(token, verifying) ==> |token| > 0 && !verifying
  {
    token != "" && !verifying
  }

  /**
   * The warning shows exactly for a non-empty token without the Figma prefix, so never for
   * one with it; submission needs only a non-empty token, so the warning does not block it.
   */
  lemma PrefixWarningIsAdvisory(t: string)
    ensures ShowsPrefixWarning(t) <==> t != [] && !StartsWith(t, "figd_")
    ensures !ShowsPrefixWarning("figd_" + t)
    ensures SubmitEnabled(t, false) <==> t != []
    ensures ShowsPrefixWarning(t) ==> SubmitEnabled(t, false)
  {
    assert ("figd_" + t)[..5] == "figd_";
  }

  /** The wizard's Next and Back buttons: 1 to 2, 2 to 1 or 3, 3 to 2. */
  predicate IsStepMove(from: int, to: int)
    ensures IsStepMove(from, to) ==> 1 <= from <= 3 && 1 <= to <= 3 && (to == from + 1 || to == from - 1)
  {
    (from == 1 && to == 2) || (from == 2 && (to == 1 || to == 3)) || (from == 3 && to == 2)
  }

  class IntegrationsPage {
    var connectors: seq<Connector>
    var showFigmaSetup: bool
    var setupStep: int
    var token: string
    var isVerifying: bool

    /** The wizard step is always one of its three pages. */
    ghost predicate Valid()
      reads this
    {
      1 <= setupStep <= 3
    }

    constructor ()
      ensures connectors == InitialConnectors && !showFigmaSetup && setupStep == 1
      ensures token == "" && !isVerifying && Valid()
    {
      connectors := InitialConnectors;
      showFigmaSetup := false;
      setupStep := 1;
      token := "";
      isVerifying := false;
    }

    /**
     * toggleConnection: a disconnected Figma opens the setup wizard and changes no status;
     * any other toggle flips the status of the connectors with that id.
     */
    method ToggleConnection(id: string)
      requires Valid()
      modifies this`connectors, this`showFigmaSetup
      ensures Valid()
      ensures connectors == ToggledConnectors(old(connectors), id)
      ensures showFigmaSetup == (old(showFigmaSetup) || OpensFigmaSetup(old(connectors), id))
    {
      if id == "figma" && FindStatus(connectors, "figma") == Some(Disconnected) {
        showFigmaSetup := true;
        return;
      }
      connectors := FlipStatuses(connectors, id);
    }

    /** A Next or Back button of the wizard. */
    method GoToStep(target: int)
      requires Valid() && showFigmaSetup && IsStepMove(setupStep, target)
      modifies this`setupStep
      ensures Valid() && setupStep == target
    {
      setupStep := target;
    }

    /** Typing in the token field on the last page. */
    method EnterToken(value: string)
      requires Valid() && showFigmaSetup && setupStep == 3
      modifies this`token
      ensures Valid() && token == value
    {
      token := value;
    }

    /** handleCompleteSetup, when pressed: verification starts and its timer is pending. */
    method CompleteSetup()
      requires Valid() && showFigmaSetup && setupStep == 3 && SubmitEnabled(token, isVerifying)
      modifies this`isVerifying
      ensures Valid() && isVerifying
    {
      isVerifying := true;
    }

    /**
     * The verification timer firing: Figma becomes connected, every other connector is
     * unchanged, and the wizard is closed and reset.
     */
    method VerificationFinished()
      requires Valid() && isVerifying
      modifies this
      ensures Valid()
      ensures connectors == ConnectFigma(old(connectors))
      ensures !isVerifying && !showFigmaSetup && setupStep == 1 && token == ""
    {
      connectors := ConnectFigma(connectors);
      isVerifying := false;
      showFigmaSetup := false;
      setupStep := 1;
      token := "";
    }

    /** closeSetup: the wizard closes and resets without touching any connector. */
    method CloseSetup()
      requires Valid()
      modifies this`showFigmaSetup, this`setupStep, this`token
      ensures Valid()
      ensures !showFigmaSetup && setupStep == 1 && token == ""
    {
      showFigmaSetup := false;
      setupStep := 1;
      token := "";
    }
  }
}
