/**
 * The diagram renderer: the Mermaid configuration chosen from the layout
 * and the theme, and the render session around one container: each render
 * empties or fills the container and replaces the pan-zoom instance, so at
 * most one instance is alive at any time; the zoom buttons act on that
 * instance and do nothing without one; a counter bumped on every change of
 * code, layout or theme goes into each render id.
 *
 * `mermaid.render` and the pan-zoom library are foreign: the render's
 * outcome is a parameter, and the calls made on pan-zoom instances are
 * recorded in order in a log, from which the set of live instances is read.
 * The clock (`Date.now()`) is a parameter.
 */
module MermaidRenderer {
  import opened Text
  import opened Model

  // ------------------------------------------------------------ configuration

  /** The `flowchart` block of the configuration. */
  datatype Flowchart = Flowchart(curve: string, htmlLabels: bool, padding: nat, nodeSpacing: nat,
                                 rankSpacing: nat, diagramPadding: nat, useMaxWidth: bool,
                                 defaultRenderer: Option<string>)

  /** The `elk` block, present only for the ELK layout. */
  datatype ElkOptions = ElkOptions(nodePlacementStrategy: string, mergeEdges: bool)

  /** What `mermaid.initialize` receives. */
  datatype Config = Config(startOnLoad: bool, theme: string, securityLevel: string, logLevel: string,
                           fontFamily: string, flowchart: Flowchart, elk: Option<ElkOptions>,
                           themeVariables: Option<seq<(string, string)>>)

  const FontFamily := "-apple-system, BlinkMacSystemFont, \"Segoe UI\", Roboto, \"Helvetica Neue\", Arial, sans-serif"

  /** The custom palette applied with the `base` theme. */
  const BaseThemeVariables: seq<(string, string)> := [
    ("primaryColor", "#e3f2fd"), ("primaryTextColor", "#1565c0"), ("primaryBorderColor", "#1976d2"),
    ("secondaryColor", "#f3e5f5"), ("secondaryTextColor", "#6a1b9a"), ("secondaryBorderColor", "#7b1fa2"),
    ("tertiaryColor", "#e0f7fa"), ("tertiaryTextColor", "#00695c"), ("tertiaryBorderColor", "#00838f"),
    ("lineColor", "#455a64"),
    ("background", "#ffffff"), ("mainBkg", "#e3f2fd"), ("secondBkg", "#f3e5f5"), ("tertiaryBkg", "#e0f7fa"),
    ("fontSize", "16px"),
    ("nodeBorder", "#1976d2"), ("clusterBkg", "#f5f5f5"), ("clusterBorder", "#9e9e9e"),
    ("strokeWidth", "3px"),
    ("errorBkgColor", "#ffebee"), ("errorTextColor", "#c62828"),
    ("warningBkgColor", "#fff3e0"), ("warningTextColor", "#e65100"),
    ("successBkgColor", "#e8f5e9"), ("successTextColor", "#2e7d32")
  ]

  /**
   * The configuration for a layout and a theme: the ELK layout gets tighter
   * spacing, the ELK renderer and the ELK block; every other layout gets the
   * layered (dagre) spacing. The custom palette comes only with `base`.
   */
  function MermaidConfig(layout: string, theme: string): (c: Config)
    ensures c.theme == theme && !c.startOnLoad && c.securityLevel == "loose"
    ensures c.flowchart.curve == "linear" && c.flowchart.htmlLabels && !c.flowchart.useMaxWidth
    ensures c.elk.Some? <==> layout == "elk"
    ensures c.flowchart.defaultRenderer.Some? <==> layout == "elk"
    ensures layout == "elk" ==>
      c.flowchart.padding == 30 && c.flowchart.nodeSpacing == 60 && c.flowchart.rankSpacing == 80 &&
      c.flowchart.diagramPadding == 20 && c.flowchart.defaultRenderer == Some("elk") &&
      c.elk == Some(ElkOptions("SIMPLE", true))
    ensures layout != "elk" ==>
      c.flowchart.padding == 40 && c.flowchart.nodeSpacing == 80 && c.flowchart.rankSpacing == 100 &&
      c.flowchart.diagramPadding == 30
    ensures c.themeVariables.Some? <==> theme == "base"
    ensures c.themeVariables.Some? ==> c.themeVariables.value == BaseThemeVariables
  {
    var flowchart :=
      if layout == "elk" then Flowchart("linear", true, 30, 60, 80, 20, false, Some("elk"))
      else Flowchart("linear", true, 40, 80, 100, 30, false, None);
    var elk := if layout == "elk" then Some(ElkOptions("SIMPLE", true)) else None;
    Config(false, theme, "loose", "error", FontFamily, flowchart, elk,
           if theme == "base" then Some(BaseThemeVariables) else None)
  }

  /**
   * The configuration tells only ELK apart from the rest: every layout other
   * than `elk` (`dagre`, or anything else) gets the same configuration.
   */
  lemma {:induction false} NonElkLayoutsAgree(l1: string, l2: string, theme: string)
    requires l1 != "elk" && l2 != "elk"
    ensures MermaidConfig(l1, theme) == MermaidConfig(l2, theme)
  {
    var c1 := MermaidConfig(l1, theme);
    var c2 := MermaidConfig(l2, theme);
    assert c1.flowchart == c2.flowchart;
    assert c1.elk == c2.elk;
  }

  // ------------------------------------------------------------ render ids

  /** `mermaid-${renderKey}-${Date.now()}` */
  function RenderId(renderKey: nat, now: nat): (id: string)
    ensures IsPrefix("mermaid-", id)
  {
    "mermaid-" + (NatToString(renderKey) + "-" + NatToString(now))
  }

  /** Two digit strings joined by a dash can be read back: the first dash separates them. */
  lemma DashJoinedDigits(a1: string, b1: string, a2: string, b2: string)
    requires forall i :: 0 <= i < |a1| ==> '0' <= a1[i] <= '9'
    requires forall i :: 0 <= i < |a2| ==> '0' <= a2[i] <= '9'
    requires a1 + ['-'] + b1 == a2 + ['-'] + b2
    ensures a1 == a2 && b1 == b2
  {
    var t := a1 + ['-'] + b1;
    var dash := IndexOf(t, '-');
    assert t[|a1|] == '-' && t[|a2|] == '-';
    assert dash == |a1| && dash == |a2|;
    assert a1 == t[..dash] == a2;
    assert b1 == t[dash + 1..] == b2;
  }

  /** Equal strings with the same prefix have the same rest. */
  lemma SharedPrefix(p: string, x: string, y: string)
    requires p + x == p + y
    ensures x == y
  {
    assert x == (p + x)[|p|..];
    assert y == (p + y)[|p|..];
  }

  /** Different render keys or times give different ids: the key and the time can be read back. */
  lemma RenderIdInjective(k1: nat, t1: nat, k2: nat, t2: nat)
    requires RenderId(k1, t1) == RenderId(k2, t2)
    ensures k1 == k2 && t1 == t2
  {
    var a1, a2 := NatToString(k1), NatToString(k2);
    var b1, b2 := NatToString(t1), NatToString(t2);
    SharedPrefix("mermaid-", a1 + "-" + b1, a2 + "-" + b2);
    DashJoinedDigits(a1, b1, a2, b2);
    NatToStringInjective(k1, k2);
    NatToStringInjective(t1, t2);
  }

  // ------------------------------------------------------------ pan-zoom log

  /**
   * The pan-zoom options, with the zoom bounds and sensitivity in tenths:
   * minZoom 0.1, maxZoom 10, zoomScaleSensitivity 0.3.
   */
  datatype PanZoomOptions = PanZoomOptions(zoomEnabled: bool, controlIconsEnabled: bool, fit: bool,
                                           center: bool, minZoomTenths: nat, maxZoomTenths: nat,
                                           sensitivityTenths: nat)

  const PanZoomSettings := PanZoomOptions(true, false, false, true, 1, 100, 3)

  /** One call made on the pan-zoom library, naming the instance it concerns. */
  datatype PanZoomCall =
    | Attach(instance: nat, options: PanZoomOptions)
    | Destroy(instance: nat)
    | ZoomIn(instance: nat)
    | ZoomOut(instance: nat)
    | ResetZoom(instance: nat)
    | Center(instance: nat)
    | Fit(instance: nat)

  /** The instances attached and not yet destroyed after a log of calls. */
  function Live(log: seq<PanZoomCall>): set<nat> {
    if log == [] then {}
    else
      var before := Live(log[..|log| - 1]);
      match log[|log| - 1]
      case Attach(i, _) => before + {i}
      case Destroy(i) => before - {i}
      case _ => before
  }

  /** The destroy call for the instance held, if any. */
  function DestroyCalls(held: Option<nat>): (calls: seq<PanZoomCall>)
    ensures held.None? ==> calls == []
    ensures held.Some? ==> calls == [Destroy(held.value)]
  {
    if held.Some? then [Destroy(held.value)] else []
  }

  /** Destroying the only live instance leaves none alive. */
  lemma {:induction false} LiveAfterDestroy(log: seq<PanZoomCall>, held: Option<nat>)
    requires Live(log) == (if held.None? then {} else {held.value})
    ensures Live(log + DestroyCalls(held)) == {}
  {
    if held.Some? {
      assert (log + DestroyCalls(held))[..|log|] == log;
    } else {
      assert log + DestroyCalls(held) == log;
    }
  }

  /** Attaching an instance adds it to the live ones. */
  lemma LiveAfterAttach(log: seq<PanZoomCall>, i: nat, options: PanZoomOptions)
    ensures Live(log + [Attach(i, options)]) == Live(log) + {i}
  {
    assert (log + [Attach(i, options)])[..|log|] == log;
  }

  /** Calls that only move the view leave the set of live instances as it was. */
  lemma {:induction false} ViewCallsKeepLive(log: seq<PanZoomCall>, calls: seq<PanZoomCall>)
    requires forall k :: 0 <= k < |calls| ==> !calls[k].Attach? && !calls[k].Destroy?
    ensures Live(log + calls) == Live(log)
    decreases |calls|
  {
    if calls != [] {
      var init := calls[..|calls| - 1];
      ViewCallsKeepLive(log, init);
      assert (log + calls)[..|log + calls| - 1] == log + init;
      assert (log + calls)[|log + calls| - 1] == calls[|calls| - 1];
    } else {
      assert log + calls == log;
    }
  }

  // ------------------------------------------------------------ the session

  /** What `mermaid.render` produced: the markup, and whether it holds an `svg` element. */
  datatype Rendered = Rendered(svg: string, hasSvgElement: bool)

  /** Why a render failed: an `Error` with its message, or anything else thrown. */
  datatype RenderFailure = ErrorObject(message: string) | OtherThrown

  class RenderSession {
    /** `t('renderer.renderError')` in the current language. */
    const renderError: string
    var code: string
    var layout: string
    var theme: string
    var renderKey: nat
    /** The container's `innerHTML`; `None` while it is not mounted. */
    var container: Option<string>
    /** `panZoomInstance.current`: the instance held, if any. */
    var panZoom: Option<nat>
    /** How many instances have been attached; the next one gets this number. */
    var attached: nat
    /** Every call made on the pan-zoom library, in order. */
    var calls: seq<PanZoomCall>

    /** The instance held is the only live one, and every live instance was numbered before. */
    predicate Valid()
      reads this
    {
      Live(calls) == (if panZoom.None? then {} else {panZoom.value}) &&
      (panZoom.Some? ==> panZoom.value < attached)
    }

    constructor (code: string, layout: string, theme: string, mounted: bool, renderError: string)
      ensures Valid()
      ensures this.code == code && this.layout == layout && this.theme == theme
      ensures this.renderError == renderError
      ensures renderKey == 0 && panZoom == None && calls == [] && attached == 0
      ensures container == if mounted then Some([]) else None
    {
      this.code := code;
      this.layout := layout;
      this.theme := theme;
      this.renderError := renderError;
      renderKey := 0;
      container := if mounted then Some([]) else None;
      panZoom := None;
      attached := 0;
      calls := [];
    }

    /** The configuration the session initialises Mermaid with. */
    function CurrentConfig(): (c: Config)
      reads this
      ensures c.elk.Some? <==> layout == "elk"
      ensures c.themeVariables.Some? <==> theme == "base"
    {
      MermaidConfig(layout, theme)
    }

    /** Destroys and forgets the instance held, if any. */
    method DropInstance()
      requires Valid()
      modifies this
      ensures Valid() && panZoom == None && Live(calls) == {}
      ensures calls == old(calls) + DestroyCalls(old(panZoom))
      ensures code == old(code) && layout == old(layout) && theme == old(theme)
      ensures renderKey == old(renderKey) && container == old(container) && attached == old(attached)
    {
      LiveAfterDestroy(calls, panZoom);
      calls := calls + DestroyCalls(panZoom);
      panZoom := None;
    }

    /**
     * `renderDiagram`. Without a container or with blank code, the container
     * (when there is one) is emptied, the instance dropped, and nothing is
     * rendered. Otherwise the old instance is destroyed first and the code is
     * rendered under an id made of the render key and the time. On success
     * the markup is installed and, when it holds an `svg` element, a new
     * instance is attached with the fixed options; on failure an alert names
     * the error and the container is emptied. Either way, afterwards the
     * instance held, if any, is the only live one.
     */
    method Render(now: nat, outcome: Result<Rendered, RenderFailure>)
      returns (renderId: Option<string>, alert: Option<string>)
      requires Valid()
      modifies this
      ensures Valid()
      ensures container.None? == old(container).None?
      ensures old(container).None? || Blank(code) ==>
        renderId == None && alert == None && panZoom == None &&
        calls == old(calls) + DestroyCalls(old(panZoom)) &&
        container == (if old(container).None? then None else Some([]))
      ensures old(container).Some? && !Blank(code) ==> renderId == Some(RenderId(renderKey, now))
      ensures old(container).Some? && !Blank(code) && outcome.Ok? ==>
        alert == None && container == Some(outcome.value.svg)
      ensures old(container).Some? && !Blank(code) && outcome.Ok? && outcome.value.hasSvgElement ==>
        panZoom == Some(old(attached)) &&
        calls == old(calls) + DestroyCalls(old(panZoom)) + [Attach(old(attached), PanZoomSettings)]
      ensures old(container).Some? && !Blank(code) && outcome.Ok? && !outcome.value.hasSvgElement ==>
        panZoom == None && calls == old(calls) + DestroyCalls(old(panZoom))
      ensures old(container).Some? && !Blank(code) && outcome.Err? ==>
        container == Some([]) && panZoom == None && calls == old(calls) + DestroyCalls(old(panZoom)) &&
        alert == Some(renderError + ": " +
                      (if outcome.error.ErrorObject? then outcome.error.message else renderError))
      ensures code == old(code) && layout == old(layout) && theme == old(theme) && renderKey == old(renderKey)
      ensures attached == old(attached) + (if panZoom.Some? then 1 else 0)
    {
      TrimEmptyIffBlank(code);
      if container.None? || Trim(code) == [] {
        if container.Some? {
          container := Some([]);
        }
        DropInstance();
        return None, None;
      }
      DropInstance();
      renderId := Some(RenderId(renderKey, now));
      alert := Install(outcome);
    }

    /**
     * What follows `mermaid.render`, once no instance is held: the markup is
     * installed and an instance attached when it holds an `svg` element, or
     * the failure is reported and the container emptied.
     */
    method Install(outcome: Result<Rendered, RenderFailure>) returns (alert: Option<string>)
      requires Valid() && panZoom == None
      modifies this
      ensures Valid()
      ensures outcome.Ok? ==> alert == None && container == Some(outcome.value.svg)
      ensures outcome.Ok? && outcome.value.hasSvgElement ==>
        panZoom == Some(old(attached)) && calls == old(calls) + [Attach(old(attached), PanZoomSettings)]
      ensures !(outcome.Ok? && outcome.value.hasSvgElement) ==> panZoom == None && calls == old(calls)
      ensures outcome.Err? ==>
        container == Some([]) &&
        alert == Some(renderError + ": " +
                      (if outcome.error.ErrorObject? then outcome.error.message else renderError))
      ensures code == old(code) && layout == old(layout) && theme == old(theme) && renderKey == old(renderKey)
      ensures attached == old(attached) + (if panZoom.Some? then 1 else 0)
    {
      alert := None;
      match outcome {
        case Ok(rendered) =>
          container := Some(rendered.svg);
          if rendered.hasSvgElement {
            LiveAfterAttach(calls, attached, PanZoomSettings);
            calls := calls + [Attach(attached, PanZoomSettings)];
            panZoom := Some(attached);
            attached := attached + 1;
          }
        case Err(failure) =>
          var message := if failure.ErrorObject? then failure.message else renderError;
          alert := Some(renderError + ": " + message);
          container := Some([]);
      }
    }

    /** The render effect's cleanup: the instance held is destroyed and forgotten. */
    method Cleanup()
      requires Valid()
      modifies this
      ensures Valid() && panZoom == None && Live(calls) == {}
      ensures calls == old(calls) + DestroyCalls(old(panZoom))
      ensures code == old(code) && layout == old(layout) && theme == old(theme)
      ensures renderKey == old(renderKey) && container == old(container) && attached == old(attached)
    {
      DropInstance();
    }

    /**
     * The mount. The key-bump effect runs once on mount as it does after every
     * change, so its re-render cleans up the effect scheduled under key 0
     * before its timer fires: the first diagram rendered is under key 1.
     */
    method Mount()
      requires Valid()
      modifies this
      ensures Valid()
      ensures renderKey == old(renderKey) + 1 && panZoom == None
      ensures calls == old(calls) + DestroyCalls(old(panZoom))
      ensures code == old(code) && layout == old(layout) && theme == old(theme)
      ensures container == old(container) && attached == old(attached)
    {
      BumpKey();
    }

    /** The key-bump effect: the render effect is cleaned up and the key goes up by one. */
    method BumpKey()
      requires Valid()
      modifies this
      ensures Valid()
      ensures renderKey == old(renderKey) + 1 && panZoom == None
      ensures calls == old(calls) + DestroyCalls(old(panZoom))
      ensures code == old(code) && layout == old(layout) && theme == old(theme)
      ensures container == old(container) && attached == old(attached)
    {
      Cleanup();
      renderKey := renderKey + 1;
    }

    /**
     * New properties. When the code, layout or theme changed, the render
     * effect of the old values is cleaned up and the render key goes up by
     * one; otherwise nothing happens.
     */
    method SetProps(newCode: string, newLayout: string, newTheme: string)
      requires Valid()
      modifies this
      ensures Valid()
      ensures code == newCode && layout == newLayout && theme == newTheme
      ensures (newCode, newLayout, newTheme) != (old(code), old(layout), old(theme)) ==>
        renderKey == old(renderKey) + 1 && panZoom == None &&
        calls == old(calls) + DestroyCalls(old(panZoom))
      ensures (newCode, newLayout, newTheme) == (old(code), old(layout), old(theme)) ==>
        renderKey == old(renderKey) && panZoom == old(panZoom) && calls == old(calls)
      ensures container == old(container) && attached == old(attached)
    {
      if (newCode, newLayout, newTheme) != (code, layout, theme) {
        code, layout, theme := newCode, newLayout, newTheme;
        BumpKey();
      }
    }

    /** Makes view calls on the instance held; the set of live instances does not change. */
    method Perform(added: seq<PanZoomCall>)
      requires Valid() && panZoom.Some?
      requires forall k :: 0 <= k < |added| ==> !added[k].Attach? && !added[k].Destroy?
      modifies this
      ensures Valid() && panZoom == old(panZoom) && calls == old(calls) + added
      ensures code == old(code) && layout == old(layout) && theme == old(theme)
      ensures renderKey == old(renderKey) && container == old(container) && attached == old(attached)
    {
      ViewCallsKeepLive(calls, added);
      calls := calls + added;
    }

    /** `handleZoomIn` */
    method HandleZoomIn()
      requires Valid()
      modifies this
      ensures Valid() && panZoom == old(panZoom)
      ensures panZoom.None? ==> calls == old(calls)
      ensures panZoom.Some? ==> calls == old(calls) + [ZoomIn(panZoom.value)]
      ensures code == old(code) && layout == old(layout) && theme == old(theme)
      ensures renderKey == old(renderKey) && container == old(container) && attached == old(attached)
    {
      if panZoom.Some? {
        Perform([ZoomIn(panZoom.value)]);
      }
    }

    /** `handleZoomOut` */
    method HandleZoomOut()
      requires Valid()
      modifies this
      ensures Valid() && panZoom == old(panZoom)
      ensures panZoom.None? ==> calls == old(calls)
      ensures panZoom.Some? ==> calls == old(calls) + [ZoomOut(panZoom.value)]
      ensures code == old(code) && layout == old(layout) && theme == old(theme)
      ensures renderKey == old(renderKey) && container == old(container) && attached == old(attached)
    {
      if panZoom.Some? {
        Perform([ZoomOut(panZoom.value)]);
      }
    }

    /** `handleReset`: back to the initial zoom, centred, then fitted. */
    method HandleReset()
      requires Valid()
      modifies this
      ensures Valid() && panZoom == old(panZoom)
      ensures panZoom.None? ==> calls == old(calls)
      ensures panZoom.Some? ==>
        calls == old(calls) + [ResetZoom(panZoom.value), Center(panZoom.value), Fit(panZoom.value)]
      ensures code == old(code) && layout == old(layout) && theme == old(theme)
      ensures renderKey == old(renderKey) && container == old(container) && attached == old(attached)
    {
      if panZoom.Some? {
        var i := panZoom.value;
        Perform([ResetZoom(i), Center(i), Fit(i)]);
      }
    }

    /** `handleFit`: fitted, then centred. */
    method HandleFit()
      requires Valid()
      modifies this
      ensures Valid() && panZoom == old(panZoom)
      ensures panZoom.None? ==> calls == old(calls)
      ensures panZoom.Some? ==> calls == old(calls) + [Fit(panZoom.value), Center(panZoom.value)]
      ensures code == old(code) && layout == old(layout) && theme == old(theme)
      ensures renderKey == old(renderKey) && container == old(container) && attached == old(attached)
    {
      if panZoom.Some? {
        var i := panZoom.value;
        Perform([Fit(i), Center(i)]);
      }
    }

    /** `handleExportMMD`: the code exactly as it is, in a file named after the time. */
    method ExportMmd(now: nat) returns (file: Download)
      ensures file.contents == code
      ensures file.fileName == "mermaid-diagram-" + NatToString(now) + ".mmd"
    {
      file := Download("mermaid-diagram-" + NatToString(now) + ".mmd", code);
    }
  }

  /** A valid session never has more than one live pan-zoom instance. */
  lemma AtMostOneInstance(s: RenderSession)
    requires s.Valid()
    ensures |Live(s.calls)| <= 1
    ensures s.panZoom.Some? ==> Live(s.calls) == {s.panZoom.value}
  {
  }
}
