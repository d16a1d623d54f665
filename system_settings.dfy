/**
 * The settings page: a vertical tab bar and one content panel per tab.
 */
module SystemSettings {

  datatype Tab = General | Security | ApiKeys | Audit

  /** The tab buttons, top to bottom. */
  const NavOrder: seq<Tab> := [General, Security, ApiKeys, Audit]

  datatype Panel = GlobalConfiguration | SecurityPolicies | AuditLogs | ApiGatewayIntegration

  /** The four `activeTab === …` conditionals in the order they appear. */
  function RenderedPanels(activeTab: Tab): seq<Panel> {
    (if activeTab == General then [GlobalConfiguration] else [])
    + (if activeTab == Security then [SecurityPolicies] else [])
    + (if activeTab == Audit then [AuditLogs] else [])
    + (if activeTab == ApiKeys then [ApiGatewayIntegration] else [])
  }

  /** The panel that belongs to a tab. */
  function PanelFor(tab: Tab): Panel {
    match tab
    case General => GlobalConfiguration
    case Security => SecurityPolicies
    case ApiKeys => ApiGatewayIntegration
    case Audit => AuditLogs
  }

  /** Whatever the tab, exactly one panel is rendered, and it is that tab's;
      distinct tabs show distinct panels. */
  lemma ExactlyOnePanel(activeTab: Tab, other: Tab)
    ensures RenderedPanels(activeTab) == [PanelFor(activeTab)]
    ensures activeTab != other ==> PanelFor(activeTab) != PanelFor(other)
  {
  }

  /** Only the general and security panels hold a form submitting to `handleSave`. */
  predicate HasSaveForm(p: Panel) {
    p == GlobalConfiguration || p == SecurityPolicies
  }

  /** The highlight flag of each nav button, top to bottom. */
  function NavHighlights(activeTab: Tab): (r: seq<bool>)
    ensures |r| == |NavOrder|
  {
    seq(|NavOrder|, i requires 0 <= i < |NavOrder| => NavOrder[i] == activeTab)
  }

  /** Exactly the button of the active tab is highlighted. */
  lemma ExactlyOneHighlight(activeTab: Tab)
    ensures forall i :: 0 <= i < |NavOrder| ==> (NavHighlights(activeTab)[i] <==> NavOrder[i] == activeTab)
    ensures exists i :: 0 <= i < |NavOrder| && NavOrder[i] == activeTab
    ensures forall i, j :: 0 <= i < j < |NavOrder| ==> NavOrder[i] != NavOrder[j]
  {
    assert NavOrder[NavIndex(activeTab)] == activeTab;
  }

  /** The position of a tab's button in the nav bar. */
  function NavIndex(tab: Tab): (i: nat)
    ensures i < |NavOrder| && NavOrder[i] == tab
  {
    match tab
    case General => 0
    case Security => 1
    case ApiKeys => 2
    case Audit => 3
  }

  class SettingsPage {
    var activeTab: Tab

    constructor ()
      ensures activeTab == General && Panels() == [GlobalConfiguration]
    {
      activeTab := General;
    }

    /** The panels under the nav: by ExactlyOnePanel, only the active tab's. */
    function Panels(): seq<Panel>
      reads this
    {
      RenderedPanels(activeTab)
    }

    /** A click on a nav button. */
    method SelectTab(tab: Tab)
      modifies this
      ensures activeTab == tab && Panels() == [PanelFor(tab)]
    {
      activeTab := tab;
    }

    /** Submitting a settings form: only possible on a panel that has one.
        It shows a confirmation and changes no state. */
    method HandleSave()
      requires HasSaveForm(PanelFor(activeTab))
      ensures activeTab == old(activeTab) && Panels() == old(Panels())
    {
    }
  }
}
