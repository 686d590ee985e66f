/** The Perplexity tab list (src/gui/perplexity_tabs.py): a list of at most
    `max_tabs` tabs (the first one is always there), whose ids are their
    positions, and the index of the active tab. A tab is held as a value; the
    browser views behind the tabs and the prompt texts are not modelled. */
module Tabs {
  import opened Common

  /** A `PerplexityTab`: id, title, the page it shows, its prompt template and its history. */
  datatype Tab = Tab(tabId: int, title: string, url: string, template: string, history: seq<string>)

  /** What `create_tab` and `switch_tab` answer: the tab's information, or a refusal. */
  datatype TabReply = Shown(tab: Tab) | Refused(message: string)

  /** The title of a tab created without one. */
  function DefaultTitle(tabId: nat): (r: string)
    ensures StartsWith(r, "Perplexity ")
  {
    "Perplexity " + NatToString(tabId + 1)
  }

  /** Every tab's id is its position. */
  predicate Numbered(tabs: seq<Tab>) {
    forall i :: 0 <= i < |tabs| ==> tabs[i].tabId == i
  }

  /** The renumbering loop of `close_tab`, as a whole: each tab gets its position as id. */
  function Renumbered(tabs: seq<Tab>): (r: seq<Tab>)
  {
    seq(|tabs|, i requires 0 <= i < |tabs| => tabs[i].(tabId := i))
  }

  /** The list after `tabs.pop(k)`. */
  function RemoveAt(tabs: seq<Tab>, k: nat): (r: seq<Tab>)
    requires k < |tabs|
    ensures |r| == |tabs| - 1
    ensures forall i :: 0 <= i < k ==> r[i] == tabs[i]
    ensures forall i :: k <= i < |r| ==> r[i] == tabs[i + 1]
  {
    tabs[..k] + tabs[k + 1..]
  }

  /** The tab titles, in order. */
  function Titles(tabs: seq<Tab>): (r: seq<string>)
    ensures |r| == |tabs|
  {
    seq(|tabs|, i requires 0 <= i < |tabs| => tabs[i].title)
  }

  /** Renumbering numbers the tabs and changes nothing else about them. */
  lemma RenumberedIsNumbered(tabs: seq<Tab>)
    ensures Numbered(Renumbered(tabs))
    ensures Titles(Renumbered(tabs)) == Titles(tabs)
    ensures forall i :: 0 <= i < |tabs| ==> Renumbered(tabs)[i].(tabId := tabs[i].tabId) == tabs[i]
  {
  }

  /** A list whose ids already are the positions is left as it is. */
  lemma RenumberNumbered(tabs: seq<Tab>)
    requires Numbered(tabs)
    ensures Renumbered(tabs) == tabs
  {
    var r := Renumbered(tabs);
    assert forall i :: 0 <= i < |tabs| ==> r[i] == tabs[i];
  }

  /** Closing tab `k` removes exactly that tab's title and keeps the others in order. */
  lemma CloseRemovesOneTitle(tabs: seq<Tab>, k: nat)
    requires k < |tabs|
    ensures Titles(Renumbered(RemoveAt(tabs, k))) == Titles(tabs)[..k] + Titles(tabs)[k + 1..]
  {
    var r := Titles(Renumbered(RemoveAt(tabs, k)));
    var t := Titles(tabs)[..k] + Titles(tabs)[k + 1..];
    assert |r| == |t|;
    forall i | 0 <= i < |r|
      ensures r[i] == t[i]
    {
      if i < k {
        assert t[i] == Titles(tabs)[i];
      } else {
        assert t[i] == Titles(tabs)[i + 1];
      }
    }
  }

  class TabManager {
    var tabs: seq<Tab>
    var activeTabId: int
    /** `ui.max_tabs` of the configuration. */
    const maxTabs: int

    /** There is always a tab, the ids are the positions and the active index names a tab. */
    ghost predicate Valid()
      reads this
    {
      |tabs| >= 1 && Numbered(tabs) && 0 <= activeTabId < |tabs|
    }

    /** `__init__`: one tab, "Perplexity 1", active. `url` and `template` are the
        configuration's `perplexity.url` and `perplexity.custom_prompt_template`. */
    constructor (maxTabs: int, url: string, template: string)
      ensures Valid()
      ensures this.maxTabs == maxTabs
      ensures tabs == [Tab(0, "Perplexity 1", url, template, [])] && activeTabId == 0
    {
      assert DigitChar(1) == '1';
      assert DefaultTitle(0) == "Perplexity " + "1" == "Perplexity 1";
      this.maxTabs := maxTabs;
      tabs := [Tab(0, DefaultTitle(0), url, template, [])];
      activeTabId := 0;
    }

    /** `_create_tab`: appends a tab whose id is the old length; a missing or empty
        title becomes "Perplexity <id+1>". `url` and `template` are the configuration's
        `perplexity.url` and `perplexity.custom_prompt_template`, read anew for every tab. */
    method AppendTab(title: Option<string>, url: string, template: string) returns (tab: Tab)
      modifies this`tabs
      ensures tab.tabId == |old(tabs)|
      ensures tab == Tab(|old(tabs)|,
                         if title.Some? && title.value != "" then title.value else DefaultTitle(|old(tabs)|),
                         url, template, [])
      ensures tabs == old(tabs) + [tab]
      ensures old(Numbered(tabs)) ==> Numbered(tabs)
    {
      var tabId := |tabs|;
      var tabTitle := if title.Some? && title.value != "" then title.value else DefaultTitle(tabId);
      tab := Tab(tabId, tabTitle, url, template, []);
      tabs := tabs + [tab];
    }

    /** `create_tab`: refused at `max_tabs` tabs; otherwise the new tab, with the
        template applied when it is one of the `known` templates; otherwise the
        configured `template`, as read when the tab is made. */
    method CreateTab(title: Option<string>, tabTemplate: Option<string>, known: set<string>, url: string, template: string)
      returns (r: TabReply)
      modifies this`tabs
      ensures r.Shown? <==> |old(tabs)| < maxTabs
      ensures r.Refused? ==> tabs == old(tabs) && r.message == "Maximum " + IntToString(maxTabs) + " tabs allowed"
      ensures r.Shown? ==> tabs == old(tabs) + [r.tab] && r.tab.tabId == |old(tabs)| && r.tab.history == []
      ensures r.Shown? ==> r.tab.url == url
      ensures r.Shown? ==>
                r.tab.title == (if title.Some? && title.value != "" then title.value else DefaultTitle(|old(tabs)|))
      ensures r.Shown? ==>
                r.tab.template == (if tabTemplate.Some? && tabTemplate.value != "" && tabTemplate.value in known
                                   then tabTemplate.value else template)
      ensures old(Valid()) ==> Valid()
    {
      if |tabs| >= maxTabs {
        return Refused("Maximum " + IntToString(maxTabs) + " tabs allowed");
      }
      var tab := AppendTab(title, url, template);
      if tabTemplate.Some? && tabTemplate.value != "" && tabTemplate.value in known {
        tab := tab.(template := tabTemplate.value);
        tabs := tabs[|tabs| - 1 := tab];
      }
      r := Shown(tab);
    }

    /** `close_tab`: the last tab cannot be closed, an id outside the list is refused;
        otherwise the tab is removed, the others renumbered, and an active index past
        the end moves to the last tab. */
    method CloseTab(tabId: int) returns (r: Reply)
      modifies this`tabs, this`activeTabId
      ensures |old(tabs)| <= 1 ==> r == Reply(false, "Cannot close the last tab")
      ensures |old(tabs)| > 1 && !(0 <= tabId < |old(tabs)|) ==> r == Reply(false, "Invalid tab ID: " + IntToString(tabId))
      ensures r.ok <==> |old(tabs)| > 1 && 0 <= tabId < |old(tabs)|
      ensures !r.ok ==> tabs == old(tabs) && activeTabId == old(activeTabId)
      ensures r.ok ==> tabs == Renumbered(RemoveAt(old(tabs), tabId))
      ensures r.ok ==> activeTabId == if old(activeTabId) >= |tabs| then |tabs| - 1 else old(activeTabId)
      ensures old(Valid()) ==> Valid()
    {
      if |tabs| <= 1 {
        return Reply(false, "Cannot close the last tab");
      }
      if !(0 <= tabId < |tabs|) {
        return Reply(false, "Invalid tab ID: " + IntToString(tabId));
      }
      ghost var removed := RemoveAt(tabs, tabId);
      tabs := tabs[..tabId] + tabs[tabId + 1..];
      var i := 0;
      while i < |tabs|
        modifies this`tabs
        invariant 0 <= i <= |tabs| == |removed|
        invariant forall j :: 0 <= j < i ==> tabs[j] == removed[j].(tabId := j)
        invariant forall j :: i <= j < |tabs| ==> tabs[j] == removed[j]
      {
        tabs := tabs[i := tabs[i].(tabId := i)];
        i := i + 1;
      }
      assert tabs == Renumbered(removed);
      RenumberedIsNumbered(removed);
      if activeTabId >= |tabs| {
        activeTabId := |tabs| - 1;
      }
      r := Reply(true, "");
    }

    /** `switch_tab`: only an id within the list is accepted. */
    method SwitchTab(tabId: int) returns (r: TabReply)
      modifies this`activeTabId
      ensures r.Shown? <==> 0 <= tabId < |tabs|
      ensures r.Shown? ==> activeTabId == tabId && r.tab == tabs[tabId]
      ensures r.Refused? ==> activeTabId == old(activeTabId) && r.message == "Invalid tab ID: " + IntToString(tabId)
      ensures old(Valid()) ==> Valid()
    {
      if 0 <= tabId < |tabs| {
        activeTabId := tabId;
        return Shown(tabs[tabId]);
      }
      return Refused("Invalid tab ID: " + IntToString(tabId));
    }

    /** `get_active_tab`: the active tab, or the first one when the index is out of range. */
    method GetActiveTab() returns (r: Option<Tab>)
      ensures 0 <= activeTabId < |tabs| ==> r == Some(tabs[activeTabId])
      ensures !(0 <= activeTabId < |tabs|) ==> r == (if tabs != [] then Some(tabs[0]) else None)
      ensures Valid() ==> r.Some? && r.value.tabId == activeTabId
    {
      if 0 <= activeTabId < |tabs| {
        return Some(tabs[activeTabId]);
      }
      return if tabs != [] then Some(tabs[0]) else None;
    }

    /** `can_create_tab`: exactly when `create_tab` would succeed. */
    method CanCreateTab() returns (b: bool)
      ensures b <==> |tabs| < maxTabs
    {
      b := |tabs| < maxTabs;
    }
  }

  /** Closing a tab left of the active one keeps the index, so the selection moves
      to the tab that followed the active one. */
  method CloseShiftsSelectionScenario()
  {
    var url, template := "https://www.perplexity.ai", "coding_assistant";
    var m := new TabManager(5, url, template);
    var a := m.CreateTab(Some("docs"), None, {}, url, template);
    var b := m.CreateTab(Some("tests"), None, {}, url, template);
    assert m.tabs[1].title == "docs" && m.tabs[2].title == "tests";
    var s := m.SwitchTab(1);
    var c := m.CloseTab(0);
    assert c.ok && m.activeTabId == 1;
    assert m.tabs[1].title == "tests";
  }
}
