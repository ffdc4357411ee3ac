/** The policy modal: four tabs and a content table keyed by tab id. The
    active tab is seeded from the `defaultTab` prop when the component is
    created and afterwards changes only on tab clicks. */
module PolicyModal {
  import opened Wrappers

  /** The tab ids, in sidebar order. */
  const TabIds: seq<string> := ["about", "shipping", "payment", "terms"]

  /** The `content` table, each section represented by its heading. */
  const Content: map<string, string> := map[
    "about" := "The Sam Charmz Story",
    "shipping" := "Shipping & Delivery",
    "payment" := "Secure Payments",
    "terms" := "Terms of Service"]

  /** `content[activeTab]`: None when the key is absent (nothing renders). */
  function Lookup(tab: string): (r: Option<string>)
    ensures r.Some? <==> tab in TabIds
  {
    if tab in Content then Some(Content[tab]) else None
  }

  /** The tab ids are exactly the content keys. */
  lemma TabsMatchContent()
    ensures forall t :: t in Content <==> t in TabIds
    ensures |TabIds| == 4
  {
  }

  /** The footer's "Contact Support" link asks for a tab with no content. */
  lemma ContactHasNoContent()
    ensures Lookup("contact").None?
  {
    assert "contact"[0] != "about"[0] && "contact"[0] != "shipping"[0];
    assert "contact" != "payment" && "contact"[0] != "terms"[0];
  }

  /** The tab shown when the modal is opened again with `defaultTab`: the
      state hook ignores the new prop and keeps the current tab. */
  function ReopenedTabAsWritten(active: string, defaultTab: string): string {
    active
  }

  /** The footer's "Shipping & Returns" link, clicked on a modal created
      with "about", still shows the about section. */
  lemma StaleTabExample()
    ensures ReopenedTabAsWritten("about", "shipping") == "about"
    ensures ReopenedTabAsWritten("about", "shipping") != "shipping"
    ensures Lookup(ReopenedTabAsWritten("about", "shipping")) == Some("The Sam Charmz Story")
  {
    assert "about"[0] != "shipping"[0];
  }

  /** The intended behaviour: opening on a requested tab shows it. */
  function ReopenedTab(active: string, defaultTab: string): (t: string)
    ensures defaultTab in TabIds ==> Lookup(t) == Some(Content[defaultTab])
  {
    defaultTab
  }

  class PolicyModal {
    var isOpen: bool
    var activeTab: string

    constructor (open: bool, defaultTab: string)
      ensures isOpen == open && activeTab == defaultTab
    {
      isOpen := open;
      activeTab := defaultTab;
    }

    /** A sidebar tab button. */
    method ClickTab(id: string)
      requires id in TabIds
      modifies this`activeTab
      ensures activeTab == id && Lookup(activeTab).Some?
    {
      activeTab := id;
    }

    /** The parent opens the modal with a new `defaultTab`, as written: the
        active tab does not follow. */
    method OpenAsWritten(defaultTab: string)
      modifies this`isOpen
      ensures isOpen && activeTab == ReopenedTabAsWritten(old(activeTab), defaultTab)
    {
      isOpen := true;
    }

    /** Opening with a requested tab, as intended: the requested section
        is shown. */
    method Open(defaultTab: string)
      modifies this`isOpen, this`activeTab
      ensures isOpen && activeTab == ReopenedTab(old(activeTab), defaultTab)
    {
      isOpen := true;
      activeTab := ReopenedTab(activeTab, defaultTab);
    }

    method Close()
      modifies this`isOpen
      ensures !isOpen
    {
      isOpen := false;
    }

    /** What the content pane renders. */
    function Shown(): (r: Option<string>)
      reads this
      ensures r.Some? <==> activeTab in TabIds
    {
      Lookup(activeTab)
    }
  }
}
