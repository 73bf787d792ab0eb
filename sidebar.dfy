/** The sidebar hook (src/hooks/useSidebar.ts): one flag saying whether the sidebar is
    expanded, and the three handlers that change it. */
module SidebarState {
  class Sidebar {
    var isExpanded: bool

    /** `useSidebar(initialExpanded)`. */
    constructor(initialExpanded: bool)
      ensures isExpanded == initialExpanded
    {
      isExpanded := initialExpanded;
    }

    /** `useSidebar()`: expanded unless told otherwise. */
    constructor Default()
      ensures isExpanded
    {
      isExpanded := true;
    }

    /** `toggle`: flips the flag, so two toggles restore it. */
    method Toggle()
      modifies this
      ensures isExpanded == !old(isExpanded)
    {
      isExpanded := !isExpanded;
    }

    /** `expand`: expanded afterwards whatever the state before, so repeating it
        changes nothing. */
    method Expand()
      modifies this
      ensures isExpanded
    {
      isExpanded := true;
    }

    /** `collapse`: collapsed afterwards whatever the state before. */
    method Collapse()
      modifies this
      ensures !isExpanded
    {
      isExpanded := false;
    }
  }
}
