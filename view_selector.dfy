// The icon that switches the home screen's game view: list, icon, card, and
// round again.
module ViewSelector {
  import opened Common
  import opened Records

  /** `choose(prev)` */
  function Next(v: ViewKind): (r: ViewKind)
    ensures v == ListView ==> r == IconView
    ensures v == IconView ==> r == CardView
    ensures v != ListView && v != IconView ==> r == ListView
  {
    if v == ListView then IconView else if v == IconView then CardView else ListView
  }

  /** Three clicks come back to the starting view, after passing the other two. */
  lemma ThreeClicksReturn(v: ViewKind)
    ensures Next(Next(Next(v))) == v
    ensures Next(v) != v && Next(Next(v)) != v && Next(Next(v)) != Next(v)
  {
  }

  /** Every view is reached from every other one. */
  lemma EveryViewReachable(from: ViewKind, to: ViewKind)
    ensures to == from || to == Next(from) || to == Next(Next(from))
  {
  }

  /** The component's `internalViewKind` state; a missing `viewKind` prop means the card view. */
  class ViewSelectorState {
    var internalViewKind: ViewKind

    constructor (viewKind: Option<ViewKind>)
      ensures internalViewKind == (if viewKind.Some? then viewKind.value else CardView)
    {
      internalViewKind := if viewKind.Some? then viewKind.value else CardView;
    }

    /** `handleClick`: `emitted` is what `onChange` receives, the same view the icon now shows. */
    method HandleClick() returns (emitted: ViewKind)
      modifies this
      ensures internalViewKind == Next(old(internalViewKind)) && emitted == internalViewKind
    {
      emitted := Next(internalViewKind);
      internalViewKind := Next(internalViewKind);
    }
  }
}
