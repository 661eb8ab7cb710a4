/**
 * The slice of the document object model the ripple touches: elements with
 * an inline style map, a parent and a child list, transition-end listeners,
 * and the ref object through which the host element is reached.
 */
module Dom {
  import opened Styles
  import opened Lists

  /**
   * The transition-end listener `cancelRippleAnimation` installs: when the
   * finished transition is the opacity one, the element removes itself.
   */
  datatype TransitionListener = RemoveOnOpacityEnd

  class Element {
    var style: Style
    var parent: Element?
    var children: seq<Element>
    var transitionEndListeners: seq<TransitionListener>
    /** The `position` the style sheets give the element, whatever its inline style says. */
    const cascadedPosition: string

    /** `document.createElement`: a detached element with an empty inline style. */
    constructor (cascadedPosition: string)
      ensures style == map[] && parent == null && children == [] && transitionEndListeners == []
      ensures this.cascadedPosition == cascadedPosition
    {
      style := map[];
      parent := null;
      children := [];
      transitionEndListeners := [];
      this.cascadedPosition := cascadedPosition;
    }

    /** `appendChild` of a detached element: it becomes the last child. */
    method AppendChild(child: Element)
      requires child.parent == null && child != this
      modifies this`children, child`parent
      ensures children == old(children) + [child]
      ensures child.parent == this
    {
      children := children + [child];
      child.parent := this;
    }

    /** `remove()`: leave the parent's child list; a detached element stays as it is. */
    method Remove()
      modifies this`parent, parent
      ensures parent == null
      ensures old(parent) != null ==> old(parent).children == Without(old(parent.children), this)
      ensures old(parent) != null ==> unchanged(old(parent)`style, old(parent)`transitionEndListeners)
      ensures old(parent) != null && old(parent) != this ==> old(parent).parent == old(parent.parent)
      ensures old(parent) != this ==> children == old(children)
      ensures unchanged(this`style, this`transitionEndListeners)
    {
      if parent != null {
        parent.children := Without(parent.children, this);
        parent := null;
      }
    }

    /** `addEventListener("transitionend", listener)`. */
    method AddTransitionEndListener(listener: TransitionListener)
      modifies this`transitionEndListeners
      ensures transitionEndListeners == old(transitionEndListeners) + [listener]
    {
      transitionEndListeners := transitionEndListeners + [listener];
    }

    /**
     * A `transitionend` event for `propertyName` reaches the element and each
     * listener runs in turn. The element is detached exactly when the property
     * is "opacity" and a removal listener is installed; otherwise nothing changes.
     */
    method DispatchTransitionEnd(propertyName: string)
      modifies this`parent, parent
      ensures if propertyName == "opacity" && RemoveOnOpacityEnd in transitionEndListeners
              then parent == null &&
                   (old(parent) != null ==> old(parent).children == Without(old(parent.children), this))
              else parent == old(parent) &&
                   (old(parent) != null ==> old(parent).children == old(parent.children))
      ensures old(parent) != null ==> unchanged(old(parent)`style, old(parent)`transitionEndListeners)
      ensures old(parent) != null && old(parent) != this ==> old(parent).parent == old(parent.parent)
      ensures old(parent) != this ==> children == old(children)
      ensures unchanged(this`style, this`transitionEndListeners)
    {
      for i := 0 to |transitionEndListeners|
        invariant if propertyName == "opacity" && i > 0
                  then parent == null &&
                       (old(parent) != null ==> old(parent).children == Without(old(parent.children), this))
                  else parent == old(parent) &&
                       (old(parent) != null ==> old(parent).children == old(parent.children))
        invariant old(parent) != null ==> unchanged(old(parent)`style, old(parent)`transitionEndListeners)
        invariant old(parent) != null && old(parent) != this ==> old(parent).parent == old(parent.parent)
        invariant old(parent) != this ==> children == old(children)
        invariant unchanged(this`style, this`transitionEndListeners)
      {
        match transitionEndListeners[i]
        case RemoveOnOpacityEnd =>
          if propertyName == "opacity" {
            Remove();
          }
      }
      assert transitionEndListeners != [] ==> transitionEndListeners[0] == RemoveOnOpacityEnd;
    }
  }

  /** A React ref: `current` is the mounted host element, or null before mounting. */
  class RefObject {
    var current: Element?

    /** `useRef(null)`. */
    constructor ()
      ensures current == null
    {
      current := null;
    }
  }

  /**
   * What `getComputedStyle(e).position` reports: the inline keyword when the
   * inline style sets one, otherwise the position the style sheets give.
   */
  function ComputedPosition(style: Style, cascaded: string): string {
    if "position" in style && style["position"].Keyword? then style["position"].text else cascaded
  }

  /**
   * `applyStyles`: an absent target is handed back untouched; otherwise each
   * declaration is written in list order into the target's inline style and
   * the same element is handed back.
   */
  method ApplyStyles(decls: seq<Declaration>, target: Element?) returns (r: Element?)
    modifies target
    ensures r == target
    ensures target != null ==> target.style == Written(old(target.style), decls)
    ensures target != null ==> unchanged(target`parent, target`children, target`transitionEndListeners)
  {
    if target == null {
      return target;
    }
    for i := 0 to |decls|
      invariant target.style == Written(old(target.style), decls[..i])
      invariant unchanged(target`parent, target`children, target`transitionEndListeners)
    {
      assert decls[..i + 1][..i] == decls[..i];
      target.style := target.style[decls[i].property := decls[i].value];
    }
    assert decls[..|decls|] == decls;
    return target;
  }
}
