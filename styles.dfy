/**
 * Inline styles: the abstract style map of an element and the ordered
 * lists of (property, value) declarations that `applyStyles` writes into it.
 */
module Styles {
  import opened Wrappers

  /**
   * A value written into a style property. Fixed strings stay strings; the
   * lengths and durations the source formats into strings are kept as numbers.
   */
  datatype CssValue =
    | Keyword(text: string)
      // `${n}px`
    | Px(length: real)
      // `${Math.hypot(a, b) * 2}px`, kept symbolic because there is no square root on reals
    | TwiceHypotPx(a: real, b: real)
      // `transform <transformMs>ms <easing>, opacity <opacityMs>ms <easing>[ <delay>ms]`
    | Transition(transformMs: real, transformEasing: string,
                 opacityMs: real, opacityEasing: string, opacityDelayMs: Option<real>)

  /** One `[property, value]` row of the lists handed to `applyStyles`. */
  datatype Declaration = Declaration(property: string, value: CssValue)

  /** An element's inline style: property name to value. */
  type Style = map<string, CssValue>

  /** The properties a declaration list mentions. */
  function Properties(decls: seq<Declaration>): set<string> {
    set d | d in decls :: d.property
  }

  /** The style after writing `decls` into `m` one row at a time, in list order. */
  function Written(m: Style, decls: seq<Declaration>): Style {
    if decls == [] then m
    else
      var last := decls[|decls| - 1];
      Written(m, decls[..|decls| - 1])[last.property := last.value]
  }

  /** Writing adds exactly the mentioned properties to the style's domain. */
  lemma {:induction false} WrittenKeys(m: Style, decls: seq<Declaration>)
    ensures Written(m, decls).Keys == m.Keys + Properties(decls)
  {
    if decls != [] {
      var init, last := decls[..|decls| - 1], decls[|decls| - 1];
      WrittenKeys(m, init);
      assert decls == init + [last];
      assert Properties(decls) == Properties(init) + {last.property};
    }
  }

  /** Writing a single declaration is a single map update. */
  lemma WrittenOne(m: Style, d: Declaration)
    ensures Written(m, [d]) == m[d.property := d.value]
  {
    assert [d][..0] == [];
  }

  /** Writing one more declaration is one more map update. */
  lemma WrittenSnoc(m: Style, decls: seq<Declaration>, d: Declaration)
    ensures Written(m, decls + [d]) == Written(m, decls)[d.property := d.value]
  {
    assert (decls + [d])[..|decls|] == decls;
  }

  /** A property ends up with the value of its last declaration in the list. */
  lemma {:induction false} WrittenLastWins(m: Style, decls: seq<Declaration>, i: nat)
    requires i < |decls|
    requires forall j | i < j < |decls| :: decls[j].property != decls[i].property
    ensures decls[i].property in Written(m, decls)
    ensures Written(m, decls)[decls[i].property] == decls[i].value
  {
    var n := |decls| - 1;
    if i < n {
      WrittenLastWins(m, decls[..n], i);
    }
  }

  /** A property the list does not mention keeps its value, or stays absent. */
  lemma {:induction false} WrittenUnlisted(m: Style, decls: seq<Declaration>, p: string)
    requires forall j | 0 <= j < |decls| :: decls[j].property != p
    ensures p in Written(m, decls) <==> p in m
    ensures p in m ==> Written(m, decls)[p] == m[p]
  {
    if decls != [] {
      WrittenUnlisted(m, decls[..|decls| - 1], p);
    }
  }

  /** Writing two lists one after the other is writing their concatenation. */
  lemma {:induction false} WrittenAppend(m: Style, a: seq<Declaration>, b: seq<Declaration>)
    ensures Written(Written(m, a), b) == Written(m, a + b)
  {
    if b == [] {
      assert a + b == a;
    } else {
      var n := |b| - 1;
      WrittenAppend(m, a, b[..n]);
      assert (a + b)[..|a + b| - 1] == a + b[..n];
    }
  }
}
