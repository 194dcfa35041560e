/**
 * The event stream that the XML writer facility (xmlwriter.h) produces, and the
 * notions of nesting and child order. Element names are of any type `N`.
 *
 * Only the shape of the stream is modelled: a writer call appends one event.
 * Escaping, indentation, the text of the declaration and number formatting
 * belong to the writer and are not part of this model.
 */
module Xml {
  import opened Options

  /** An attribute value: a string pushed with LXW_PUSH_ATTRIBUTES_STR or an integer pushed with LXW_PUSH_ATTRIBUTES_INT. */
  datatype Value = Str(text: string) | Int(n: int)

  datatype Attribute = Attribute(key: string, value: Value)

  /**
   * One writer call: the declaration, a start tag, an end tag, a self-closing
   * tag, or an element holding character data. A data element receives its
   * text pointer as it is; `None` is a NULL pointer.
   */
  datatype Event<N> =
    | Decl
    | Start(name: N, attrs: seq<Attribute>)
    | End(name: N)
    | Empty(name: N, attrs: seq<Attribute>)
    | Data(name: N, text: Option<string>)

  /** An event that is a whole element by itself. */
  predicate IsLeaf<N>(e: Event<N>) {
    e.Empty? || e.Data?
  }

  /** The events of an element named `name` whose content is `body`. */
  function Wrap<N>(name: N, attrs: seq<Attribute>, body: seq<Event<N>>): seq<Event<N>> {
    [Start(name, attrs)] + body + [End(name)]
  }

  /**
   * Runs the events against a stack of open element names (innermost last).
   * A start tag pushes its name, an end tag must close the innermost open
   * element, and a declaration may only come before the root, so it fails here.
   * The result is the final stack, or None when the events are not nested.
   */
  function Run<N(==)>(evs: seq<Event<N>>, stack: seq<N>): Option<seq<N>>
    decreases |evs|
  {
    if |evs| == 0 then Some(stack)
    else
      match evs[0]
      case Decl => None
      case Start(n, _) => Run(evs[1..], stack + [n])
      case End(n) =>
        if |stack| > 0 && stack[|stack| - 1] == n then Run(evs[1..], stack[..|stack| - 1]) else None
      case Empty(_, _) => Run(evs[1..], stack)
      case Data(_, _) => Run(evs[1..], stack)
  }

  /** Every start tag has its end tag, in last-opened-first-closed order. */
  predicate Balanced<N(==)>(evs: seq<Event<N>>) {
    Run(evs, []) == Some([])
  }

  /** The names of the elements that start at nesting depth `depth` = 0. */
  function Names<N>(evs: seq<Event<N>>, depth: nat): seq<N>
    decreases |evs|
  {
    if |evs| == 0 then []
    else
      match evs[0]
      case Decl => Names(evs[1..], depth)
      case Start(n, _) => (if depth == 0 then [n] else []) + Names(evs[1..], depth + 1)
      case End(_) => if depth == 0 then [] else Names(evs[1..], depth - 1)
      case Empty(n, _) => (if depth == 0 then [n] else []) + Names(evs[1..], depth)
      case Data(n, _) => (if depth == 0 then [n] else []) + Names(evs[1..], depth)
  }

  /** The names of the top-level elements of `evs`, in order. */
  function Children<N>(evs: seq<Event<N>>): seq<N> {
    Names(evs, 0)
  }

  /** `evs` is one element named `name`, properly nested, whose children are named `children`, in this order. */
  predicate IsElement<N(==)>(evs: seq<Event<N>>, name: N, children: seq<N>) {
    && |evs| >= 2
    && evs[0].Start? && evs[0].name == name
    && evs[|evs| - 1] == End(name)
    && Balanced(evs[1..|evs| - 1])
    && Children(evs[1..|evs| - 1]) == children
  }

  /** A document: the declaration, then a single root element. */
  predicate IsDocument<N(==)>(doc: seq<Event<N>>, root: N, children: seq<N>) {
    |doc| >= 1 && doc[0] == Decl && IsElement(doc[1..], root, children)
  }

  /** Running a run that succeeds under a deeper stack leaves the extra bottom part untouched. */
  lemma {:induction false} RunFrame<N>(evs: seq<Event<N>>, s: seq<N>, t: seq<N>, p: seq<N>)
    requires Run(evs, s) == Some(t)
    ensures Run(evs, p + s) == Some(p + t)
    decreases |evs|
  {
    if |evs| > 0 {
      match evs[0]
      case Start(n, _) =>
        assert (p + s) + [n] == p + (s + [n]);
        RunFrame(evs[1..], s + [n], t, p);
      case End(n) =>
        assert (p + s)[..|p + s| - 1] == p + s[..|s| - 1];
        RunFrame(evs[1..], s[..|s| - 1], t, p);
      case Empty(_, _) => RunFrame(evs[1..], s, t, p);
      case Data(_, _) => RunFrame(evs[1..], s, t, p);
    }
  }

  /** Running `a + b` runs `a`, then `b` from where `a` left the stack. */
  lemma {:induction false} RunAppend<N>(a: seq<Event<N>>, b: seq<Event<N>>, s: seq<N>)
    ensures Run(a + b, s) == (if Run(a, s).None? then None else Run(b, Run(a, s).value))
    decreases |a|
  {
    if |a| == 0 {
      assert a + b == b;
    } else {
      assert (a + b)[0] == a[0];
      assert (a + b)[1..] == a[1..] + b;
      match a[0]
      case Decl =>
      case Start(n, _) => RunAppend(a[1..], b, s + [n]);
      case End(n) =>
        if |s| > 0 && s[|s| - 1] == n {
          RunAppend(a[1..], b, s[..|s| - 1]);
        }
      case Empty(_, _) => RunAppend(a[1..], b, s);
      case Data(_, _) => RunAppend(a[1..], b, s);
    }
  }

  /**
   * While `a` runs from stack `s` to stack `t`, the depth seen by Names is the
   * stack height shifted by `e`, so the names of `a + b` are those of `a`
   * followed by those of `b` at the depth where `a` ends.
   */
  lemma {:induction false} NamesAppend<N>(a: seq<Event<N>>, b: seq<Event<N>>, s: seq<N>, t: seq<N>, e: nat)
    requires Run(a, s) == Some(t)
    ensures Names(a + b, e + |s|) == Names(a, e + |s|) + Names(b, e + |t|)
    decreases |a|
  {
    if |a| == 0 {
      assert a + b == b;
    } else {
      match a[0]
      case Start(n, _) =>
        NamesAppend(a[1..], b, s + [n], t, e);
        NamesStartStep(a, b, e + |s|, Names(b, e + |t|));
      case End(n) =>
        NamesAppend(a[1..], b, s[..|s| - 1], t, e);
        NamesEndStep(a, b, e + |s|, Names(b, e + |t|));
      case Empty(_, _) =>
        NamesAppend(a[1..], b, s, t, e);
        NamesLeafStep(a, b, e + |s|, Names(b, e + |t|));
      case Data(_, _) =>
        NamesAppend(a[1..], b, s, t, e);
        NamesLeafStep(a, b, e + |s|, Names(b, e + |t|));
    }
  }

  /** The step of NamesAppend past a start tag, which goes one level deeper. */
  lemma NamesStartStep<N>(a: seq<Event<N>>, b: seq<Event<N>>, d: nat, rest: seq<N>)
    requires |a| > 0 && a[0].Start?
    requires Names(a[1..] + b, d + 1) == Names(a[1..], d + 1) + rest
    ensures Names(a + b, d) == Names(a, d) + rest
  {
    var ab := a + b;
    assert ab[0] == a[0];
    assert ab[1..] == a[1..] + b;
    var top: seq<N> := if d == 0 then [a[0].name] else [];
    calc {
      Names(ab, d);
      top + Names(a[1..] + b, d + 1);
      top + (Names(a[1..], d + 1) + rest);
      (top + Names(a[1..], d + 1)) + rest;
      Names(a, d) + rest;
    }
  }

  /** The step of NamesAppend past an end tag, which goes one level up. */
  lemma NamesEndStep<N>(a: seq<Event<N>>, b: seq<Event<N>>, d: nat, rest: seq<N>)
    requires |a| > 0 && a[0].End? && d >= 1
    requires Names(a[1..] + b, d - 1) == Names(a[1..], d - 1) + rest
    ensures Names(a + b, d) == Names(a, d) + rest
  {
    assert (a + b)[0] == a[0];
    assert (a + b)[1..] == a[1..] + b;
  }

  /** The step of NamesAppend past a self-contained element, which stays at the same level. */
  lemma NamesLeafStep<N>(a: seq<Event<N>>, b: seq<Event<N>>, d: nat, rest: seq<N>)
    requires |a| > 0 && IsLeaf(a[0])
    requires Names(a[1..] + b, d) == Names(a[1..], d) + rest
    ensures Names(a + b, d) == Names(a, d) + rest
  {
    var ab := a + b;
    assert ab[0] == a[0];
    assert ab[1..] == a[1..] + b;
    var top: seq<N> := if d == 0 then [a[0].name] else [];
    calc {
      Names(ab, d);
      top + Names(a[1..] + b, d);
      top + (Names(a[1..], d) + rest);
      (top + Names(a[1..], d)) + rest;
      Names(a, d) + rest;
    }
  }

  /** Inside an open element (depth at least 1) a run that succeeds never reaches the top level. */
  lemma {:induction false} NamesNested<N>(a: seq<Event<N>>, s: seq<N>, t: seq<N>, e: nat)
    requires Run(a, s) == Some(t)
    requires e >= 1
    ensures Names(a, e + |s|) == []
    decreases |a|
  {
    if |a| > 0 {
      match a[0]
      case Start(n, _) => NamesNested(a[1..], s + [n], t, e);
      case End(n) => NamesNested(a[1..], s[..|s| - 1], t, e);
      case Empty(_, _) => NamesNested(a[1..], s, t, e);
      case Data(_, _) => NamesNested(a[1..], s, t, e);
    }
  }

  /** A sequence of self-contained elements nests trivially; its children are those elements, in order. */
  lemma {:induction false} LeavesShape<N>(evs: seq<Event<N>>, names: seq<N>)
    requires |evs| == |names|
    requires forall i :: 0 <= i < |evs| ==> IsLeaf(evs[i]) && evs[i].name == names[i]
    ensures Balanced(evs)
    ensures Children(evs) == names
    decreases |evs|
  {
    if |evs| > 0 {
      LeavesShape(evs[1..], names[1..]);
      assert Run(evs, []) == Run(evs[1..], []);
      assert Children(evs) == [evs[0].name] + Children(evs[1..]);
      assert names == [names[0]] + names[1..];
    }
  }

  /** Two nested sequences side by side nest, and their children are concatenated. */
  lemma ConcatShape<N>(a: seq<Event<N>>, b: seq<Event<N>>)
    requires Balanced(a) && Balanced(b)
    ensures Balanced(a + b)
    ensures Children(a + b) == Children(a) + Children(b)
  {
    RunAppend(a, b, []);
    NamesAppend(a, b, [], [], 0);
  }

  /** Wrapping nested content in a start and end tag gives one element whose children are those of the content. */
  lemma WrapShape<N>(name: N, attrs: seq<Attribute>, body: seq<Event<N>>)
    requires Balanced(body)
    ensures Balanced(Wrap(name, attrs, body))
    ensures Children(Wrap(name, attrs, body)) == [name]
    ensures IsElement(Wrap(name, attrs, body), name, Children(body))
  {
    var w := Wrap(name, attrs, body);
    assert w[0] == Start(name, attrs);
    assert w[1..] == body + [End(name)];
    assert w[1..|w| - 1] == body;
    assert [] + [name] == [name] + [] == [name];
    WrapRun(name, attrs, body);
    calc {
      Children(w);
      [name] + Names(body + [End(name)], 1);
      { RunFrame(body, [], [], [name]);
        NamesAppend(body, [End(name)], [name], [name], 0); }
      [name] + (Names(body, 1) + Names([End(name)], 1));
      { NamesNested(body, [], [], 1); }
      [name];
    }
  }

  /** The run half of WrapShape. */
  lemma WrapRun<N>(name: N, attrs: seq<Attribute>, body: seq<Event<N>>)
    requires Balanced(body)
    ensures Balanced(Wrap(name, attrs, body))
  {
    var w := Wrap(name, attrs, body);
    assert w[0] == Start(name, attrs);
    assert w[1..] == body + [End(name)];
    assert [] + [name] == [name] + [] == [name];
    calc {
      Run(w, []);
      Run(body + [End(name)], [name]);
      { RunAppend(body, [End(name)], [name]); RunFrame(body, [], [], [name]); }
      Run([End(name)], [name]);
      Some([]);
    }
  }

  /** An element is itself nested properly. */
  lemma ElementBalanced<N>(evs: seq<Event<N>>, name: N, children: seq<N>)
    requires IsElement(evs, name, children)
    ensures Balanced(evs)
  {
    var body := evs[1..|evs| - 1];
    assert evs == Wrap(name, evs[0].attrs, body);
    WrapShape(name, evs[0].attrs, body);
  }
}
