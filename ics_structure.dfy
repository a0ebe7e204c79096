/** The component structure of an iCalendar object (section 3.4 and 3.6 of RFC 5545):
    a component is written as a `BEGIN:` line, its property lines, its sub-components
    and an `END:` line. This module is the reference the generated line lists are
    compared with, and the reader-side check that `BEGIN`/`END` lines are balanced. */
module IcsStructure {
  import opened Text

  datatype Component = Component(name: string, properties: seq<string>, subcomponents: seq<Component>)

  /** The content lines of a component, in the order RFC 5545 writes them. */
  function Render(c: Component): seq<string>
    decreases c, 1
  {
    ["BEGIN:" + c.name] + c.properties + RenderAll(c.subcomponents) + ["END:" + c.name]
  }

  function RenderAll(cs: seq<Component>): seq<string>
    decreases cs, 0
  {
    if |cs| == 0 then [] else Render(cs[0]) + RenderAll(cs[1..])
  }

  predicate IsBegin(l: string)
  {
    |l| >= 6 && l[..6] == "BEGIN:"
  }

  predicate IsEnd(l: string)
  {
    |l| >= 4 && l[..4] == "END:"
  }

  /** A line that opens or closes a component. */
  predicate IsDelimiter(l: string)
  {
    IsBegin(l) || IsEnd(l)
  }

  /** A line whose first character is neither `B` nor `E` cannot open or close a component. */
  lemma NotDelimiter(l: string)
    requires |l| > 0 && l[0] != 'B' && l[0] != 'E'
    ensures !IsDelimiter(l)
  {
    if |l| >= 6 { assert l[..6][0] == l[0]; }
    if |l| >= 4 { assert l[..4][0] == l[0]; }
  }

  /** Property lines that start with an upper-case property name other than `BEGIN`/`END`. */
  predicate PropertyLines(ps: seq<string>)
  {
    forall i :: 0 <= i < |ps| ==> |ps[i]| > 0 && ps[i][0] != 'B' && ps[i][0] != 'E'
  }

  /** Every property line of every component is a property line, not a delimiter. */
  predicate WellFormed(c: Component)
    decreases c, 1
  {
    PropertyLines(c.properties) && AllWellFormed(c.subcomponents)
  }

  predicate AllWellFormed(cs: seq<Component>)
    decreases cs, 0
  {
    forall i :: 0 <= i < |cs| ==> WellFormed(cs[i])
  }

  /** Reads a line list as a calendar reader does, keeping the stack of open component names:
      `None` when an `END:` line does not close the innermost open component. */
  function Nest(lines: seq<string>, open: seq<string>): Option<seq<string>>
    decreases |lines|
  {
    if |lines| == 0 then Some(open)
    else
      var l := lines[0];
      if IsBegin(l) then Nest(lines[1..], open + [l[6..]])
      else if IsEnd(l) then
        if |open| > 0 && open[|open| - 1] == l[4..] then Nest(lines[1..], open[..|open| - 1]) else None
      else Nest(lines[1..], open)
  }

  /** Every `BEGIN:X` is closed by a matching `END:X`, properly nested. */
  predicate Balanced(lines: seq<string>)
  {
    Nest(lines, []) == Some([])
  }

  lemma {:induction false} NestProperties(ps: seq<string>, rest: seq<string>, open: seq<string>)
    requires PropertyLines(ps)
    ensures Nest(ps + rest, open) == Nest(rest, open)
    decreases |ps|
  {
    if |ps| == 0 {
      assert ps + rest == rest;
    } else {
      NotDelimiter(ps[0]);
      assert (ps + rest)[0] == ps[0] && (ps + rest)[1..] == ps[1..] + rest;
      NestProperties(ps[1..], rest, open);
    }
  }

  lemma {:induction false} NestRender(c: Component, rest: seq<string>, open: seq<string>)
    requires WellFormed(c)
    ensures Nest(Render(c) + rest, open) == Nest(rest, open)
    decreases c, 1
  {
    var b, e := "BEGIN:" + c.name, "END:" + c.name;
    var tail := [e] + rest;
    var middle := RenderAll(c.subcomponents) + tail;
    var all := [b] + (c.properties + middle);
    assert Render(c) + rest == all;
    assert b[..6] == "BEGIN:" && b[6..] == c.name;
    assert all[1..] == c.properties + middle;
    NestProperties(c.properties, middle, open + [c.name]);
    NestRenderAll(c.subcomponents, tail, open + [c.name]);
    assert e[..4] == "END:" && e[4..] == c.name;
    assert !IsBegin(e) by { if |e| >= 6 { assert e[..6][0] == 'E'; } }
    assert (open + [c.name])[..|open|] == open;
  }

  lemma {:induction false} NestRenderAll(cs: seq<Component>, rest: seq<string>, open: seq<string>)
    requires AllWellFormed(cs)
    ensures Nest(RenderAll(cs) + rest, open) == Nest(rest, open)
    decreases cs, 0
  {
    if |cs| == 0 {
      assert RenderAll(cs) + rest == rest;
    } else {
      assert AllWellFormed(cs[1..]) by {
        forall i | 0 <= i < |cs[1..]| ensures WellFormed(cs[1..][i]) { assert cs[1..][i] == cs[i + 1]; }
      }
      assert WellFormed(cs[0]);
      assert RenderAll(cs) + rest == Render(cs[0]) + (RenderAll(cs[1..]) + rest);
      NestRender(cs[0], RenderAll(cs[1..]) + rest, open);
      NestRenderAll(cs[1..], rest, open);
    }
  }

  /** The rendering of a well-formed component is balanced. */
  lemma RenderBalanced(c: Component)
    requires WellFormed(c)
    ensures Balanced(Render(c))
  {
    NestRender(c, [], []);
    assert Render(c) + [] == Render(c);
  }

  /** How many components named `x` the tree holds, the root included. */
  function Occurrences(c: Component, x: string): nat
    decreases c, 1
  {
    (if c.name == x then 1 else 0) + OccurrencesAll(c.subcomponents, x)
  }

  function OccurrencesAll(cs: seq<Component>, x: string): nat
    decreases cs, 0
  {
    if |cs| == 0 then 0 else Occurrences(cs[0], x) + OccurrencesAll(cs[1..], x)
  }

  lemma {:induction false} CountProperties(ps: seq<string>, x: string)
    requires PropertyLines(ps)
    ensures Count(ps, "BEGIN:" + x) == 0
    decreases |ps|
  {
    if |ps| > 0 {
      assert ps[0][0] != ("BEGIN:" + x)[0];
      CountProperties(ps[1..], x);
    }
  }

  /** The rendering has one `BEGIN:x` line per component named `x`. */
  lemma {:induction false} CountBegins(c: Component, x: string)
    requires WellFormed(c)
    ensures Count(Render(c), "BEGIN:" + x) == Occurrences(c, x)
    decreases c, 1
  {
    var b, e := "BEGIN:" + c.name, "END:" + c.name;
    var key := "BEGIN:" + x;
    assert Render(c) == [b] + c.properties + RenderAll(c.subcomponents) + [e];
    CountConcat([b] + c.properties + RenderAll(c.subcomponents), [e], key);
    CountConcat([b] + c.properties, RenderAll(c.subcomponents), key);
    CountConcat([b], c.properties, key);
    CountProperties(c.properties, x);
    CountBeginsAll(c.subcomponents, x);
    assert b == key <==> c.name == x by {
      if c.name != x { assert b[6..] == c.name && key[6..] == x; }
    }
    assert e[0] != key[0];
    assert Count([e], key) == 0;
    assert Count([b], key) == if c.name == x then 1 else 0;
  }

  lemma {:induction false} CountBeginsAll(cs: seq<Component>, x: string)
    requires AllWellFormed(cs)
    ensures Count(RenderAll(cs), "BEGIN:" + x) == OccurrencesAll(cs, x)
    decreases cs, 0
  {
    if |cs| > 0 {
      assert AllWellFormed(cs[1..]) by {
        forall i | 0 <= i < |cs[1..]| ensures WellFormed(cs[1..][i]) { assert cs[1..][i] == cs[i + 1]; }
      }
      assert WellFormed(cs[0]);
      CountConcat(Render(cs[0]), RenderAll(cs[1..]), "BEGIN:" + x);
      CountBegins(cs[0], x);
      CountBeginsAll(cs[1..], x);
    }
  }

  /** Rendering helpers for the shapes used by the generator. */
  lemma RenderLeaf(name: string, ps: seq<string>)
    ensures Render(Component(name, ps, [])) == ["BEGIN:" + name] + ps + ["END:" + name]
  {
    assert RenderAll([]) == [];
  }

  lemma RenderAllOne(a: Component)
    ensures RenderAll([a]) == Render(a)
  {
    assert [a][1..] == [];
  }

  lemma RenderAllTwo(a: Component, b: Component)
    ensures RenderAll([a, b]) == Render(a) + Render(b)
  {
    assert [a, b][1..] == [b];
    RenderAllOne(b);
  }

  lemma AllWellFormedTwo(a: Component, b: Component)
    requires WellFormed(a) && WellFormed(b)
    ensures AllWellFormed([a, b])
  {
  }
}
