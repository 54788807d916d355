/** The part of the page's document tree the content extractor reads: elements with a tag name
    (lower case, as the HTML parser gives it), attributes and children, and text nodes; the
    simple CSS selectors it uses, as predicates on one element; `querySelector`,
    `querySelectorAll` and `textContent`; and the removal of every matching descendant that
    `querySelectorAll(sel).forEach((el) => el.remove())` performs on a clone. */
module Dom {
  import opened Text
  import opened Options

  datatype Node =
    | Element(tag: string, attributes: map<string, string>, children: seq<Node>)
    | TextNode(text: string)

  /** The simple selectors that occur in the extractor: `tag`, `.class`, `#id`,
      `[name="value"]` and `[name*="part"]`. */
  datatype Selector =
    | Tag(name: string)
    | Class(name: string)
    | Id(name: string)
    | AttrEquals(attribute: string, value: string)
    | AttrContains(attribute: string, part: string)

  /** `getAttribute(name)`: `None` stands for `null`. */
  function Attribute(n: Node, name: string): Option<string>
  {
    if n.Element? && name in n.attributes then Some(n.attributes[name]) else None
  }

  /** `element.id`: the `id` attribute, or `""` without one. */
  function IdOf(n: Node): string
  {
    Attribute(n, "id").GetOr("")
  }

  /** The ASCII whitespace that separates the tokens of the `class` attribute. */
  predicate IsAsciiWhitespace(c: char)
  {
    c == ' ' || c == '\t' || c == '\n' || c == '\U{000C}' || c == '\r'
  }

  /** `element.classList`: the tokens of the `class` attribute. */
  function ClassList(n: Node): seq<string>
  {
    NonEmpty(SplitRuns(Attribute(n, "class").GetOr(""), IsAsciiWhitespace))
  }

  /** Whether element `n` matches `s`. A selector looks only at the element itself (the
      extractor uses no combinators), and text nodes match nothing. */
  predicate Matches(n: Node, s: Selector)
  {
    n.Element? &&
    match s
    case Tag(name) => n.tag == name
    case Class(name) => name in ClassList(n)
    case Id(name) => IdOf(n) == name
    case AttrEquals(a, v) => Attribute(n, a) == Some(v)
    case AttrContains(a, p) => a in n.attributes && Contains(n.attributes[a], p)
  }

  /** A selector list `"a, b, c"` matches an element that any of its selectors matches. */
  predicate MatchesAny(n: Node, sels: seq<Selector>)
  {
    exists k :: 0 <= k < |sels| && Matches(n, sels[k])
  }

  lemma {:induction false} MatchesAnyAppend(n: Node, a: seq<Selector>, b: seq<Selector>)
    ensures MatchesAny(n, a + b) <==> MatchesAny(n, a) || MatchesAny(n, b)
  {
    if MatchesAny(n, a + b) {
      var k :| 0 <= k < |a + b| && Matches(n, (a + b)[k]);
      if k >= |a| {
        assert Matches(n, b[k - |a|]);
      }
    }
    if MatchesAny(n, b) {
      var k :| 0 <= k < |b| && Matches(n, b[k]);
      assert (a + b)[|a| + k] == b[k];
    }
    if MatchesAny(n, a) {
      var k :| 0 <= k < |a| && Matches(n, a[k]);
      assert (a + b)[k] == a[k];
    }
  }

  // ---------------------------------------------------------------------------------------
  // traversal

  /** The elements of the tree at `n`, `n` first, in document (pre-)order. */
  function Elements(n: Node): seq<Node>
    decreases n, 1
  {
    match n
    case TextNode(_) => []
    case Element(_, _, children) => [n] + ElementsOf(children)
  }

  function ElementsOf(ns: seq<Node>): seq<Node>
    decreases ns, 0
  {
    if ns == [] then [] else Elements(ns[0]) + ElementsOf(ns[1..])
  }

  /** The elements strictly below `n`, in document order: what `n.querySelectorAll` searches. */
  function Descendants(n: Node): seq<Node>
  {
    if n.Element? then ElementsOf(n.children) else []
  }

  /** `textContent`: the text of every text node below, in document order. */
  function TextContent(n: Node): string
    decreases n, 1
  {
    match n
    case TextNode(t) => t
    case Element(_, _, children) => TextOf(children)
  }

  function TextOf(ns: seq<Node>): string
    decreases ns, 0
  {
    if ns == [] then [] else TextContent(ns[0]) + TextOf(ns[1..])
  }

  /** The nodes of `ns` that match the selector list, in order: `querySelectorAll`. */
  function Select(ns: seq<Node>, sels: seq<Selector>): (r: seq<Node>)
    ensures |r| <= |ns|
    ensures forall x :: x in r <==> x in ns && MatchesAny(x, sels)
  {
    if ns == [] then []
    else (if MatchesAny(ns[0], sels) then [ns[0]] else []) + Select(ns[1..], sels)
  }

  /** `querySelector`: the first of `ns` that matches, if any. */
  function SelectFirst(ns: seq<Node>, sels: seq<Selector>): (r: Option<Node>)
    ensures r.Some? <==> exists k :: 0 <= k < |ns| && MatchesAny(ns[k], sels)
    ensures r.Some? ==> r.value in ns && MatchesAny(r.value, sels)
  {
    if ns == [] then None
    else if MatchesAny(ns[0], sels) then Some(ns[0])
    else
      var r := SelectFirst(ns[1..], sels);
      assert forall k :: 1 <= k < |ns| ==> ns[k] == ns[1..][k - 1];
      r
  }

  /** `querySelector` returns the first match: nothing before it matches. */
  lemma {:induction false} SelectFirstIsFirst(ns: seq<Node>, sels: seq<Selector>)
    requires SelectFirst(ns, sels).Some?
    ensures exists k :: 0 <= k < |ns| && ns[k] == SelectFirst(ns, sels).value
              && forall j :: 0 <= j < k ==> !MatchesAny(ns[j], sels)
  {
    if !MatchesAny(ns[0], sels) {
      SelectFirstIsFirst(ns[1..], sels);
      var k :| 0 <= k < |ns[1..]| && ns[1..][k] == SelectFirst(ns[1..], sels).value
                 && forall j :: 0 <= j < k ==> !MatchesAny(ns[1..][j], sels);
      assert ns[k + 1] == SelectFirst(ns, sels).value;
      forall j | 0 <= j < k + 1 ensures !MatchesAny(ns[j], sels) {
        if j > 0 {
          assert ns[j] == ns[1..][j - 1];
        }
      }
    } else {
      assert ns[0] == SelectFirst(ns, sels).value;
    }
  }

  // ---------------------------------------------------------------------------------------
  // removal

  /** The tree at `n` once every strict descendant matching `sels` has been removed, together
      with everything below it. */
  function Prune(n: Node, sels: seq<Selector>): (r: Node)
    ensures r.Element? == n.Element?
    ensures r.Element? ==> r.tag == n.tag && r.attributes == n.attributes
    decreases n, 1
  {
    match n
    case TextNode(_) => n
    case Element(tag, attributes, children) => Element(tag, attributes, PruneOf(children, sels))
  }

  function PruneOf(ns: seq<Node>, sels: seq<Selector>): (r: seq<Node>)
    ensures |r| <= |ns|
    decreases ns, 0
  {
    if ns == [] then []
    else
      (if MatchesAny(ns[0], sels) then [] else [Prune(ns[0], sels)]) + PruneOf(ns[1..], sels)
  }

  /** A node keeps what its own selectors see. */
  lemma {:induction false} PruneKeepsMatch(n: Node, a: seq<Selector>, s: Selector)
    ensures Matches(Prune(n, a), s) <==> Matches(n, s)
  {
    assert Attribute(Prune(n, a), "class") == Attribute(n, "class");
    assert Attribute(Prune(n, a), "id") == Attribute(n, "id");
  }

  lemma {:induction false} PruneKeepsMatchAny(n: Node, a: seq<Selector>, b: seq<Selector>)
    ensures MatchesAny(Prune(n, a), b) <==> MatchesAny(n, b)
  {
    forall k | 0 <= k < |b| ensures Matches(Prune(n, a), b[k]) <==> Matches(n, b[k]) {
      PruneKeepsMatch(n, a, b[k]);
    }
  }

  /** Removing the matches of `a` and then those of `b` is removing the matches of `a + b`:
      one `forEach` per selector does what one pass over the whole list would. */
  lemma {:induction false} PruneCompose(n: Node, a: seq<Selector>, b: seq<Selector>)
    ensures Prune(Prune(n, a), b) == Prune(n, a + b)
    decreases n, 1
  {
    match n
    case TextNode(_) =>
    case Element(_, _, children) => PruneOfCompose(children, a, b);
  }

  lemma {:induction false} PruneOfCompose(ns: seq<Node>, a: seq<Selector>, b: seq<Selector>)
    ensures PruneOf(PruneOf(ns, a), b) == PruneOf(ns, a + b)
    decreases ns, 0
  {
    if ns != [] {
      PruneOfCompose(ns[1..], a, b);
      MatchesAnyAppend(ns[0], a, b);
      var rest := PruneOf(ns[1..], a);
      if MatchesAny(ns[0], a) {
        assert PruneOf(ns, a) == rest;
      } else {
        assert PruneOf(ns, a) == [Prune(ns[0], a)] + rest;
        assert PruneOf(ns, a)[1..] == rest;
        PruneKeepsMatchAny(ns[0], a, b);
        if !MatchesAny(ns[0], b) {
          PruneCompose(ns[0], a, b);
        }
      }
    }
  }

  /** An empty selector list removes nothing. */
  lemma {:induction false} PruneNothing(n: Node)
    ensures Prune(n, []) == n
    decreases n, 1
  {
    match n
    case TextNode(_) =>
    case Element(_, _, children) => PruneOfNothing(children);
  }

  lemma {:induction false} PruneOfNothing(ns: seq<Node>)
    ensures PruneOf(ns, []) == ns
    decreases ns, 0
  {
    if ns != [] {
      PruneOfNothing(ns[1..]);
      PruneNothing(ns[0]);
      assert !MatchesAny(ns[0], []);
      assert ns == [ns[0]] + ns[1..];
    }
  }

  /** Only which elements a list matches matters, not how the list is written. */
  lemma {:induction false} PruneSame(n: Node, a: seq<Selector>, b: seq<Selector>)
    requires forall x: Node :: MatchesAny(x, a) <==> MatchesAny(x, b)
    ensures Prune(n, a) == Prune(n, b)
    decreases n, 1
  {
    match n
    case TextNode(_) =>
    case Element(_, _, children) => PruneOfSame(children, a, b);
  }

  lemma {:induction false} PruneOfSame(ns: seq<Node>, a: seq<Selector>, b: seq<Selector>)
    requires forall x: Node :: MatchesAny(x, a) <==> MatchesAny(x, b)
    ensures PruneOf(ns, a) == PruneOf(ns, b)
    decreases ns, 0
  {
    if ns != [] {
      PruneOfSame(ns[1..], a, b);
      PruneSame(ns[0], a, b);
    }
  }

  /** Removing the same matches twice changes nothing the second time. */
  lemma {:induction false} PruneIdempotent(n: Node, a: seq<Selector>)
    ensures Prune(Prune(n, a), a) == Prune(n, a)
  {
    PruneCompose(n, a, a);
    forall x: Node ensures MatchesAny(x, a + a) <==> MatchesAny(x, a) {
      MatchesAnyAppend(x, a, a);
    }
    PruneSame(n, a + a, a);
  }

  /** The order in which selector lists are removed does not matter. */
  lemma {:induction false} PruneCommutes(n: Node, a: seq<Selector>, b: seq<Selector>)
    ensures Prune(Prune(n, a), b) == Prune(Prune(n, b), a)
  {
    PruneCompose(n, a, b);
    PruneCompose(n, b, a);
    forall x: Node ensures MatchesAny(x, a + b) <==> MatchesAny(x, b + a) {
      MatchesAnyAppend(x, a, b);
      MatchesAnyAppend(x, b, a);
    }
    PruneSame(n, a + b, b + a);
  }

  /** After the removal no element below the root matches any of the selectors. */
  lemma {:induction false} PruneRemoves(n: Node, a: seq<Selector>)
    ensures forall d :: d in Descendants(Prune(n, a)) ==> !MatchesAny(d, a)
    decreases n, 1
  {
    match n
    case TextNode(_) =>
    case Element(_, _, children) =>
      PruneOfRemoves(children, a);
  }

  lemma {:induction false} PruneOfRemoves(ns: seq<Node>, a: seq<Selector>)
    ensures forall d :: d in ElementsOf(PruneOf(ns, a)) ==> !MatchesAny(d, a)
    decreases ns, 0
  {
    if ns != [] {
      PruneOfRemoves(ns[1..], a);
      var rest := PruneOf(ns[1..], a);
      if MatchesAny(ns[0], a) {
        assert PruneOf(ns, a) == rest;
      } else {
        var p := Prune(ns[0], a);
        PruneRemoves(ns[0], a);
        PruneKeepsMatchAny(ns[0], a, a);
        assert PruneOf(ns, a) == [p] + rest;
        assert ([p] + rest)[1..] == rest;
        assert ElementsOf(PruneOf(ns, a)) == Elements(p) + ElementsOf(rest);
        forall d | d in Elements(p) ensures !MatchesAny(d, a) {
          assert p.Element?;
          assert Elements(p) == [p] + Descendants(p);
          if d != p {
            assert d in Descendants(p);
          }
        }
      }
    }
  }

  /** A tree in which nothing below the root matches comes through the removal unchanged. */
  lemma {:induction false} PruneNoMatch(n: Node, a: seq<Selector>)
    requires forall x :: x in Descendants(n) ==> !MatchesAny(x, a)
    ensures Prune(n, a) == n
    decreases n, 1
  {
    match n
    case TextNode(_) =>
    case Element(_, _, children) => PruneOfNoMatch(children, a);
  }

  lemma {:induction false} PruneOfNoMatch(ns: seq<Node>, a: seq<Selector>)
    requires forall x :: x in ElementsOf(ns) ==> !MatchesAny(x, a)
    ensures PruneOf(ns, a) == ns
    decreases ns, 0
  {
    if ns != [] {
      assert ElementsOf(ns) == Elements(ns[0]) + ElementsOf(ns[1..]);
      PruneOfNoMatch(ns[1..], a);
      match ns[0]
      case TextNode(_) =>
      case Element(_, _, children) =>
        assert Elements(ns[0]) == [ns[0]] + ElementsOf(children);
        assert ns[0] in ElementsOf(ns);
        PruneNoMatch(ns[0], a);
      assert ns == [ns[0]] + ns[1..];
    }
  }

  /** The removal applied to each node of a list. */
  function PruneEach(ns: seq<Node>, a: seq<Selector>): (r: seq<Node>)
    ensures |r| == |ns| && forall k :: 0 <= k < |ns| ==> r[k] == Prune(ns[k], a)
  {
    if ns == [] then []
    else
      var r := [Prune(ns[0], a)] + PruneEach(ns[1..], a);
      assert forall k :: 1 <= k < |ns| ==> ns[k] == ns[1..][k - 1];
      r
  }

  /** The nodes of `ns` that no selector of `a` matches: the ones the removal leaves in place. */
  function Unmatched(ns: seq<Node>, a: seq<Selector>): (r: seq<Node>)
    ensures forall x :: x in r <==> x in ns && !MatchesAny(x, a)
    ensures IsSubsequence(r, ns)
  {
    var keep := x => !MatchesAny(x, a);
    FilterKeepsOrder(ns, keep);
    Filter(ns, keep)
  }

  /** What survives among a list of siblings: a node that matches goes with everything below
      it, and every other node stays, in the same order, with its own matches removed. */
  lemma {:induction false} PruneOfKeeps(ns: seq<Node>, a: seq<Selector>)
    ensures PruneOf(ns, a) == PruneEach(Unmatched(ns, a), a)
    decreases ns
  {
    if ns != [] {
      PruneOfKeeps(ns[1..], a);
      var f := Unmatched(ns, a);
      var rest := Unmatched(ns[1..], a);
      if MatchesAny(ns[0], a) {
        assert f == rest;
      } else {
        assert f == [ns[0]] + rest;
        assert f[1..] == rest;
      }
    }
  }

  /** A child that no selector matches keeps its pruned copy among the root's children, and
      every child left is the pruned copy of a child that matches none. */
  lemma {:induction false} PruneKeepsChild(n: Node, a: seq<Selector>)
    requires n.Element?
    ensures forall c :: c in n.children && !MatchesAny(c, a) ==> Prune(c, a) in Prune(n, a).children
    ensures forall y :: y in Prune(n, a).children ==>
              exists c :: c in n.children && !MatchesAny(c, a) && y == Prune(c, a)
  {
    PruneOfKeeps(n.children, a);
    var f := Unmatched(n.children, a);
    var r := PruneEach(f, a);
    assert Prune(n, a).children == r;
    forall c | c in n.children && !MatchesAny(c, a) ensures Prune(c, a) in r {
      var k :| 0 <= k < |f| && f[k] == c;
      assert r[k] == Prune(c, a);
    }
    forall y | y in r ensures exists c :: c in n.children && !MatchesAny(c, a) && y == Prune(c, a) {
      var k :| 0 <= k < |r| && r[k] == y;
      assert f[k] in f;
    }
  }
}
