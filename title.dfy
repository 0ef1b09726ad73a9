/** The title search inside `getTitle` of extension/tgbot/main.go: the
    recursive closure `f` walks the parsed HTML tree depth-first in document
    order, and `strings.TrimSpace` cleans up what it finds.  Fetching the page
    and parsing it into the tree are outside this module. */
module TitleSearch {
  import opened Text

  /** The node kinds of golang.org/x/net/html. */
  datatype NodeType = ErrorNode | TextNode | DocumentNode | ElementNode | CommentNode | DoctypeNode | RawNode

  /** A parsed HTML node: its kind, its data (the tag name of an element, the
      text of a text node) and its children in document order.  `children[0]`
      is the node's `FirstChild`; the `NextSibling` chain is the order of
      `children`. */
  datatype Node = Node(kind: NodeType, data: string, children: seq<Node>)

  /** The outcome of the search: the string found, or the run-time panic the
      source hits when it reads `FirstChild.Data` of a `title` element that has
      no children (the nil pointer dereference at main.go:160). */
  datatype Search = Found(text: string) | NilDeref

  predicate IsTitle(n: Node) {
    n.kind == ElementNode && n.data == "title"
  }

  /** The closure `f` on one node. */
  function Find(n: Node): Search
    decreases n, 1
  {
    if IsTitle(n) then
      if n.children == [] then NilDeref else Found(n.children[0].data)
    else FindIn(n.children)
  }

  /** The sibling loop of `f`: the first child whose search yields a non-empty
      string wins; a panic ends the search. */
  function FindIn(cs: seq<Node>): Search
    decreases cs, 0
  {
    if cs == [] then Found("")
    else
      match Find(cs[0])
      case NilDeref => NilDeref
      case Found(t) => if t != "" then Found(t) else FindIn(cs[1..])
  }

  /** Reference definition of where the search looks: the `title` elements
      of the tree in document order, without looking inside a `title`. */
  function Titles(n: Node): (ts: seq<Node>)
    ensures forall t :: t in ts ==> IsTitle(t)
    decreases n, 1
  {
    if IsTitle(n) then [n] else TitlesIn(n.children)
  }

  function TitlesIn(cs: seq<Node>): (ts: seq<Node>)
    ensures forall t :: t in ts ==> IsTitle(t)
    decreases cs, 0
  {
    if cs == [] then [] else Titles(cs[0]) + TitlesIn(cs[1..])
  }

  /** A `title` element that lets the search go on: it has a first child and
      that child's data is empty. */
  predicate Passes(t: Node) {
    t.children != [] && t.children[0].data == ""
  }

  /** Reference definition of what the search reports for a list of `title`
      elements: it passes over the ones that let it go on and stops at the
      first one that does not. */
  function Scan(ts: seq<Node>): (r: Search)
    ensures r == Found("") <==> forall k :: 0 <= k < |ts| ==> Passes(ts[k])
    ensures r.Found? && r.text != "" ==>
      exists k :: 0 <= k < |ts| && (forall j :: 0 <= j < k ==> Passes(ts[j]))
                  && ts[k].children != [] && r.text == ts[k].children[0].data
    ensures r == NilDeref ==>
      exists k :: 0 <= k < |ts| && (forall j :: 0 <= j < k ==> Passes(ts[j])) && ts[k].children == []
  {
    if ts == [] then Found("")
    else if ts[0].children == [] then NilDeref
    else if ts[0].children[0].data != "" then Found(ts[0].children[0].data)
    else Scan(ts[1..])
  }

  lemma {:induction false} ScanAppend(a: seq<Node>, b: seq<Node>)
    ensures Scan(a + b) == if Scan(a) == Found("") then Scan(b) else Scan(a)
    decreases |a|
  {
    if a == [] {
      assert a + b == b;
    } else {
      assert (a + b)[0] == a[0];
      assert (a + b)[1..] == a[1..] + b;
      ScanAppend(a[1..], b);
    }
  }

  /** The closure `f` is the scan of the tree's `title` elements in document
      order: it never descends into a `title`, a `title` whose first child's
      data is "" does not stop it, and the first other `title` decides. */
  lemma {:induction false} FindScansTitles(n: Node)
    ensures Find(n) == Scan(Titles(n))
    decreases n, 1
  {
    if !IsTitle(n) {
      FindInScansTitles(n.children);
    }
  }

  lemma {:induction false} FindInScansTitles(cs: seq<Node>)
    ensures FindIn(cs) == Scan(TitlesIn(cs))
    decreases cs, 0
  {
    if cs != [] {
      FindScansTitles(cs[0]);
      FindInScansTitles(cs[1..]);
      ScanAppend(Titles(cs[0]), TitlesIn(cs[1..]));
    }
  }

  /** Every `title` element of the tree has a child. */
  predicate TitlesHaveChild(n: Node)
    decreases n
  {
    (IsTitle(n) ==> n.children != [])
    && forall i :: 0 <= i < |n.children| ==> TitlesHaveChild(n.children[i])
  }

  lemma {:induction false} TitlesOfWellFormed(n: Node)
    requires TitlesHaveChild(n)
    ensures forall t :: t in Titles(n) ==> t.children != []
    decreases n, 1
  {
    if !IsTitle(n) {
      TitlesInOfWellFormed(n.children);
    }
  }

  lemma {:induction false} TitlesInOfWellFormed(cs: seq<Node>)
    requires forall i :: 0 <= i < |cs| ==> TitlesHaveChild(cs[i])
    ensures forall t :: t in TitlesIn(cs) ==> t.children != []
    decreases cs, 0
  {
    if cs != [] {
      TitlesOfWellFormed(cs[0]);
      TitlesInOfWellFormed(cs[1..]);
    }
  }

  /** When every `title` element has a child, the search never panics. */
  lemma NoPanicWhenTitlesHaveChild(n: Node)
    requires TitlesHaveChild(n)
    ensures Find(n).Found?
  {
    TitlesOfWellFormed(n);
    FindScansTitles(n);
    var ts := Titles(n);
    forall k | 0 <= k < |ts| ensures ts[k].children != [] {
      assert ts[k] in ts;
    }
  }

  /** A `title` whose first child's data is "" does not stop the search:
      the nodes after it are still examined. */
  lemma PassingTitleContinues(t: Node, rest: seq<Node>)
    requires IsTitle(t) && Passes(t)
    ensures FindIn([t] + rest) == FindIn(rest)
  {
    assert ([t] + rest)[0] == t && ([t] + rest)[1..] == rest;
  }

  /** A `title` with non-empty first-child data ends the search, whatever
      follows it and whatever it holds further down. */
  lemma FirstTitleWins(t: Node, rest: seq<Node>)
    requires IsTitle(t) && t.children != [] && t.children[0].data != ""
    ensures FindIn([t] + rest) == Found(t.children[0].data)
  {
    assert ([t] + rest)[0] == t;
  }

  /** The title `getTitle` returns for a parsed page: the search result with
      leading and trailing white space removed, that is, the piece of it after
      its leading white space that leaves only white space behind. */
  function GetTitle(doc: Node): (r: Search)
    ensures r.NilDeref? <==> Find(doc).NilDeref?
    ensures r.Found? ==> Trimmed(r.text)
    ensures r.Found? ==> var s, i := Find(doc).text, LeadingSpace(Find(doc).text);
      i + |r.text| <= |s| && r.text == s[i..i + |r.text|] && AllSpace(s[i + |r.text|..])
  {
    match Find(doc)
    case NilDeref => NilDeref
    case Found(s) => Found(TrimSpace(s))
  }

  /** A page without a `title` element that yields data has the title "". */
  lemma NoTitleGivesEmpty(doc: Node)
    requires forall t :: t in Titles(doc) ==> Passes(t)
    ensures GetTitle(doc) == Found("")
  {
    FindScansTitles(doc);
    var ts := Titles(doc);
    forall k | 0 <= k < |ts| ensures Passes(ts[k]) {
      assert ts[k] in ts;
    }
  }
}
