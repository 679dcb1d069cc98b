/**
 * The knowledge tree as the facade sees it, and its two text renderers,
 * `format_tree_display` and `format_enriched_tree_display`: a pre-order outline
 * with `└─ ` for a last child, `├─ ` for any other, and a prefix that grows by
 * `   ` below a last child and by `│  ` below any other.
 */
module ConceptTree {
  import opened Base
  import opened Text

  /** The `narrative` attribute probed by `hasattr` on the root: missing, set to None, or an object with `verbose_prompt`. */
  datatype NarrativeAttr = NoAttribute | NoneNarrative | Narrative(verbosePrompt: string)

  /**
   * A concept node. `equations` is empty when the node carries none (or no such
   * attribute); `visualSpec` is None without a visual specification and otherwise
   * holds the number of its elements.
   */
  datatype Node = Node(
    concept: string,
    depth: nat,
    isFoundation: bool,
    prerequisites: seq<Node>,
    equations: seq<string>,
    visualSpec: Option<nat>,
    narrative: NarrativeAttr)

  /** The display words of one language version of the interface; `equationsTag` and `visualTag` are the text between a count line's indentation and its number. */
  datatype Labels = Labels(foundationMarker: string, depthWord: string, equationsTag: string, visualTag: string)

  const EnglishLabels: Labels := Labels(" [FOUNDATION]", "depth", "  📐 Equations: ", "  🎨 Visual elements: ")
  const ChineseLabels: Labels := Labels(" [基础概念]", "深度", "  📐 方程: ", "  🎨 视觉元素: ")

  function Connector(isLast: bool): string
  {
    if isLast then "└─ " else "├─ "
  }

  /** What a node's prefix grows by for the lines below it. */
  function Extension(isLast: bool): string
  {
    if isLast then "   " else "│  "
  }

  /** The node's own line, without its newline. */
  function Header(n: Node, prefix: string, isLast: bool, labels: Labels): string
  {
    prefix + Connector(isLast) + n.concept + " (" + labels.depthWord + " " + DecimalString(n.depth) + ")"
    + (if n.isFoundation then labels.foundationMarker else "")
  }

  /** A count line without its newline. */
  function CountLine(under: string, words: string, count: nat): string
  {
    under + words + DecimalString(count)
  }

  function EquationsLine(n: Node, prefix: string, isLast: bool, labels: Labels): string
  {
    CountLine(prefix + Extension(isLast), labels.equationsTag, |n.equations|)
  }

  function VisualLine(n: Node, prefix: string, isLast: bool, labels: Labels): string
    requires n.visualSpec.Some?
  {
    CountLine(prefix + Extension(isLast), labels.visualTag, n.visualSpec.value)
  }

  /** The count lines the enriched renderer writes under a node's line, without newlines. */
  function Annotations(n: Node, prefix: string, isLast: bool, labels: Labels): seq<string>
  {
    (if |n.equations| > 0 then [EquationsLine(n, prefix, isLast, labels)] else [])
    + (if n.visualSpec.Some? then [VisualLine(n, prefix, isLast, labels)] else [])
  }

  /** The same count lines as text, each with its newline. */
  function AnnotationText(n: Node, prefix: string, isLast: bool, labels: Labels): string
  {
    (if |n.equations| > 0 then EquationsLine(n, prefix, isLast, labels) + "\n" else "")
    + (if n.visualSpec.Some? then VisualLine(n, prefix, isLast, labels) + "\n" else "")
  }

  /** `format_tree_display(node, prefix, is_last)`. */
  function Render(n: Node, prefix: string, isLast: bool, labels: Labels): string
    decreases n
  {
    Header(n, prefix, isLast, labels) + "\n" + RenderFrom(n.prerequisites, 0, prefix + Extension(isLast), labels)
  }

  /** The loop over children in `format_tree_display`, from child `i` on. */
  function RenderFrom(children: seq<Node>, i: nat, prefix: string, labels: Labels): string
    decreases children, |children| - i
  {
    if i >= |children| then ""
    else Render(children[i], prefix, i == |children| - 1, labels) + RenderFrom(children, i + 1, prefix, labels)
  }

  /** `format_enriched_tree_display(node, prefix, is_last)`. */
  function EnrichedRender(n: Node, prefix: string, isLast: bool, labels: Labels): string
    decreases n
  {
    Header(n, prefix, isLast, labels) + "\n" + AnnotationText(n, prefix, isLast, labels)
    + EnrichedFrom(n.prerequisites, 0, prefix + Extension(isLast), labels)
  }

  function EnrichedFrom(children: seq<Node>, i: nat, prefix: string, labels: Labels): string
    decreases children, |children| - i
  {
    if i >= |children| then ""
    else EnrichedRender(children[i], prefix, i == |children| - 1, labels) + EnrichedFrom(children, i + 1, prefix, labels)
  }

  /** `format_tree_display`, as the source writes it: one recursive call per child in a loop. */
  method FormatTreeDisplay(n: Node, prefix: string, isLast: bool, labels: Labels) returns (result: string)
    ensures result == Render(n, prefix, isLast, labels)
    decreases n
  {
    result := Header(n, prefix, isLast, labels) + "\n";
    var children := n.prerequisites;
    if |children| > 0 {
      var newPrefix := prefix + Extension(isLast);
      ghost var whole := Render(n, prefix, isLast, labels);
      for i := 0 to |children|
        invariant result + RenderFrom(children, i, newPrefix, labels) == whole
      {
        var isLastPrereq := i == |children| - 1;
        var sub := FormatTreeDisplay(children[i], newPrefix, isLastPrereq, labels);
        AppendAssociative(result, sub, RenderFrom(children, i + 1, newPrefix, labels));
        result := result + sub;
      }
    }
  }

  /** The two optional count lines of `format_enriched_tree_display`, appended to `text`. */
  method AppendCountLines(text: string, n: Node, prefix: string, isLast: bool, labels: Labels) returns (result: string)
    ensures result == text + AnnotationText(n, prefix, isLast, labels)
  {
    ghost var equations := if |n.equations| > 0 then EquationsLine(n, prefix, isLast, labels) + "\n" else "";
    ghost var visual := if n.visualSpec.Some? then VisualLine(n, prefix, isLast, labels) + "\n" else "";
    result := text;
    if |n.equations| > 0 {
      result := result + EquationsLine(n, prefix, isLast, labels) + "\n";
    }
    assert result == text + equations;
    if n.visualSpec.Some? {
      AppendAssociative(text, equations, visual);
      result := result + VisualLine(n, prefix, isLast, labels) + "\n";
    }
  }

  /** `format_enriched_tree_display`, with the same loop. */
  method FormatEnrichedTreeDisplay(n: Node, prefix: string, isLast: bool, labels: Labels) returns (result: string)
    ensures result == EnrichedRender(n, prefix, isLast, labels)
    decreases n
  {
    result := Header(n, prefix, isLast, labels) + "\n";
    result := AppendCountLines(result, n, prefix, isLast, labels);
    var children := n.prerequisites;
    ghost var whole := EnrichedRender(n, prefix, isLast, labels);
    if |children| > 0 {
      var newPrefix := prefix + Extension(isLast);
      for i := 0 to |children|
        invariant result + EnrichedFrom(children, i, newPrefix, labels) == whole
      {
        var isLastPrereq := i == |children| - 1;
        var sub := FormatEnrichedTreeDisplay(children[i], newPrefix, isLastPrereq, labels);
        AppendAssociative(result, sub, EnrichedFrom(children, i + 1, newPrefix, labels));
        result := result + sub;
      }
    }
  }

  // The outline as a list: one placement per node, in the order the renderers visit them.

  /** A node together with the prefix and last-child flag it is rendered with. */
  datatype Placed = Placed(node: Node, prefix: string, isLast: bool)

  /** Pre-order traversal: the node first, then each child's subtree in stored order. */
  function PreOrder(n: Node, prefix: string, isLast: bool): seq<Placed>
    decreases n
  {
    [Placed(n, prefix, isLast)] + PreOrderFrom(n.prerequisites, 0, prefix + Extension(isLast))
  }

  function PreOrderFrom(children: seq<Node>, i: nat, prefix: string): seq<Placed>
    decreases children, |children| - i
  {
    if i >= |children| then []
    else PreOrder(children[i], prefix, i == |children| - 1) + PreOrderFrom(children, i + 1, prefix)
  }

  /** Number of nodes in the tree. */
  function Size(n: Node): nat
    decreases n
  {
    1 + SizeFrom(n.prerequisites, 0)
  }

  function SizeFrom(children: seq<Node>, i: nat): nat
    decreases children, |children| - i
  {
    if i >= |children| then 0 else Size(children[i]) + SizeFrom(children, i + 1)
  }

  /** Number of nodes in the subtrees of the first `k` children. */
  function SizeBefore(children: seq<Node>, k: nat): nat
    requires k <= |children|
  {
    if k == 0 then 0 else SizeBefore(children, k - 1) + Size(children[k - 1])
  }

  /** The lines a placed node contributes: its own line, and in the enriched outline its count lines. */
  function NodeLines(pl: Placed, labels: Labels, enriched: bool): seq<string>
  {
    [Header(pl.node, pl.prefix, pl.isLast, labels)]
    + (if enriched then Annotations(pl.node, pl.prefix, pl.isLast, labels) else [])
  }

  function OutlineLines(ps: seq<Placed>, labels: Labels, enriched: bool): seq<string>
  {
    if ps == [] then [] else NodeLines(ps[0], labels, enriched) + OutlineLines(ps[1..], labels, enriched)
  }

  predicate ConceptsNoNewline(n: Node)
    decreases n
  {
    NoNewline(n.concept)
    && forall k :: 0 <= k < |n.prerequisites| ==> ConceptsNoNewline(n.prerequisites[k])
  }

  predicate LabelsNoNewline(labels: Labels)
  {
    NoNewline(labels.foundationMarker) && NoNewline(labels.depthWord)
    && NoNewline(labels.equationsTag) && NoNewline(labels.visualTag)
  }

  /** No node carries equations or a visual specification. */
  predicate Unenriched(n: Node)
    decreases n
  {
    |n.equations| == 0 && n.visualSpec.None?
    && forall k :: 0 <= k < |n.prerequisites| ==> Unenriched(n.prerequisites[k])
  }

  predicate EndsWith(s: string, suffix: string)
  {
    |suffix| <= |s| && s[|s| - |suffix|..] == suffix
  }

  lemma {:induction false} OutlineAppend(a: seq<Placed>, b: seq<Placed>, labels: Labels, enriched: bool)
    ensures OutlineLines(a + b, labels, enriched) == OutlineLines(a, labels, enriched) + OutlineLines(b, labels, enriched)
  {
    if a == [] {
      assert a + b == b;
    } else {
      assert (a + b)[1..] == a[1..] + b;
      OutlineAppend(a[1..], b, labels, enriched);
    }
  }

  lemma AnnotationTextTerminated(n: Node, prefix: string, isLast: bool, labels: Labels)
    ensures AnnotationText(n, prefix, isLast, labels) == Terminated(Annotations(n, prefix, isLast, labels))
  {
    var eq := if |n.equations| > 0 then [EquationsLine(n, prefix, isLast, labels)] else [];
    var vis := if n.visualSpec.Some? then [VisualLine(n, prefix, isLast, labels)] else [];
    TerminatedAppend(eq, vis);
  }

  /** The plain renderer writes exactly the pre-order outline, one header line per node. */
  lemma {:induction false} RenderOutline(n: Node, prefix: string, isLast: bool, labels: Labels)
    ensures Render(n, prefix, isLast, labels) == Terminated(OutlineLines(PreOrder(n, prefix, isLast), labels, false))
    decreases n
  {
    var q := prefix + Extension(isLast);
    RenderFromOutline(n.prerequisites, 0, q, labels);
    var head := [Placed(n, prefix, isLast)];
    OutlineAppend(head, PreOrderFrom(n.prerequisites, 0, q), labels, false);
    TerminatedAppend(NodeLines(Placed(n, prefix, isLast), labels, false), OutlineLines(PreOrderFrom(n.prerequisites, 0, q), labels, false));
  }

  lemma {:induction false} RenderFromOutline(children: seq<Node>, i: nat, prefix: string, labels: Labels)
    ensures RenderFrom(children, i, prefix, labels) == Terminated(OutlineLines(PreOrderFrom(children, i, prefix), labels, false))
    decreases children, |children| - i
  {
    if i < |children| {
      var first := PreOrder(children[i], prefix, i == |children| - 1);
      var rest := PreOrderFrom(children, i + 1, prefix);
      RenderOutline(children[i], prefix, i == |children| - 1, labels);
      RenderFromOutline(children, i + 1, prefix, labels);
      OutlineAppend(first, rest, labels, false);
      TerminatedAppend(OutlineLines(first, labels, false), OutlineLines(rest, labels, false));
    }
  }

  /** The enriched renderer writes the same outline with each node's count lines right below its line. */
  lemma {:induction false} EnrichedOutline(n: Node, prefix: string, isLast: bool, labels: Labels)
    ensures EnrichedRender(n, prefix, isLast, labels) == Terminated(OutlineLines(PreOrder(n, prefix, isLast), labels, true))
    decreases n
  {
    var q := prefix + Extension(isLast);
    var own := NodeLines(Placed(n, prefix, isLast), labels, true);
    var below := OutlineLines(PreOrderFrom(n.prerequisites, 0, q), labels, true);
    EnrichedFromOutline(n.prerequisites, 0, q, labels);
    OutlineAppend([Placed(n, prefix, isLast)], PreOrderFrom(n.prerequisites, 0, q), labels, true);
    TerminatedAppend(own, below);
    AnnotationTextTerminated(n, prefix, isLast, labels);
    assert own == [Header(n, prefix, isLast, labels)] + Annotations(n, prefix, isLast, labels);
    assert Terminated(own) == Header(n, prefix, isLast, labels) + "\n" + Terminated(Annotations(n, prefix, isLast, labels));
  }

  lemma {:induction false} EnrichedFromOutline(children: seq<Node>, i: nat, prefix: string, labels: Labels)
    ensures EnrichedFrom(children, i, prefix, labels) == Terminated(OutlineLines(PreOrderFrom(children, i, prefix), labels, true))
    decreases children, |children| - i
  {
    if i < |children| {
      var first := PreOrder(children[i], prefix, i == |children| - 1);
      var rest := PreOrderFrom(children, i + 1, prefix);
      EnrichedOutline(children[i], prefix, i == |children| - 1, labels);
      EnrichedFromOutline(children, i + 1, prefix, labels);
      OutlineAppend(first, rest, labels, true);
      TerminatedAppend(OutlineLines(first, labels, true), OutlineLines(rest, labels, true));
    }
  }

  /** The traversal lists every node exactly once. */
  lemma {:induction false} PreOrderSize(n: Node, prefix: string, isLast: bool)
    ensures |PreOrder(n, prefix, isLast)| == Size(n)
    decreases n
  {
    PreOrderFromSize(n.prerequisites, 0, prefix + Extension(isLast));
  }

  lemma {:induction false} PreOrderFromSize(children: seq<Node>, i: nat, prefix: string)
    ensures |PreOrderFrom(children, i, prefix)| == SizeFrom(children, i)
    decreases children, |children| - i
  {
    if i < |children| {
      PreOrderSize(children[i], prefix, i == |children| - 1);
      PreOrderFromSize(children, i + 1, prefix);
    }
  }

  /** Every placement in a subtree's traversal is indented at least by the prefix it was started with. */
  lemma {:induction false} PreOrderIndented(n: Node, prefix: string, isLast: bool)
    ensures forall k :: 0 <= k < |PreOrder(n, prefix, isLast)| ==> prefix <= PreOrder(n, prefix, isLast)[k].prefix
    ensures forall k :: 1 <= k < |PreOrder(n, prefix, isLast)| ==> prefix + Extension(isLast) <= PreOrder(n, prefix, isLast)[k].prefix
    decreases n
  {
    var q := prefix + Extension(isLast);
    PreOrderFromIndented(n.prerequisites, 0, q);
    var po := PreOrder(n, prefix, isLast);
    forall k | 1 <= k < |po| ensures prefix <= po[k].prefix {
      assert po[k] == PreOrderFrom(n.prerequisites, 0, q)[k - 1];
      assert prefix <= q;
    }
  }

  lemma {:induction false} PreOrderFromIndented(children: seq<Node>, i: nat, prefix: string)
    ensures forall k :: 0 <= k < |PreOrderFrom(children, i, prefix)| ==> prefix <= PreOrderFrom(children, i, prefix)[k].prefix
    decreases children, |children| - i
  {
    if i < |children| {
      var first := PreOrder(children[i], prefix, i == |children| - 1);
      var rest := PreOrderFrom(children, i + 1, prefix);
      PreOrderIndented(children[i], prefix, i == |children| - 1);
      PreOrderFromIndented(children, i + 1, prefix);
      assert PreOrderFrom(children, i, prefix) == first + rest;
    }
  }

  lemma {:induction false} PreOrderNoNewline(n: Node, prefix: string, isLast: bool)
    requires ConceptsNoNewline(n) && NoNewline(prefix)
    ensures forall k :: 0 <= k < |PreOrder(n, prefix, isLast)| ==>
      NoNewline(PreOrder(n, prefix, isLast)[k].prefix) && NoNewline(PreOrder(n, prefix, isLast)[k].node.concept)
    decreases n
  {
    PreOrderFromNoNewline(n.prerequisites, 0, prefix + Extension(isLast));
  }

  lemma {:induction false} PreOrderFromNoNewline(children: seq<Node>, i: nat, prefix: string)
    requires forall k :: 0 <= k < |children| ==> ConceptsNoNewline(children[k])
    requires NoNewline(prefix)
    ensures forall k :: 0 <= k < |PreOrderFrom(children, i, prefix)| ==>
      NoNewline(PreOrderFrom(children, i, prefix)[k].prefix) && NoNewline(PreOrderFrom(children, i, prefix)[k].node.concept)
    decreases children, |children| - i
  {
    if i < |children| {
      PreOrderNoNewline(children[i], prefix, i == |children| - 1);
      PreOrderFromNoNewline(children, i + 1, prefix);
    }
  }

  lemma NodeLinesNoNewline(pl: Placed, labels: Labels, enriched: bool)
    requires LabelsNoNewline(labels) && NoNewline(pl.prefix) && NoNewline(pl.node.concept)
    ensures AllNoNewline(NodeLines(pl, labels, enriched))
  {
  }

  lemma {:induction false} OutlineNoNewline(ps: seq<Placed>, labels: Labels, enriched: bool)
    requires LabelsNoNewline(labels)
    requires forall k :: 0 <= k < |ps| ==> NoNewline(ps[k].prefix) && NoNewline(ps[k].node.concept)
    ensures AllNoNewline(OutlineLines(ps, labels, enriched))
  {
    if ps != [] {
      OutlineNoNewline(ps[1..], labels, enriched);
      NodeLinesNoNewline(ps[0], labels, enriched);
    }
  }

  lemma {:induction false} OutlinePlainLength(ps: seq<Placed>, labels: Labels)
    ensures |OutlineLines(ps, labels, false)| == |ps|
  {
    if ps != [] {
      OutlinePlainLength(ps[1..], labels);
    }
  }

  /**
   * `format_tree_display` output, split at newlines, is the header of every node in
   * pre-order (one line per node) followed by the empty piece after the last newline.
   */
  lemma TreeDisplayLines(n: Node, prefix: string, isLast: bool, labels: Labels)
    requires ConceptsNoNewline(n) && NoNewline(prefix) && LabelsNoNewline(labels)
    ensures Split(Render(n, prefix, isLast, labels)) == OutlineLines(PreOrder(n, prefix, isLast), labels, false) + [""]
    ensures |Split(Render(n, prefix, isLast, labels))| == Size(n) + 1
  {
    var po := PreOrder(n, prefix, isLast);
    RenderOutline(n, prefix, isLast, labels);
    PreOrderNoNewline(n, prefix, isLast);
    OutlineNoNewline(po, labels, false);
    SplitTerminated(OutlineLines(po, labels, false));
    PreOrderSize(n, prefix, isLast);
    OutlinePlainLength(po, labels);
  }

  /**
   * `format_enriched_tree_display` output, split at newlines: for every node in
   * pre-order its line, then its equation-count and visual-count lines if any.
   */
  lemma EnrichedDisplayLines(n: Node, prefix: string, isLast: bool, labels: Labels)
    requires ConceptsNoNewline(n) && NoNewline(prefix) && LabelsNoNewline(labels)
    ensures Split(EnrichedRender(n, prefix, isLast, labels)) == OutlineLines(PreOrder(n, prefix, isLast), labels, true) + [""]
  {
    var po := PreOrder(n, prefix, isLast);
    EnrichedOutline(n, prefix, isLast, labels);
    PreOrderNoNewline(n, prefix, isLast);
    OutlineNoNewline(po, labels, true);
    SplitTerminated(OutlineLines(po, labels, true));
  }

  lemma {:induction false} PreOrderFromAt(children: seq<Node>, i: nat, prefix: string, k: nat)
    requires i <= k < |children|
    ensures SizeBefore(children, i) <= SizeBefore(children, k)
    ensures SizeBefore(children, k) - SizeBefore(children, i) < |PreOrderFrom(children, i, prefix)|
    ensures PreOrderFrom(children, i, prefix)[SizeBefore(children, k) - SizeBefore(children, i)]
         == Placed(children[k], prefix, k == |children| - 1)
    decreases k - i
  {
    var first := PreOrder(children[i], prefix, i == |children| - 1);
    var rest := PreOrderFrom(children, i + 1, prefix);
    assert PreOrderFrom(children, i, prefix) == first + rest;
    PreOrderSize(children[i], prefix, i == |children| - 1);
    if i < k {
      PreOrderFromAt(children, i + 1, prefix, k);
      assert SizeBefore(children, i + 1) == SizeBefore(children, i) + Size(children[i]);
    }
  }

  /**
   * Child `k` of a node is placed right after the subtrees of the children before
   * it, one level deeper, and is the last child exactly when `k` is the last index:
   * so children keep their stored order, only the last one gets `└─ `, and their
   * prefix grows by `   ` below a last node and by `│  ` otherwise.
   */
  lemma ChildPlacement(n: Node, prefix: string, isLast: bool, k: nat)
    requires k < |n.prerequisites|
    ensures 1 + SizeBefore(n.prerequisites, k) < |PreOrder(n, prefix, isLast)|
    ensures PreOrder(n, prefix, isLast)[1 + SizeBefore(n.prerequisites, k)]
         == Placed(n.prerequisites[k], prefix + (if isLast then "   " else "│  "), k == |n.prerequisites| - 1)
  {
    PreOrderFromAt(n.prerequisites, 0, prefix + Extension(isLast), k);
  }

  /**
   * A node's line starts with its prefix and `└─ ` (last child) or `├─ ` (any
   * other), and ends with the foundation marker exactly when the node is a foundation.
   */
  lemma HeaderShape(n: Node, prefix: string, isLast: bool, labels: Labels)
    requires |labels.foundationMarker| > 0 && labels.foundationMarker[|labels.foundationMarker| - 1] != ')'
    ensures prefix + (if isLast then "└─ " else "├─ ") <= Header(n, prefix, isLast, labels)
    ensures EndsWith(Header(n, prefix, isLast, labels), labels.foundationMarker) <==> n.isFoundation
  {
  }

  /** On a tree without equations or visual specifications both renderers write the same text. */
  lemma {:induction false} EnrichedMatchesPlain(n: Node, prefix: string, isLast: bool, labels: Labels)
    requires Unenriched(n)
    ensures EnrichedRender(n, prefix, isLast, labels) == Render(n, prefix, isLast, labels)
    decreases n
  {
    EnrichedFromMatchesPlain(n.prerequisites, 0, prefix + Extension(isLast), labels);
  }

  lemma {:induction false} EnrichedFromMatchesPlain(children: seq<Node>, i: nat, prefix: string, labels: Labels)
    requires forall k :: 0 <= k < |children| ==> Unenriched(children[k])
    ensures EnrichedFrom(children, i, prefix, labels) == RenderFrom(children, i, prefix, labels)
    decreases children, |children| - i
  {
    if i < |children| {
      EnrichedMatchesPlain(children[i], prefix, i == |children| - 1, labels);
      EnrichedFromMatchesPlain(children, i + 1, prefix, labels);
    }
  }

  /** English interface: ` [FOUNDATION]` ends a node's line exactly for foundation concepts. */
  lemma EnglishFoundationMarker(n: Node, prefix: string, isLast: bool)
    ensures EndsWith(Header(n, prefix, isLast, EnglishLabels), " [FOUNDATION]") <==> n.isFoundation
  {
    HeaderShape(n, prefix, isLast, EnglishLabels);
  }

  /** Chinese interface: ` [基础概念]` ends a node's line exactly for foundation concepts. */
  lemma ChineseFoundationMarker(n: Node, prefix: string, isLast: bool)
    ensures EndsWith(Header(n, prefix, isLast, ChineseLabels), " [基础概念]") <==> n.isFoundation
  {
    HeaderShape(n, prefix, isLast, ChineseLabels);
  }

  /** Chinese interface: the enriched outline, split at newlines, is the pre-order list of node lines and count lines. */
  lemma ChineseEnrichedLines(n: Node, prefix: string, isLast: bool)
    requires ConceptsNoNewline(n) && NoNewline(prefix)
    ensures Split(EnrichedRender(n, prefix, isLast, ChineseLabels)) == OutlineLines(PreOrder(n, prefix, isLast), ChineseLabels, true) + [""]
  {
    EnrichedDisplayLines(n, prefix, isLast, ChineseLabels);
  }
}
