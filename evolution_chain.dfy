/** The evolution chain view: a recursive walk over the `ChainLink` tree that
    renders each species, with an arrow before every descendant. */
module EvolutionChain {
  import opened Common

  datatype Species = Species(name: string, url: string)

  /** A node of the evolution tree: a species and the species it evolves to. */
  datatype ChainLink = ChainLink(species: Species, evolvesTo: seq<ChainLink>)

  /** The pieces `ChainNode` renders, in document order. */
  datatype Piece = Item(name: string) | Arrow | OpenGroup | CloseGroup

  /** `ChainNode`: the node's item, then, when it has descendants, one group holding
      an arrow followed by the rendering of each descendant in `evolves_to` order. */
  function RenderNode(node: ChainLink): (r: seq<Piece>)
    decreases node, 1
  {
    [Item(node.species.name)]
      + (if |node.evolvesTo| > 0 then [OpenGroup] + RenderBranches(node.evolvesTo) + [CloseGroup] else [])
  }

  function RenderBranches(branches: seq<ChainLink>): (r: seq<Piece>)
    decreases branches, 0
  {
    if branches == [] then []
    else [Arrow] + RenderNode(branches[0]) + RenderBranches(branches[1..])
  }

  /** The number of species in a tree. */
  function Size(node: ChainLink): (n: nat)
    ensures n >= 1
    decreases node, 1
  {
    1 + SizeAll(node.evolvesTo)
  }

  function SizeAll(nodes: seq<ChainLink>): (n: nat)
    decreases nodes, 0
  {
    if nodes == [] then 0 else Size(nodes[0]) + SizeAll(nodes[1..])
  }

  /** The species names in pre-order: a node, then each child subtree in order. */
  function PreOrder(node: ChainLink): (names: seq<string>)
    ensures |names| == Size(node)
    decreases node, 1
  {
    [node.species.name] + PreOrderAll(node.evolvesTo)
  }

  function PreOrderAll(nodes: seq<ChainLink>): (names: seq<string>)
    ensures |names| == SizeAll(nodes)
    decreases nodes, 0
  {
    if nodes == [] then [] else PreOrder(nodes[0]) + PreOrderAll(nodes[1..])
  }

  /** The names of the rendered items, in order. */
  function ItemNames(pieces: seq<Piece>): (names: seq<string>) {
    if pieces == [] then []
    else (if pieces[0].Item? then [pieces[0].name] else []) + ItemNames(pieces[1..])
  }

  function ArrowCount(pieces: seq<Piece>): (n: nat) {
    if pieces == [] then 0
    else (if pieces[0].Arrow? then 1 else 0) + ArrowCount(pieces[1..])
  }

  lemma {:induction false} ItemNamesConcat(a: seq<Piece>, b: seq<Piece>)
    ensures ItemNames(a + b) == ItemNames(a) + ItemNames(b)
    ensures ArrowCount(a + b) == ArrowCount(a) + ArrowCount(b)
    decreases |a|
  {
    if a == [] {
      assert a + b == b;
    } else {
      assert (a + b)[0] == a[0] && (a + b)[1..] == a[1..] + b;
      ItemNamesConcat(a[1..], b);
    }
  }

  /** The items `ChainNode` renders are the tree's species in pre-order. */
  lemma {:induction false} RenderIsPreOrder(node: ChainLink)
    ensures ItemNames(RenderNode(node)) == PreOrder(node)
    decreases node, 1
  {
    var rest := if |node.evolvesTo| > 0 then [OpenGroup] + RenderBranches(node.evolvesTo) + [CloseGroup] else [];
    ItemNamesConcat([Item(node.species.name)], rest);
    if |node.evolvesTo| > 0 {
      ItemNamesConcat([OpenGroup] + RenderBranches(node.evolvesTo), [CloseGroup]);
      ItemNamesConcat([OpenGroup], RenderBranches(node.evolvesTo));
      RenderBranchesIsPreOrder(node.evolvesTo);
    }
  }

  lemma {:induction false} RenderBranchesIsPreOrder(branches: seq<ChainLink>)
    ensures ItemNames(RenderBranches(branches)) == PreOrderAll(branches)
    decreases branches, 0
  {
    if branches != [] {
      ItemNamesConcat([Arrow] + RenderNode(branches[0]), RenderBranches(branches[1..]));
      ItemNamesConcat([Arrow], RenderNode(branches[0]));
      RenderIsPreOrder(branches[0]);
      RenderBranchesIsPreOrder(branches[1..]);
    }
  }

  /** A tree renders one item per species and one arrow per species below the root. */
  lemma {:induction false} ArrowsBetweenItems(node: ChainLink)
    ensures ArrowCount(RenderNode(node)) == Size(node) - 1
    ensures |ItemNames(RenderNode(node))| == Size(node)
    decreases node, 1
  {
    RenderIsPreOrder(node);
    var rest := if |node.evolvesTo| > 0 then [OpenGroup] + RenderBranches(node.evolvesTo) + [CloseGroup] else [];
    ItemNamesConcat([Item(node.species.name)], rest);
    if |node.evolvesTo| > 0 {
      ItemNamesConcat([OpenGroup] + RenderBranches(node.evolvesTo), [CloseGroup]);
      ItemNamesConcat([OpenGroup], RenderBranches(node.evolvesTo));
      BranchArrows(node.evolvesTo);
    }
  }

  lemma {:induction false} BranchArrows(branches: seq<ChainLink>)
    ensures ArrowCount(RenderBranches(branches)) == SizeAll(branches)
    decreases branches, 0
  {
    if branches != [] {
      ItemNamesConcat([Arrow] + RenderNode(branches[0]), RenderBranches(branches[1..]));
      ItemNamesConcat([Arrow], RenderNode(branches[0]));
      ArrowsBetweenItems(branches[0]);
      BranchArrows(branches[1..]);
    }
  }

  /** Every item but the first is drawn right after an arrow. */
  ghost predicate ArrowsPrecedeItems(pieces: seq<Piece>) {
    forall k :: 0 < k < |pieces| && pieces[k].Item? ==> pieces[k - 1] == Arrow
  }

  lemma ArrowsPrecedeItemsConcat(a: seq<Piece>, b: seq<Piece>)
    requires ArrowsPrecedeItems(a) && ArrowsPrecedeItems(b)
    requires |a| > 0 && |b| > 0 && b[0].Item? ==> a[|a| - 1] == Arrow
    ensures ArrowsPrecedeItems(a + b)
  {
    forall k | 0 < k < |a + b| && (a + b)[k].Item? ensures (a + b)[k - 1] == Arrow {
      if k > |a| {
        assert (a + b)[k] == b[k - |a|] && (a + b)[k - 1] == b[k - 1 - |a|];
      }
    }
  }

  /** The rendering of a tree opens with the root's item, and every other item
      stands immediately after an arrow. */
  lemma {:induction false} ArrowBeforeEachDescendant(node: ChainLink)
    ensures |RenderNode(node)| > 0 && RenderNode(node)[0] == Item(node.species.name)
    ensures ArrowsPrecedeItems(RenderNode(node))
    decreases node, 1
  {
    if |node.evolvesTo| > 0 {
      BranchesOpenWithArrow(node.evolvesTo);
      ArrowsPrecedeItemsConcat([OpenGroup], RenderBranches(node.evolvesTo));
      ArrowsPrecedeItemsConcat([OpenGroup] + RenderBranches(node.evolvesTo), [CloseGroup]);
      ArrowsPrecedeItemsConcat([Item(node.species.name)], [OpenGroup] + RenderBranches(node.evolvesTo) + [CloseGroup]);
    }
  }

  /** The descendants' renderings open with an arrow, and every item in them
      stands immediately after an arrow. */
  lemma {:induction false} BranchesOpenWithArrow(branches: seq<ChainLink>)
    ensures branches != [] ==> |RenderBranches(branches)| > 0 && RenderBranches(branches)[0] == Arrow
    ensures ArrowsPrecedeItems(RenderBranches(branches))
    decreases branches, 0
  {
    if branches != [] {
      ArrowBeforeEachDescendant(branches[0]);
      BranchesOpenWithArrow(branches[1..]);
      ArrowsPrecedeItemsConcat([Arrow], RenderNode(branches[0]));
      ArrowsPrecedeItemsConcat([Arrow] + RenderNode(branches[0]), RenderBranches(branches[1..]));
    }
  }

  /** A species that evolves no further renders its item alone, with no nested group. */
  lemma LeafRendersItemOnly(node: ChainLink)
    requires node.evolvesTo == []
    ensures RenderNode(node) == [Item(node.species.name)]
  {
  }

  /** What the evolution item shows in its frame: the sprite once it is truthy, else a spinner. */
  datatype Frame = Image(src: string) | Spinner

  function ItemFrame(sprite: Option<string>): (f: Frame)
    ensures f.Image? <==> Truthy(sprite)
    ensures f.Image? ==> sprite == Some(f.src)
  {
    if Truthy(sprite) then Image(sprite.value) else Spinner
  }

  /** The sprite query's result for one species. */
  function ItemSprite(artwork: Option<string>, frontDefault: Option<string>): (f: Frame)
    ensures f.Image? <==> Truthy(artwork) || Truthy(frontDefault)
    ensures Truthy(artwork) ==> f == Image(artwork.value)
    ensures !Truthy(artwork) && Truthy(frontDefault) ==> f == Image(frontDefault.value)
  {
    ItemFrame(SpriteUrl(artwork, frontDefault))
  }

  /** The response of the evolution-chain query. */
  datatype ChainResponse = ChainResponse(chain: Option<ChainLink>)

  datatype ChainView = Loading | Nothing | Chain(pieces: seq<Piece>)

  /** `EvolutionChain`: a spinner while loading, nothing without a chain, else the tree. */
  function RenderChain(isLoading: bool, data: Option<ChainResponse>): (v: ChainView)
    ensures v.Loading? <==> isLoading
    ensures v.Nothing? <==> !isLoading && (data.None? || data.value.chain.None?)
    ensures v.Chain? ==> ItemNames(v.pieces) == PreOrder(data.value.chain.value)
    ensures v.Chain? ==> ArrowCount(v.pieces) == Size(data.value.chain.value) - 1
    ensures v.Chain? ==> |v.pieces| > 0 && v.pieces[0] == Item(data.value.chain.value.species.name)
    ensures v.Chain? ==> ArrowsPrecedeItems(v.pieces)
  {
    if isLoading then Loading
    else if data.None? || data.value.chain.None? then Nothing
    else
      RenderIsPreOrder(data.value.chain.value);
      ArrowsBetweenItems(data.value.chain.value);
      ArrowBeforeEachDescendant(data.value.chain.value);
      Chain(RenderNode(data.value.chain.value))
  }
}
