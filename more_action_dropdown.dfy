/**
 * The more-action dropdown hook of the resource tree: one held popover that is
 * closed before a new one replaces it, the key of the node whose popover is
 * shown, and the menu the popover renders.
 *
 * The popover library, the menu handlers and `TRANSPORT_LAYER_LIST` belong to
 * code this model cannot see: the popover is a small class with `Show` and
 * `Close`, a handler is named by an identifier, and the transport-layer
 * protocols are a parameter of the hook.
 */
module MoreActionDropdown {
  import opened Wrappers

  /** The fields of a tree node the hook reads. */
  datatype TreeNode = TreeNode(id: string, nodeType: string, protocol: string)

  /**
   * One entry of `typeMenuMap[type]`. `isDisabled` is `None` when the entry
   * carries no function there.
   */
  datatype MenuItem = MenuItem(title: string, isDisabled: Option<TreeNode -> bool>, handler: nat)

  /** One `dropdown-item` as rendered. */
  datatype RenderedItem = RenderedItem(title: string, disabled: bool, handler: nat)

  /** A call of a menu handler with its node. */
  datatype Invocation = Invocation(handler: nat, node: TreeNode)

  /** A listener whose protocol is a transport-layer one renders its menu without the first entry. */
  predicate DropsFirst(node: TreeNode, transportLayer: seq<string>) {
    node.nodeType == "listener" && node.protocol in transportLayer
  }

  /** `typeof item.isDisabled === 'function' ? item.isDisabled(node) : false`. */
  function ItemDisabled(item: MenuItem, node: TreeNode): bool {
    match item.isDisabled
    case None => false
    case Some(f) => f(node)
  }

  function Render(item: MenuItem, node: TreeNode): RenderedItem {
    RenderedItem(item.title, ItemDisabled(item, node), item.handler)
  }

  /** Number of leading entries the render drops. */
  function Skip(items: seq<MenuItem>, node: TreeNode, transportLayer: seq<string>): nat {
    if DropsFirst(node, transportLayer) && |items| > 0 then 1 else 0
  }

  /** The `map` callback applied from index `k` on; a `null` result renders nothing. */
  function RenderFrom(items: seq<MenuItem>, k: nat, node: TreeNode, transportLayer: seq<string>): (r: seq<RenderedItem>)
    requires k <= |items|
    ensures var skip := if k == 0 then Skip(items, node, transportLayer) else 0;
      && |r| == |items| - k - skip
      && forall j :: 0 <= j < |r| ==> r[j] == Render(items[k + skip + j], node)
    decreases |items| - k
  {
    if k == |items| then []
    else if k == 0 && DropsFirst(node, transportLayer) then RenderFrom(items, k + 1, node, transportLayer)
    else [Render(items[k], node)] + RenderFrom(items, k + 1, node, transportLayer)
  }

  /** The popover's `dropdown-list`: the entries in order, minus the first one for transport-layer listeners. */
  function RenderMenu(items: seq<MenuItem>, node: TreeNode, transportLayer: seq<string>): (r: seq<RenderedItem>)
    ensures |r| == |items| - Skip(items, node, transportLayer)
    ensures forall j :: 0 <= j < |r| ==>
      var item := items[j + Skip(items, node, transportLayer)];
      && r[j].title == item.title
      && r[j].handler == item.handler
      && (r[j].disabled <==> item.isDisabled.Some? && item.isDisabled.value(node))
  {
    RenderFrom(items, 0, node, transportLayer)
  }

  /** Nodes that are not transport-layer listeners see every entry of their menu, in order. */
  lemma FullMenuUnlessTransportListener(items: seq<MenuItem>, node: TreeNode, transportLayer: seq<string>)
    requires !DropsFirst(node, transportLayer)
    ensures RenderMenu(items, node, transportLayer) == seq(|items|, j requires 0 <= j < |items| => Render(items[j], node))
  {
  }

  /** `onClick={() => !disabled && item.handler(node)}`. */
  function Click(item: RenderedItem, node: TreeNode): (calls: seq<Invocation>)
    ensures |calls| <= 1
    ensures calls == [] <==> item.disabled
    ensures forall c :: c in calls ==> c == Invocation(item.handler, node)
  {
    if item.disabled then [] else [Invocation(item.handler, node)]
  }

  /**
   * Clicking the `j`-th rendered entry calls nothing when its menu entry's
   * `isDisabled` says so for the node, and otherwise calls that entry's handler
   * exactly once, with the node.
   */
  lemma ClickRenderedEntry(items: seq<MenuItem>, node: TreeNode, transportLayer: seq<string>, j: nat)
    requires j < |RenderMenu(items, node, transportLayer)|
    ensures var item := items[j + Skip(items, node, transportLayer)];
      var calls := Click(RenderMenu(items, node, transportLayer)[j], node);
      && (calls == [] <==> item.isDisabled.Some? && item.isDisabled.value(node))
      && (calls != [] ==> calls == [Invocation(item.handler, node)])
  {
    var r := RenderMenu(items, node, transportLayer);
    var calls := Click(r[j], node);
    if calls != [] {
      assert calls[0] in calls;
    }
  }

  /** A `$bkPopover` instance: its anchor node, its rendered content and whether it is shown. */
  class Popover {
    const anchor: TreeNode
    const content: seq<RenderedItem>
    var isShown: bool

    constructor (anchor: TreeNode, content: seq<RenderedItem>)
      ensures this.anchor == anchor && this.content == content && !isShown
    {
      this.anchor := anchor;
      this.content := content;
      isShown := false;
    }

    method Show()
      modifies this`isShown
      ensures isShown
    {
      isShown := true;
    }

    /** Hides the popover and reports whether it was shown, which is when its `onHide` fires. */
    method Close() returns (wasShown: bool)
      modifies this`isShown
      ensures !isShown && wasShown == old(isShown)
    {
      wasShown := isShown;
      isShown := false;
    }
  }

  /** The state the hook keeps: `popInstance` and `currentPopBoundaryNodeKey`. */
  class Dropdown {
    const typeMenuMap: map<string, seq<MenuItem>>
    const transportLayer: seq<string>
    var popInstance: Popover?
    var currentKey: string
    /** Every popover this hook has created, oldest first. */
    ghost var created: seq<Popover>

    /** The held popover is the newest one, and every older one is closed. */
    ghost predicate Valid()
      reads this, created
    {
      && (popInstance == null <==> created == [])
      && (created != [] ==> popInstance == created[|created| - 1])
      && forall i :: 0 <= i < |created| - 1 ==> !created[i].isShown
    }

    constructor (typeMenuMap: map<string, seq<MenuItem>>, transportLayer: seq<string>)
      ensures Valid()
      ensures this.typeMenuMap == typeMenuMap && this.transportLayer == transportLayer
      ensures popInstance == null && currentKey == ""
    {
      this.typeMenuMap := typeMenuMap;
      this.transportLayer := transportLayer;
      popInstance := null;
      currentKey := "";
      created := [];
    }

    /** `handlePopShow`, the popover's `onShow`. */
    method HandlePopShow(node: TreeNode)
      modifies this`currentKey
      ensures currentKey == node.id
    {
      currentKey := node.id;
    }

    /** `handlePopHide`, the popover's `onHide`. */
    method HandlePopHide()
      modifies this`currentKey
      ensures currentKey == ""
    {
      currentKey := "";
    }

    /**
     * `showDropdownList`: close the held popover, then build a new one for the
     * node and show it. When the node's type has no menu the content cannot be
     * built and the call throws after the close (`threw`), leaving the closed
     * popover held.
     */
    method ShowDropdownList(node: TreeNode) returns (threw: bool)
      requires Valid()
      modifies this`popInstance, this`currentKey, this`created, created
      ensures Valid()
      ensures old(popInstance) != null ==> !old(popInstance).isShown
      ensures threw <==> node.nodeType !in typeMenuMap
      ensures threw ==> popInstance == old(popInstance) && created == old(created)
      ensures threw ==> currentKey == (if old(popInstance) != null && old(popInstance.isShown) then "" else old(currentKey))
      ensures !threw ==>
        && fresh(popInstance) && popInstance.isShown
        && popInstance.anchor == node
        && popInstance.content == RenderMenu(typeMenuMap[node.nodeType], node, transportLayer)
        && created == old(created) + [popInstance]
        && currentKey == node.id
    {
      if popInstance != null {
        var wasShown := popInstance.Close();
        if wasShown {
          HandlePopHide();
        }
      }
      if node.nodeType !in typeMenuMap {
        return true;
      }
      var content := RenderMenu(typeMenuMap[node.nodeType], node, transportLayer);
      var p := new Popover(node, content);
      created := created + [p];
      popInstance := p;
      // show, reposition, show again; each show fires `onShow`
      p.Show();
      HandlePopShow(node);
      p.Show();
      HandlePopShow(node);
      threw := false;
    }
  }

  /** In a valid hook no popover other than the held one is shown. */
  lemma AtMostOneShown(d: Dropdown, p: Popover)
    requires d.Valid() && p in d.created && p.isShown
    ensures p == d.popInstance
  {
    var i :| 0 <= i < |d.created| && d.created[i] == p;
    assert i == |d.created| - 1;
  }

  /** Showing the same node twice is not a no-op: the first popover is closed and replaced by a new one. */
  method ShowSameNodeTwice(d: Dropdown, node: TreeNode) returns (first: Popover, second: Popover)
    requires d.Valid() && node.nodeType in d.typeMenuMap
    modifies d, d.created
    ensures d.Valid() && d.popInstance == second
    ensures first != second && !first.isShown && second.isShown
    ensures first.anchor == node && second.anchor == node && d.currentKey == node.id
  {
    var _ := d.ShowDropdownList(node);
    first := d.popInstance;
    var _ := d.ShowDropdownList(node);
    second := d.popInstance;
  }
}
