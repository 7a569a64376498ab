/**
 * The tree-view adapter: `Task1` presents a shape hierarchy through the
 * Swing `TreeModel` queries and keeps a list of tree listeners; `Task2`
 * adds `update`, which turns a shape-model change into one tree
 * notification per listener. Task2 only extends Task1, so both are the one
 * class `TreeAdapter` here.
 *
 * The tree interface takes and returns `Object`s: an argument is a `Node`
 * (a shape, or anything else, null included) and a result that may be null
 * is an `Option`. The shape model, its change events, the listeners and
 * Swing's event and path objects are plain records; a notification sent to
 * a listener is returned as a record rather than delivered.
 */
module Views {
  import opened Util
  import opened Ancestry
  import opened Shapes

  /** An `Object` argument of the tree interface. */
  datatype Node = ShapeNode(shape: Shape) | OtherNode

  /** The shape model being viewed: it has a root shape, or none. */
  datatype ShapeModel = ShapeModel(root: Option<Shape>)

  /** A tree listener, known by its identity only. */
  datatype Listener = Listener(id: int)

  /** The structural change a shape-model event reports. */
  datatype EventType = ShapeAdded | ShapeRemoved | OtherChange

  /**
   * A shape-model event: the shape added or removed (`operand`), the carrier
   * it was added to or removed from (`parent`) and its position there.
   */
  datatype ShapeModelEvent = ShapeModelEvent(
    eventType: EventType, source: ShapeModel, operand: Shape, parent: Shape, index: int)

  /** Swing's `TreeModelEvent`: a path to the changed node, and the changed children with their indices. */
  datatype TreeModelEvent = TreeModelEvent(
    source: ShapeModel, path: seq<Shape>, childIndices: seq<int>, children: seq<Shape?>)

  /** One call made on a listener. */
  datatype Notification =
    | NodesInserted(listener: Listener, event: TreeModelEvent)
    | NodesRemoved(listener: Listener, event: TreeModelEvent)

  class TreeAdapter {
    const model: ShapeModel
    /** The registered listeners, in registration order. */
    var listeners: seq<Listener>

    constructor (model: ShapeModel)
      ensures this.model == model && listeners == []
    {
      this.model := model;
      listeners := [];
    }

    /** `addTreeModelListener`: the listener is registered last. */
    method AddTreeModelListener(listener: Listener)
      modifies this`listeners
      ensures listeners == old(listeners) + [listener]
    {
      listeners := listeners + [listener];
    }

    /** `removeTreeModelListener`: drops the first registration of the listener, if any. */
    method RemoveTreeModelListener(listener: Listener)
      modifies this`listeners
      ensures listeners == RemoveFirst(old(listeners), listener)
      ensures |listeners| == if listener in old(listeners) then |old(listeners)| - 1 else |old(listeners)|
      ensures forall l :: l != listener ==> (l in listeners <==> l in old(listeners))
    {
      forall l | l != listener ensures l in RemoveFirst(listeners, listener) <==> l in listeners {
        RemoveFirstKeepsOthers(listeners, listener, l);
      }
      listeners := RemoveFirst(listeners, listener);
    }

    /** `getChild`: a carrier's child at a valid position, otherwise null; it never fails. */
    function GetChild(parent: Node, index: int): (r: Option<Shape>)
      reads if parent.ShapeNode? then {parent.shape} else {}
      ensures r.Some? <==> parent.ShapeNode? && parent.shape.kind == Carrier && 0 <= index < |parent.shape.children|
      ensures r.Some? ==> r.value == parent.shape.children[index]
    {
      if parent.ShapeNode? && parent.shape.kind == Carrier then
        match parent.shape.ShapeAt(index)
        case Ok(child) => Some(child)
        case Err(_) => None
      else None
    }

    /** `getChildCount`: a carrier's number of children, 0 for anything else. */
    function GetChildCount(parent: Node): (r: int)
      reads if parent.ShapeNode? then {parent.shape} else {}
      ensures r >= 0
      ensures forall i :: GetChild(parent, i).Some? <==> 0 <= i < r
    {
      if parent.ShapeNode? && parent.shape.kind == Carrier then parent.shape.ShapeCount() else 0
    }

    /** `getIndexOfChild`: the child's position in a carrier, or -1. */
    function GetIndexOfChild(parent: Node, child: Node): (r: int)
      reads if parent.ShapeNode? then {parent.shape} else {}
      ensures -1 <= r < GetChildCount(parent)
      ensures r >= 0 ==> child.ShapeNode? && GetChild(parent, r) == Some(child.shape)
      ensures r == -1 <==> !(parent.ShapeNode? && parent.shape.kind == Carrier && child.ShapeNode? &&
                               child.shape in parent.shape.children)
    {
      if parent.ShapeNode? && parent.shape.kind == Carrier && child.ShapeNode? then
        parent.shape.IndexOf(child.shape)
      else -1
    }

    /** `getRoot`: the model's root, or null when it has none. */
    function GetRoot(): (r: Option<Shape>)
      ensures r == model.root
    {
      if model.root.Some? then model.root else None
    }

    /** `isLeaf`: every shape except a carrier is a leaf; a non-shape is not. */
    function IsLeaf(node: Node): (r: bool)
      ensures r <==> node.ShapeNode? && node.shape.kind != Carrier
    {
      if node.ShapeNode? && node.shape.kind == Carrier then false
      else if node.ShapeNode? then true
      else false
    }

    /** A leaf has no children, and a node with children is a shape that is not a leaf. */
    lemma LeafHasNoChildren(node: Node)
      ensures IsLeaf(node) ==> GetChildCount(node) == 0
      ensures GetChildCount(node) > 0 ==> node.ShapeNode? && !IsLeaf(node)
    {
    }

    /** `valueForPathChanged`: the tree cannot be edited through the view, so nothing happens. */
    method ValueForPathChanged(path: seq<Shape>, newValue: Node)
      ensures listeners == old(listeners)
    {
    }

    /**
     * `update`: for an added or removed shape, one notification per
     * listener in registration order, each carrying the path from the root
     * to the carrier, the one index and the one child; nothing for any
     * other change. The listener list is left as it is.
     */
    method Update(event: ShapeModelEvent, ghost W: set<Shape>) returns (sent: seq<Notification>)
      requires event.eventType != OtherChange ==> Hierarchy(W) && event.parent in W
      ensures event.eventType == OtherChange ==> sent == []
      ensures event.eventType != OtherChange ==> |sent| == |listeners|
      ensures event.eventType != OtherChange ==> forall i :: 0 <= i < |sent| ==>
        sent[i] == Announcement(event, listeners[i], Lineage(event.parent, W))
    {
      ghost var line := if event.eventType != OtherChange then Lineage(event.parent, W) else [];
      assert event.eventType != OtherChange ==> Rooted(event.parent, Parents(W), W);
      var childIndices := new int[1];
      var children := new Shape?[1];
      sent := [];

      match event.eventType
      case ShapeAdded =>
        childIndices[0] := event.index;
        children[0] := event.operand;
        var k := 0;
        while k < |listeners|
          invariant 0 <= k <= |listeners|
          invariant childIndices[..] == [event.index] && children[..] == [event.operand]
          invariant |sent| == k && Rooted(event.parent, Parents(W), W) && Path(event.parent, Parents(W), W) == line
          invariant forall i :: 0 <= i < k ==> sent[i] == Announcement(event, listeners[i], line)
        {
          var path := event.parent.PathOf(W);
          var e := TreeModelEvent(event.source, path, childIndices[..], children[..]);
          sent := sent + [NodesInserted(listeners[k], e)];
          k := k + 1;
        }
      case ShapeRemoved =>
        childIndices[0] := event.index;
        children[0] := event.operand;
        var k := 0;
        while k < |listeners|
          invariant 0 <= k <= |listeners|
          invariant childIndices[..] == [event.index] && children[..] == [event.operand]
          invariant |sent| == k && Rooted(event.parent, Parents(W), W) && Path(event.parent, Parents(W), W) == line
          invariant forall i :: 0 <= i < k ==> sent[i] == Announcement(event, listeners[i], line)
        {
          var path := event.parent.PathOf(W);
          var e := TreeModelEvent(event.source, path, childIndices[..], children[..]);
          sent := sent + [NodesRemoved(listeners[k], e)];
          k := k + 1;
        }
      case OtherChange =>
    }
  }

  /** The notification `update` sends one listener for an added or removed shape whose carrier has the given path. */
  function Announcement(event: ShapeModelEvent, listener: Listener, path: seq<Shape>): Notification
  {
    var e := TreeModelEvent(event.source, path, [event.index], [event.operand]);
    if event.eventType == ShapeAdded then NodesInserted(listener, e) else NodesRemoved(listener, e)
  }
}
