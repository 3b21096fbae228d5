/** A clickable object in a view: depending on its interaction type, a click
    zooms into a close-up view, picks up an item (which then disappears from
    the scene) or shows a message. */
module Interaction {
  import opened Views
  import opened Inventory

  datatype InteractionType = None | Zoom | Pickup | Message

  /** What one interaction does to the view state and the inventory. */
  datatype Effect = NoEffect | ZoomTo(view: ViewData) | PickUp(item: ItemData)

  /** The dispatch on the interaction type: Zoom reaches the view manager
      exactly when the target is set, and then with that target; Pickup
      reaches the inventory exactly when the item is set; Message and None
      reach nothing. */
  function EffectOf(kind: InteractionType, zoomView: ViewData?, item: ItemData?): (e: Effect)
    ensures e.ZoomTo? <==> kind == Zoom && zoomView != null
    ensures e.PickUp? <==> kind == Pickup && item != null
    ensures e.ZoomTo? ==> e.view == zoomView
    ensures e.PickUp? ==> e.item == item
    ensures kind == Message || kind == None ==> e == NoEffect
  {
    match kind
    case Zoom => if zoomView != null then ZoomTo(zoomView) else NoEffect
    case Pickup => if item != null then PickUp(item) else NoEffect
    case Message => NoEffect
    case None => NoEffect
  }

  class InteractableObject {
    var interactionType: InteractionType
    var zoomViewData: ViewData?
    var itemToPickup: ItemData?
    var messageText: string
    /** Whether the object is still active in the scene. */
    var active: bool

    constructor (interactionType: InteractionType, zoomViewData: ViewData?, itemToPickup: ItemData?, messageText: string)
      ensures this.interactionType == interactionType && this.zoomViewData == zoomViewData
      ensures this.itemToPickup == itemToPickup && this.messageText == messageText
      ensures active
    {
      this.interactionType := interactionType;
      this.zoomViewData := zoomViewData;
      this.itemToPickup := itemToPickup;
      this.messageText := messageText;
      active := true;
    }

    /** The settings of the object, which interacting never changes. */
    function Settings(): (InteractionType, ViewData?, ItemData?, string)
      reads this
    {
      (interactionType, zoomViewData, itemToPickup, messageText)
    }

    method Interact(views: ViewManager, inventory: InventoryManager)
      requires inventory.Valid()
      modifies this, views, inventory
      ensures inventory.Valid() && Settings() == old(Settings())
      ensures var e := EffectOf(interactionType, zoomViewData, itemToPickup);
        match e
        case ZoomTo(v) =>
          && views.State() == ZoomedIn(old(views.State()), v) && views.buttons == ButtonsFor(v)
          && views.initialView == old(views.initialView)
          && unchanged(inventory) && active == old(active)
        case PickUp(x) =>
          && inventory.items == Added(old(inventory.items), x)
          && inventory.changeEvents == old(inventory.changeEvents) + (if x in old(inventory.items) then 0 else 1)
          && unchanged(views) && !active
        case NoEffect =>
          unchanged(views) && unchanged(inventory) && active == old(active)
    {
      match interactionType
      case Zoom =>
        if zoomViewData != null {
          views.ZoomIn(zoomViewData);
        }
      case Pickup =>
        if itemToPickup != null {
          inventory.AddItem(itemToPickup);
          active := false;
        }
      case Message =>
      case None =>
    }

    /** A click through the event system always interacts. */
    method OnPointerClick(views: ViewManager, inventory: InventoryManager)
      requires inventory.Valid()
      modifies this, views, inventory
      ensures inventory.Valid() && Settings() == old(Settings())
      ensures var e := EffectOf(interactionType, zoomViewData, itemToPickup);
        match e
        case ZoomTo(v) =>
          && views.State() == ZoomedIn(old(views.State()), v) && views.buttons == ButtonsFor(v)
          && views.initialView == old(views.initialView)
          && unchanged(inventory) && active == old(active)
        case PickUp(x) =>
          && inventory.items == Added(old(inventory.items), x)
          && inventory.changeEvents == old(inventory.changeEvents) + (if x in old(inventory.items) then 0 else 1)
          && unchanged(views) && !active
        case NoEffect =>
          unchanged(views) && unchanged(inventory) && active == old(active)
    {
      Interact(views, inventory);
    }

    /** A mouse press on the collider interacts only when the pointer is not
        over a UI element. */
    method OnMouseDown(views: ViewManager, inventory: InventoryManager, pointerOverUI: bool)
      requires inventory.Valid()
      modifies this, views, inventory
      ensures inventory.Valid() && Settings() == old(Settings())
      ensures pointerOverUI ==> unchanged(this) && unchanged(views) && unchanged(inventory)
      ensures !pointerOverUI ==>
        var e := EffectOf(interactionType, zoomViewData, itemToPickup);
        match e
        case ZoomTo(v) =>
          && views.State() == ZoomedIn(old(views.State()), v) && views.buttons == ButtonsFor(v)
          && views.initialView == old(views.initialView)
          && unchanged(inventory) && active == old(active)
        case PickUp(x) =>
          && inventory.items == Added(old(inventory.items), x)
          && inventory.changeEvents == old(inventory.changeEvents) + (if x in old(inventory.items) then 0 else 1)
          && unchanged(views) && !active
        case NoEffect =>
          unchanged(views) && unchanged(inventory) && active == old(active)
    {
      if !pointerOverUI {
        Interact(views, inventory);
      }
    }
  }
}
