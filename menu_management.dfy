/**
 * The admin menu editor: the list of items, the save payload built from the form, and the
 * local list updates after a delete, an edit or an add. Server answers are parameters.
 */
module MenuManagement {
  import opened Wrappers
  import opened Text
  import opened MenuItems
  import opened AppContext
  import Seqs

  /** The edit form's fields; the price is the text typed in. */
  datatype MenuForm = MenuForm(
    name: string,
    description: string,
    price: string,
    category: string,
    image: string,
    isVegetarian: bool,
    isVegan: bool,
    isSpicy: bool)

  /** The body sent on save. The price is `parseFloat` of the field: `None` when that is NaN. */
  datatype MenuPayload = MenuPayload(
    name: string,
    description: string,
    price: Option<real>,
    category: string,
    imageUrl: string,
    isVegetarian: int,
    isVegan: int,
    isSpicy: int)

  function Flag(b: bool): (n: int)
    ensures n == 0 || n == 1
    ensures n == 1 <==> b
  {
    if b then 1 else 0
  }

  /** The save payload: the form's fields, the price parsed, the switches as 1 or 0. */
  function Payload(f: MenuForm): (p: MenuPayload)
    ensures p.isVegetarian in {0, 1} && p.isVegan in {0, 1} && p.isSpicy in {0, 1}
    ensures (p.isVegetarian == 1 <==> f.isVegetarian) && (p.isVegan == 1 <==> f.isVegan) && (p.isSpicy == 1 <==> f.isSpicy)
    ensures p.price == ParseFloat(f.price)
  {
    MenuPayload(f.name, f.description, ParseFloat(f.price), f.category, f.image,
                Flag(f.isVegetarian), Flag(f.isVegan), Flag(f.isSpicy))
  }

  /** `Number(id)` for the decimal ids the list holds. */
  function NumberOf(id: string): int {
    ParseInt(id).GetOr(0)
  }

  /** An id that `Number` and `String` carry back to itself. */
  predicate Canonical(id: string) {
    ParseInt(id).Some? && IntToString(ParseInt(id).value) == id
  }

  /** `{ id: Number(item.id), ...payload }`: a row with no allergens and no nutrition fields. */
  function PayloadRow(id: int, p: MenuPayload): ApiMenuItem {
    ApiMenuItem(id, p.name, Some(p.description), PriceNumber(p.price.GetOr(0.0)), p.category, p.imageUrl,
                p.isVegetarian, p.isVegan, p.isSpicy, None, None, None, None, None)
  }

  /**
   * The entry an edit leaves in the list: the item's own fields are all overwritten by the
   * mapped payload row, so allergens, nutrition and reviews return to their defaults.
   */
  function EditedItem(item: MenuItem, p: MenuPayload): MenuItem {
    MapApiToMenuItemAdmin(PayloadRow(NumberOf(item.id), p))
  }

  /**
   * Saving a form over an item keeps its id, stores exactly what the form held, and clears
   * the allergens and nutrition.
   */
  lemma EditedItemFromForm(item: MenuItem, f: MenuForm)
    requires Canonical(item.id)
    ensures var m := EditedItem(item, Payload(f));
      && m.id == item.id
      && m.name == f.name && m.description == f.description && m.category == f.category && m.image == f.image
      && m.price == ParseFloat(f.price).GetOr(0.0)
      && m.isVegetarian == f.isVegetarian && m.isVegan == f.isVegan && m.isSpicy == f.isSpicy
      && m.allergens == [] && m.reviews == []
      && m.nutritionalInfo == NutritionalInfo(0, "0g", "0g", "0g")
  {
  }

  /** The list after a successful delete: every item with another id, in list order, and no other. */
  function WithoutItem(items: seq<MenuItem>, id: string): (r: seq<MenuItem>)
    ensures Seqs.SubsequenceOf(r, items)
    ensures forall i :: 0 <= i < |r| ==> r[i].id != id && r[i] in items
    ensures forall i :: 0 <= i < |items| && items[i].id != id ==> items[i] in r
  {
    Seqs.FilterIsSubsequence(items, (m: MenuItem) => m.id != id);
    Seqs.Filter(items, (m: MenuItem) => m.id != id)
  }

  /** The list after a successful edit of `editing`: every item with its id becomes the edited entry. */
  function WithEdited(items: seq<MenuItem>, editing: MenuItem, p: MenuPayload): (r: seq<MenuItem>)
    ensures |r| == |items|
    ensures forall i :: 0 <= i < |r| ==> if items[i].id == editing.id then r[i] == EditedItem(items[i], p) else r[i] == items[i]
  {
    Seqs.Map(items, (m: MenuItem) => if m.id == editing.id then EditedItem(m, p) else m)
  }

  predicate DistinctIds(items: seq<MenuItem>) {
    forall i, j :: 0 <= i < j < |items| ==> items[i].id != items[j].id
  }

  /** With distinct ids, a delete removes the one item with that id and keeps the others in order. */
  lemma WithoutItemDropsOne(items: seq<MenuItem>, k: int)
    requires DistinctIds(items) && 0 <= k < |items|
    ensures WithoutItem(items, items[k].id) == items[..k] + items[k + 1..]
  {
    Seqs.FilterDropOne(items, (m: MenuItem) => m.id != items[k].id, k);
  }

  /** With distinct ids, an edit replaces only the entry being edited. */
  lemma WithEditedReplacesOne(items: seq<MenuItem>, k: int, p: MenuPayload)
    requires DistinctIds(items) && 0 <= k < |items|
    ensures WithEdited(items, items[k], p) == items[k := EditedItem(items[k], p)]
  {
    Seqs.MapOnlyAt(items, (m: MenuItem) => if m.id == items[k].id then EditedItem(m, p) else m, k);
  }

  class MenuAdmin {
    var menuItems: seq<MenuItem>
    var loading: bool
    var error: Option<string>
    var editingItem: Option<MenuItem>
    var showModal: bool

    /** Every listed id is the decimal form of a number, as the mapper produces it. */
    ghost predicate Valid()
      reads this
    {
      forall i :: 0 <= i < |menuItems| ==> Canonical(menuItems[i].id)
    }

    constructor ()
      ensures Valid()
      ensures menuItems == [] && loading && error == None && editingItem == None && !showModal
    {
      menuItems := [];
      loading := true;
      error := None;
      editingItem := None;
      showModal := false;
    }

    /** The initial load: the rows mapped by the admin mapper, or the error message. */
    method Load(reply: Outcome<seq<ApiMenuItem>>)
      requires Valid()
      modifies this
      ensures Valid() && !loading
      ensures reply.Success? ==> menuItems == Seqs.Map(reply.value, MapApiToMenuItemAdmin) && error == None
      ensures reply.Failure? ==> menuItems == old(menuItems) && error == Some(reply.message)
      ensures editingItem == old(editingItem) && showModal == old(showModal)
    {
      error := None;
      match reply {
        case Success(rows) =>
          var mapped := Seqs.Map(rows, MapApiToMenuItemAdmin);
          forall i | 0 <= i < |mapped| ensures Canonical(mapped[i].id) {
            IntToStringRoundTrip(rows[i].id);
          }
          menuItems := mapped;
        case Failure(message) =>
          error := Some(message);
      }
      loading := false;
    }

    /** `handleEdit` / `handleAddNew`: which item the form saves over, if any. */
    method OpenForm(item: Option<MenuItem>)
      modifies this
      ensures editingItem == item && showModal
      ensures menuItems == old(menuItems) && loading == old(loading) && error == old(error)
    {
      editingItem := item;
      showModal := true;
    }

    /**
     * `handleDelete(id)`: nothing without a token or a confirmation; after that the item
     * leaves the list only when the server accepts the delete.
     */
    method HandleDelete(id: string, token: Option<string>, confirmed: bool, accepted: bool)
      requires Valid()
      modifies this
      ensures Valid()
      ensures HasToken(token) && confirmed && accepted ==> menuItems == WithoutItem(old(menuItems), id)
      ensures !(HasToken(token) && confirmed && accepted) ==> menuItems == old(menuItems)
      ensures loading == old(loading) && error == old(error)
      ensures editingItem == old(editingItem) && showModal == old(showModal)
    {
      if !HasToken(token) {
        return;
      }
      if !confirmed {
        return;
      }
      if !accepted {
        return;
      }
      menuItems := WithoutItem(menuItems, id);
    }

    /**
     * `handleSubmit`: nothing without a token. `reply` is `None` when the server refuses the
     * save or the request fails. Editing: on success every item with the edited id is replaced
     * by the edited entry. Adding: on success the server's new row, mapped, is appended.
     * A success closes the form.
     */
    method HandleSubmit(token: Option<string>, form: MenuForm, reply: Option<ApiMenuItem>)
      requires Valid()
      modifies this
      ensures Valid()
      ensures HasToken(token) && reply.Some? && editingItem.Some? ==>
        menuItems == WithEdited(old(menuItems), editingItem.value, Payload(form)) && !showModal
      ensures HasToken(token) && reply.Some? && editingItem.None? ==>
        menuItems == old(menuItems) + [MapApiToMenuItemAdmin(reply.value)] && !showModal
      ensures !(HasToken(token) && reply.Some?) ==> menuItems == old(menuItems) && showModal == old(showModal)
      ensures loading == old(loading) && error == old(error) && editingItem == old(editingItem)
    {
      if !HasToken(token) {
        return;
      }
      var payload := Payload(form);
      if reply.None? {
        return;
      }
      if editingItem.Some? {
        WithEditedCanonical(menuItems, editingItem.value, payload);
        menuItems := WithEdited(menuItems, editingItem.value, payload);
      } else {
        var added := MapApiToMenuItemAdmin(reply.value);
        IntToStringRoundTrip(reply.value.id);
        menuItems := menuItems + [added];
      }
      showModal := false;
    }
  }

  /** An edit keeps every listed id canonical. */
  lemma WithEditedCanonical(items: seq<MenuItem>, editing: MenuItem, p: MenuPayload)
    requires forall i :: 0 <= i < |items| ==> Canonical(items[i].id)
    ensures forall i :: 0 <= i < |WithEdited(items, editing, p)| ==> Canonical(WithEdited(items, editing, p)[i].id)
  {
    var edited := WithEdited(items, editing, p);
    forall i | 0 <= i < |edited| ensures Canonical(edited[i].id) {
      if items[i].id == editing.id {
        EditedKeepsId(items[i], p);
      }
    }
  }

  /** The edited entry keeps the id it had. */
  lemma EditedKeepsId(item: MenuItem, p: MenuPayload)
    requires Canonical(item.id)
    ensures EditedItem(item, p).id == item.id
  {
  }
}
