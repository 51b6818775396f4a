/**
 * The admin menu editor: the item form, the option-group builder that edits
 * nested lists by index, the availability switch, and the manager-only guard
 * on saving, editing and deleting.
 */
module MenuEditor {
  import opened Wrappers
  import opened Menu
  import opened Accounts

  /** The item form; `price` is empty (`None`) until typed or copied from an item. */
  datatype FormState = FormState(name: string, description: string, price: Option<int>, category: string,
                                 isAvailable: bool, nameEn: string, descriptionEn: string)

  const EmptyForm := FormState("", "", None, "", true, "", "")

  /** The form inputs; `handleChange` sets the one named by the input. */
  datatype FormField =
    | NameField(name: string) | DescriptionField(description: string) | PriceField(price: Option<int>)
    | CategoryField(category: string) | AvailableField(available: bool)
    | NameEnField(nameEn: string) | DescriptionEnField(descriptionEn: string)

  /** `handleChange`: the named field takes the input's value and every other field keeps its own. */
  function SetFormField(f: FormState, field: FormField): (r: FormState)
    ensures field.NameField? ==> r.name == field.name
    ensures field.DescriptionField? ==> r.description == field.description
    ensures field.PriceField? ==> r.price == field.price
    ensures field.CategoryField? ==> r.category == field.category
    ensures field.AvailableField? ==> r.isAvailable == field.available
    ensures field.NameEnField? ==> r.nameEn == field.nameEn
    ensures field.DescriptionEnField? ==> r.descriptionEn == field.descriptionEn
    ensures !field.NameField? ==> r.name == f.name
    ensures !field.DescriptionField? ==> r.description == f.description
    ensures !field.PriceField? ==> r.price == f.price
    ensures !field.CategoryField? ==> r.category == f.category
    ensures !field.AvailableField? ==> r.isAvailable == f.isAvailable
    ensures !field.NameEnField? ==> r.nameEn == f.nameEn
    ensures !field.DescriptionEnField? ==> r.descriptionEn == f.descriptionEn
  {
    match field
    case NameField(v) => f.(name := v)
    case DescriptionField(v) => f.(description := v)
    case PriceField(v) => f.(price := v)
    case CategoryField(v) => f.(category := v)
    case AvailableField(v) => f.(isAvailable := v)
    case NameEnField(v) => f.(nameEn := v)
    case DescriptionEnField(v) => f.(descriptionEn := v)
  }

  /** A fresh option row: no name, price 0. */
  const EmptyOption := MenuOption(None, "", 0)

  /** A fresh group: no name, optional, single choice, one empty option. */
  const NewGroup := OptionGroup(None, "", false, false, [EmptyOption])

  /** The group fields the builder's inputs can set. */
  datatype GroupField = GroupName(name: string) | IsRequired(required: bool) | AllowMultiple(multiple: bool)

  /** The option fields the builder's inputs can set. */
  datatype OptionField = OptionName(name: string) | OptionPrice(price: int)

  /** The status line under the form. */
  datatype EditorStatus = NoStatus | Saving | Added | Updated | SaveFailed | Deleted | DeleteFailed | MenuFetchFailed

  /** What a save sends: the item (new or `editingId`), the form, the groups and whether an image goes along. */
  datatype SaveRequest = SaveRequest(editingId: Option<string>, form: FormState,
                                     groups: seq<OptionGroup>, withImage: bool)

  /** `user && user.role === 'manager'`. */
  function IsManager(user: Option<StaffUser>): (r: bool)
    ensures r <==> user.Some? && user.value.role == "manager"
  {
    user.Some? && user.value.role == "manager"
  }

  /** `s.filter((_, k) => k !== i)`: drop position `i`, or nothing when there is no such position. */
  function DropIndex<T>(s: seq<T>, i: int): (r: seq<T>)
    ensures 0 <= i < |s| ==> r == s[..i] + s[i + 1..]
    ensures !(0 <= i < |s|) ==> r == s
    decreases |s|
  {
    if s == [] then []
    else (if i == 0 then [] else [s[0]]) + DropIndex(s[1..], i - 1)
  }

  /** `s.map((g, k) => k === i ? f(g) : g)`, for a group edit `f`. */
  function EditGroupAt(groups: seq<OptionGroup>, i: int, f: OptionGroup -> OptionGroup): (r: seq<OptionGroup>)
    ensures |r| == |groups|
    ensures forall k :: 0 <= k < |groups| && k != i ==> r[k] == groups[k]
    ensures 0 <= i < |groups| ==> r[i] == f(groups[i])
  {
    seq(|groups|, k requires 0 <= k < |groups| => if k == i then f(groups[k]) else groups[k])
  }

  /** `addOptionGroup`: one fresh group at the end. */
  function AppendGroup(groups: seq<OptionGroup>): (r: seq<OptionGroup>)
    ensures |r| == |groups| + 1 && r[..|groups|] == groups && r[|groups|] == NewGroup
  {
    groups + [NewGroup]
  }

  /** `removeOptionGroup`: group `i` goes and the others stay in order; an index outside the list removes nothing. */
  function DropGroup(groups: seq<OptionGroup>, i: int): (r: seq<OptionGroup>)
    ensures 0 <= i < |groups| ==> r == groups[..i] + groups[i + 1..]
    ensures !(0 <= i < |groups|) ==> r == groups
  {
    DropIndex(groups, i)
  }

  function SetGroupField(g: OptionGroup, f: GroupField): OptionGroup {
    match f
    case GroupName(n) => g.(groupName := n)
    case IsRequired(b) => g.(isRequired := b)
    case AllowMultiple(b) => g.(allowMultiple := b)
  }

  /** `handleGroupChange`: set one field of group `i`; its options and every other group stay. */
  function SetGroupFieldAt(groups: seq<OptionGroup>, i: int, f: GroupField): (r: seq<OptionGroup>)
    ensures |r| == |groups|
    ensures forall k :: 0 <= k < |groups| && k != i ==> r[k] == groups[k]
    ensures 0 <= i < |groups| ==> r[i].id == groups[i].id && r[i].options == groups[i].options
    ensures 0 <= i < |groups| && f.GroupName? ==> r[i] == groups[i].(groupName := f.name)
    ensures 0 <= i < |groups| && f.IsRequired? ==> r[i] == groups[i].(isRequired := f.required)
    ensures 0 <= i < |groups| && f.AllowMultiple? ==> r[i] == groups[i].(allowMultiple := f.multiple)
  {
    EditGroupAt(groups, i, (g: OptionGroup) => SetGroupField(g, f))
  }

  /** `addOption`: one empty option at the end of group `i`; the rest of that group and every other group stay. */
  function AppendOptionAt(groups: seq<OptionGroup>, i: int): (r: seq<OptionGroup>)
    ensures |r| == |groups|
    ensures forall k :: 0 <= k < |groups| && k != i ==> r[k] == groups[k]
    ensures 0 <= i < |groups| ==> r[i] == groups[i].(options := groups[i].options + [EmptyOption])
  {
    EditGroupAt(groups, i, (g: OptionGroup) => g.(options := g.options + [EmptyOption]))
  }

  /** `removeOption`: drop option `oi` of group `i`, keeping its other options in order and every other group. */
  function DropOptionAt(groups: seq<OptionGroup>, i: int, oi: int): (r: seq<OptionGroup>)
    ensures |r| == |groups|
    ensures forall k :: 0 <= k < |groups| && k != i ==> r[k] == groups[k]
    ensures 0 <= i < |groups| && 0 <= oi < |groups[i].options| ==>
      r[i] == groups[i].(options := groups[i].options[..oi] + groups[i].options[oi + 1..])
    ensures 0 <= i < |groups| && !(0 <= oi < |groups[i].options|) ==> r[i] == groups[i]
  {
    EditGroupAt(groups, i, (g: OptionGroup) => g.(options := DropIndex(g.options, oi)))
  }

  function SetOptionField(o: MenuOption, f: OptionField): MenuOption {
    match f
    case OptionName(n) => o.(name := n)
    case OptionPrice(p) => o.(price := p)
  }

  /** `handleOptionChange`: set one field of option `oi` of group `i`; every other option and group stays. */
  function SetOptionFieldAt(groups: seq<OptionGroup>, i: int, oi: int, f: OptionField): (r: seq<OptionGroup>)
    ensures |r| == |groups|
    ensures forall k :: 0 <= k < |groups| && k != i ==> r[k] == groups[k]
    ensures 0 <= i < |groups| ==> r[i] == groups[i].(options := r[i].options) && |r[i].options| == |groups[i].options|
    ensures 0 <= i < |groups| ==>
      forall k :: 0 <= k < |groups[i].options| && k != oi ==> r[i].options[k] == groups[i].options[k]
    ensures 0 <= i < |groups| && 0 <= oi < |groups[i].options| && f.OptionName? ==>
      r[i].options[oi] == groups[i].options[oi].(name := f.name)
    ensures 0 <= i < |groups| && 0 <= oi < |groups[i].options| && f.OptionPrice? ==>
      r[i].options[oi] == groups[i].options[oi].(price := f.price)
  {
    EditGroupAt(groups, i, (g: OptionGroup) => g.(options := seq(|g.options|, k requires 0 <= k < |g.options| =>
                                                      if k == oi then SetOptionField(g.options[k], f) else g.options[k])))
  }

  /** Removing a group keeps the others in order, and an index past the end removes nothing. */
  lemma RemoveGroupKeepsOthers(groups: seq<OptionGroup>, i: int)
    ensures 0 <= i < |groups| ==>
      && |DropGroup(groups, i)| == |groups| - 1
      && (forall k :: 0 <= k < i ==> DropGroup(groups, i)[k] == groups[k])
      && (forall k :: i < k < |groups| ==> DropGroup(groups, i)[k - 1] == groups[k])
    ensures !(0 <= i < |groups|) ==> DropGroup(groups, i) == groups
  {
  }

  /** `menu.map(m => m._id === id ? { ...m, isAvailable: v } : m)`. */
  function SetAvailability(menu: seq<MenuItem>, id: string, available: bool): (r: seq<MenuItem>)
    ensures |r| == |menu|
    ensures forall k :: 0 <= k < |menu| && menu[k].id == id ==> r[k] == menu[k].(isAvailable := available)
    ensures forall k :: 0 <= k < |menu| && menu[k].id != id ==> r[k] == menu[k]
  {
    if menu == [] then []
    else [if menu[0].id == id then menu[0].(isAvailable := available) else menu[0]]
         + SetAvailability(menu[1..], id, available)
  }

  /** `handleEdit`'s form: the item's fields, with missing English fields as empty text. */
  function FormOf(item: MenuItem): (f: FormState)
    ensures f.name == item.name && f.description == item.description && f.category == item.category
    ensures f.price == Some(item.price) && f.isAvailable == item.isAvailable
    ensures item.nameEn.Some? ==> f.nameEn == item.nameEn.value
    ensures item.nameEn.None? ==> f.nameEn == ""
    ensures item.descriptionEn.Some? ==> f.descriptionEn == item.descriptionEn.value
    ensures item.descriptionEn.None? ==> f.descriptionEn == ""
  {
    FormState(item.name, item.description, Some(item.price), item.category, item.isAvailable,
              item.nameEn.GetOr(""), item.descriptionEn.GetOr(""))
  }

  class MenuManager {
    const user: Option<StaffUser>
    var menu: seq<MenuItem>
    var status: EditorStatus
    var editingId: Option<string>
    var form: FormState
    var hasImage: bool
    var groups: seq<OptionGroup>

    constructor (user: Option<StaffUser>)
      ensures this.user == user && menu == [] && status == NoStatus
      ensures editingId == None && form == EmptyForm && !hasImage && groups == []
    {
      this.user := user;
      menu := [];
      status := NoStatus;
      editingId, form, hasImage, groups := None, EmptyForm, false, [];
    }

    /**
     * `fetchMenu`, on mount and after the edits below: the fetched list
     * replaces the local one; a failure keeps the list and reports it.
     */
    method FetchMenu(fetched: Option<seq<MenuItem>>)
      modifies this`menu, this`status
      ensures fetched.Some? ==> menu == fetched.value && status == old(status)
      ensures fetched.None? ==> menu == old(menu) && status == MenuFetchFailed
    {
      match fetched
      case Some(list) =>
        menu := list;
      case None =>
        status := MenuFetchFailed;
    }

    method HandleChange(field: FormField)
      modifies this`form
      ensures form == SetFormField(old(form), field)
    {
      form := SetFormField(form, field);
    }

    /** `handleFileChange`: whether an image file is chosen. */
    method HandleFileChange(chosen: bool)
      modifies this`hasImage
      ensures hasImage == chosen
    {
      hasImage := chosen;
    }

    /** `resetForm`: back to an empty form for a new item. */
    method ResetForm()
      modifies this`editingId, this`form, this`hasImage, this`groups
      ensures editingId == None && form == EmptyForm && !hasImage && groups == []
    {
      editingId := None;
      form := EmptyForm;
      hasImage := false;
      groups := [];
    }

    /** `handleEdit`: for a manager, load the item into the form; for anyone else, nothing. */
    method HandleEdit(item: MenuItem)
      modifies this`editingId, this`form, this`hasImage, this`groups
      ensures !IsManager(user) ==> unchanged(this)
      ensures IsManager(user) ==> editingId == Some(item.id) && form == FormOf(item)
                                  && groups == Groups(item) && !hasImage
    {
      if !IsManager(user) {
        return;
      }
      editingId := Some(item.id);
      form := FormOf(item);
      groups := item.customizationOptions.GetOr([]);
      hasImage := false;
    }

    /**
     * `handleSubmit`: for a manager, send the form (an update when editing, a
     * new item otherwise); on success clear the form and refetch the menu,
     * whose answer `refetched` arrives after the success status is set.
     * Anyone else sends nothing.
     */
    method HandleSubmit(succeeded: bool, refetched: Option<seq<MenuItem>>) returns (request: Option<SaveRequest>)
      modifies this`status, this`menu, this`editingId, this`form, this`hasImage, this`groups
      ensures !IsManager(user) ==> request == None && unchanged(this)
      ensures IsManager(user) ==> request == Some(SaveRequest(old(editingId), old(form), old(groups), old(hasImage)))
      ensures IsManager(user) && succeeded ==>
        editingId == None && form == EmptyForm && !hasImage && groups == []
      ensures IsManager(user) && succeeded && refetched.Some? ==>
        status == (if old(editingId).Some? then Updated else Added) && menu == refetched.value
      ensures IsManager(user) && succeeded && refetched.None? ==>
        status == MenuFetchFailed && menu == old(menu)
      ensures IsManager(user) && !succeeded ==>
        status == SaveFailed && editingId == old(editingId) && form == old(form) && groups == old(groups)
        && hasImage == old(hasImage) && menu == old(menu)
    {
      if !IsManager(user) {
        return None;
      }
      status := Saving;
      request := Some(SaveRequest(editingId, form, groups, hasImage));
      if succeeded {
        status := if editingId.Some? then Updated else Added;
        ResetForm();
        FetchMenu(refetched);
      } else {
        status := SaveFailed;
      }
    }

    /**
     * `handleDelete`: only a manager who confirms sends a delete; after a
     * successful one the menu is refetched, and a failed refetch, answering
     * last, replaces the success status.
     */
    method HandleDelete(id: string, confirmed: bool, succeeded: bool, refetched: Option<seq<MenuItem>>)
      returns (request: Option<string>)
      modifies this`status, this`menu
      ensures request.Some? <==> IsManager(user) && confirmed
      ensures request.Some? ==> request.value == id
      ensures request.Some? && !succeeded ==> status == DeleteFailed && menu == old(menu)
      ensures request.Some? && succeeded && refetched.Some? ==> status == Deleted && menu == refetched.value
      ensures request.Some? && succeeded && refetched.None? ==> status == MenuFetchFailed && menu == old(menu)
      ensures request.None? ==> status == old(status) && menu == old(menu)
    {
      if !IsManager(user) || !confirmed {
        return None;
      }
      request := Some(id);
      if succeeded {
        status := Deleted;
        FetchMenu(refetched);
      } else {
        status := DeleteFailed;
      }
    }

    /**
     * `toggleAvailability` for the row showing `item`: after a successful
     * request the items with that id flip to `!item.isAvailable`; after a
     * failure the menu is refetched, and a failed refetch is reported.
     */
    method ToggleAvailability(item: MenuItem, succeeded: bool, refetched: Option<seq<MenuItem>>)
      modifies this`menu, this`status
      ensures succeeded ==> menu == SetAvailability(old(menu), item.id, !item.isAvailable) && status == old(status)
      ensures !succeeded && refetched.Some? ==> menu == refetched.value && status == old(status)
      ensures !succeeded && refetched.None? ==> menu == old(menu) && status == MenuFetchFailed
    {
      if succeeded {
        menu := SetAvailability(menu, item.id, !item.isAvailable);
      } else {
        FetchMenu(refetched);
      }
    }

    method AddOptionGroup()
      modifies this`groups
      ensures groups == AppendGroup(old(groups))
    {
      groups := AppendGroup(groups);
    }

    method RemoveOptionGroup(i: int)
      modifies this`groups
      ensures groups == DropGroup(old(groups), i)
    {
      groups := DropIndex(groups, i);
    }

    method HandleGroupChange(i: int, f: GroupField)
      modifies this`groups
      ensures groups == SetGroupFieldAt(old(groups), i, f)
    {
      groups := SetGroupFieldAt(groups, i, f);
    }

    method AddOption(i: int)
      modifies this`groups
      ensures groups == AppendOptionAt(old(groups), i)
    {
      groups := AppendOptionAt(groups, i);
    }

    method RemoveOption(i: int, oi: int)
      modifies this`groups
      ensures groups == DropOptionAt(old(groups), i, oi)
    {
      groups := DropOptionAt(groups, i, oi);
    }

    method HandleOptionChange(i: int, oi: int, f: OptionField)
      modifies this`groups
      ensures groups == SetOptionFieldAt(old(groups), i, oi, f)
    {
      groups := SetOptionFieldAt(groups, i, oi, f);
    }
  }
}
