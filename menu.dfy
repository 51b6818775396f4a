/** Menu items and their customisation option groups, as both apps receive them. */
module Menu {
  import opened Wrappers

  /** One choice inside a group; `id` is missing on options not yet saved. */
  datatype MenuOption = MenuOption(id: Option<string>, name: string, price: int)

  /** A group of choices: radio buttons, or checkboxes when `allowMultiple`. */
  datatype OptionGroup = OptionGroup(id: Option<string>, groupName: string, isRequired: bool,
                                     allowMultiple: bool, options: seq<MenuOption>)

  /** A menu item; the English fields and the option groups may be missing on the record. */
  datatype MenuItem = MenuItem(id: string, name: string, nameEn: Option<string>,
                               description: string, descriptionEn: Option<string>,
                               price: int, category: string, isAvailable: bool,
                               customizationOptions: Option<seq<OptionGroup>>)

  /** The object key an id becomes: a missing id is the key "undefined". */
  function KeyOf(id: Option<string>): string {
    id.GetOr("undefined")
  }

  /** The option groups of an item, none when the field is missing. */
  function Groups(item: MenuItem): seq<OptionGroup> {
    item.customizationOptions.GetOr([])
  }

  /** `groups.find(g => g._id === key)`: a group whose id is `key`, or nothing when no group has it. */
  function FindGroup(groups: seq<OptionGroup>, key: string): (r: Option<OptionGroup>)
    ensures r.Some? ==> r.value in groups && r.value.id == Some(key)
    ensures r.None? ==> forall g :: g in groups ==> g.id != Some(key)
  {
    if groups == [] then None
    else if groups[0].id == Some(key) then Some(groups[0])
    else FindGroup(groups[1..], key)
  }

  /** Like `find`, `FindGroup` returns the first group with the id, whatever follows it. */
  lemma {:induction false} FindGroupFirst(groups: seq<OptionGroup>, key: string, k: int)
    requires 0 <= k < |groups| && groups[k].id == Some(key)
    requires forall j :: 0 <= j < k ==> groups[j].id != Some(key)
    ensures FindGroup(groups, key) == Some(groups[k])
  {
    if k > 0 {
      assert groups[0].id != Some(key);
      assert groups[1..][k - 1] == groups[k];
      FindGroupFirst(groups[1..], key, k - 1);
    }
  }

  /** `options.find(o => o._id === key)`: an option whose id is `key`, or nothing when no option has it. */
  function FindOption(options: seq<MenuOption>, key: string): (r: Option<MenuOption>)
    ensures r.Some? ==> r.value in options && r.value.id == Some(key)
    ensures r.None? ==> forall o :: o in options ==> o.id != Some(key)
  {
    if options == [] then None
    else if options[0].id == Some(key) then Some(options[0])
    else FindOption(options[1..], key)
  }

  /** Like `find`, `FindOption` returns the first option with the id, whatever follows it. */
  lemma {:induction false} FindOptionFirst(options: seq<MenuOption>, key: string, k: int)
    requires 0 <= k < |options| && options[k].id == Some(key)
    requires forall j :: 0 <= j < k ==> options[j].id != Some(key)
    ensures FindOption(options, key) == Some(options[k])
  {
    if k > 0 {
      assert options[0].id != Some(key);
      assert options[1..][k - 1] == options[k];
      FindOptionFirst(options[1..], key, k - 1);
    }
  }
}
