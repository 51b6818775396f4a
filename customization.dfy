/**
 * The customisation modal: the customer's choices per option group, the
 * running price, the option list handed to the cart, and the required-group
 * check that gates adding the item.
 *
 * The selection is a JavaScript object of objects, `{groupId: {optionId: true}}`.
 * Its keys are enumerated in insertion order, so it is modelled as a sequence
 * of picks, one per group key, each listing its option keys in insertion order.
 */
module Customization {
  import opened Wrappers
  import opened Orders
  import opened Menu

  /** The options chosen in one group, by key, in the order they were chosen. */
  datatype Pick = Pick(groupKey: string, optionKeys: seq<string>)

  type Selection = seq<Pick>

  /** No group key twice, and no option key twice within a group: what an object's keys guarantee. */
  predicate WellFormed(sel: Selection) {
    && KeysDistinct(sel)
    && (forall i :: 0 <= i < |sel| ==> Distinct(sel[i].optionKeys))
  }

  predicate KeysDistinct(sel: Selection) {
    forall i, j :: 0 <= i < j < |sel| ==> sel[i].groupKey != sel[j].groupKey
  }

  predicate Distinct(keys: seq<string>) {
    forall i, j :: 0 <= i < j < |keys| ==> keys[i] != keys[j]
  }

  /** `{ ...sel[key] }`: the option keys chosen in a group, none when the group has no entry. */
  function Lookup(sel: Selection, key: string): (keys: seq<string>)
    ensures (forall p :: p in sel ==> p.groupKey != key) ==> keys == []
  {
    if sel == [] then []
    else if sel[0].groupKey == key then sel[0].optionKeys
    else Lookup(sel[1..], key)
  }

  /** Like a property read, `Lookup` gives the keys of the first entry for the group. */
  lemma {:induction false} LookupFirst(sel: Selection, key: string, k: int)
    requires 0 <= k < |sel| && sel[k].groupKey == key
    requires forall j :: 0 <= j < k ==> sel[j].groupKey != key
    ensures Lookup(sel, key) == sel[k].optionKeys
  {
    if k > 0 {
      assert sel[0].groupKey != key;
      assert sel[1..][k - 1] == sel[k];
      LookupFirst(sel[1..], key, k - 1);
    }
  }

  /** `{ ...sel, [key]: keys }`: an existing entry keeps its place, a new one goes last. */
  function Put(sel: Selection, key: string, keys: seq<string>): (r: Selection)
    ensures Lookup(r, key) == keys
    ensures forall k :: k != key ==> Lookup(r, k) == Lookup(sel, k)
    ensures forall p :: p in r ==> p in sel || p == Pick(key, keys)
    ensures (exists p :: p in sel && p.groupKey == key) ==> |r| == |sel|
    ensures (forall p :: p in sel ==> p.groupKey != key) ==> r == sel + [Pick(key, keys)]
    ensures forall i :: 0 <= i < |r| ==> r[i].groupKey == key || (i < |sel| && r[i] == sel[i])
  {
    if sel == [] then [Pick(key, keys)]
    else if sel[0].groupKey == key then [Pick(key, keys)] + sel[1..]
    else [sel[0]] + Put(sel[1..], key, keys)
  }

  /** `delete opts[key]`. */
  function Without(keys: seq<string>, key: string): (r: seq<string>)
    ensures forall k :: k in r <==> k in keys && k != key
    ensures |r| <= |keys|
    ensures Distinct(keys) ==> Distinct(r)
    ensures key !in keys ==> r == keys
  {
    if keys == [] then []
    else if keys[0] == key then Without(keys[1..], key)
    else
      var rest := Without(keys[1..], key);
      assert Distinct(keys) ==> Distinct(keys[1..]) && keys[0] !in rest;
      [keys[0]] + rest
  }

  /** A checkbox click: remove the key when present, add it last otherwise. */
  function Toggle(keys: seq<string>, key: string): (r: seq<string>)
    ensures forall k :: k != key ==> (k in r <==> k in keys)
    ensures key in r <==> key !in keys
    ensures Distinct(keys) ==> Distinct(r)
  {
    if key in keys then Without(keys, key) else keys + [key]
  }

  /**
   * `handleOptionChange`: a radio click leaves just that option in its group;
   * a checkbox click flips that option and nothing else. Other groups keep
   * their choices.
   */
  function Choose(sel: Selection, groupKey: string, optionKey: string, isMultiple: bool): (r: Selection)
    ensures !isMultiple ==> Lookup(r, groupKey) == [optionKey]
    ensures isMultiple ==> (optionKey in Lookup(r, groupKey) <==> optionKey !in Lookup(sel, groupKey))
    ensures isMultiple ==> forall o :: o != optionKey ==> (o in Lookup(r, groupKey) <==> o in Lookup(sel, groupKey))
    ensures forall k :: k != groupKey ==> Lookup(r, k) == Lookup(sel, k)
  {
    Put(sel, groupKey, if isMultiple then Toggle(Lookup(sel, groupKey), optionKey) else [optionKey])
  }

  /** Writing a group entry keeps one entry per group, and each entry free of repeated options. */
  lemma PutWellFormed(sel: Selection, key: string, keys: seq<string>)
    requires WellFormed(sel) && Distinct(keys)
    ensures WellFormed(Put(sel, key, keys))
  {
    var r := Put(sel, key, keys);
    PutKeysDistinct(sel, key, keys);
    forall i | 0 <= i < |r| ensures Distinct(r[i].optionKeys) {
      assert r[i] in r;
    }
  }

  lemma {:induction false} PutKeysDistinct(sel: Selection, key: string, keys: seq<string>)
    requires KeysDistinct(sel)
    ensures KeysDistinct(Put(sel, key, keys))
  {
    var r := Put(sel, key, keys);
    if sel == [] {
    } else if sel[0].groupKey == key {
      assert r == [Pick(key, keys)] + sel[1..];
      forall i, j | 0 <= i < j < |r| ensures r[i].groupKey != r[j].groupKey {
        assert r[j] == sel[j];
        if i > 0 {
          assert r[i] == sel[i];
        }
      }
    } else {
      var rest := Put(sel[1..], key, keys);
      PutKeysDistinct(sel[1..], key, keys);
      assert KeysDistinct(rest);
      assert r == [sel[0]] + rest;
      forall i, j | 0 <= i < j < |r| ensures r[i].groupKey != r[j].groupKey {
        assert r[j] == rest[j - 1];
        if i > 0 {
          assert r[i] == rest[i - 1];
          assert rest[i - 1].groupKey != rest[j - 1].groupKey;
        } else {
          assert r[0] == sel[0];
          if rest[j - 1].groupKey != key {
            assert rest[j - 1] == sel[1..][j - 1] == sel[j];
          }
        }
      }
    }
  }

  lemma {:induction false} LookupDistinct(sel: Selection, key: string)
    requires WellFormed(sel)
    ensures Distinct(Lookup(sel, key))
  {
    if sel != [] && sel[0].groupKey != key {
      LookupDistinct(sel[1..], key);
    }
  }

  /** Every click keeps the selection an object: no duplicated keys. */
  lemma ChooseWellFormed(sel: Selection, groupKey: string, optionKey: string, isMultiple: bool)
    requires WellFormed(sel)
    ensures WellFormed(Choose(sel, groupKey, optionKey, isMultiple))
  {
    LookupDistinct(sel, groupKey);
    PutWellFormed(sel, groupKey, if isMultiple then Toggle(Lookup(sel, groupKey), optionKey) else [optionKey]);
  }

  /**
   * Clicking the same checkbox twice restores the group's chosen set; when
   * the option was not chosen before, it restores the group's entry exactly.
   */
  lemma ToggleTwice(sel: Selection, groupKey: string, optionKey: string)
    ensures var twice := Choose(Choose(sel, groupKey, optionKey, true), groupKey, optionKey, true);
            forall o :: o in Lookup(twice, groupKey) <==> o in Lookup(sel, groupKey)
    ensures optionKey !in Lookup(sel, groupKey) ==>
            Lookup(Choose(Choose(sel, groupKey, optionKey, true), groupKey, optionKey, true), groupKey)
            == Lookup(sel, groupKey)
  {
    var keys := Lookup(sel, groupKey);
    if optionKey !in keys {
      assert Without(keys + [optionKey], optionKey) == keys by {
        WithoutLast(keys, optionKey);
      }
    }
  }

  lemma {:induction false} WithoutLast(keys: seq<string>, key: string)
    requires key !in keys
    ensures Without(keys + [key], key) == keys
  {
    if keys != [] {
      assert (keys + [key])[1..] == keys[1..] + [key];
      WithoutLast(keys[1..], key);
    } else {
      assert keys + [key] == [key];
    }
  }

  /** Every group the selection names is one of the item's groups (the price loop would throw otherwise). */
  predicate Fits(groups: seq<OptionGroup>, sel: Selection) {
    forall i :: 0 <= i < |sel| ==> FindGroup(groups, sel[i].groupKey).Some?
  }

  /**
   * The price the chosen keys of one group add: the prices of those that name
   * an option of the group. Keys naming no option add nothing, and options
   * that cost nothing extra never lower the price.
   */
  function GroupExtra(group: OptionGroup, keys: seq<string>): (extra: int)
    ensures (forall k :: 0 <= k < |keys| ==> FindOption(group.options, keys[k]).None?) ==> extra == 0
    ensures (forall o :: o in group.options ==> o.price >= 0) ==> extra >= 0
    decreases |keys|
  {
    if keys == [] then 0
    else GroupExtra(group, keys[..|keys| - 1])
         + match FindOption(group.options, keys[|keys| - 1])
           case Some(o) => o.price
           case None => 0
  }

  /**
   * The price the whole selection adds on top of the base price. Groups whose
   * options were all unchecked add nothing, and non-negative option prices
   * never lower the price.
   */
  function SelectionExtra(groups: seq<OptionGroup>, sel: Selection): (extra: int)
    requires Fits(groups, sel)
    ensures (forall i :: 0 <= i < |sel| ==> sel[i].optionKeys == []) ==> extra == 0
    ensures (forall g, o :: g in groups && o in g.options ==> o.price >= 0) ==> extra >= 0
    decreases |sel|
  {
    if sel == [] then 0
    else
      var last := sel[|sel| - 1];
      SelectionExtra(groups, sel[..|sel| - 1]) + GroupExtra(FindGroup(groups, last.groupKey).value, last.optionKeys)
  }

  /** How many of the chosen keys name an option of the group. */
  function FoundCount(options: seq<MenuOption>, keys: seq<string>): (n: nat)
    ensures n <= |keys|
    decreases |keys|
  {
    if keys == [] then 0
    else FoundCount(options, keys[..|keys| - 1]) + if FindOption(options, keys[|keys| - 1]).Some? then 1 else 0
  }

  /** Every chosen key is counted exactly when every one of them names an option. */
  lemma {:induction false} FoundCountAll(options: seq<MenuOption>, keys: seq<string>)
    ensures FoundCount(options, keys) == |keys| <==> forall j :: 0 <= j < |keys| ==> FindOption(options, keys[j]).Some?
    decreases |keys|
  {
    if keys != [] {
      var init := keys[..|keys| - 1];
      FoundCountAll(options, init);
      assert forall j :: 0 <= j < |init| ==> init[j] == keys[j];
    }
  }

  /** The cart entry for option `o` of `group`: the group's name, the option's name and price. */
  function Entry(group: OptionGroup, o: MenuOption): (e: ChosenOption)
    ensures e.groupName == group.groupName && e.optionName == o.name && e.price == o.price
  {
    ChosenOption(group.groupName, o.name, o.price)
  }

  /** The cart entries for the chosen keys of one group: one per key that names an option of the group. */
  function GroupCartOptions(group: OptionGroup, keys: seq<string>): (r: seq<ChosenOption>)
    ensures |r| == FoundCount(group.options, keys)
    decreases |keys|
  {
    if keys == [] then []
    else GroupCartOptions(group, keys[..|keys| - 1])
         + match FindOption(group.options, keys[|keys| - 1])
           case Some(o) => [Entry(group, o)]
           case None => []
  }

  /** Every cart entry of a group is the entry of an option that some chosen key finds. */
  lemma {:induction false} GroupCartOptionsSound(group: OptionGroup, keys: seq<string>)
    ensures forall i :: 0 <= i < |GroupCartOptions(group, keys)| ==>
              exists j :: 0 <= j < |keys| && FindOption(group.options, keys[j]).Some?
                          && GroupCartOptions(group, keys)[i] == Entry(group, FindOption(group.options, keys[j]).value)
    decreases |keys|
  {
    var r := GroupCartOptions(group, keys);
    if keys == [] {
      assert r == [];
    } else {
      var n := |keys| - 1;
      var init := keys[..n];
      var ri := GroupCartOptions(group, init);
      GroupCartOptionsSound(group, init);
      forall i | 0 <= i < |r|
        ensures exists j :: 0 <= j < |keys| && FindOption(group.options, keys[j]).Some?
                            && r[i] == Entry(group, FindOption(group.options, keys[j]).value)
      {
        if i < |ri| {
          assert r[i] == ri[i];
          var j :| 0 <= j < |init| && FindOption(group.options, init[j]).Some?
                   && ri[i] == Entry(group, FindOption(group.options, init[j]).value);
          assert init[j] == keys[j];
        } else {
          assert FindOption(group.options, keys[n]).Some?;
        }
      }
    }
  }

  /**
   * Every chosen key that finds an option contributes that option's entry, in
   * key order: the entry for key `j` comes right after those of the keys
   * before it.
   */
  lemma {:induction false} GroupCartOptionsComplete(group: OptionGroup, keys: seq<string>)
    ensures forall j :: 0 <= j < |keys| && FindOption(group.options, keys[j]).Some? ==>
              FoundCount(group.options, keys[..j]) < |GroupCartOptions(group, keys)|
              && GroupCartOptions(group, keys)[FoundCount(group.options, keys[..j])]
                 == Entry(group, FindOption(group.options, keys[j]).value)
    decreases |keys|
  {
    if keys != [] {
      var n := |keys| - 1;
      var init := keys[..n];
      var r := GroupCartOptions(group, keys);
      var ri := GroupCartOptions(group, init);
      GroupCartOptionsComplete(group, init);
      forall j | 0 <= j < |keys| && FindOption(group.options, keys[j]).Some?
        ensures FoundCount(group.options, keys[..j]) < |r|
                && r[FoundCount(group.options, keys[..j])] == Entry(group, FindOption(group.options, keys[j]).value)
      {
        if j < n {
          assert init[j] == keys[j];
          assert init[..j] == keys[..j];
          assert r[FoundCount(group.options, init[..j])] == ri[FoundCount(group.options, init[..j])];
        } else {
          assert keys[..j] == init;
        }
      }
    }
  }

  /** `optionsForCart`, group by group in selection order. */
  function CartOptions(groups: seq<OptionGroup>, sel: Selection): seq<ChosenOption>
    requires Fits(groups, sel)
    decreases |sel|
  {
    if sel == [] then []
    else
      var last := sel[|sel| - 1];
      CartOptions(groups, sel[..|sel| - 1]) + GroupCartOptions(FindGroup(groups, last.groupKey).value, last.optionKeys)
  }

  /** The sum of the prices of a list of chosen options. */
  function SumPrices(opts: seq<ChosenOption>): int
    decreases |opts|
  {
    if opts == [] then 0 else SumPrices(opts[..|opts| - 1]) + opts[|opts| - 1].price
  }

  lemma {:induction false} SumPricesAppend(a: seq<ChosenOption>, b: seq<ChosenOption>)
    ensures SumPrices(a + b) == SumPrices(a) + SumPrices(b)
    decreases |b|
  {
    if b == [] {
      assert a + b == a;
    } else {
      assert (a + b)[..|a + b| - 1] == a + b[..|b| - 1];
      SumPricesAppend(a, b[..|b| - 1]);
    }
  }

  lemma {:induction false} GroupCartOptionsPrice(group: OptionGroup, keys: seq<string>)
    ensures SumPrices(GroupCartOptions(group, keys)) == GroupExtra(group, keys)
    decreases |keys|
  {
    if keys != [] {
      var init := keys[..|keys| - 1];
      GroupCartOptionsPrice(group, init);
      var tail := match FindOption(group.options, keys[|keys| - 1])
                  case Some(o) => [ChosenOption(group.groupName, o.name, o.price)]
                  case None => [];
      SumPricesAppend(GroupCartOptions(group, init), tail);
      if tail != [] {
        assert SumPrices(tail) == SumPrices(tail[..0]) + tail[0].price;
      }
    }
  }

  /**
   * The options handed to the cart account for the whole option surcharge:
   * their prices add up to what the selection adds to the base price.
   */
  lemma {:induction false} CartOptionsPrice(groups: seq<OptionGroup>, sel: Selection)
    requires Fits(groups, sel)
    ensures SumPrices(CartOptions(groups, sel)) == SelectionExtra(groups, sel)
    decreases |sel|
  {
    if sel != [] {
      var init := sel[..|sel| - 1];
      var last := sel[|sel| - 1];
      var group := FindGroup(groups, last.groupKey).value;
      CartOptionsPrice(groups, init);
      GroupCartOptionsPrice(group, last.optionKeys);
      SumPricesAppend(CartOptions(groups, init), GroupCartOptions(group, last.optionKeys));
    }
  }

  /** How many chosen keys the selection holds in all. */
  function KeyCount(sel: Selection): nat
    decreases |sel|
  {
    if sel == [] then 0 else KeyCount(sel[..|sel| - 1]) + |sel[|sel| - 1].optionKeys|
  }

  /** Every chosen key names an option of its group. */
  predicate KeysExist(groups: seq<OptionGroup>, sel: Selection)
    requires Fits(groups, sel)
  {
    forall i, j :: 0 <= i < |sel| && 0 <= j < |sel[i].optionKeys| ==>
      FindOption(FindGroup(groups, sel[i].groupKey).value.options, sel[i].optionKeys[j]).Some?
  }

  /** When every chosen key names an option, the cart gets exactly one entry per chosen option. */
  lemma {:induction false} CartOptionsCount(groups: seq<OptionGroup>, sel: Selection)
    requires Fits(groups, sel) && KeysExist(groups, sel)
    ensures |CartOptions(groups, sel)| == KeyCount(sel)
    decreases |sel|
  {
    if sel != [] {
      var init := sel[..|sel| - 1];
      var last := sel[|sel| - 1];
      assert Fits(groups, init) && KeysExist(groups, init) by {
        forall i | 0 <= i < |init| ensures init[i] == sel[i] { }
      }
      CartOptionsCount(groups, init);
      var group := FindGroup(groups, last.groupKey).value;
      assert forall j :: 0 <= j < |last.optionKeys| ==> FindOption(group.options, last.optionKeys[j]).Some?;
      FoundCountAll(group.options, last.optionKeys);
    }
  }

  /** The entry chosen key `j` of selection entry `i` gives, if it names an option of its group. */
  function KeyEntry(groups: seq<OptionGroup>, sel: Selection, i: int, j: int): (e: Option<ChosenOption>)
    requires Fits(groups, sel) && 0 <= i < |sel| && 0 <= j < |sel[i].optionKeys|
    ensures e.Some? <==> FindOption(FindGroup(groups, sel[i].groupKey).value.options, sel[i].optionKeys[j]).Some?
  {
    var group := FindGroup(groups, sel[i].groupKey).value;
    match FindOption(group.options, sel[i].optionKeys[j])
    case Some(o) => Some(Entry(group, o))
    case None => None
  }

  /** Every option handed to the cart is the entry of some chosen key. */
  lemma {:induction false} CartOptionsSound(groups: seq<OptionGroup>, sel: Selection)
    requires Fits(groups, sel)
    ensures forall e :: e in CartOptions(groups, sel) ==>
              exists i, j :: 0 <= i < |sel| && 0 <= j < |sel[i].optionKeys| && KeyEntry(groups, sel, i, j) == Some(e)
    decreases |sel|
  {
    if sel != [] {
      var n := |sel| - 1;
      var init := sel[..n];
      var last := sel[n];
      var group := FindGroup(groups, last.groupKey).value;
      assert Fits(groups, init) by {
        forall i | 0 <= i < |init| ensures init[i] == sel[i] { }
      }
      CartOptionsSound(groups, init);
      GroupCartOptionsSound(group, last.optionKeys);
      var tail := GroupCartOptions(group, last.optionKeys);
      assert CartOptions(groups, sel) == CartOptions(groups, init) + tail;
      forall e | e in CartOptions(groups, sel)
        ensures exists i, j :: 0 <= i < |sel| && 0 <= j < |sel[i].optionKeys| && KeyEntry(groups, sel, i, j) == Some(e)
      {
        if e in CartOptions(groups, init) {
          var i, j :| 0 <= i < |init| && 0 <= j < |init[i].optionKeys| && KeyEntry(groups, init, i, j) == Some(e);
          assert init[i] == sel[i];
          assert KeyEntry(groups, sel, i, j) == Some(e);
        } else {
          assert e in tail;
          var k :| 0 <= k < |tail| && tail[k] == e;
          var j :| 0 <= j < |last.optionKeys| && FindOption(group.options, last.optionKeys[j]).Some?
                   && tail[k] == Entry(group, FindOption(group.options, last.optionKeys[j]).value);
          assert KeyEntry(groups, sel, n, j) == Some(e);
        }
      }
    }
  }

  /** Every chosen key that names an option of its group puts that option's entry in the cart. */
  lemma {:induction false} CartOptionsComplete(groups: seq<OptionGroup>, sel: Selection)
    requires Fits(groups, sel)
    ensures forall i, j :: 0 <= i < |sel| && 0 <= j < |sel[i].optionKeys| && KeyEntry(groups, sel, i, j).Some? ==>
              KeyEntry(groups, sel, i, j).value in CartOptions(groups, sel)
    decreases |sel|
  {
    if sel != [] {
      var n := |sel| - 1;
      var init := sel[..n];
      var last := sel[n];
      var group := FindGroup(groups, last.groupKey).value;
      assert Fits(groups, init) by {
        forall i | 0 <= i < |init| ensures init[i] == sel[i] { }
      }
      CartOptionsComplete(groups, init);
      GroupCartOptionsComplete(group, last.optionKeys);
      var tail := GroupCartOptions(group, last.optionKeys);
      assert CartOptions(groups, sel) == CartOptions(groups, init) + tail;
      forall i, j | 0 <= i < |sel| && 0 <= j < |sel[i].optionKeys| && KeyEntry(groups, sel, i, j).Some?
        ensures KeyEntry(groups, sel, i, j).value in CartOptions(groups, sel)
      {
        if i < n {
          assert init[i] == sel[i];
          assert KeyEntry(groups, init, i, j) == KeyEntry(groups, sel, i, j);
        } else {
          var k := FoundCount(group.options, last.optionKeys[..j]);
          assert tail[k] == KeyEntry(groups, sel, i, j).value;
          assert tail[k] in tail;
        }
      }
    }
  }

  /**
   * The price effect: start from the base price and add, group by group and
   * option by option, the price of every chosen option the group still has.
   */
  method ComputeTotalPrice(basePrice: int, groups: seq<OptionGroup>, sel: Selection) returns (price: int)
    requires Fits(groups, sel)
    ensures price == basePrice + SelectionExtra(groups, sel)
  {
    price := basePrice;
    var i := 0;
    while i < |sel|
      invariant 0 <= i <= |sel|
      invariant Fits(groups, sel[..i])
      invariant price == basePrice + SelectionExtra(groups, sel[..i])
    {
      var group := FindGroup(groups, sel[i].groupKey).value;
      var keys := sel[i].optionKeys;
      var j := 0;
      while j < |keys|
        invariant 0 <= j <= |keys|
        invariant price == basePrice + SelectionExtra(groups, sel[..i]) + GroupExtra(group, keys[..j])
      {
        var found := FindOption(group.options, keys[j]);
        if found.Some? {
          price := price + found.value.price;
        }
        assert keys[..j + 1][..j] == keys[..j] && keys[..j + 1][j] == keys[j];
        j := j + 1;
      }
      assert keys[..j] == keys;
      assert sel[..i + 1][..i] == sel[..i] && sel[..i + 1][i] == sel[i];
      i := i + 1;
    }
    assert sel[..i] == sel;
  }

  /** `handleAddToCartClick`'s inner loop: one entry per key of the group that names an option. */
  method CollectGroupOptions(group: OptionGroup, keys: seq<string>) returns (found: seq<ChosenOption>)
    ensures found == GroupCartOptions(group, keys)
  {
    found := [];
    var j := 0;
    while j < |keys|
      invariant 0 <= j <= |keys|
      invariant found == GroupCartOptions(group, keys[..j])
    {
      var option := FindOption(group.options, keys[j]);
      if option.Some? {
        found := found + [Entry(group, option.value)];
      }
      assert keys[..j + 1][..j] == keys[..j] && keys[..j + 1][j] == keys[j];
      j := j + 1;
    }
    assert keys[..j] == keys;
  }

  /** `handleAddToCartClick`'s outer loop: the groups' entries in selection order. */
  method CollectCartOptions(groups: seq<OptionGroup>, sel: Selection) returns (opts: seq<ChosenOption>)
    requires Fits(groups, sel)
    ensures opts == CartOptions(groups, sel)
  {
    opts := [];
    var i := 0;
    while i < |sel|
      invariant 0 <= i <= |sel|
      invariant Fits(groups, sel[..i])
      invariant opts == CartOptions(groups, sel[..i])
    {
      var group := FindGroup(groups, sel[i].groupKey).value;
      var found := CollectGroupOptions(group, sel[i].optionKeys);
      opts := opts + found;
      assert sel[..i + 1][..i] == sel[..i] && sel[..i + 1][i] == sel[i];
      i := i + 1;
    }
    assert sel[..i] == sel;
  }

  /** `isMissingRequiredOptions`: some required group has no chosen option. */
  function MissingRequired(groups: seq<OptionGroup>, sel: Selection): (missing: bool)
    ensures missing <==> exists i :: 0 <= i < |groups| && groups[i].isRequired && Lookup(sel, KeyOf(groups[i].id)) == []
  {
    if groups == [] then false
    else (groups[0].isRequired && Lookup(sel, KeyOf(groups[0].id)) == []) || MissingRequired(groups[1..], sel)
  }

  /** With no required group nothing can be missing. */
  lemma NoRequiredGroupNeverMissing(groups: seq<OptionGroup>, sel: Selection)
    requires forall g :: g in groups ==> !g.isRequired
    ensures !MissingRequired(groups, sel)
  {
  }

  /** Every group of a saved item carries an id, so its key names it. */
  predicate GroupIdsPresent(groups: seq<OptionGroup>) {
    forall i :: 0 <= i < |groups| ==> groups[i].id.Some?
  }

  class CustomizationModal {
    var item: MenuItem
    var selection: Selection
    var totalPrice: int

    /** The selection is an object over the item's groups, and the price shown is the item's price with that selection. */
    ghost predicate Valid()
      reads this
    {
      && GroupIdsPresent(Groups(item))
      && WellFormed(selection)
      && Fits(Groups(item), selection)
      && totalPrice == item.price + SelectionExtra(Groups(item), selection)
    }

    /** Opening the modal for an item: nothing chosen, the base price shown. */
    constructor (item: MenuItem)
      requires GroupIdsPresent(Groups(item))
      ensures this.item == item && selection == [] && totalPrice == item.price
      ensures Valid()
    {
      this.item := item;
      selection := [];
      totalPrice := item.price;
    }

    /** The reset effect, run when the modal opens or its item changes. */
    method Reset(newItem: MenuItem)
      requires GroupIdsPresent(Groups(newItem))
      modifies this
      ensures item == newItem && selection == [] && totalPrice == newItem.price
      ensures Valid()
    {
      item := newItem;
      totalPrice := newItem.price;
      selection := [];
    }

    /**
     * A click on option `oi` of group `gi` (both as rendered), followed by the
     * price effect.
     */
    method HandleOptionChange(gi: nat, oi: nat)
      requires Valid()
      requires gi < |Groups(item)| && oi < |Groups(item)[gi].options|
      modifies this`selection, this`totalPrice
      ensures Valid() && item == old(item)
      ensures var g := Groups(item)[gi];
              selection == Choose(old(selection), KeyOf(g.id), KeyOf(g.options[oi].id), g.allowMultiple)
    {
      var groups := Groups(item);
      var g := groups[gi];
      var next := Choose(selection, KeyOf(g.id), KeyOf(g.options[oi].id), g.allowMultiple);
      ClickKeepsSelectionValid(groups, selection, gi, oi);
      var price := ComputeTotalPrice(item.price, groups, next);
      selection, totalPrice := next, price;
      assert groups == Groups(item);
    }

    /**
     * The add-to-cart button: disabled (no call) while a required group is
     * empty; otherwise it hands the cart the chosen options and the shown
     * price, which is the base price plus those options' prices.
     */
    method AddToCartClick() returns (added: Option<(seq<ChosenOption>, int)>)
      requires Valid()
      ensures added.None? <==> MissingRequired(Groups(item), selection)
      ensures added.Some? ==> added.value.0 == CartOptions(Groups(item), selection)
                              && added.value.1 == totalPrice
                              && added.value.1 == item.price + SumPrices(added.value.0)
    {
      if MissingRequired(Groups(item), selection) {
        return None;
      }
      var opts := CollectCartOptions(Groups(item), selection);
      CartOptionsPrice(Groups(item), selection);
      added := Some((opts, totalPrice));
    }
  }

  /** A click on one of the rendered options keeps the selection an object over the item's groups. */
  lemma ClickKeepsSelectionValid(groups: seq<OptionGroup>, sel: Selection, gi: nat, oi: nat)
    requires GroupIdsPresent(groups) && WellFormed(sel) && Fits(groups, sel)
    requires gi < |groups| && oi < |groups[gi].options|
    ensures var g := groups[gi];
            var next := Choose(sel, KeyOf(g.id), KeyOf(g.options[oi].id), g.allowMultiple);
            WellFormed(next) && Fits(groups, next)
  {
    var g := groups[gi];
    var gkey, okey := KeyOf(g.id), KeyOf(g.options[oi].id);
    ChooseWellFormed(sel, gkey, okey, g.allowMultiple);
    FindGroupPresent(groups, gi);
    ChooseFits(groups, sel, gkey, okey, g.allowMultiple);
  }

  /** A click on a group of the item keeps every selected group one of the item's. */
  lemma ChooseFits(groups: seq<OptionGroup>, sel: Selection, groupKey: string, optionKey: string, isMultiple: bool)
    requires Fits(groups, sel) && FindGroup(groups, groupKey).Some?
    ensures Fits(groups, Choose(sel, groupKey, optionKey, isMultiple))
  {
    var r := Choose(sel, groupKey, optionKey, isMultiple);
    forall i | 0 <= i < |r| ensures FindGroup(groups, r[i].groupKey).Some? {
      if r[i].groupKey != groupKey {
        assert r[i] == sel[i];
      }
    }
  }

  /** A group whose id is present is found by its own key. */
  lemma {:induction false} FindGroupPresent(groups: seq<OptionGroup>, gi: nat)
    requires gi < |groups| && groups[gi].id.Some?
    ensures FindGroup(groups, KeyOf(groups[gi].id)).Some?
  {
    if gi > 0 && groups[0].id != Some(KeyOf(groups[gi].id)) {
      FindGroupPresent(groups[1..], gi - 1);
    }
  }
}
