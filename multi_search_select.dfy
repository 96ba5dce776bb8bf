// The selection logic of the multi-select search box
// (src/components/ui/multi-search-select.tsx): toggling and removing ids,
// the selected options, the trigger text and the search filter.

module MultiSearchSelect {
  import opened Common
  import opened Strings

  datatype SelectOption = SelectOption(id: int, name: string)

  const DefaultMaxDisplay: int := 2

  /**
   * `handleSelect(optionId)`: drop every occurrence of a selected id, append
   * an unselected one. Toggling flips the membership of the toggled id and
   * keeps that of every other id.
   */
  function HandleSelect(value: seq<int>, optionId: int): (r: seq<int>)
    ensures optionId in r <==> optionId !in value
    ensures forall x :: x != optionId ==> (x in r <==> x in value)
    ensures optionId !in value ==> r == value + [optionId]
  {
    RemoveAllMembers(value, optionId);
    if optionId in value then RemoveAll(value, optionId) else value + [optionId]
  }

  /** `removeOption(optionId)`: the id is gone and every other id keeps its membership. */
  function RemoveOption(value: seq<int>, optionId: int): (r: seq<int>)
    ensures optionId !in r
    ensures forall x :: x != optionId ==> (x in r <==> x in value)
  {
    RemoveAllMembers(value, optionId);
    RemoveAll(value, optionId)
  }

  /** Toggling an unselected id twice gives back the selection it started from. */
  lemma HandleSelectTwice(value: seq<int>, optionId: int)
    requires optionId !in value
    ensures HandleSelect(HandleSelect(value, optionId), optionId) == value
  {
    RemoveAllAppend(value, [optionId], optionId);
    RemoveAllMembers(value, optionId);
    assert RemoveAll([optionId], optionId) == [];
  }

  /** Removing an absent id does nothing, and removing twice is removing once. */
  lemma RemoveOptionFacts(value: seq<int>, optionId: int)
    ensures optionId !in value ==> RemoveOption(value, optionId) == value
    ensures RemoveOption(RemoveOption(value, optionId), optionId) == RemoveOption(value, optionId)
  {
    RemoveAllMembers(value, optionId);
    RemoveAllMembers(RemoveAll(value, optionId), optionId);
  }

  /** `options.filter(option => value.includes(option.id))` */
  function SelectedOptions(options: seq<SelectOption>, value: seq<int>): (r: seq<SelectOption>)
    ensures |r| <= |options|
  {
    if options == [] then []
    else
      var last := options[|options| - 1];
      SelectedOptions(options[..|options| - 1], value) + (if last.id in value then [last] else [])
  }

  /** The selected options are exactly the options whose id is selected. */
  lemma {:induction false} SelectedOptionsMembers(options: seq<SelectOption>, value: seq<int>)
    ensures forall o :: o in SelectedOptions(options, value) <==> o in options && o.id in value
    decreases |options|
  {
    if options != [] {
      SelectedOptionsMembers(options[..|options| - 1], value);
      assert options == options[..|options| - 1] + [options[|options| - 1]];
    }
  }

  /** Selecting keeps the options' order: it distributes over concatenation. */
  lemma {:induction false} SelectedOptionsAppend(a: seq<SelectOption>, b: seq<SelectOption>, value: seq<int>)
    ensures SelectedOptions(a + b, value) == SelectedOptions(a, value) + SelectedOptions(b, value)
    decreases |b|
  {
    if b == [] {
      assert a + b == a;
    } else {
      var b' := b[..|b| - 1];
      var x := b[|b| - 1];
      assert (a + b)[..|a + b| - 1] == a + b';
      assert (a + b)[|a + b| - 1] == x;
      assert SelectedOptions(a + b, value) == SelectedOptions(a + b', value) + (if x.id in value then [x] else []);
      SelectedOptionsAppend(a, b', value);
    }
  }

  function Names(os: seq<SelectOption>): (r: seq<string>)
    ensures |r| == |os| && forall i :: 0 <= i < |os| ==> r[i] == os[i].name
  {
    seq(|os|, i requires 0 <= i < |os| => os[i].name)
  }

  /** `displayText`; `maxDisplay` is `None` when the prop is not given. */
  function DisplayText(options: seq<SelectOption>, value: seq<int>, placeholder: string, maxDisplay: Option<int>): (r: string)
    ensures (forall i :: 0 <= i < |options| ==> options[i].id !in value) ==> r == placeholder
  {
    var selected := SelectedOptions(options, value);
    SelectedOptionsMembers(options, value);
    assert |selected| > 0 ==> selected[0] in selected;
    var limit := if maxDisplay.Some? then maxDisplay.value else DefaultMaxDisplay;
    if |selected| == 0 then placeholder
    else if |selected| <= limit then Join(Names(selected), ", ")
    else NatToString(|selected|) + " selected"
  }

  /**
   * The trigger shows the placeholder when no option is selected, the one
   * name of a single selected option, the names of at most `maxDisplay`
   * (default 2) selected options, and their count beyond that.
   */
  lemma DisplayTextCases(options: seq<SelectOption>, value: seq<int>, placeholder: string, maxDisplay: Option<int>)
    ensures var selected := SelectedOptions(options, value);
      var limit := if maxDisplay.Some? then maxDisplay.value else 2;
      var text := DisplayText(options, value, placeholder, maxDisplay);
      (|selected| == 0 <==> forall i :: 0 <= i < |options| ==> options[i].id !in value)
      && (|selected| == 0 ==> text == placeholder)
      && (|selected| == 1 && limit >= 1 ==> text == selected[0].name)
      && (0 < |selected| <= limit ==> text == Join(Names(selected), ", "))
      && (|selected| > 0 && |selected| > limit ==> text == NatToString(|selected|) + " selected")
  {
    var selected := SelectedOptions(options, value);
    SelectedOptionsMembers(options, value);
    if |selected| == 0 {
      forall i | 0 <= i < |options| ensures options[i].id !in value {
        assert options[i] in options;
      }
    } else {
      assert selected[0] in selected;
    }
  }

  /** `options.filter(option => option.name.toLowerCase().includes(searchValue.toLowerCase()))` */
  function FilteredOptions(options: seq<SelectOption>, search: string): (r: seq<SelectOption>)
    ensures |r| <= |options|
  {
    if options == [] then []
    else
      var last := options[|options| - 1];
      FilteredOptions(options[..|options| - 1], search)
        + (if Contains(ToLower(last.name), ToLower(search)) then [last] else [])
  }

  /** The options kept are those whose name contains the search, ignoring ASCII case. */
  lemma {:induction false} FilteredOptionsMembers(options: seq<SelectOption>, search: string)
    ensures forall o :: o in FilteredOptions(options, search) <==> o in options && Contains(ToLower(o.name), ToLower(search))
    decreases |options|
  {
    if options != [] {
      FilteredOptionsMembers(options[..|options| - 1], search);
      assert options == options[..|options| - 1] + [options[|options| - 1]];
    }
  }

  /** An empty search keeps every option, in order. */
  lemma {:induction false} FilteredOptionsEmpty(options: seq<SelectOption>)
    ensures FilteredOptions(options, "") == options
    decreases |options|
  {
    if options != [] {
      FilteredOptionsEmpty(options[..|options| - 1]);
      ContainsEmpty(ToLower(options[|options| - 1].name));
      assert options == options[..|options| - 1] + [options[|options| - 1]];
    }
  }

  /** Searches that differ only in ASCII case keep the same options. */
  lemma FilteredOptionsCaseInsensitive(options: seq<SelectOption>, search: string)
    ensures FilteredOptions(options, ToUpper(search)) == FilteredOptions(options, search)
  {
    LowerOfUpper(search);
    FilteredOptionsSameLower(options, ToUpper(search), search);
  }

  lemma {:induction false} FilteredOptionsSameLower(options: seq<SelectOption>, s1: string, s2: string)
    requires ToLower(s1) == ToLower(s2)
    ensures FilteredOptions(options, s1) == FilteredOptions(options, s2)
    decreases |options|
  {
    if options != [] {
      FilteredOptionsSameLower(options[..|options| - 1], s1, s2);
    }
  }

  lemma {:induction false} LowerOfUpper(s: string)
    ensures ToLower(ToUpper(s)) == ToLower(s)
    decreases |s|
  {
    if s != [] {
      LowerOfUpper(s[1..]);
    }
  }
}
