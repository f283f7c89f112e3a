/** The kitchen profile screen: the user's appliances and utensils, and the
    text box whose content "Add" appends to the appliances. */
module KitchenProfile {

  /** The `profile` state value; each update replaces it as a whole. */
  datatype Profile = Profile(appliances: seq<string>, utensils: seq<string>)

  /** The profile the screen starts with. */
  const DefaultProfile: Profile := Profile(["pan", "oven"], ["knife", "cutting board"])

  /** `{ ...prev, appliances: [...prev.appliances, item] }`. */
  function WithAppliance(p: Profile, item: string): (r: Profile)
    ensures |r.appliances| == |p.appliances| + 1
    ensures r.appliances[..|p.appliances|] == p.appliances
    ensures r.appliances[|p.appliances|] == item
    ensures r.utensils == p.utensils
  {
    p.(appliances := p.appliances + [item])
  }

  /** No de-duplication: adding an appliance already listed lists it once more. */
  lemma AddingCountsOnceMore(p: Profile, item: string)
    ensures multiset(WithAppliance(p, item).appliances)[item] == multiset(p.appliances)[item] + 1
    ensures forall other :: other != item ==>
      multiset(WithAppliance(p, item).appliances)[other] == multiset(p.appliances)[other]
  {
  }

  /** The profile after adding each of `items` in turn. */
  function WithAppliances(p: Profile, items: seq<string>): Profile
    decreases |items|
  {
    if items == [] then p else WithAppliances(WithAppliance(p, items[0]), items[1..])
  }

  /** Successive adds append in the order they were made and never touch
      the utensils. */
  lemma {:induction false} AddsAppendInOrder(p: Profile, items: seq<string>)
    ensures WithAppliances(p, items).appliances == p.appliances + items
    ensures WithAppliances(p, items).utensils == p.utensils
    decreases |items|
  {
    if items != [] {
      var q := WithAppliance(p, items[0]);
      AddsAppendInOrder(q, items[1..]);
      assert [items[0]] + items[1..] == items;
      assert (p.appliances + [items[0]]) + items[1..] == p.appliances + items;
    }
  }

  /** The screen's state: the profile and the text box's content. */
  class KitchenProfileScreen {
    var profile: Profile
    var newItem: string

    constructor ()
      ensures profile == DefaultProfile && newItem == ""
    {
      profile := DefaultProfile;
      newItem := "";
    }

    /** Typing in the text box replaces its content. */
    method EditNewItem(text: string)
      modifies this`newItem
      ensures newItem == text
      ensures profile == old(profile)
    {
      newItem := text;
    }

    /** "Add": an empty text box changes nothing; otherwise its text is
        appended to the appliances and the box is cleared. */
    method AddItem()
      modifies this
      ensures old(newItem) == "" ==> profile == old(profile) && newItem == old(newItem)
      ensures old(newItem) != "" ==>
        profile == WithAppliance(old(profile), old(newItem)) && newItem == ""
    {
      if newItem == "" {
        return;
      }
      profile := WithAppliance(profile, newItem);
      newItem := "";
    }
  }
}
