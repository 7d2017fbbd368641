/**
 * The settings menu tree. A group holds, in order, leaves (one setting key each) and other groups; a group's key is
 * the name its parent gave it when it was added.
 */
module SettingGroup {
  import opened Wrappers

  /** A `SettingNode`: a leaf with its key, or a group (an object whose children and name can change). */
  datatype SettingNode = Leaf(key: string) | Group(group: SettingGroup)

  /** `isGroup`: true for a group, false for a leaf. */
  function IsGroup(n: SettingNode): bool {
    n.Group?
  }

  /** The node is a group whose key is `key`: what `getChildGroup` looks for. */
  predicate GroupNamed(n: SettingNode, key: string)
    reads if n.Group? then {n.group} else {}
  {
    n.Group? && n.group.unlocalizedName == key
  }

  class SettingGroup {
    var children: seq<SettingNode>
    var unlocalizedName: string

    /** A new group has no children and the empty key. */
    constructor ()
      ensures children == [] && unlocalizedName == ""
    {
      children := [];
      unlocalizedName := "";
    }

    /** `getKey`. */
    function Key(): string
      reads this
    {
      unlocalizedName
    }

    /** `isGroup` and `shouldDisplay` of a group: both are always true. */
    function ShouldDisplay(): (r: bool)
      ensures r
    {
      true
    }

    /** `add(key)`: appends a leaf with that key; the group itself is returned for chaining. */
    method AddLeaf(notLocalised: string) returns (r: SettingGroup)
      modifies this
      ensures r == this
      ensures children == old(children) + [Leaf(notLocalised)]
      ensures unlocalizedName == old(unlocalizedName)
    {
      children := children + [Leaf(notLocalised)];
      return this;
    }

    /**
     * `add(name, group)`: names the child group, then appends it. A null group throws before anything changes.
     * The group itself is returned for chaining.
     */
    method AddGroup(name: string, settingGroup: SettingGroup?) returns (r: Result<SettingGroup>)
      modifies this, settingGroup
      ensures settingGroup == null ==> r == Err(NullPointer) && unchanged(this)
      ensures settingGroup != null ==> r == Ok(this)
      ensures settingGroup != null ==> settingGroup.unlocalizedName == name
      ensures settingGroup != null ==> children == old(children) + [Group(settingGroup)]
      ensures settingGroup != null && settingGroup != this ==> unlocalizedName == old(unlocalizedName)
      ensures settingGroup != null && settingGroup != this ==> settingGroup.children == old(settingGroup.children)
    {
      if settingGroup == null {
        return Err(NullPointer);
      }
      settingGroup.unlocalizedName := name;
      children := children + [Group(settingGroup)];
      return Ok(this);
    }

    /**
     * `getChildGroup`: the first direct child that is a group with this key, or null. Leaves are never returned,
     * whatever their key. A null key throws once the search reaches a group.
     */
    method GetChildGroup(key: Option<string>) returns (r: Result<Option<SettingGroup>>)
      ensures key.Some? ==> r.Ok?
      ensures key.Some? && r.value.Some? ==> exists i :: 0 <= i < |children| && children[i] == Group(r.value.value)
                                                   && r.value.value.unlocalizedName == key.value
                                                   && forall j :: 0 <= j < i ==> !GroupNamed(children[j], key.value)
      ensures key.Some? && r.value.None? ==> forall j :: 0 <= j < |children| ==> !GroupNamed(children[j], key.value)
      ensures key.None? ==> (r.Err? <==> exists i :: 0 <= i < |children| && children[i].Group?)
      ensures key.None? && r.Ok? ==> r.value.None?
      ensures r.Err? ==> r.error == NullPointer
    {
      for i := 0 to |children|
        invariant key.Some? ==> forall j :: 0 <= j < i ==> !GroupNamed(children[j], key.value)
        invariant key.None? ==> forall j :: 0 <= j < i ==> !children[j].Group?
      {
        var n := children[i];
        if IsGroup(n) {
          if key.None? {
            return Err(NullPointer);
          }
          if key.value == n.group.Key() {
            return Ok(Some(n.group));
          }
        }
      }
      return Ok(None);
    }
  }
}
