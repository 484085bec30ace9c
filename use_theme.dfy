/**
 * The theme hook (client/src/hooks/use-theme.tsx): an index into four themes, restored from
 * localStorage on mount and advanced cyclically by switchTheme, which saves the new name.
 */
module UseTheme {
  import opened Wrappers
  import opened Storage
  import opened BrowserStorage

  const Themes: seq<string> := ["theme-dark", "theme-blue", "theme-purple", "theme-red"]

  /** The localStorage key the hook reads and writes. */
  const ThemeKey := "profile-theme"

  /** The index after one switch. */
  function Next(i: nat): (j: nat)
    requires i < |Themes|
    ensures j < |Themes|
    ensures j == if i == |Themes| - 1 then 0 else i + 1
  {
    (i + 1) % |Themes|
  }

  /** Four switches bring the hook back to the theme it started from. */
  lemma FourSwitchesReturn(i: nat)
    requires i < |Themes|
    ensures Next(Next(Next(Next(i)))) == i
    ensures Next(i) != i && Next(Next(i)) != i && Next(Next(Next(i))) != i
  {
  }

  /** The restore effect's outcome: the saved name's position when it is one of the four, else `current`. */
  function Restored(current: nat, saved: Option<string>): (i: nat)
    requires current < |Themes|
    ensures i < |Themes|
    ensures Truthy(saved) && saved.value in Themes ==> Themes[i] == saved.value
    ensures !(Truthy(saved) && saved.value in Themes) ==> i == current
  {
    if !Truthy(saved) then current
    else
      match FirstIndex(Themes, (t: string) => t == saved.value)
      case None => current
      case Some(k) => k
  }

  /** Whatever the hook saved on a switch, the next mount restores that same theme. */
  lemma {:induction false} SwitchThenRestore(i: nat, current: nat)
    requires i < |Themes| && current < |Themes|
    ensures Restored(current, Some(Themes[Next(i)])) == Next(i)
  {
    var j := Next(i);
    assert Themes[j] in Themes && Themes[j] != "";
    var k := Restored(current, Some(Themes[j]));
    assert Themes[k] == Themes[j];
    assert Themes[0] != Themes[1] && Themes[0] != Themes[2] && Themes[0] != Themes[3];
    assert Themes[1] != Themes[2] && Themes[1] != Themes[3] && Themes[2] != Themes[3];
  }

  class ThemeHook {
    /** currentThemeIndex. */
    var index: nat

    predicate Valid()
      reads this
    {
      index < |Themes|
    }

    /** The hook's first render: the first theme. */
    constructor()
      ensures Valid() && index == 0
    {
      index := 0;
    }

    /** The returned theme: always one of the four. */
    function Theme(): (t: string)
      reads this
      requires Valid()
      ensures t in Themes
    {
      Themes[index]
    }

    /** The mount effect: a saved theme name is applied only when it is one of the four. */
    method Restore(storage: LocalStorage)
      requires Valid()
      modifies this
      ensures Valid() && index == Restored(old(index), storage.GetItem(ThemeKey))
    {
      var saved := storage.GetItem(ThemeKey);
      if Truthy(saved) {
        var k := FirstIndex(Themes, (t: string) => t == saved.value);
        if k.Some? {
          index := k.value;
        }
      }
    }

    /** switchTheme: the next theme, saved under "profile-theme". */
    method SwitchTheme(storage: LocalStorage)
      requires Valid()
      modifies this, storage
      ensures Valid() && index == Next(old(index))
      ensures storage.items == old(storage.items)[ThemeKey := Themes[index]]
    {
      index := (index + 1) % |Themes|;
      storage.SetItem(ThemeKey, Themes[index]);
    }
  }
}
