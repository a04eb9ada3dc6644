/**
 * The teacher pages' light/dark switch (`newnerd-interface/js/theme.js`):
 * one toggle button, the theme kept in the page body's `data-theme`
 * attribute and in the browser's storage under "nn-theme", and the first
 * theme taken from storage or, failing that, from the system's dark-mode
 * preference. The document is the list of its elements; the storage is a
 * map from keys to texts.
 */
module Theme {
  import opened Wrappers

  const StorageKey: string := "nn-theme"
  const ToggleId: string := "themeToggle"
  /** The id of the button a development server injects, which the page removes. */
  const InjectedId: string := "nn-theme-toggle"
  const Dark: string := "dark"
  const Light: string := "light"
  const SunIcon: string := "☀️"
  const MoonIcon: string := "🌙"
  const LightLabel: string := "Tema claro"
  const DarkLabel: string := "Tema escuro"

  /** An element of the document: its id, text and `aria-label`. */
  datatype Element = Element(id: string, text: string, ariaLabel: string)

  /** The button `ensureButton` creates ("Alternar tema", class "theme-toggle"): no text or label until `setIcon`. */
  const NewButton: Element := Element(ToggleId, "", "")

  /** `getElementById`: the first element with that id. */
  function FirstWithId(elements: seq<Element>, id: string): (r: Option<nat>)
    ensures r.Some? ==> r.value < |elements| && elements[r.value].id == id
    ensures r.Some? ==> forall i :: 0 <= i < r.value ==> elements[i].id != id
    ensures r.None? <==> forall i :: 0 <= i < |elements| ==> elements[i].id != id
  {
    if elements == [] then None
    else if elements[0].id == id then Some(0)
    else
      var rest := FirstWithId(elements[1..], id);
      if rest.None? then None else Some(rest.value + 1)
  }

  /** How many elements carry that id. */
  function CountId(elements: seq<Element>, id: string): nat
  {
    if elements == [] then 0 else (if elements[0].id == id then 1 else 0) + CountId(elements[1..], id)
  }

  lemma {:induction false} CountAppend(a: seq<Element>, e: Element, id: string)
    ensures CountId(a + [e], id) == CountId(a, id) + (if e.id == id then 1 else 0)
  {
    if a != [] {
      assert (a + [e])[1..] == a[1..] + [e];
      CountAppend(a[1..], e, id);
    }
  }

  lemma {:induction false} CountNone(a: seq<Element>, id: string)
    ensures CountId(a, id) == 0 <==> FirstWithId(a, id).None?
  {
    if a != [] {
      CountNone(a[1..], id);
    }
  }

  /** `removeChild`: the element at `i` taken out, the others kept in order. */
  function Without(elements: seq<Element>, i: nat): (r: seq<Element>)
    requires i < |elements|
    ensures |r| == |elements| - 1
    ensures forall j :: 0 <= j < i ==> r[j] == elements[j]
    ensures forall j :: i <= j < |r| ==> r[j] == elements[j + 1]
  {
    elements[..i] + elements[i + 1..]
  }

  /** Removing an element with another id keeps the count. */
  lemma {:induction false} RemoveKeepsOther(elements: seq<Element>, i: nat, id: string)
    requires i < |elements| && elements[i].id != id
    ensures CountId(Without(elements, i), id) == CountId(elements, id)
  {
    if i > 0 {
      RemoveKeepsOther(elements[1..], i - 1, id);
      assert Without(elements, i) == [elements[0]] + Without(elements[1..], i - 1);
    } else {
      assert Without(elements, i) == elements[1..];
    }
  }

  /** Replacing an element by one with the same id keeps every count. */
  lemma {:induction false} UpdateKeepsCount(elements: seq<Element>, i: nat, e: Element, id: string)
    requires i < |elements| && elements[i].id == e.id
    ensures CountId(elements[i := e], id) == CountId(elements, id)
  {
    if i > 0 {
      UpdateKeepsCount(elements[1..], i - 1, e, id);
      assert elements[i := e] == [elements[0]] + elements[1..][i - 1 := e];
    } else {
      assert elements[i := e][1..] == elements[1..];
    }
  }

  /** Replacing an element by one with the same id keeps the first element of every id where it was. */
  lemma {:induction false} UpdateKeepsFirst(elements: seq<Element>, i: nat, e: Element, id: string)
    requires i < |elements| && elements[i].id == e.id
    ensures FirstWithId(elements[i := e], id) == FirstWithId(elements, id)
  {
    if i > 0 {
      UpdateKeepsFirst(elements[1..], i - 1, e, id);
      assert elements[i := e][1..] == elements[1..][i - 1 := e];
    } else {
      assert elements[i := e][1..] == elements[1..];
    }
  }

  /** The icon `setIcon` shows: the sun while dark (to switch to light), the moon otherwise. */
  function Icon(theme: string): (icon: string)
    ensures icon == SunIcon <==> theme == Dark
  {
    if theme == Dark then SunIcon else MoonIcon
  }

  /** The button's `aria-label`, naming the theme a click switches to. */
  function Label(theme: string): (l: string)
    ensures l == LightLabel <==> theme == Dark
  {
    if theme == Dark then LightLabel else DarkLabel
  }

  /** `toggleTheme`'s choice: light after dark, dark after anything else, a missing or empty attribute included. */
  function Toggled(current: Option<string>): (next: string)
    ensures next == Light <==> current == Some(Dark)
    ensures next == Dark || next == Light
  {
    var cur := if current.None? || current.value == "" then Light else current.value;
    if cur == Dark then Light else Dark
  }

  /** Toggling twice from dark or light comes back to it; from any other state it ends on light. */
  lemma {:induction false} ToggleTwice(t: string)
    ensures t == Dark || t == Light ==> Toggled(Some(Toggled(Some(t)))) == t
    ensures t != Dark && t != Light ==> Toggled(Some(Toggled(Some(t)))) == Light
  {
    assert Dark != Light by {
      assert Dark[0] != Light[0];
    }
  }

  /** `init`'s first theme: the stored one when it is there and not empty, else dark exactly when the system prefers it. */
  function InitialTheme(stored: Option<string>, prefersDark: bool): (theme: string)
    ensures stored.Some? && stored.value != "" ==> theme == stored.value
    ensures (stored.None? || stored.value == "") ==> (theme == Dark <==> prefersDark) && (theme == Dark || theme == Light)
  {
    if stored.Some? && stored.value != "" then stored.value
    else if prefersDark then Dark else Light
  }

  class Page {
    /** The body's `data-theme` attribute, None while it is absent. */
    var dataTheme: Option<string>
    /** The document's elements, in order. */
    var elements: seq<Element>
    /** `localStorage`. */
    var storage: map<string, string>

    constructor (elements0: seq<Element>, storage0: map<string, string>)
      ensures dataTheme == None && elements == elements0 && storage == storage0
    {
      dataTheme, elements, storage := None, elements0, storage0;
    }

    /** `ensureButton`: the toggle button, created at the end of the body only when there is none. */
    method EnsureButton() returns (index: nat)
      modifies this
      ensures dataTheme == old(dataTheme) && storage == old(storage)
      ensures index < |elements| && elements[index].id == ToggleId
      ensures old(FirstWithId(elements, ToggleId)).Some? ==>
        elements == old(elements) && index == old(FirstWithId(elements, ToggleId)).value
      ensures old(FirstWithId(elements, ToggleId)).None? ==> elements == old(elements) + [NewButton] && index == |old(elements)|
      ensures CountId(elements, ToggleId) == if old(CountId(elements, ToggleId)) == 0 then 1 else old(CountId(elements, ToggleId))
      ensures forall id :: id != ToggleId ==> CountId(elements, id) == old(CountId(elements, id))
    {
      var found := FirstWithId(elements, ToggleId);
      CountNone(elements, ToggleId);
      if found.Some? {
        return found.value;
      }
      forall id {
        CountAppend(elements, NewButton, id);
      }
      elements := elements + [NewButton];
      index := |elements| - 1;
    }

    /** `setIcon(getElementById("themeToggle"), theme)`: the first toggle button shows the icon and label; nothing without one. */
    method SetIcon(theme: string)
      modifies this
      ensures dataTheme == old(dataTheme) && storage == old(storage)
      ensures FirstWithId(elements, ToggleId) == old(FirstWithId(elements, ToggleId))
      ensures forall id :: CountId(elements, id) == old(CountId(elements, id))
      ensures old(FirstWithId(elements, ToggleId)).None? ==> elements == old(elements)
      ensures old(FirstWithId(elements, ToggleId)).Some? ==>
        var i := old(FirstWithId(elements, ToggleId)).value;
        elements == old(elements)[i := Element(ToggleId, Icon(theme), Label(theme))]
    {
      var found := FirstWithId(elements, ToggleId);
      if found.None? {
        return;
      }
      var i := found.value;
      var before := elements;
      elements := elements[i := Element(ToggleId, Icon(theme), Label(theme))];
      assert forall j :: 0 <= j < |elements| && j != i ==> elements[j] == before[j];
      forall id {
        UpdateKeepsCount(before, i, Element(ToggleId, Icon(theme), Label(theme)), id);
      }
      UpdateKeepsFirst(before, i, Element(ToggleId, Icon(theme), Label(theme)), ToggleId);
    }

    /** `applyTheme`: the attribute set, the button's icon updated, and the theme stored under "nn-theme". */
    method ApplyTheme(theme: string)
      modifies this
      ensures dataTheme == Some(theme)
      ensures storage == old(storage)[StorageKey := theme]
      ensures FirstWithId(elements, ToggleId) == old(FirstWithId(elements, ToggleId))
      ensures forall id :: CountId(elements, id) == old(CountId(elements, id))
      ensures FirstWithId(elements, ToggleId).Some? ==>
        var i := FirstWithId(elements, ToggleId).value;
        elements == old(elements)[i := Element(ToggleId, Icon(theme), Label(theme))]
      ensures FirstWithId(elements, ToggleId).None? ==> elements == old(elements)
    {
      dataTheme := Some(theme);
      SetIcon(theme);
      storage := storage[StorageKey := theme];
    }

    /** `toggleTheme`: light after dark, dark otherwise, applied. */
    method ToggleTheme()
      modifies this
      ensures dataTheme == Some(Toggled(old(dataTheme)))
      ensures storage == old(storage)[StorageKey := Toggled(old(dataTheme))]
      ensures FirstWithId(elements, ToggleId) == old(FirstWithId(elements, ToggleId))
    {
      ApplyTheme(Toggled(dataTheme));
    }

    /**
     * `init`: the injected button (if any) is removed, the toggle button
     * ensured, and the first theme (from storage, else from the system's
     * preference `prefersDark`) applied.
     */
    method Init(prefersDark: bool)
      modifies this
      ensures CountId(elements, InjectedId) == if old(CountId(elements, InjectedId)) == 0 then 0 else old(CountId(elements, InjectedId)) - 1
      ensures CountId(elements, ToggleId) == if old(CountId(elements, ToggleId)) == 0 then 1 else old(CountId(elements, ToggleId))
      ensures FirstWithId(elements, ToggleId).Some?
      ensures var stored := if StorageKey in old(storage) then Some(old(storage)[StorageKey]) else None;
        dataTheme == Some(InitialTheme(stored, prefersDark)) && storage == old(storage)[StorageKey := InitialTheme(stored, prefersDark)]
      ensures var b := elements[FirstWithId(elements, ToggleId).value];
        b.text == Icon(dataTheme.value) && b.ariaLabel == Label(dataTheme.value)
    {
      var injected := FirstWithId(elements, InjectedId);
      if injected.Some? {
        RemoveDropsOne(elements, injected.value, InjectedId);
        RemoveKeepsOther(elements, injected.value, ToggleId);
        elements := Without(elements, injected.value);
      } else {
        CountNone(elements, InjectedId);
      }
      var btn := EnsureButton();
      var stored := if StorageKey in storage then Some(storage[StorageKey]) else None;
      ApplyTheme(InitialTheme(stored, prefersDark));
    }
  }

  /** Removing an element with the id leaves one fewer. */
  lemma {:induction false} RemoveDropsOne(elements: seq<Element>, i: nat, id: string)
    requires i < |elements| && elements[i].id == id
    ensures CountId(Without(elements, i), id) == CountId(elements, id) - 1
  {
    if i > 0 {
      RemoveDropsOne(elements[1..], i - 1, id);
      assert Without(elements, i) == [elements[0]] + Without(elements[1..], i - 1);
    } else {
      assert Without(elements, i) == elements[1..];
    }
  }

  /**
   * Starting any page leaves at least one toggle button: exactly one when it had
   * none or one, and the page's own buttons untouched in number otherwise.
   */
  method InitLeavesOneButton(elements0: seq<Element>, storage0: map<string, string>, prefersDark: bool)
    returns (count: nat)
    ensures count >= 1
    ensures CountId(elements0, ToggleId) <= 1 ==> count == 1
    ensures CountId(elements0, ToggleId) > 1 ==> count == CountId(elements0, ToggleId)
  {
    var p := new Page(elements0, storage0);
    p.Init(prefersDark);
    count := CountId(p.elements, ToggleId);
  }
}
