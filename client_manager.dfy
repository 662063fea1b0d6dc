/**
 * The client-name registry: a fixed list of predefined client names and a
 * list of custom names the user adds and removes, persisted after every
 * change. The JSON file is modelled by what it holds.
 */
module Clients {
  import opened Wrappers
  import opened Text
  import opened Seqs

  /** What `clients.json` holds: nothing yet, something unreadable, or the two lists. */
  datatype StoredFile = Missing | Unreadable | Holds(predefined: seq<string>, custom: seq<string>)

  /** The reasons `add_custom_client` raises `ValueError`. */
  datatype AddError = EmptyName | Duplicate(name: string)

  /** The registry a fresh installation starts with. */
  const DEFAULT_PREDEFINED: seq<string> := [
    "Unilever Master - GCC",
    "AXE MALE DEODORANT 20",
    "Yazle Media",
    "Emirates Marketing Group",
    "Dubai Media Corporation",
    "ABC Trading LLC",
    "XYZ Distribution Company"
  ]

  /** The default names are seven distinct names. */
  lemma DefaultsDistinct()
    ensures |DEFAULT_PREDEFINED| == 7 && NoDup(DEFAULT_PREDEFINED)
  {
  }

  /**
   * The decision `add_custom_client` makes before it changes anything: the
   * name it would append, or why it refuses.
   */
  function CheckNewClient(predefined: seq<string>, custom: seq<string>, name: string): (r: Result<string, AddError>)
    ensures r == Err(EmptyName) <==> AllSpace(name)
    ensures r.Err? && r.error.Duplicate? <==> !AllSpace(name) && Strip(name) in predefined + custom
    ensures r.Err? && r.error.Duplicate? ==> r.error.name == Strip(name)
    ensures r.Ok? ==> r.value == Strip(name) && r.value != [] && Trimmed(r.value)
    ensures r.Ok? ==> r.value !in predefined && r.value !in custom
  {
    if name == [] || Strip(name) == [] then Err(EmptyName)
    else if Strip(name) in predefined + custom then Err(Duplicate(Strip(name)))
    else Ok(Strip(name))
  }

  /** Python's `list.remove(x)` when `x` is present: drops the first occurrence only. */
  function RemoveFirst<T(==)>(xs: seq<T>, x: T): seq<T>
  {
    if xs == [] then []
    else if xs[0] == x then xs[1..]
    else [xs[0]] + RemoveFirst(xs[1..], x)
  }

  /** Removal cuts out exactly the first occurrence, and leaves a list without the value as it is. */
  lemma {:induction false} RemoveFirstMeaning<T>(xs: seq<T>, x: T)
    ensures x !in xs ==> RemoveFirst(xs, x) == xs
    ensures x in xs ==> RemoveFirst(xs, x) == xs[..FirstIndex(xs, x)] + xs[FirstIndex(xs, x) + 1..]
  {
    if xs != [] && xs[0] != x {
      RemoveFirstMeaning(xs[1..], x);
      if x in xs {
        RemoveStep(xs, x);
      } else {
        assert [xs[0]] + xs[1..] == xs;
      }
    }
  }

  /** Past a different head, the first occurrence is one further on in the tail. */
  lemma RemoveStep<T>(xs: seq<T>, x: T)
    requires xs != [] && xs[0] != x && x in xs
    ensures x in xs[1..]
    ensures var i := FirstIndex(xs[1..], x);
      FirstIndex(xs, x) == i + 1 && xs[..i + 1] == [xs[0]] + xs[1..][..i] && xs[i + 2..] == xs[1..][i + 1..]
  {
    assert xs == [xs[0]] + xs[1..];
    TailSlices(xs, FirstIndex(xs[1..], x));
  }

  /** Slices of a list and of its tail, one position apart. */
  lemma TailSlices<T>(xs: seq<T>, i: nat)
    requires i + 1 < |xs|
    ensures xs[..i + 1] == [xs[0]] + xs[1..][..i] && xs[i + 2..] == xs[1..][i + 1..]
  {
  }

  /** Removing a present value shortens the list by one and keeps every other value's count. */
  lemma {:induction false} RemoveFirstCounts<T>(xs: seq<T>, x: T)
    requires x in xs
    ensures |RemoveFirst(xs, x)| == |xs| - 1
    ensures multiset(RemoveFirst(xs, x)) == multiset(xs) - multiset{x}
  {
    assert xs == [xs[0]] + xs[1..];
    if xs[0] != x {
      RemoveFirstCounts(xs[1..], x);
    }
  }

  /** A name appended to a list that did not hold it is removed again by `remove`. */
  lemma {:induction false} RemoveAppended<T>(xs: seq<T>, x: T)
    requires x !in xs
    ensures RemoveFirst(xs + [x], x) == xs
  {
    if xs != [] {
      assert (xs + [x])[1..] == xs[1..] + [x];
      RemoveAppended(xs[1..], x);
    }
  }

  /** A successful add keeps the combined list free of repeats, and grows it by exactly one. */
  lemma AddKeepsDistinct(predefined: seq<string>, custom: seq<string>, name: string)
    requires NoDup(predefined + custom)
    requires CheckNewClient(predefined, custom, name).Ok?
    ensures var v := CheckNewClient(predefined, custom, name).value;
      NoDup(predefined + (custom + [v])) && |predefined + (custom + [v])| == |predefined + custom| + 1
  {
    var v := CheckNewClient(predefined, custom, name).value;
    assert predefined + (custom + [v]) == (predefined + custom) + [v];
  }

  /** Removing a custom name keeps the combined list free of repeats. */
  lemma RemoveKeepsDistinct(predefined: seq<string>, custom: seq<string>, name: string)
    requires NoDup(predefined + custom)
    ensures NoDup(predefined + RemoveFirst(custom, name))
  {
    RemoveFirstMeaning(custom, name);
    if name in custom {
      var i := FirstIndex(custom, name);
      ConcatDrop(predefined, custom, i);
      DropKeepsDistinct(predefined + custom, |predefined| + i);
    }
  }

  /** Dropping from the second part of a concatenation is dropping from the whole. */
  lemma ConcatDrop<T>(p: seq<T>, c: seq<T>, i: nat)
    requires i < |c|
    ensures p + (c[..i] + c[i + 1..]) == (p + c)[..|p| + i] + (p + c)[|p| + i + 1..]
  {
    assert (p + c)[..|p| + i] == p + c[..i];
    assert (p + c)[|p| + i + 1..] == c[i + 1..];
  }

  /** Dropping one element keeps a list free of repeats. */
  lemma DropKeepsDistinct<T>(s: seq<T>, k: nat)
    requires NoDup(s) && k < |s|
    ensures NoDup(s[..k] + s[k + 1..])
  {
    var d := s[..k] + s[k + 1..];
    forall a, b | 0 <= a < b < |d| ensures d[a] != d[b] {
      var a' := if a < k then a else a + 1;
      var b' := if b < k then b else b + 1;
      assert d[a] == s[a'];
      assert d[b] == s[b'];
    }
  }

  /** Adding a name and then removing the returned name restores the custom list. */
  lemma AddThenRemove(predefined: seq<string>, custom: seq<string>, name: string)
    requires CheckNewClient(predefined, custom, name).Ok?
    ensures var v := CheckNewClient(predefined, custom, name).value;
      RemoveFirst(custom + [v], v) == custom
  {
    RemoveAppended(custom, CheckNewClient(predefined, custom, name).value);
  }

  class ClientManager {
    var predefined: seq<string>
    var custom: seq<string>
    /** The content of `clients.json`. */
    var file: StoredFile

    /**
     * Loads the registry: a readable file is taken as it is; an unreadable
     * one yields the defaults and is left alone; a missing one is created
     * with the defaults.
     */
    constructor (stored: StoredFile)
      ensures stored.Holds? ==> predefined == stored.predefined && custom == stored.custom && file == stored
      ensures stored.Unreadable? ==> predefined == DEFAULT_PREDEFINED && custom == [] && file == Unreadable
      ensures stored.Missing? ==> predefined == DEFAULT_PREDEFINED && custom == [] && file == Holds(DEFAULT_PREDEFINED, [])
    {
      match stored {
        case Holds(p, c) =>
          predefined, custom, file := p, c, stored;
        case Unreadable =>
          predefined, custom, file := DEFAULT_PREDEFINED, [], Unreadable;
        case Missing =>
          predefined, custom := DEFAULT_PREDEFINED, [];
          file := Holds(DEFAULT_PREDEFINED, []);
      }
    }

    /** Writes both lists to the file. */
    method Save()
      modifies this`file
      ensures file == Holds(predefined, custom)
    {
      file := Holds(predefined, custom);
    }

    /** `get_all_clients`: every predefined name, then every custom name, in order. */
    function GetAllClients(): (r: seq<string>)
      reads this
      ensures |r| == |predefined| + |custom|
      ensures forall k :: 0 <= k < |predefined| ==> r[k] == predefined[k]
      ensures forall k :: 0 <= k < |custom| ==> r[|predefined| + k] == custom[k]
    {
      predefined + custom
    }

    /** `get_predefined_clients`. */
    function GetPredefinedClients(): (r: seq<string>)
      reads this
      ensures r == GetAllClients()[..|predefined|]
    {
      predefined
    }

    /** `get_custom_clients`. */
    function GetCustomClients(): (r: seq<string>)
      reads this
      ensures r == GetAllClients()[|predefined|..]
    {
      custom
    }

    /**
     * `add_custom_client`: refuses a blank name or one already registered
     * (after trimming) and changes nothing; otherwise appends the trimmed
     * name to the custom list, saves, and returns it.
     */
    method AddCustomClient(name: string) returns (r: Result<string, AddError>)
      modifies this
      ensures r == CheckNewClient(old(predefined), old(custom), name)
      ensures predefined == old(predefined)
      ensures r.Ok? ==> custom == old(custom) + [r.value] && file == Holds(predefined, custom)
      ensures r.Err? ==> custom == old(custom) && file == old(file)
    {
      if name == [] || Strip(name) == [] {
        return Err(EmptyName);
      }
      var trimmed := Strip(name);
      var all := GetAllClients();
      if trimmed in all {
        return Err(Duplicate(trimmed));
      }
      custom := custom + [trimmed];
      Save();
      r := Ok(trimmed);
    }

    /**
     * `remove_custom_client`: when the exact (untrimmed) name is a custom
     * name, drops its first occurrence, saves and answers true; otherwise
     * changes nothing and answers false.
     */
    method RemoveCustomClient(name: string) returns (removed: bool)
      modifies this
      ensures removed <==> name in old(custom)
      ensures predefined == old(predefined)
      ensures custom == RemoveFirst(old(custom), name)
      ensures removed ==> file == Holds(predefined, custom)
      ensures !removed ==> file == old(file)
    {
      if name in custom {
        custom := RemoveFirst(custom, name);
        Save();
        return true;
      }
      RemoveFirstMeaning(custom, name);
      return false;
    }
  }
}
