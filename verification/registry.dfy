/** A strategy table: a Python dictionary from strategy name to strategy,
    filled by registration decorators. Insertion order is kept, because the
    "not found" message lists the names in that order. */
module Registry {
  import opened Outcomes

  type Table<E> = seq<(string, E)>

  /** The registered names, in registration order (`', '.join(table)` order). */
  function Names<E>(t: Table<E>): (names: seq<string>)
    ensures |names| == |t|
    ensures forall i :: 0 <= i < |t| ==> names[i] == t[i].0
  {
    seq(|t|, i requires 0 <= i < |t| => t[i].0)
  }

  /** A dictionary holds every key at most once. */
  predicate DistinctNames<E>(t: Table<E>) {
    forall i, j :: 0 <= i < j < |t| ==> t[i].0 != t[j].0
  }

  /** `table[name]`, or `None` where Python raises `KeyError`. */
  function Lookup<E>(t: Table<E>, name: string): (r: Option<E>)
    ensures r.Some? <==> name in Names(t)
    ensures r.Some? ==> exists i :: 0 <= i < |t| && t[i] == (name, r.value)
    decreases |t|
  {
    if |t| == 0 then None
    else if t[0].0 == name then Some(t[0].1)
    else
      var r := Lookup(t[1..], name);
      assert Names(t) == [t[0].0] + Names(t[1..]);
      assert r.Some? ==> exists i :: 0 <= i < |t| && t[i] == (name, r.value) by {
        if r.Some? {
          var i :| 0 <= i < |t[1..]| && t[1..][i] == (name, r.value);
          assert t[i + 1] == (name, r.value);
        }
      }
      r
  }

  /** In a table without repeated names, the entry stored under a name is the one found. */
  lemma LookupAt<E>(t: Table<E>, i: int)
    requires DistinctNames(t)
    requires 0 <= i < |t|
    ensures Lookup(t, t[i].0) == Some(t[i].1)
  {
    var r := Lookup(t, t[i].0);
    var j :| 0 <= j < |t| && t[j] == (t[i].0, r.value);
    assert j == i;
  }

  datatype RegisterError = AlreadyRegistered(name: string, message: string)

  /** The decorator body of `_register_permutations` / `_register_combinations`:
      refuses a name already present, otherwise stores the entry under it.
      `kind` is the word the message uses ("strategy" or "combination strategy"). */
  function Register<E>(t: Table<E>, kind: string, name: string, entry: E): (r: Result<Table<E>, RegisterError>)
    ensures r.Err? <==> name in Names(t)
    ensures r.Err? ==> r.error.name == name
    ensures r.Ok? ==> Names(r.value) == Names(t) + [name]
    ensures r.Ok? ==> Lookup(r.value, name) == Some(entry)
    ensures r.Ok? ==> forall k :: k != name ==> Lookup(r.value, k) == Lookup(t, k)
  {
    if name in Names(t) then
      Err(AlreadyRegistered(name, "A " + kind + " with the name '" + name + "' has already been registered"))
    else
      var t' := t + [(name, entry)];
      LookupAppend(t, name, entry);
      Ok(t')
  }

  lemma {:induction false} LookupAppend<E>(t: Table<E>, name: string, entry: E)
    requires name !in Names(t)
    ensures Lookup(t + [(name, entry)], name) == Some(entry)
    ensures forall k :: k != name ==> Lookup(t + [(name, entry)], k) == Lookup(t, k)
    decreases |t|
  {
    var t' := t + [(name, entry)];
    assert Names(t') == Names(t) + [name];
    if |t| > 0 {
      assert t'[1..] == t[1..] + [(name, entry)];
      assert Names(t) == [t[0].0] + Names(t[1..]);
      LookupAppend(t[1..], name, entry);
    }
  }

  /** Registration keeps the dictionary free of repeated names. */
  lemma RegisterKeepsDistinct<E>(t: Table<E>, kind: string, name: string, entry: E)
    requires DistinctNames(t)
    ensures Register(t, kind, name, entry).Ok? ==> DistinctNames(Register(t, kind, name, entry).value)
  {
    var r := Register(t, kind, name, entry);
    if r.Ok? {
      var t' := r.value;
      forall i, j | 0 <= i < j < |t'| ensures t'[i].0 != t'[j].0 {
        if j == |t| {
          assert t[i].0 in Names(t);
        }
      }
    }
  }

  /** A second registration under a name fails and leaves the first entry in place. */
  lemma {:induction false} RegisterTwice<E>(t: Table<E>, kind: string, name: string, first: E, second: E)
    requires name !in Names(t)
    ensures Register(t, kind, name, first).Ok?
    ensures Register(Register(t, kind, name, first).value, kind, name, second).Err?
    ensures Lookup(Register(t, kind, name, first).value, name) == Some(first)
  {
    var t' := Register(t, kind, name, first).value;
    assert Names(t')[|t|] == name;
  }

  /** Registers `entries` one after another, stopping at the first refusal:
      the decorators of one module applied in definition order. */
  function RegisterAll<E>(t: Table<E>, kind: string, entries: Table<E>): Result<Table<E>, RegisterError>
    decreases |entries|
  {
    if |entries| == 0 then Ok(t)
    else
      var t' :- Register(t, kind, entries[0].0, entries[0].1);
      RegisterAll(t', kind, entries[1..])
  }

  /** A run of registrations succeeds exactly when no name comes twice, and
      then the table is the old one followed by the new entries in order. */
  lemma {:induction false} RegisterAllDistinct<E>(t: Table<E>, kind: string, entries: Table<E>)
    requires DistinctNames(t)
    ensures RegisterAll(t, kind, entries).Ok? <==> DistinctNames(t + entries)
    ensures RegisterAll(t, kind, entries).Ok? ==> RegisterAll(t, kind, entries).value == t + entries
    decreases |entries|
  {
    if |entries| > 0 {
      var (name, entry) := entries[0];
      var all := t + entries;
      if name in Names(t) {
        var i :| 0 <= i < |t| && Names(t)[i] == name;
        assert all[i].0 == all[|t|].0;
      } else {
        var t' := t + [(name, entry)];
        RegisterKeepsDistinct(t, kind, name, entry);
        assert t' + entries[1..] == all;
        RegisterAllDistinct(t', kind, entries[1..]);
      }
    }
  }
}
