/** The `objview` attribute bag of lib/meep_nb.py. An objview is a mutable
    object whose attributes are a name-to-value map; callers share objects
    by reference, so the model keeps every live objview in a heap and names
    them by reference. That makes "the copy is a different object" a
    statement about the heap rather than a fact of value semantics. */
module ObjView {

  type Fields<V> = map<string, V>

  /** References are positions in the heap. */
  type Ref = nat

  datatype Heap<V> = Heap(objects: seq<Fields<V>>)

  predicate Live<V>(h: Heap<V>, r: Ref) {
    r < |h.objects|
  }

  /** Every key named by any of the dictionaries. */
  function DictKeys<V>(dicts: seq<Fields<V>>): set<string> {
    set i, k | 0 <= i < |dicts| && k in dicts[i] :: k
  }

  /** The attribute map after `update(*dicts, **kwargs)`: each dictionary
      merged in order, then the keyword arguments. */
  function UpdateFields<V>(fields: Fields<V>, dicts: seq<Fields<V>>, kwargs: Fields<V>): (r: Fields<V>)
    ensures r.Keys == fields.Keys + DictKeys(dicts) + kwargs.Keys
    decreases |dicts|
  {
    if |dicts| == 0 then fields + kwargs
    else UpdateFields(fields + dicts[0], dicts[1..], kwargs)
  }

  /** Keyword arguments are applied last, so they win. */
  lemma {:induction false} UpdateKwargsWin<V>(fields: Fields<V>, dicts: seq<Fields<V>>, kwargs: Fields<V>, k: string)
    requires k in kwargs
    ensures UpdateFields(fields, dicts, kwargs)[k] == kwargs[k]
    decreases |dicts|
  {
    if |dicts| > 0 {
      UpdateKwargsWin(fields + dicts[0], dicts[1..], kwargs, k);
    }
  }

  /** A key the keyword arguments leave alone takes its value from the last
      dictionary that names it. */
  lemma {:induction false} UpdateLastDictWins<V>(
    fields: Fields<V>, dicts: seq<Fields<V>>, kwargs: Fields<V>, k: string, i: nat)
    requires i < |dicts| && k in dicts[i] && k !in kwargs
    requires forall j :: i < j < |dicts| ==> k !in dicts[j]
    ensures UpdateFields(fields, dicts, kwargs)[k] == dicts[i][k]
    decreases |dicts|
  {
    if i == 0 {
      UpdateKeepsUnnamed(fields + dicts[0], dicts[1..], kwargs, k);
    } else {
      UpdateLastDictWins(fields + dicts[0], dicts[1..], kwargs, k, i - 1);
    }
  }

  /** A key that no argument names keeps its value. */
  lemma {:induction false} UpdateKeepsUnnamed<V>(fields: Fields<V>, dicts: seq<Fields<V>>, kwargs: Fields<V>, k: string)
    requires k in fields && k !in kwargs
    requires forall j :: 0 <= j < |dicts| ==> k !in dicts[j]
    ensures UpdateFields(fields, dicts, kwargs)[k] == fields[k]
    decreases |dicts|
  {
    if |dicts| > 0 {
      assert k !in dicts[0];
      UpdateKeepsUnnamed(fields + dicts[0], dicts[1..], kwargs, k);
    }
  }

  /** `objview(**kwargs)`: a fresh object holding exactly the given fields. */
  function New<V>(h: Heap<V>, kwargs: Fields<V>): (res: (Heap<V>, Ref))
    ensures res.1 == |h.objects| && |res.0.objects| == |h.objects| + 1
    ensures res.0.objects[res.1] == kwargs
    ensures forall r: Ref :: Live(h, r) ==> res.0.objects[r] == h.objects[r]
  {
    (Heap(h.objects + [kwargs]), |h.objects|)
  }

  /** `obj.update(*dicts, **kwargs)`, in place on `obj`. */
  function Update<V>(h: Heap<V>, obj: Ref, dicts: seq<Fields<V>>, kwargs: Fields<V>): (h': Heap<V>)
    requires Live(h, obj)
    ensures |h'.objects| == |h.objects|
    ensures h'.objects[obj] == UpdateFields(h.objects[obj], dicts, kwargs)
    ensures forall r: Ref :: Live(h, r) && r != obj ==> h'.objects[r] == h.objects[r]
  {
    Heap(h.objects[obj := UpdateFields(h.objects[obj], dicts, kwargs)])
  }

  /** `obj.copy()`: a new object built from the original's fields. */
  function Copy<V>(h: Heap<V>, obj: Ref): (res: (Heap<V>, Ref))
    requires Live(h, obj)
    ensures Live(res.0, res.1) && res.1 != obj && !Live(h, res.1)
    ensures res.0.objects[res.1] == h.objects[obj]
    ensures forall r: Ref :: Live(h, r) ==> res.0.objects[r] == h.objects[r]
  {
    New(h, h.objects[obj])
  }

  /** Updating a copy never reaches the original. */
  lemma CopyIsolatesOriginal<V>(h: Heap<V>, obj: Ref, dicts: seq<Fields<V>>, kwargs: Fields<V>)
    requires Live(h, obj)
    ensures
      var (h1, c) := Copy(h, obj);
      var h2 := Update(h1, c, dicts, kwargs);
      h2.objects[obj] == h.objects[obj]
      && h2.objects[c] == UpdateFields(h.objects[obj], dicts, kwargs)
  {
  }
}
