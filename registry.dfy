/** The `entities` dictionary of the integration's shared data: for each airport
    code the list of sensors registered under it, in registration order. Python
    dictionaries remember the order their keys were inserted in, and the service
    handler walks them in that order, so the registry keeps the key order next
    to the lists. */
module Registry {

  datatype Registry<T> = Registry(order: seq<string>, lists: map<string, seq<T>>)

  /** The order lists every key exactly once. */
  ghost predicate Valid<T>(reg: Registry<T>) {
    && Distinct(reg.order)
    && (forall c :: c in reg.lists <==> c in reg.order)
  }

  function EmptyOf<T>(): (reg: Registry<T>)
    ensures Valid(reg) && reg.lists == map[]
  {
    Registry([], map[])
  }

  /** The list under a code, `[]` when the code has none. */
  function ListOf<T>(reg: Registry<T>, code: string): seq<T> {
    if code in reg.lists then reg.lists[code] else []
  }

  /** `if code not in entities: entities[code] = []` then
      `entities[code].append(x)`: a new code goes to the end of the order. */
  function Add<T>(reg: Registry<T>, code: string, x: T): Registry<T> {
    if code in reg.lists then Registry(reg.order, reg.lists[code := reg.lists[code] + [x]])
    else Registry(reg.order + [code], reg.lists[code := [x]])
  }

  /** An append keeps the registry well formed, gives the code its old list (or
      none) plus the item, adds the code to the end of the order if it is new,
      and leaves every other code's list alone. */
  lemma AddSpec<T>(reg: Registry<T>, code: string, x: T)
    requires Valid(reg)
    ensures var r := Add(reg, code, x);
      && Valid(r)
      && r.lists.Keys == reg.lists.Keys + {code}
      && r.lists[code] == ListOf(reg, code) + [x]
      && (forall c :: c != code && c in reg.lists ==> r.lists[c] == reg.lists[c])
      && r.order == if code in reg.lists then reg.order else reg.order + [code]
  {
    if code !in reg.lists {
      var order := reg.order + [code];
      assert forall i :: 0 <= i < |reg.order| ==> order[i] == reg.order[i];
      assert forall c :: c in order <==> c in reg.order || c == code;
    }
  }

  /** The order without one code. */
  function Without(order: seq<string>, code: string): (r: seq<string>)
    ensures forall c :: c in r <==> c in order && c != code
  {
    if order == [] then []
    else if order[0] == code then Without(order[1..], code)
    else [order[0]] + Without(order[1..], code)
  }

  predicate Distinct(order: seq<string>) {
    forall i, j :: 0 <= i < j < |order| ==> order[i] != order[j]
  }

  lemma {:induction false} WithoutDistinct(order: seq<string>, code: string)
    requires Distinct(order)
    ensures Distinct(Without(order, code))
  {
    if order != [] {
      WithoutDistinct(order[1..], code);
      if order[0] != code {
        var rest := Without(order[1..], code);
        assert order[0] !in order[1..];
        assert order[0] !in rest;
        assert Without(order, code) == [order[0]] + rest;
      }
    }
  }

  /** `entities.pop(code)` when the code is present; nothing otherwise. */
  function Remove<T>(reg: Registry<T>, code: string): (r: Registry<T>)
    requires Valid(reg)
    ensures Valid(r)
    ensures code !in r.lists
    ensures forall c :: c != code ==> (c in r.lists <==> c in reg.lists)
    ensures forall c :: c != code && c in reg.lists ==> r.lists[c] == reg.lists[c]
    ensures code !in reg.lists ==> r == reg
  {
    if code in reg.lists then
      WithoutDistinct(reg.order, code);
      Registry(Without(reg.order, code), map c | c in reg.lists && c != code :: reg.lists[c])
    else reg
  }

  /** The order with every one of the codes taken out, the rest in place. */
  function Filter(order: seq<string>, codes: seq<string>): seq<string> {
    if order == [] then []
    else (if order[0] in codes then [] else [order[0]]) + Filter(order[1..], codes)
  }

  lemma {:induction false} FilterNone(order: seq<string>)
    ensures Filter(order, []) == order
  {
    if order != [] {
      FilterNone(order[1..]);
      assert [order[0]] + order[1..] == order;
    }
  }

  lemma {:induction false} WithoutAbsent(order: seq<string>, code: string)
    requires code !in order
    ensures Without(order, code) == order
  {
    if order != [] {
      assert code !in order[1..];
      WithoutAbsent(order[1..], code);
      assert [order[0]] + order[1..] == order;
    }
  }

  /** Taking one more code out of a filtered order is filtering by one more code. */
  lemma {:induction false} WithoutFilter(order: seq<string>, codes: seq<string>, code: string)
    ensures Without(Filter(order, codes), code) == Filter(order, codes + [code])
  {
    if order != [] {
      WithoutFilter(order[1..], codes, code);
      assert order[0] in codes + [code] <==> order[0] in codes || order[0] == code;
      var t := Filter(order[1..], codes);
      if order[0] !in codes {
        assert Filter(order, codes) == [order[0]] + t;
        assert ([order[0]] + t)[1..] == t;
      } else {
        assert Filter(order, codes) == t;
        assert Filter(order, codes + [code]) == Filter(order[1..], codes + [code]);
      }
    }
  }

  /** Removes each of the codes in turn: the other codes keep their lists and
      their relative order. */
  function RemoveAll<T>(reg: Registry<T>, codes: seq<string>): (r: Registry<T>)
    requires Valid(reg)
    ensures Valid(r)
    ensures forall c :: c in r.lists <==> c in reg.lists && c !in codes
    ensures forall c :: c in r.lists ==> r.lists[c] == reg.lists[c]
    ensures r.order == Filter(reg.order, codes)
    decreases |codes|
  {
    if codes == [] then
      FilterNone(reg.order);
      reg
    else
      var init, last := codes[..|codes| - 1], codes[|codes| - 1];
      var prev := RemoveAll(reg, init);
      assert init + [last] == codes;
      WithoutFilter(reg.order, init, last);
      if last !in prev.lists then
        WithoutAbsent(prev.order, last);
        Remove(prev, last)
      else
        Remove(prev, last)
  }

  /** Removing one more code of a sequence is one more `Remove`. */
  lemma RemoveAllNext<T>(reg: Registry<T>, codes: seq<string>, i: nat)
    requires Valid(reg) && i < |codes|
    ensures RemoveAll(reg, codes[..i + 1]) == Remove(RemoveAll(reg, codes[..i]), codes[i])
  {
    assert codes[..i + 1][..i] == codes[..i];
  }

  /** The lists of the given codes, one after the other. */
  function Concat<T>(reg: Registry<T>, codes: seq<string>): seq<T>
    requires forall c :: c in codes ==> c in reg.lists
  {
    if codes == [] then [] else Concat(reg, codes[..|codes| - 1]) + reg.lists[codes[|codes| - 1]]
  }

  /** `for entity_list in entities.values(): ...extend(entity_list)`: every
      registered item, code by code in insertion order. */
  function All<T>(reg: Registry<T>): seq<T>
    requires Valid(reg)
  {
    Concat(reg, reg.order)
  }

  lemma {:induction false} ConcatMembers<T>(reg: Registry<T>, codes: seq<string>, x: T)
    requires forall c :: c in codes ==> c in reg.lists
    ensures x in Concat(reg, codes) <==> exists c :: c in codes && x in reg.lists[c]
  {
    if codes != [] {
      var init := codes[..|codes| - 1];
      var last := codes[|codes| - 1];
      ConcatMembers(reg, init, x);
      assert forall c :: c in codes <==> c in init || c == last by {
        assert codes == init + [last];
      }
    }
  }

  /** The handler's "all entities" list holds exactly the registered items. */
  lemma AllMembers<T>(reg: Registry<T>, x: T)
    requires Valid(reg)
    ensures x in All(reg) <==> exists c :: c in reg.lists && x in reg.lists[c]
  {
    ConcatMembers(reg, reg.order, x);
  }

  /** Registers each item under the code at the same position, in order. */
  function RegisterAll<T>(reg: Registry<T>, codes: seq<string>, items: seq<T>): Registry<T>
    requires |codes| == |items|
  {
    if codes == [] then reg
    else Add(RegisterAll(reg, codes[..|codes| - 1], items[..|items| - 1]), codes[|codes| - 1], items[|items| - 1])
  }

  lemma {:induction false} RegisterAllValid<T>(reg: Registry<T>, codes: seq<string>, items: seq<T>)
    requires Valid(reg) && |codes| == |items|
    ensures Valid(RegisterAll(reg, codes, items))
  {
    if codes != [] {
      RegisterAllValid(reg, codes[..|codes| - 1], items[..|items| - 1]);
      AddSpec(RegisterAll(reg, codes[..|codes| - 1], items[..|items| - 1]), codes[|codes| - 1], items[|items| - 1]);
    }
  }

  /** The items registered for one code, in order. */
  function ItemsFor<T>(code: string, codes: seq<string>, items: seq<T>): seq<T>
    requires |codes| == |items|
  {
    if codes == [] then []
    else
      var init := ItemsFor(code, codes[..|codes| - 1], items[..|items| - 1]);
      if codes[|codes| - 1] == code then init + [items[|items| - 1]] else init
  }

  lemma ItemsForLast<T>(c: string, codes: seq<string>, items: seq<T>)
    requires |codes| == |items| && codes != []
    ensures ItemsFor(c, codes, items)
            == ItemsFor(c, codes[..|codes| - 1], items[..|items| - 1])
               + (if codes[|codes| - 1] == c then [items[|items| - 1]] else [])
  {
  }

  /** Registering a batch adds exactly the batch's codes. */
  lemma {:induction false} RegisterAllKeys<T>(reg: Registry<T>, codes: seq<string>, items: seq<T>, c: string)
    requires |codes| == |items|
    ensures c in RegisterAll(reg, codes, items).lists <==> c in reg.lists || c in codes
  {
    if codes != [] {
      var init, last := codes[..|codes| - 1], codes[|codes| - 1];
      RegisterAllKeys(reg, init, items[..|items| - 1], c);
      assert c in codes <==> c in init || c == last by {
        assert codes == init + [last];
      }
    }
  }

  /** Registering a batch appends to each code's list exactly the batch items
      for that code, in batch order. */
  lemma {:induction false} RegisterAllLists<T>(reg: Registry<T>, codes: seq<string>, items: seq<T>, c: string)
    requires Valid(reg) && |codes| == |items|
    ensures ListOf(RegisterAll(reg, codes, items), c) == ListOf(reg, c) + ItemsFor(c, codes, items)
  {
    if codes != [] {
      var init, last := codes[..|codes| - 1], codes[|codes| - 1];
      var initItems, lastItem := items[..|items| - 1], items[|items| - 1];
      RegisterAllLists(reg, init, initItems, c);
      var prev := RegisterAll(reg, init, initItems);
      RegisterAllValid(reg, init, initItems);
      AddSpec(prev, last, lastItem);
      ItemsForLast(c, codes, items);
      if last == c {
        var a, b := ListOf(reg, c), ItemsFor(c, init, initItems);
        assert ListOf(Add(prev, last, lastItem), c) == (a + b) + [lastItem];
        assert (a + b) + [lastItem] == a + (b + [lastItem]);
      } else {
        assert ListOf(Add(prev, last, lastItem), c) == ListOf(prev, c);
      }
    }
  }

  /** Registering two batches one after the other is registering their concatenation. */
  lemma {:induction false} RegisterAllAppend<T>(reg: Registry<T>, c1: seq<string>, i1: seq<T>, c2: seq<string>, i2: seq<T>)
    requires |c1| == |i1| && |c2| == |i2|
    ensures RegisterAll(reg, c1 + c2, i1 + i2) == RegisterAll(RegisterAll(reg, c1, i1), c2, i2)
    decreases |c2|
  {
    if c2 == [] {
      assert c1 + c2 == c1 && i1 + i2 == i1;
    } else {
      RegisterAllAppend(reg, c1, i1, c2[..|c2| - 1], i2[..|i2| - 1]);
      assert (c1 + c2)[..|c1 + c2| - 1] == c1 + c2[..|c2| - 1];
      assert (i1 + i2)[..|i1 + i2| - 1] == i1 + i2[..|i2| - 1];
    }
  }

  /** Registering at most two items under one code, as one step of a batch. */
  lemma AddUpToTwo<T>(reg: Registry<T>, code: string, keys: seq<string>, items: seq<T>)
    requires |keys| == |items| <= 2
    requires forall j :: 0 <= j < |keys| ==> keys[j] == code
    ensures |items| == 0 ==> RegisterAll(reg, keys, items) == reg
    ensures |items| == 1 ==> RegisterAll(reg, keys, items) == Add(reg, code, items[0])
    ensures |items| == 2 ==> RegisterAll(reg, keys, items) == Add(Add(reg, code, items[0]), code, items[1])
  {
    if |items| == 2 {
      assert keys[..1] == [code] && items[..1] == [items[0]];
      assert keys[..1][..0] == [] && items[..1][..0] == [];
    } else if |items| == 1 {
      assert keys[..0] == [] && items[..0] == [];
    }
  }
}
