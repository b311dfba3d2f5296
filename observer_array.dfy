/** The array mutator interceptors of src/core/observer/array.js. */
module ObserverArray {
  import opened JsValues
  import opened ArrayPrototype

  /** `methodsToPatch`, in the source's order. */
  const MethodsToPatch: seq<ArrayMethod> := [Push, Pop, Shift, Unshift, Splice, Sort, Reverse]

  /** The patched names are seven distinct names, one per mutating method. */
  lemma MethodsToPatchExactlySeven()
    ensures |MethodsToPatch| == 7
    ensures forall m: ArrayMethod :: m in MethodsToPatch
    ensures forall i, j :: 0 <= i < j < |MethodsToPatch| ==> Name(MethodsToPatch[i]) != Name(MethodsToPatch[j])
  {
    forall m: ArrayMethod
      ensures m in MethodsToPatch
    {
      assert MethodsToPatch[IndexOf(m)] == m;
    }
  }

  /** The `forEach` over `methodsToPatch` that installs a mutator on `arrayMethods` under each
      name; the map gives the method whose mutator is installed under a name. */
  method PatchArrayMethods() returns (arrayMethods: map<string, ArrayMethod>)
    ensures forall m: ArrayMethod :: Name(m) in arrayMethods && arrayMethods[Name(m)] == m
    ensures forall name :: name in arrayMethods ==> exists m: ArrayMethod :: Name(m) == name
  {
    arrayMethods := map[];
    for i := 0 to |MethodsToPatch|
      invariant forall j :: 0 <= j < i ==>
                  Name(MethodsToPatch[j]) in arrayMethods && arrayMethods[Name(MethodsToPatch[j])] == MethodsToPatch[j]
      invariant forall name :: name in arrayMethods ==> exists j :: 0 <= j < i && Name(MethodsToPatch[j]) == name
    {
      var method_ := MethodsToPatch[i];
      arrayMethods := arrayMethods[Name(method_) := method_];
    }
    forall m: ArrayMethod
      ensures Name(m) in arrayMethods && arrayMethods[Name(m)] == m
    {
      assert MethodsToPatch[IndexOf(m)] == m;
    }
  }

  function IndexOf(m: ArrayMethod): (i: nat)
    ensures i < |MethodsToPatch| && MethodsToPatch[i] == m
  {
    match m
    case Push => 0
    case Pop => 1
    case Shift => 2
    case Unshift => 3
    case Splice => 4
    case Sort => 5
    case Reverse => 6
  }

  /** How a property read on an observed array resolves: an installed mutator, or the method
      inherited from `Array.prototype`. */
  datatype Dispatch = Intercepted(m: ArrayMethod) | Inherited(name: string)

  function Resolve(arrayMethods: map<string, ArrayMethod>, name: string): Dispatch {
    if name in arrayMethods then Intercepted(arrayMethods[name]) else Inherited(name)
  }

  /** Exactly the seven mutating names are intercepted; every other name reaches the ordinary
      array method. */
  lemma ResolveIntercepts(arrayMethods: map<string, ArrayMethod>, name: string)
    requires forall m: ArrayMethod :: Name(m) in arrayMethods && arrayMethods[Name(m)] == m
    requires forall n :: n in arrayMethods ==> exists m: ArrayMethod :: Name(m) == n
    ensures Resolve(arrayMethods, name).Intercepted? <==> exists m: ArrayMethod :: Name(m) == name
    ensures forall m: ArrayMethod :: Resolve(arrayMethods, Name(m)) == Intercepted(m)
  {
  }

  /** The `inserted` local of the mutator: all arguments for push and unshift, the arguments from
      index 2 on for splice (empty with fewer than three), and nothing for the others. */
  function Inserted(m: ArrayMethod, args: seq<Value>): (r: Option<seq<Value>>)
    ensures r.Some? <==> m in {Push, Unshift, Splice}
    ensures m in {Push, Unshift} ==> r == Some(args)
    ensures m == Splice ==> r == Some(SpliceItems(args))
  {
    match m
    case Push => Some(args)
    case Unshift => Some(args)
    case Splice => Some(SpliceItems(args))
    case _ => None
  }

  /** The elements a call takes out of the array. */
  function Taken(m: ArrayMethod, a: seq<Value>, args: seq<Value>): seq<Value>
    requires m != Sort
  {
    match Native(m, a, args).returned
    case Element(v) => if a == [] then [] else [v]
    case Removed(items) => items
    case _ => []
  }

  function InsertedItems(m: ArrayMethod, args: seq<Value>): seq<Value> {
    match Inserted(m, args)
    case Some(items) => items
    case None => []
  }

  /** What is passed to `observeArray` is exactly what the call adds: the new contents are the old
      ones minus what the call takes out plus the observed items. Nothing else is new. */
  lemma InsertedAreTheNewElements(m: ArrayMethod, a: seq<Value>, args: seq<Value>)
    requires m != Sort
    ensures multiset(Native(m, a, args).after) + multiset(Taken(m, a, args))
            == multiset(a) + multiset(InsertedItems(m, args))
  {
    match m {
      case Push =>
      case Unshift =>
      case Pop => PopTakesLast(a, args);
      case Shift => ShiftTakesFirst(a, args);
      case Splice => SpliceAccounting(a, args);
      case Reverse => ReversedMultiset(a);
    }
  }

  lemma PopTakesLast(a: seq<Value>, args: seq<Value>)
    ensures multiset(Native(Pop, a, args).after) + multiset(Taken(Pop, a, args)) == multiset(a)
  {
    if a != [] {
      assert a == a[..|a| - 1] + [a[|a| - 1]];
    }
  }

  lemma ShiftTakesFirst(a: seq<Value>, args: seq<Value>)
    ensures multiset(Native(Shift, a, args).after) + multiset(Taken(Shift, a, args)) == multiset(a)
  {
    if a != [] {
      assert a == [a[0]] + a[1..];
    }
  }

  lemma SpliceAccounting(a: seq<Value>, args: seq<Value>)
    ensures multiset(Native(Splice, a, args).after) + multiset(Taken(Splice, a, args))
            == multiset(a) + multiset(InsertedItems(Splice, args))
  {
    var start := SpliceStart(a, args);
    var count := ActualDeleteCount(args, start, |a|);
    var pre, cut, post, items := a[..start], a[start..start + count], a[start + count..], SpliceItems(args);
    SpliceTakesCut(a, args);
    assert a == pre + cut + post;
    ReplaceMiddle(pre, cut, post, items);
  }

  /** What splice leaves and takes, as pieces of the old array. */
  lemma SpliceTakesCut(a: seq<Value>, args: seq<Value>)
    ensures var start := SpliceStart(a, args);
            var count := ActualDeleteCount(args, start, |a|);
            && Native(Splice, a, args).after == a[..start] + SpliceItems(args) + a[start + count..]
            && Taken(Splice, a, args) == a[start..start + count]
            && InsertedItems(Splice, args) == SpliceItems(args)
  {
    assert Native(Splice, a, args) == SpliceOutcome(a, args);
  }

  /** Replacing the middle of a sequence trades the multiset of the old middle for the new one. */
  lemma ReplaceMiddle(pre: seq<Value>, cut: seq<Value>, post: seq<Value>, items: seq<Value>)
    ensures multiset(pre + items + post) + multiset(cut) == multiset(pre + cut + post) + multiset(items)
  {
  }

  lemma {:induction false} ReversedMultiset(a: seq<Value>)
    ensures multiset(Reversed(a)) == multiset(a)
  {
    if a != [] {
      ReversedMultiset(a[1..]);
      assert a == [a[0]] + a[1..];
    }
  }

  /** The side effects the observer sees, in order: `observeArray(items)`, and `dep.notify()`
      together with the array's contents at that moment. */
  datatype Effect = Observed(items: seq<Value>) | Notified(contents: seq<Value>)

  /** The effects of one mutator call after the mutation itself: it notifies exactly once, as its
      last effect, with at most one `observeArray` before it, which happens exactly for push,
      unshift and splice (an empty `inserted` array is still truthy). */
  function EffectsOf(m: ArrayMethod, args: seq<Value>, contents: seq<Value>): (es: seq<Effect>)
    ensures |es| == (if m in {Push, Unshift, Splice} then 2 else 1)
    ensures es[|es| - 1] == Notified(contents)
    ensures |es| == 2 ==> es[0] == Observed(InsertedItems(m, args))
  {
    (if Inserted(m, args).Some? then [Observed(Inserted(m, args).value)] else []) + [Notified(contents)]
  }

  /** An array whose prototype is `arrayMethods`, with its observer (`__ob__`): the contents,
      and the log of what `observeArray` and `dep.notify` were called with. */
  class ObservedArray {
    var contents: seq<Value>
    var effects: seq<Effect>

    constructor (contents: seq<Value>)
      ensures this.contents == contents && effects == []
    {
      this.contents := contents;
      effects := [];
    }

    /** `ob.observeArray(items)`. */
    method ObserveArray(items: seq<Value>)
      modifies this
      ensures contents == old(contents) && effects == old(effects) + [Observed(items)]
    {
      effects := effects + [Observed(items)];
    }

    /** `ob.dep.notify()`. */
    method Notify()
      modifies this
      ensures contents == old(contents) && effects == old(effects) + [Notified(contents)]
    {
      effects := effects + [Notified(contents)];
    }

    /** `original.apply(this, args)`. */
    method ApplyOriginal(m: ArrayMethod, args: seq<Value>) returns (result: Returned)
      modifies this
      ensures m != Sort ==> Outcome(contents, result) == Native(m, old(contents), args)
      ensures m == Sort ==> SortOutcome(old(contents), Outcome(contents, result))
      ensures effects == old(effects)
    {
      if m == Sort {
        var sorted :| multiset(sorted) == multiset(contents);
        contents := sorted;
        result := ThisArray;
      } else {
        var o := Native(m, contents, args);
        contents := o.after;
        result := o.returned;
      }
    }

    /** The `mutator` installed for `m`: applies the original method, observes the inserted
      elements, notifies once, and returns what the original returned. */
    method Mutator(m: ArrayMethod, args: seq<Value>) returns (result: Returned)
      modifies this
      ensures m != Sort ==> Outcome(contents, result) == Native(m, old(contents), args)
      ensures m == Sort ==> SortOutcome(old(contents), Outcome(contents, result))
      ensures effects == old(effects) + EffectsOf(m, args, contents)
    {
      result := ApplyOriginal(m, args);
      var inserted: Option<seq<Value>> := None;
      match m {
        case Push => inserted := Some(args);
        case Unshift => inserted := Some(args);
        case Splice => inserted := Some(SpliceItems(args));
        case _ =>
      }
      assert inserted == Inserted(m, args);
      if inserted.Some? {
        ObserveArray(inserted.value);
      }
      Notify();
    }
  }
}
