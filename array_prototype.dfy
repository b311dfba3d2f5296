/** The seven mutating methods of `Array.prototype` as section 23.1.3 of ECMA-262 defines
    them, on the array's contents as a sequence. */
module ArrayPrototype {
  import opened JsValues

  datatype ArrayMethod = Push | Pop | Shift | Unshift | Splice | Sort | Reverse

  /** The property name of each method. */
  function Name(m: ArrayMethod): string {
    match m
    case Push => "push"
    case Pop => "pop"
    case Shift => "shift"
    case Unshift => "unshift"
    case Splice => "splice"
    case Sort => "sort"
    case Reverse => "reverse"
  }

  /** What a method returns: the new length (push, unshift), one element or undefined (pop,
      shift), a new array of the removed elements (splice), or the receiver (sort, reverse). */
  datatype Returned = Length(n: nat) | Element(v: Value) | Removed(items: seq<Value>) | ThisArray

  /** The receiver's contents after the call, and the value returned. */
  datatype Outcome = Outcome(after: seq<Value>, returned: Returned)

  /** ToIntegerOrInfinity on the modelled values; strings and objects are not converted. */
  function ToInteger(v: Value): int {
    match v
    case Int(i) => i
    case Bool(b) => if b then 1 else 0
    case _ => 0
  }

  /** The `actualStart` of splice: a negative start counts from the end; clamped to [0, len]. */
  function ActualStart(relative: int, len: nat): (k: nat)
    ensures k <= len
    ensures 0 <= relative <= len ==> k == relative
    ensures relative > len ==> k == len
    ensures relative < 0 && len + relative >= 0 ==> k == len + relative
    ensures len + relative < 0 ==> k == 0
  {
    if relative < 0 then (if len + relative < 0 then 0 else len + relative)
    else if relative > len then len else relative
  }

  /** The `actualDeleteCount` of splice: 0 with no arguments, everything from the start with one
      argument, otherwise the second argument clamped to [0, len - start]. */
  function ActualDeleteCount(args: seq<Value>, start: nat, len: nat): (k: nat)
    requires start <= len
    ensures start + k <= len
    ensures |args| == 0 ==> k == 0
    ensures |args| == 1 ==> k == len - start
    ensures |args| >= 2 && 0 <= ToInteger(args[1]) <= len - start ==> k == ToInteger(args[1])
    ensures |args| >= 2 && ToInteger(args[1]) < 0 ==> k == 0
    ensures |args| >= 2 && ToInteger(args[1]) > len - start ==> k == len - start
  {
    if |args| == 0 then 0
    else if |args| == 1 then len - start
    else
      var dc := ToInteger(args[1]);
      if dc < 0 then 0 else if dc > len - start then len - start else dc
  }

  /** `a.reverse()`. */
  function Reversed(a: seq<Value>): (r: seq<Value>)
    ensures |r| == |a|
    ensures forall k :: 0 <= k < |a| ==> r[k] == a[|a| - 1 - k]
  {
    if a == [] then [] else Reversed(a[1..]) + [a[0]]
  }

  /** The `actualStart` of a splice call with these arguments on `a`. */
  function SpliceStart(a: seq<Value>, args: seq<Value>): (k: nat)
    ensures k <= |a|
  {
    ActualStart(if |args| == 0 then 0 else ToInteger(args[0]), |a|)
  }

  /** The arguments of splice after the first two: the items it inserts. */
  function SpliceItems(args: seq<Value>): seq<Value> {
    if |args| > 2 then args[2..] else []
  }

  /** `a.splice(...args)`: cuts `actualDeleteCount` elements at `actualStart`, returns them as a
      new array, and puts the items in their place. */
  function SpliceOutcome(a: seq<Value>, args: seq<Value>): (o: Outcome)
    ensures var start := SpliceStart(a, args);
            var count := ActualDeleteCount(args, start, |a|);
            && o.returned == Removed(a[start..start + count])
            && |o.after| == |a| - count + |SpliceItems(args)|
            && o.after[..start] == a[..start]
            && o.after[start..start + |SpliceItems(args)|] == SpliceItems(args)
            && o.after[start + |SpliceItems(args)|..] == a[start + count..]
  {
    var start := SpliceStart(a, args);
    var count := ActualDeleteCount(args, start, |a|);
    Outcome(a[..start] + SpliceItems(args) + a[start + count..], Removed(a[start..start + count]))
  }

  /** `a.push(...args)`: appends the arguments and returns the new length. */
  function PushOutcome(a: seq<Value>, args: seq<Value>): (o: Outcome)
    ensures |o.after| == |a| + |args| && o.after[..|a|] == a && o.after[|a|..] == args
    ensures o.returned == Length(|o.after|)
  {
    Outcome(a + args, Length(|a| + |args|))
  }

  /** `a.unshift(...args)`: prepends the arguments, in order, and returns the new length. */
  function UnshiftOutcome(a: seq<Value>, args: seq<Value>): (o: Outcome)
    ensures |o.after| == |args| + |a| && o.after[..|args|] == args && o.after[|args|..] == a
    ensures o.returned == Length(|o.after|)
  {
    Outcome(args + a, Length(|args| + |a|))
  }

  /** `a.pop()`: removes and returns the last element; undefined on an empty array. */
  function PopOutcome(a: seq<Value>): (o: Outcome)
    ensures a == [] ==> o == Outcome([], Element(Undefined))
    ensures a != [] ==> o.returned.Element? && o.after + [o.returned.v] == a
  {
    if a == [] then Outcome([], Element(Undefined)) else Outcome(a[..|a| - 1], Element(a[|a| - 1]))
  }

  /** `a.shift()`: removes and returns the first element; undefined on an empty array. */
  function ShiftOutcome(a: seq<Value>): (o: Outcome)
    ensures a == [] ==> o == Outcome([], Element(Undefined))
    ensures a != [] ==> o.returned.Element? && [o.returned.v] + o.after == a
  {
    if a == [] then Outcome([], Element(Undefined)) else Outcome(a[1..], Element(a[0]))
  }

  /** A call of a method other than sort, whose result depends on its comparator. */
  function Native(m: ArrayMethod, a: seq<Value>, args: seq<Value>): (o: Outcome)
    requires m != Sort
    ensures m == Push ==>
              && |o.after| == |a| + |args| && o.after[..|a|] == a && o.after[|a|..] == args
              && o.returned == Length(|o.after|)
    ensures m == Unshift ==>
              && |o.after| == |args| + |a| && o.after[..|args|] == args && o.after[|args|..] == a
              && o.returned == Length(|o.after|)
    ensures m == Pop && a == [] ==> o == Outcome([], Element(Undefined))
    ensures m == Pop && a != [] ==> o.returned.Element? && o.after + [o.returned.v] == a
    ensures m == Shift && a == [] ==> o == Outcome([], Element(Undefined))
    ensures m == Shift && a != [] ==> o.returned.Element? && [o.returned.v] + o.after == a
    ensures m == Splice ==> o == SpliceOutcome(a, args)
    // reverse mirrors the elements and returns the receiver
    ensures m == Reverse ==>
              && o.returned == ThisArray && |o.after| == |a|
              && forall k :: 0 <= k < |a| ==> o.after[k] == a[|a| - 1 - k]
  {
    match m
    case Push => PushOutcome(a, args)
    case Pop => PopOutcome(a)
    case Shift => ShiftOutcome(a)
    case Unshift => UnshiftOutcome(a, args)
    case Splice => SpliceOutcome(a, args)
    case Reverse => Outcome(Reversed(a), ThisArray)
  }

  /** What sort may do: rearrange the elements and return the receiver. */
  predicate SortOutcome(a: seq<Value>, o: Outcome) {
    multiset(o.after) == multiset(a) && o.returned == ThisArray
  }

  /** pop undoes push of one element and returns it. */
  lemma PopUndoesPush(a: seq<Value>, x: Value)
    ensures Native(Pop, Native(Push, a, [x]).after, []) == Outcome(a, Element(x))
  {
  }

  /** shift undoes unshift of one element and returns it. */
  lemma ShiftUndoesUnshift(a: seq<Value>, x: Value)
    ensures Native(Shift, Native(Unshift, a, [x]).after, []) == Outcome(a, Element(x))
  {
  }

  /** reverse applied twice restores the array. */
  lemma ReverseInvolution(a: seq<Value>)
    ensures Reversed(Reversed(a)) == a
  {
  }

  /** splice keeps the elements before `start` and from `start + count` on, puts the items
      between them and returns the elements it cut out: the length changes by the items
      inserted minus the elements removed. */
  lemma SpliceLength(a: seq<Value>, args: seq<Value>)
    ensures var o := Native(Splice, a, args);
            o.returned.Removed? && |o.after| == |a| - |o.returned.items| + |SpliceItems(args)|
  {
  }

  /** Splicing the removed elements back in at the same place, in place of the inserted items,
      restores the array. */
  lemma SpliceUndo(a: seq<Value>, args: seq<Value>)
    ensures var o := Native(Splice, a, args);
            var start := SpliceStart(a, args);
            Native(Splice, o.after, [Int(start), Int(|SpliceItems(args)|)] + o.returned.items).after == a
  {
    var start := SpliceStart(a, args);
    var count := ActualDeleteCount(args, start, |a|);
    var items := SpliceItems(args);
    var after := SpliceOutcome(a, args).after;
    var removed := a[start..start + count];
    var back := [Int(start), Int(|items|)] + removed;
    assert SpliceStart(after, back) == start;
    assert ActualDeleteCount(back, start, |after|) == |items|;
    assert SpliceItems(back) == removed;
    var again := SpliceOutcome(after, back).after;
    assert again == again[..start] + again[start..start + count] + again[start + count..];
    assert a == a[..start] + a[start..start + count] + a[start + count..];
  }
}
