/** Small helpers shared by the hook: an Option type standing in for Kotlin's nullable
    references, the null-guard combinators, the observable property delegate and the
    brand-name capitaliser. */
module Tools {

  /** A Kotlin `T?`: `None` is `null`. */
  datatype Option<+T> = None | Some(value: T)

  // ---------------------------------------------------------------------------
  // Null guards. A callback is modelled as a function from the receiver to the
  // effect it performs; the combinators return the effects they ran, in order.
  // ---------------------------------------------------------------------------

  /** `T?.isNotNull(callback)`: runs the callback on a non-null receiver and reports
      whether it did. */
  function IsNotNull<T, E>(receiver: Option<T>, callback: T -> E): (r: (bool, seq<E>))
    ensures r.0 <==> receiver.Some?
    ensures receiver.Some? ==> r.1 == [callback(receiver.value)]
    ensures receiver.None? ==> r.1 == []
  {
    match receiver
    case Some(v) => (true, [callback(v)])
    case None => (false, [])
  }

  /** `Any?.isNull(callback)`: the mirror image, the callback runs only on null. */
  function IsNull<T, E>(receiver: Option<T>, callback: () -> E): (r: (bool, seq<E>))
    ensures r.0 <==> receiver.None?
    ensures receiver.None? ==> r.1 == [callback()]
    ensures receiver.Some? ==> r.1 == []
  {
    if receiver.None? then (true, [callback()]) else (false, [])
  }

  /** `T?.ifNotNull(callback)`: the callback's result on a non-null receiver, else null
      without running the callback. */
  function IfNotNull<T, R>(receiver: Option<T>, callback: T -> Option<R>): (r: Option<R>)
    ensures receiver.None? ==> r.None?
    ensures receiver.Some? ==> r == callback(receiver.value)
  {
    match receiver
    case Some(v) => callback(v)
    case None => None
  }

  /** Exactly one of the two guards fires on any receiver. */
  lemma GuardsAreComplementary<T, E>(receiver: Option<T>, onValue: T -> E, onNull: () -> E)
    ensures IsNotNull(receiver, onValue).0 != IsNull(receiver, onNull).0
    ensures |IsNotNull(receiver, onValue).1| + |IsNull(receiver, onNull).1| == 1
  {
  }

  /** `Any?.existField(name)`: false for a null receiver; otherwise whatever reflection
      finds, given here as `hasField`. */
  function ExistField<T>(receiver: Option<T>, hasField: T -> bool): (r: bool)
    ensures receiver.None? ==> !r
    ensures r ==> receiver.Some? && hasField(receiver.value)
    ensures receiver.Some? && hasField(receiver.value) ==> r
  {
    receiver.Some? && hasField(receiver.value)
  }

  // ---------------------------------------------------------------------------
  // uppercaseFirstChar
  // ---------------------------------------------------------------------------

  /** `String.uppercaseFirstChar()`: replaces the first character by its title case when
      it is lower case. The Unicode tables are parameters: `isLowerCase` is
      `Char.isLowerCase` and `titlecase` is `Char.titlecase` (which may yield several
      characters). */
  function UppercaseFirstChar(s: string, isLowerCase: char -> bool, titlecase: char -> string): (r: string)
    ensures |s| == 0 ==> r == s
    ensures |s| > 0 && !isLowerCase(s[0]) ==> r == s
    ensures |s| > 0 && isLowerCase(s[0]) ==> r == titlecase(s[0]) + s[1..]
  {
    if |s| > 0 && isLowerCase(s[0]) then titlecase(s[0]) + s[1..] else s
  }

  /** The ASCII part of the Unicode tables. */
  predicate AsciiLower(c: char) { 'a' <= c <= 'z' }

  function AsciiTitlecase(c: char): string
  {
    if AsciiLower(c) then [(c as int - 32) as char] else [c]
  }

  /** Everything after the first character is kept, and the length is kept when the title
      case is a single character. */
  lemma UppercaseFirstCharKeepsTail(s: string, isLowerCase: char -> bool, titlecase: char -> string)
    requires |s| > 0
    requires |titlecase(s[0])| == 1
    ensures var r := UppercaseFirstChar(s, isLowerCase, titlecase);
      |r| == |s| && r[1..] == s[1..]
  {
  }

  /** On ASCII text the rewrite is idempotent: the new first character is no longer
      lower case. */
  lemma {:induction false} UppercaseFirstCharAsciiIdempotent(s: string)
    ensures var once := UppercaseFirstChar(s, AsciiLower, AsciiTitlecase);
      UppercaseFirstChar(once, AsciiLower, AsciiTitlecase) == once
  {
    var once := UppercaseFirstChar(s, AsciiLower, AsciiTitlecase);
    if |s| > 0 && AsciiLower(s[0]) {
      assert once[0] == (s[0] as int - 32) as char;
      assert !AsciiLower(once[0]);
    }
  }

  // ---------------------------------------------------------------------------
  // observableChange
  // ---------------------------------------------------------------------------

  /** The delegate returned by `observableChange(initial, onChange)`: it stores every value
      written to it and calls `onChange(old, new)` only when the value actually changes.
      `calls` records the calls made to `onChange`, oldest first. */
  class Observable<T(==)> {
    var value: T
    var calls: seq<(T, T)>

    /** Every recorded call was a real change, the calls chain one into the next, and the
        last one delivered the current value. */
    ghost predicate Valid()
      reads this
    {
      && (forall k :: 0 <= k < |calls| ==> calls[k].0 != calls[k].1)
      && (forall k :: 0 < k < |calls| ==> calls[k - 1].1 == calls[k].0)
      && (|calls| > 0 ==> calls[|calls| - 1].1 == value)
    }

    constructor (initialValue: T)
      ensures Valid()
      ensures value == initialValue && calls == []
    {
      value := initialValue;
      calls := [];
    }

    /** The property's setter. */
    method Set(newValue: T)
      requires Valid()
      modifies this
      ensures Valid()
      ensures value == newValue
      ensures old(value) != newValue ==> calls == old(calls) + [(old(value), newValue)]
      ensures old(value) == newValue ==> calls == old(calls)
    {
      var oldValue := value;
      value := newValue;
      if oldValue != newValue {
        calls := calls + [(oldValue, newValue)];
      }
    }
  }
}
