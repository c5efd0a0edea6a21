/** The utility functions of util.js: hour conversion to Central Standard
    Time, random choice (with the draw as a parameter), the closest-element
    search over a sorted list, and the recursive null check. */
module Util {
  import opened Wrappers
  import opened JsText

  // ---------------------------------------------------------------------
  // getCST
  // ---------------------------------------------------------------------

  /** `getCST(UTC)`: the hour six hours earlier, written with two
      characters by `('0' + CST).substr(-2)`. The argument is what
      `parseInt` produced from the hour digits; `parseInt` of a number is
      that number again. `NaN` survives the arithmetic and prints as "aN". */
  function GetCST(utc: ParsedInt): (r: string)
    ensures |r| == 2
  {
    match utc
    case NotANumber => SubstrFromEnd("0" + "NaN", 2)
    case Finite(h) =>
      var offsetHour := h - 6;
      var cst: nat := if offsetHour >= 0 then offsetHour else offsetHour + 24;
      SubstrFromEnd("0" + NatToString(cst), 2)
  }

  /** Two decimal digits, with a leading zero below 10. */
  function TwoDigits(k: nat): (s: string)
    requires k < 100
  {
    [DigitChar(k / 10), DigitChar(k % 10)]
  }

  /** For an hour of the day, `getCST` gives the zero-padded hour
      `(h - 6 + 24) mod 24`. */
  lemma GetCSTOfHour(h: nat)
    requires h < 24
    ensures GetCST(Finite(h)) == TwoDigits((h - 6 + 24) % 24)
  {
    var cst := (h + 18) % 24;
    assert cst == if h - 6 >= 0 then h - 6 else h - 6 + 24;
    var padded := "0" + NatToString(cst);
    if cst < 10 {
      assert padded == [DigitChar(0), DigitChar(cst)];
    } else {
      NatToStringOfTwoDigits(cst);
      assert padded[|padded| - 2..] == TwoDigits(cst);
    }
  }

  lemma NatToStringOfTwoDigits(k: nat)
    requires 10 <= k < 100
    ensures NatToString(k) == TwoDigits(k)
  {
    assert NatToString(k / 10) == [DigitChar(k / 10)];
  }

  /** Reading the hour back: `parseInt(getCST(h))` is the local hour. */
  lemma GetCSTReadsBack(h: nat)
    requires h < 24
    ensures ParseInt(GetCST(Finite(h))) == Finite((h + 18) % 24)
  {
    GetCSTOfHour(h);
    var k := (h + 18) % 24;
    var s := TwoDigits(k);
    assert LeadingDigits(s[1..]) == s[1..];
    assert LeadingDigits(s) == s;
    assert s[..1] == [DigitChar(k / 10)];
    assert DigitsValue(s[..1]) == k / 10;
    assert DigitsValue(s) == (k / 10) * 10 + k % 10;
  }

  // ---------------------------------------------------------------------
  // pickRandom
  // ---------------------------------------------------------------------

  /** A `Math.random()` draw. */
  predicate IsDraw(r: real) {
    0.0 <= r < 1.0
  }

  /** `Math.floor(draw * n)`: the index a draw selects among `n` entries. */
  function PickIndex(n: nat, draw: real): (i: nat)
    requires n > 0 && IsDraw(draw)
    ensures i < n
  {
    var x := draw * n as real;
    assert 0.0 <= x < n as real;
    x.Floor
  }

  /** `pickRandom(arr)`: throws on an empty array, otherwise the element
      at `Math.floor(draw * arr.length)`. */
  function PickRandom<T>(arr: seq<T>, draw: real): (r: Result<T>)
    requires IsDraw(draw)
    ensures r.Failure? <==> |arr| == 0
    ensures r.Success? ==> r.value in arr
  {
    if |arr| == 0 then Failure("Cannot pick random member of empty array")
    else Success(arr[PickIndex(|arr|, draw)])
  }

  /** Every entry can be drawn: the draw `i / n` selects entry `i`. */
  lemma PickIndexReaches(n: nat, i: nat)
    requires i < n
    ensures IsDraw(i as real / n as real) && PickIndex(n, i as real / n as real) == i
  {
    var d := i as real / n as real;
    assert d * n as real == i as real;
  }

  /** A draw selects among the first `k` of `n` entries exactly when it is
      below `k / n`. */
  lemma PickIndexBelow(n: nat, k: nat, draw: real)
    requires 0 < n && k <= n && IsDraw(draw)
    ensures PickIndex(n, draw) < k <==> draw * n as real < k as real
  {
  }

  // ---------------------------------------------------------------------
  // getClosestIndex
  // ---------------------------------------------------------------------

  function Abs(x: real): real {
    if x < 0.0 then -x else x
  }

  /** One comparison made by the search: the value `compare` returned, the
      probed index in the current sub-list, and the sub-list's offset. */
  datatype Probe = Probe(comparison: real, idx: int, offset: int)

  /** `getClosestIndex(elem, list, compare, lastComparison, offset)` as
      written. `last == None` stands for the default `lastComparison`, whose
      comparison is `Infinity`, so it never wins the `Math.abs` test. When
      the next sub-list is empty the code returns `midpoint + offset - 1`
      with `offset` already advanced, which is not always the probe it just
      made. */
  function ClosestIndex<T>(elem: T, list: seq<T>, compare: (T, T) -> real, last: Option<Probe>, offset: int): (r: Result<int>)
    ensures r.Failure? <==> |list| == 0
    ensures r.Success? ==> (last.Some? && r.value == last.value.idx + last.value.offset) || offset - 1 <= r.value <= offset + |list|
    decreases |list|
  {
    if |list| == 0 then Failure("Cannot find closest element from empty list.")
    else
      var midpoint := |list| / 2;
      var current := Probe(compare(elem, list[midpoint]), midpoint, offset);
      if last.Some? && Abs(last.value.comparison) < Abs(current.comparison) then
        Success(last.value.idx + last.value.offset)
      else
        var newOffset := if current.comparison < 0.0 then offset else offset + midpoint + 1;
        var newList := if current.comparison < 0.0 then list[..midpoint] else list[midpoint + 1..];
        if |newList| == 0 then Success(midpoint + newOffset - 1)
        else ClosestIndex(elem, newList, compare, Some(current), newOffset)
  }

  /** When the current probe is further from `elem` than the previous one,
      the search stops at the previous probe's absolute index. */
  lemma ClosestIndexStopsAtPreviousProbe<T>(elem: T, list: seq<T>, compare: (T, T) -> real, last: Probe, offset: int)
    requires |list| > 0
    requires Abs(last.comparison) < Abs(compare(elem, list[|list| / 2]))
    ensures ClosestIndex(elem, list, compare, Some(last), offset) == Success(last.idx + last.offset)
  {
  }

  function NumericCompare(a: real, b: real): real {
    a - b
  }

  /** Searching `[0, 1]` for 5 returns 2, one past the end of the list. */
  lemma ClosestIndexPastTheEnd()
    ensures ClosestIndex(5.0, [0.0, 1.0], NumericCompare, None, 0) == Success(2)
  {
  }

  /** Searching `[1]` for 0 returns -1. */
  lemma ClosestIndexBeforeTheStart()
    ensures ClosestIndex(0.0, [1.0], NumericCompare, None, 0) == Success(-1)
  {
  }

  /** The search with the empty-sub-list case returning the probe it has
      just made, `midpoint + offset` in the sub-list it was made in. */
  function ClosestIndexFixed<T>(elem: T, list: seq<T>, compare: (T, T) -> real, last: Option<Probe>, offset: int): (r: Result<int>)
    ensures r.Failure? <==> |list| == 0
    ensures r.Success? ==> (last.Some? && r.value == last.value.idx + last.value.offset) || offset <= r.value < offset + |list|
    decreases |list|
  {
    if |list| == 0 then Failure("Cannot find closest element from empty list.")
    else
      var midpoint := |list| / 2;
      var current := Probe(compare(elem, list[midpoint]), midpoint, offset);
      if last.Some? && Abs(last.value.comparison) < Abs(current.comparison) then
        Success(last.value.idx + last.value.offset)
      else
        var newOffset := if current.comparison < 0.0 then offset else offset + midpoint + 1;
        var newList := if current.comparison < 0.0 then list[..midpoint] else list[midpoint + 1..];
        if |newList| == 0 then Success(current.idx + current.offset)
        else ClosestIndexFixed(elem, newList, compare, Some(current), newOffset)
  }

  /** Called as the source's callers call it, the corrected search always
      returns an index of the list. */
  lemma ClosestIndexFixedInRange<T>(elem: T, list: seq<T>, compare: (T, T) -> real)
    requires |list| > 0
    ensures ClosestIndexFixed(elem, list, compare, None, 0).Success?
    ensures 0 <= ClosestIndexFixed(elem, list, compare, None, 0).value < |list|
  {
  }

  // ---------------------------------------------------------------------
  // validateNotNull
  // ---------------------------------------------------------------------

  /** A JavaScript value as `validateNotNull` sees it. An object is its
      enumerable members in `for...in` order. */
  datatype JsValue = Undefined | Null | NaN | Num(n: real) | Str(s: string) | Obj(members: seq<Member>)
  datatype Member = Member(key: string, value: JsValue)

  /** `typeof value === 'object'`, which holds for `null` too. */
  predicate IsObjectType(v: JsValue) {
    v.Obj? || v.Null?
  }

  /** The path handed to the recursive call: the template `${path}.${key}`,
      with the key alone when that template starts with a dot. */
  function ChildPath(path: string, key: string): (p: string)
    ensures p == if path == [] || path[0] == '.' then key else path + "." + key
  {
    var joined := path + "." + key;
    if joined[0] == '.' then key else joined
  }

  function UndefinedMessage(path: string, key: string): string {
    "Member " + path + "." + key + " of object is undefined"
  }

  /** The `for...in` loop of `validateNotNull(v, path)` from member `i` on.
      A member of object type (`null` included) is walked recursively; a
      member equal to `undefined` throws; `value === NaN` is never true, so
      `NaN` passes like any number. Walking a non-object visits no key. */
  function ValidateFrom(v: JsValue, i: nat, path: string): Outcome
    requires v.Obj? ==> i <= |v.members|
    decreases v, if v.Obj? then |v.members| - i else 0
  {
    if !v.Obj? || i == |v.members| then Pass
    else
      var m := v.members[i];
      if IsObjectType(m.value) then
        match ValidateFrom(m.value, 0, ChildPath(path, m.key))
        case Fail(e) => Fail(e)
        case Pass => ValidateFrom(v, i + 1, path)
      else if m.value.Undefined? then Fail(UndefinedMessage(path, m.key))
      else ValidateFrom(v, i + 1, path)
  }

  function ValidateNotNull(v: JsValue, path: string): Outcome {
    ValidateFrom(v, 0, path)
  }

  /** Some member, at any depth, is `undefined`. */
  ghost predicate HasUndefinedMember(v: JsValue) {
    v.Obj? && exists j :: 0 <= j < |v.members| && MemberHasUndefined(v.members[j])
  }

  ghost predicate MemberHasUndefined(m: Member) {
    m.value.Undefined? || HasUndefinedMember(m.value)
  }

  lemma {:induction false} ValidateFromThrowsIff(v: JsValue, i: nat, path: string)
    requires v.Obj? ==> i <= |v.members|
    ensures ValidateFrom(v, i, path).Fail? <==>
              v.Obj? && exists j :: i <= j < |v.members| && MemberHasUndefined(v.members[j])
    decreases v, if v.Obj? then |v.members| - i else 0
  {
    if v.Obj? && i < |v.members| {
      var m := v.members[i];
      ValidateFromThrowsIff(v, i + 1, path);
      if IsObjectType(m.value) {
        ValidateFromThrowsIff(m.value, 0, ChildPath(path, m.key));
      }
    }
  }

  /** `validateNotNull` throws exactly when some member at some depth is
      `undefined`; `null` and `NaN` members never make it throw. */
  lemma ValidateNotNullThrowsIff(v: JsValue, path: string)
    ensures ValidateNotNull(v, path).Fail? <==> HasUndefinedMember(v)
  {
    ValidateFromThrowsIff(v, 0, path);
  }

  /** What it throws names the member: "Member <path>.<key> of object is undefined". */
  lemma {:induction false} ValidateFromMessage(v: JsValue, i: nat, path: string)
    requires v.Obj? ==> i <= |v.members|
    ensures ValidateFrom(v, i, path).Fail? ==>
              exists p, k :: ValidateFrom(v, i, path).error == UndefinedMessage(p, k)
    decreases v, if v.Obj? then |v.members| - i else 0
  {
    if v.Obj? && i < |v.members| {
      var m := v.members[i];
      ValidateFromMessage(v, i + 1, path);
      if IsObjectType(m.value) {
        ValidateFromMessage(m.value, 0, ChildPath(path, m.key));
      } else if m.value.Undefined? {
        assert ValidateFrom(v, i, path).error == UndefinedMessage(path, m.key);
      }
    }
  }

  /** A `null` and a `NaN` member pass, an `undefined` one does not. */
  lemma NullAndNaNPass(path: string, key: string)
    ensures ValidateNotNull(Obj([Member(key, Null), Member(key, NaN)]), path) == Pass
    ensures ValidateNotNull(Obj([Member(key, Undefined)]), path) == Fail(UndefinedMessage(path, key))
  {
    var v := Obj([Member(key, Null), Member(key, NaN)]);
    assert ValidateFrom(v, 2, path) == Pass;
    assert ValidateFrom(v, 1, path) == Pass;
    assert ValidateFrom(Null, 0, ChildPath(path, key)) == Pass;
  }
}
