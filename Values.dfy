/**
 * The JavaScript values the engines work on, and the few pieces of
 * JavaScript semantics they rely on: strict equality and `includes`,
 * relational comparison, truthiness, template-string rendering, and the
 * array queries `find` and `filter`.
 */
module Values {

  datatype Option<+T> = None | Some(value: T)

  /** A thrown exception, as the core raises it */
  datatype Error =
    | NotFound(message: string)   // `new Error('... not found')`
    | TypeError                   // calling a method that the value does not have

  /** A call that returns a value or throws */
  datatype Result<+T> = Success(value: T) | Failure(error: Error)

  /** A call that returns nothing or throws */
  datatype Outcome = Pass | Fail(error: Error)

  /** A JavaScript value as it can occur in a profile, a rule or an answer */
  datatype Val =
    | Num(n: real)
    | Str(s: string)
    | Bool(b: bool)
    | List(items: seq<Val>)
    | Undefined

  /** A record indexed by attribute name (a student profile, a response record) */
  type Profile = map<string, Val>

  /** `record[key]`: an absent key reads as `undefined` */
  function Get(p: Profile, key: string): Val {
    if key in p then p[key] else Undefined
  }

  /**
   * `a === b`. Arrays compare by reference; two array values reaching the
   * engine from different places (a profile and a rule) are different
   * objects, so a list is never strictly equal to anything.
   */
  predicate StrictEquals(a: Val, b: Val) {
    !a.List? && a == b
  }

  /** `xs.includes(v)` */
  function Includes(xs: seq<Val>, v: Val): (b: bool)
    ensures b <==> exists i :: 0 <= i < |xs| && StrictEquals(xs[i], v)
  {
    if xs == [] then false
    else if StrictEquals(xs[0], v) then true
    else
      var rest := Includes(xs[1..], v);
      assert rest ==> exists i :: 0 <= i < |xs[1..]| && StrictEquals(xs[1..][i], v);
      assert forall i :: 1 <= i < |xs| ==> xs[i] == xs[1..][i - 1];
      rest
  }

  /** The falsy values among those modelled: `undefined`, `0`, `false`, `""` */
  predicate Falsy(v: Val) {
    v == Undefined || v == Num(0.0) || v == Bool(false) || v == Str("")
  }

  /** `v || fallback` */
  function OrElse(v: Val, fallback: Val): (r: Val)
    ensures Falsy(v) ==> r == fallback
    ensures !Falsy(v) ==> r == v
  {
    if Falsy(v) then fallback else v
  }

  /**
   * The numeric conversion used by `>=` and `<=` when the operands are not
   * both strings; None is NaN. Numbers and booleans convert; `undefined`
   * is NaN. Strings and arrays are not converted (see README).
   */
  function NumberValue(v: Val): Option<real> {
    match v
    case Num(x) => Some(x)
    case Bool(b) => Some(if b then 1.0 else 0.0)
    case _ => None
  }

  /** Lexicographic `<` on strings, character by character */
  predicate StrLess(s: string, t: string)
    decreases |s|
  {
    if s == [] then t != []
    else if t == [] then false
    else if s[0] != t[0] then s[0] < t[0]
    else StrLess(s[1..], t[1..])
  }

  /** `a >= b` */
  predicate LooseGreaterEq(a: Val, b: Val) {
    if a.Str? && b.Str? then !StrLess(a.s, b.s)
    else
      match (NumberValue(a), NumberValue(b))
      case (Some(x), Some(y)) => x >= y
      case _ => false
  }

  /** `a <= b` */
  predicate LooseLessEq(a: Val, b: Val) {
    if a.Str? && b.Str? then !StrLess(b.s, a.s)
    else
      match (NumberValue(a), NumberValue(b))
      case (Some(x), Some(y)) => x <= y
      case _ => false
  }

  // ---------------------------------------------------------------------
  // Rendering values into template strings

  function DigitChar(d: nat): char
    requires d < 10
  {
    "0123456789"[d]
  }

  /** Decimal digits of a natural number, without leading zeros */
  function NatText(n: nat): (s: string)
    ensures |s| >= 1
    ensures forall i :: 0 <= i < |s| ==> '0' <= s[i] <= '9'
    ensures s[0] == '0' ==> n == 0 && s == "0"
  {
    if n < 10 then [DigitChar(n)] else NatText(n / 10) + [DigitChar(n % 10)]
  }

  /** The value of one decimal digit character */
  function DigitValue(c: char): int {
    c as int - '0' as int
  }

  /** The number a string of decimal digits denotes, most significant digit first */
  function DigitsValue(s: string): int {
    if s == [] then 0 else DigitsValue(s[..|s| - 1]) * 10 + DigitValue(s[|s| - 1])
  }

  lemma DigitCharValue(d: nat)
    requires d < 10
    ensures DigitValue(DigitChar(d)) == d
  {
    if d == 0 {} else if d == 1 {} else if d == 2 {} else if d == 3 {} else if d == 4 {}
    else if d == 5 {} else if d == 6 {} else if d == 7 {} else if d == 8 {} else {}
  }

  /** `NatText` renders a number in decimal: its digits denote the number again */
  lemma {:induction false} NatTextValue(n: nat)
    ensures DigitsValue(NatText(n)) == n
  {
    if n < 10 {
      DigitCharValue(n);
      assert [DigitChar(n)][..0] == [];
    } else {
      var s := NatText(n / 10) + [DigitChar(n % 10)];
      assert s[..|s| - 1] == NatText(n / 10);
      NatTextValue(n / 10);
      DigitCharValue(n % 10);
    }
  }

  /** Decimal digits of a fraction in [0, 1), at most `budget` of them */
  function FractionDigits(f: real, budget: nat): string
    requires 0.0 <= f < 1.0
    decreases budget
  {
    if f == 0.0 || budget == 0 then ""
    else
      var d := (f * 10.0).Floor;
      [DigitChar(d)] + FractionDigits(f * 10.0 - d as real, budget - 1)
  }

  /** `String(x)` for a number: integers exactly, decimals up to 20 fractional digits */
  function NumText(x: real): string {
    var m := if x < 0.0 then -x else x;
    var whole := m.Floor;
    var frac := m - whole as real;
    (if x < 0.0 then "-" else "")
    + NatText(whole)
    + (if frac == 0.0 then "" else "." + FractionDigits(frac, 20))
  }

  /** `x.toFixed(2)`: the nearest multiple of 0.01, the larger one in magnitude on a tie */
  function ToFixed2(x: real): string {
    var m := if x < 0.0 then -x else x;
    (if x < 0.0 then "-" else "") + CentsText(Hundredths(m))
  }

  /** The number of hundredths nearest to `m`, rounding a tie up */
  function Hundredths(m: real): (c: nat)
    requires m >= 0.0
    ensures m * 100.0 - 0.5 < c as real <= m * 100.0 + 0.5
  {
    (m * 100.0 + 0.5).Floor
  }

  /** A count of hundredths written as "<whole>.<two digits>" */
  function CentsText(c: nat): string {
    NatText(c / 100) + "." + [DigitChar(c % 100 / 10), DigitChar(c % 10)]
  }

  /**
   * "<whole>.<two digits>": decimal digits around a '.' three places from
   * the end, and no leading zero in the whole part
   */
  predicate FixedTwoNumeral(r: string) {
    && |r| >= 4 && r[|r| - 3] == '.'
    && (forall i :: 0 <= i < |r| && i != |r| - 3 ==> '0' <= r[i] <= '9')
    && (r[0] == '0' ==> |r| == 4)
  }

  /**
   * `toFixed(2)` of a non-negative number is "<whole>.<two digits>", and the
   * number it writes, counted in hundredths, is within half a hundredth of `x`
   */
  lemma ToFixed2Rounds(x: real)
    requires x >= 0.0
    ensures var r := ToFixed2(x);
      && FixedTwoNumeral(r)
      && var cents := DigitsValue(r[..|r| - 3]) * 100 + DigitsValue(r[|r| - 2..]);
      && x * 100.0 - 0.5 < cents as real <= x * 100.0 + 0.5
  {
    var c := Hundredths(x);
    assert ToFixed2(x) == CentsText(c);
    CentsValue(c);
  }

  /** The text of a count of hundredths denotes that count again */
  lemma CentsValue(c: nat)
    ensures var r := CentsText(c);
      && FixedTwoNumeral(r)
      && DigitsValue(r[..|r| - 3]) * 100 + DigitsValue(r[|r| - 2..]) == c
  {
    var whole := NatText(c / 100);
    var d1 := DigitChar(c % 100 / 10);
    var d2 := DigitChar(c % 10);
    var r := whole + "." + [d1, d2];
    assert r[..|r| - 3] == whole;
    assert r[|r| - 2..] == [d1, d2];
    assert [d1, d2][..1] == [d1];
    assert [d1][..0] == [];
    NatTextValue(c / 100);
    DigitCharValue(c % 100 / 10);
    DigitCharValue(c % 10);
    var hi := c % 100 / 10;
    var lo := c % 10;
    assert DigitsValue([d1]) == hi;
    assert DigitsValue([d1, d2]) == DigitsValue([d1]) * 10 + lo;
    assert hi * 10 + lo == c % 100;
    assert '0' <= d1 <= '9' && '0' <= d2 <= '9';
    assert forall i :: 0 <= i < |whole| ==> r[i] == whole[i];
  }

  /** A whole number is written with two zero decimals */
  lemma ToFixed2Whole(n: nat)
    ensures ToFixed2(n as real) == NatText(n) + ".00"
  {
    var c := Hundredths(n as real);
    assert c == 100 * n;
    assert ToFixed2(n as real) == CentsText(100 * n);
    assert (100 * n) / 100 == n && (100 * n) % 100 / 10 == 0 && (100 * n) % 10 == 0;
  }

  function Join(parts: seq<string>, sep: string): string {
    if parts == [] then ""
    else if |parts| == 1 then parts[0]
    else parts[0] + sep + Join(parts[1..], sep)
  }

  /** `${v}`: how a template string renders a value; arrays are joined with "," */
  function ValText(v: Val): string {
    match v
    case Num(x) => NumText(x)
    case Str(s) => s
    case Bool(b) => if b then "true" else "false"
    case Undefined => "undefined"
    case List(xs) =>
      // Array.prototype.join renders an undefined element as the empty string
      Join(seq(|xs|, i requires 0 <= i < |xs| => if xs[i].Undefined? then "" else ValText(xs[i])), ",")
  }

  /**
   * How a template string renders the values a profile holds: a string as
   * itself, a whole number as its decimal digits, booleans and `undefined`
   * by name, and an empty array as the empty string
   */
  lemma ValTextRendering(s: string, n: nat)
    ensures ValText(Str(s)) == s
    ensures ValText(Num(n as real)) == NatText(n) && DigitsValue(ValText(Num(n as real))) == n
    ensures ValText(Bool(true)) == "true" && ValText(Bool(false)) == "false"
    ensures ValText(Undefined) == "undefined"
    ensures ValText(List([])) == ""
  {
    assert (n as real).Floor == n;
    NatTextValue(n);
  }

  /** Strict equality is symmetric, implies equality, and holds of every non-array value with itself */
  lemma StrictEqualsMeaning(a: Val, b: Val)
    ensures StrictEquals(a, b) <==> StrictEquals(b, a)
    ensures StrictEquals(a, b) ==> a == b
    ensures !a.List? ==> StrictEquals(a, a)
    ensures a.List? ==> !StrictEquals(a, b) && !StrictEquals(b, a)
  {
  }

  /** No string precedes itself */
  lemma {:induction false} StrLessIrreflexive(s: string)
    ensures !StrLess(s, s)
    decreases |s|
  {
    if s != [] {
      StrLessIrreflexive(s[1..]);
    }
  }

  /**
   * `a >= b` is `b <= a`; numbers and strings are comparable with
   * themselves; `undefined` compares with nothing
   */
  lemma LooseOrderMeaning(a: Val, b: Val, s: string, x: real)
    ensures LooseGreaterEq(a, b) <==> LooseLessEq(b, a)
    ensures LooseGreaterEq(Str(s), Str(s)) && LooseLessEq(Str(s), Str(s))
    ensures LooseGreaterEq(Num(x), Num(x))
    ensures !LooseGreaterEq(Undefined, b) && !LooseLessEq(Undefined, b)
  {
    StrLessIrreflexive(s);
  }

  // ---------------------------------------------------------------------
  // Array queries

  /** `s.findIndex(p)`, with -1 as None */
  function FirstIndex<T>(s: seq<T>, p: T -> bool): (r: Option<nat>)
    ensures r.None? <==> forall i :: 0 <= i < |s| ==> !p(s[i])
    ensures r.Some? ==> r.value < |s| && p(s[r.value]) && forall j :: 0 <= j < r.value ==> !p(s[j])
  {
    if s == [] then None
    else if p(s[0]) then Some(0)
    else
      match FirstIndex(s[1..], p)
      case None =>
        assert forall i :: 1 <= i < |s| ==> s[i] == s[1..][i - 1];
        None
      case Some(k) =>
        assert forall j :: 1 <= j < k + 1 ==> s[j] == s[1..][j - 1];
        Some(k + 1)
  }

  /** Elements appended after a match do not change the first match */
  lemma {:induction false} FirstIndexAppend<T>(s: seq<T>, t: seq<T>, p: T -> bool)
    requires FirstIndex(s, p).Some?
    ensures FirstIndex(s + t, p) == FirstIndex(s, p)
  {
    assert (s + t)[0] == s[0];
    if !p(s[0]) {
      assert (s + t)[1..] == s[1..] + t;
      FirstIndexAppend(s[1..], t, p);
    }
  }

  /** `s.find(p)`, with undefined as None */
  function Find<T>(s: seq<T>, p: T -> bool): (r: Option<T>)
    ensures r.None? <==> forall i :: 0 <= i < |s| ==> !p(s[i])
    ensures r.Some? ==> exists k :: 0 <= k < |s| && s[k] == r.value && p(s[k]) && forall j :: 0 <= j < k ==> !p(s[j])
  {
    match FirstIndex(s, p)
    case None => None
    case Some(k) => Some(s[k])
  }

  /** `s.every(p)` */
  function Every<T>(s: seq<T>, p: T -> bool): (b: bool)
    ensures b <==> forall i :: 0 <= i < |s| ==> p(s[i])
  {
    if s == [] then true
    else
      assert forall i :: 1 <= i < |s| ==> s[i] == s[1..][i - 1];
      p(s[0]) && Every(s[1..], p)
  }

  /** `s.filter(p)` */
  function Filter<T(==)>(s: seq<T>, p: T -> bool): (r: seq<T>)
    ensures |r| <= |s|
    ensures forall i :: 0 <= i < |r| ==> r[i] in s && p(r[i])
    ensures forall i :: 0 <= i < |s| && p(s[i]) ==> s[i] in r
  {
    if s == [] then []
    else
      var rest := Filter(s[1..], p);
      assert forall i :: 1 <= i < |s| ==> s[i] == s[1..][i - 1];
      (if p(s[0]) then [s[0]] else []) + rest
  }

  /** Filtering keeps order: it distributes over concatenation */
  lemma {:induction false} FilterAppend<T>(a: seq<T>, b: seq<T>, p: T -> bool)
    ensures Filter(a + b, p) == Filter(a, p) + Filter(b, p)
  {
    if a == [] {
      assert a + b == b;
    } else {
      assert (a + b)[0] == a[0];
      assert (a + b)[1..] == a[1..] + b;
      FilterAppend(a[1..], b, p);
    }
  }

  /** Filtering a one-element sequence keeps the element exactly when it matches */
  lemma FilterSingleton<T>(x: T, p: T -> bool)
    ensures Filter([x], p) == if p(x) then [x] else []
  {
    assert [x][1..] == [];
  }

  // ---------------------------------------------------------------------
  // Reading pieces back out of concatenated text

  /** The middle piece of `p + x + rest` sits right after `p` */
  lemma SliceAfter<T>(p: seq<T>, x: seq<T>, rest: seq<T>)
    ensures (p + x + rest)[|p|..|p| + |x|] == x
  {
  }

  /** A concatenation starts with its first part */
  lemma PrefixOfConcat<T>(a: seq<T>, b: seq<T>)
    ensures a <= a + b
  {
    assert (a + b)[..|a|] == a;
  }

  /** A slice inside the first part of a concatenation is a slice of that part */
  lemma SliceWithin<T>(x: seq<T>, y: seq<T>, i: nat, j: nat)
    requires i <= j <= |x|
    ensures (x + y)[i..j] == x[i..j]
  {
  }
}
