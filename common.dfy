/** Values and string helpers shared by the backend (Python) and the
    desktop shell (JavaScript) modules. */
module Common {

  datatype Option<T> = None | Some(value: T)

  /** The outcome of code that may raise an exception that its caller catches. */
  datatype Result<T> = Ok(value: T) | Raised(error: string)

  /** A JSON-like dynamic value, as held by Python dicts and JavaScript
      objects. `Undefined` is JavaScript's value of a missing property; JSON
      never produces it. */
  datatype Value =
    | Undefined
    | Null
    | Bool(b: bool)
    | Int(i: int)
    | Str(s: string)
    | List(items: seq<Value>)
    | Obj(fields: map<string, Value>)

  /** Python's bool(v). */
  predicate PyTruthy(v: Value) {
    match v
    case Undefined => false
    case Null => false
    case Bool(b) => b
    case Int(i) => i != 0
    case Str(s) => s != ""
    case List(xs) => xs != []
    case Obj(m) => m != map[]
  }

  /** JavaScript's Boolean(v): every object and array is truthy. */
  predicate JsTruthy(v: Value) {
    match v
    case Undefined => false
    case Null => false
    case Bool(b) => b
    case Int(i) => i != 0
    case Str(s) => s != ""
    case List(_) => true
    case Obj(_) => true
  }

  /** Python's d.get(k, default). */
  function PyGet(m: map<string, Value>, k: string, default: Value): (r: Value)
    ensures k in m ==> r == m[k]
    ensures k !in m ==> r == default
  {
    if k in m then m[k] else default
  }

  /** JavaScript's v[k] for a property read: `undefined` when v is not an
      object or has no such own property. */
  function Prop(v: Value, k: string): (r: Value)
    ensures v.Obj? && k in v.fields ==> r == v.fields[k]
    ensures !(v.Obj? && k in v.fields) ==> r == Undefined
  {
    if v.Obj? && k in v.fields then v.fields[k] else Undefined
  }

  /** JavaScript's `a || b`. */
  function JsOr(a: Value, b: Value): (r: Value)
    ensures JsTruthy(a) ==> r == a
    ensures !JsTruthy(a) ==> r == b
  {
    if JsTruthy(a) then a else b
  }

  /** JavaScript's v.k where an exception may follow: reading a property of
      null or undefined throws a TypeError. */
  function JsRead(v: Value, k: string): (r: Result<Value>)
    ensures r.Raised? <==> v.Null? || v.Undefined?
    ensures r.Ok? ==> r.value == Prop(v, k)
  {
    if v.Null? || v.Undefined? then Raised("TypeError: Cannot read properties of " + (if v.Null? then "null" else "undefined"))
    else Ok(Prop(v, k))
  }

  predicate Distinct<T(==)>(xs: seq<T>) {
    forall i, j :: 0 <= i < j < |xs| ==> xs[i] != xs[j]
  }

  function Elements<T(==)>(xs: seq<T>): set<T> {
    set x | x in xs
  }

  /** A sequence without repetitions has as many elements as its set. */
  lemma {:induction false} DistinctCardinality<T>(xs: seq<T>)
    requires Distinct(xs)
    ensures |Elements(xs)| == |xs|
  {
    if xs != [] {
      var rest := xs[1..];
      assert Distinct(rest) by {
        forall i, j | 0 <= i < j < |rest| ensures rest[i] != rest[j] {
          assert rest[i] == xs[i + 1] && rest[j] == xs[j + 1];
        }
      }
      DistinctCardinality(rest);
      assert Elements(xs) == Elements(rest) + {xs[0]};
      assert xs[0] !in Elements(rest) by {
        forall i | 0 <= i < |rest| ensures rest[i] != xs[0] {
          assert rest[i] == xs[i + 1];
        }
      }
    }
  }

  // ---------------------------------------------------------------- strings

  /** The runtime whose built-in a helper stands for; their notions of a
      blank character differ. */
  datatype Runtime = Python | JavaScript

  /** Which reading of a program to follow where a finding names a slip:
      the code as written, or with the slip corrected. */
  datatype Build = AsWritten | Corrected

  /** Blanks both runtimes share: tab to carriage return, the space, the
      Unicode space separators and the line and paragraph separators. */
  predicate SharedBlank(c: char) {
    var n := c as int;
    (9 <= n <= 13) || n == 0x20 || n == 0xA0 || n == 0x1680 || (0x2000 <= n <= 0x200A)
    || n == 0x2028 || n == 0x2029 || n == 0x202F || n == 0x205F || n == 0x3000
  }

  /** A blank character. For Python it is what str.isspace() accepts, which
      str.split(), str.strip() and int() skip; Python adds the information
      separators U+001C..U+001F and U+0085. For JavaScript it is a
      WhiteSpace or LineTerminator character, which trim(), Number() and
      parseInt() skip; JavaScript adds U+FEFF. */
  predicate IsSpace(rt: Runtime, c: char) {
    SharedBlank(c)
    || (match rt
        case Python => (0x1C <= c as int <= 0x1F) || c as int == 0x85
        case JavaScript => c as int == 0xFEFF)
  }

  predicate IsDigit(c: char) { '0' <= c <= '9' }

  function DropLeadingSpace(rt: Runtime, s: string): (r: string)
    ensures |r| <= |s| && r == s[|s| - |r|..]
    ensures r == [] || !IsSpace(rt, r[0])
    ensures forall i :: 0 <= i < |s| - |r| ==> IsSpace(rt, s[i])
  {
    if s != [] && IsSpace(rt, s[0]) then DropLeadingSpace(rt, s[1..]) else s
  }

  function DropTrailingSpace(rt: Runtime, s: string): (r: string)
    ensures |r| <= |s| && r == s[..|r|]
    ensures r == [] || !IsSpace(rt, r[|r| - 1])
    ensures forall i :: |r| <= i < |s| ==> IsSpace(rt, s[i])
  {
    if s != [] && IsSpace(rt, s[|s| - 1]) then DropTrailingSpace(rt, s[..|s| - 1]) else s
  }

  /** Python's str.strip() and JavaScript's trim(). */
  function Strip(rt: Runtime, s: string): (r: string)
    ensures r == [] || (!IsSpace(rt, r[0]) && !IsSpace(rt, r[|r| - 1]))
    ensures |r| <= |s|
  {
    DropTrailingSpace(rt, DropLeadingSpace(rt, s))
  }

  /** True when every character of s is blank (vacuously for ""). */
  predicate AllSpace(rt: Runtime, s: string) {
    forall i :: 0 <= i < |s| ==> IsSpace(rt, s[i])
  }

  /** Digits are never blank, so stripping leaves digit text as it is. */
  lemma StripDigits(rt: Runtime, s: string)
    ensures AllDigits(s) ==> Strip(rt, s) == s
  {
    if AllDigits(s) && s != [] {
      assert !IsSpace(rt, s[0]) && !IsSpace(rt, s[|s| - 1]);
    }
  }

  /** Nor is there a blank to drop in front of digit text. */
  lemma LeadingDigitsKept(rt: Runtime, s: string)
    ensures AllDigits(s) && s != [] ==> DropLeadingSpace(rt, s) == s
  {
    if AllDigits(s) && s != [] {
      assert !IsSpace(rt, s[0]);
    }
  }

  lemma StripEmptyIffAllSpace(rt: Runtime, s: string)
    ensures Strip(rt, s) == [] <==> AllSpace(rt, s)
  {
  }

  /** A no-break space is blank to both runtimes, unlike to an ASCII-only
      reading: trim() and str.strip() remove it. */
  lemma NoBreakSpaceIsBlank()
    ensures Strip(JavaScript, "\U{00A0}") == "" && Strip(Python, "\U{00A0}") == ""
  {
    assert IsSpace(JavaScript, "\U{00A0}"[0]) && IsSpace(Python, "\U{00A0}"[0]);
    assert "\U{00A0}"[1..] == "";
  }

  function LowerChar(c: char): (r: char)
    ensures 'A' <= c <= 'Z' ==> r as int == c as int + 32
    ensures !('A' <= c <= 'Z') ==> r == c
  {
    if 'A' <= c <= 'Z' then (c as int + 32) as char else c
  }

  /** str.lower() / toLowerCase() on the letters A to Z. */
  function ToLower(s: string): (r: string)
    ensures |r| == |s|
    ensures forall i :: 0 <= i < |s| ==> r[i] == LowerChar(s[i])
  {
    seq(|s|, i requires 0 <= i < |s| => LowerChar(s[i]))
  }

  predicate StartsWith(s: string, p: string) {
    |p| <= |s| && s[..|p|] == p
  }

  /** Python's `sub in s` for strings. */
  predicate Contains(s: string, sub: string)
    decreases |s|
  {
    StartsWith(s, sub) || (s != [] && Contains(s[1..], sub))
  }

  lemma {:induction false} ContainsAt(s: string, sub: string, k: nat)
    requires k + |sub| <= |s| && s[k..k + |sub|] == sub
    ensures Contains(s, sub)
    decreases k
  {
    if k == 0 {
      assert s[..|sub|] == sub;
    } else {
      assert s[1..][k - 1..k - 1 + |sub|] == sub;
      ContainsAt(s[1..], sub, k - 1);
    }
  }

  /** sub occurs in a + sub + b. */
  lemma ContainsMiddle(a: string, sub: string, b: string)
    ensures Contains(a + sub + b, sub)
  {
    var s := a + sub + b;
    assert s[|a|..|a| + |sub|] == sub;
    ContainsAt(s, sub, |a|);
  }

  /** The UTF-16 code units a character takes: two above U+FFFF. */
  function Units(c: char): (n: nat)
    ensures 1 <= n <= 2
  {
    if c as int >= 0x10000 then 2 else 1
  }

  /** JavaScript's s.length, which counts UTF-16 code units. */
  function Utf16Length(s: string): (n: nat)
    ensures |s| <= n <= 2 * |s|
  {
    if s == [] then 0 else Units(s[0]) + Utf16Length(s[1..])
  }

  lemma {:induction false} Utf16LengthAppend(a: string, b: string)
    ensures Utf16Length(a + b) == Utf16Length(a) + Utf16Length(b)
  {
    if a == [] {
      assert a + b == b;
    } else {
      assert (a + b)[0] == a[0] && (a + b)[1..] == a[1..] + b;
      Utf16LengthAppend(a[1..], b);
    }
  }

  /** JavaScript's s.substring(0, n), which cuts after n UTF-16 code units,
      on whole characters: the longest prefix of at most n units. It is one
      unit short exactly when the cut would split a surrogate pair. */
  function TakeUnits(s: string, n: nat): (r: string)
    ensures |r| <= |s| && r == s[..|r|] && Utf16Length(r) <= n
    ensures Utf16Length(s) <= n ==> r == s
    ensures Utf16Length(s) > n ==> Utf16Length(r) + 1 >= n && |r| < |s|
  {
    if s == [] || Units(s[0]) > n then []
    else [s[0]] + TakeUnits(s[1..], n - Units(s[0]))
  }

  /** The cut is as late as it can be: one more character would pass n units. */
  lemma {:induction false} TakeUnitsMaximal(s: string, n: nat)
    ensures var r := TakeUnits(s, n); |r| < |s| ==> Utf16Length(s[..|r| + 1]) > n
  {
    var r := TakeUnits(s, n);
    if s == [] || Units(s[0]) > n {
      if s != [] {
        assert s[..1] == [s[0]] + [];
        Utf16LengthCons(s[0], []);
      }
    } else {
      var t := TakeUnits(s[1..], n - Units(s[0]));
      assert r == [s[0]] + t;
      if |r| < |s| {
        TakeUnitsMaximal(s[1..], n - Units(s[0]));
        var k := |t| + 1;
        assert |r| + 1 == k + 1;
        assert s[1..][..k] == s[1..k + 1];
        assert s[..k + 1] == [s[0]] + s[1..k + 1];
        Utf16LengthCons(s[0], s[1..][..|t| + 1]);
      }
    }
  }

  lemma Utf16LengthCons(c: char, x: string)
    ensures Utf16Length([c] + x) == Units(c) + Utf16Length(x)
  {
    assert ([c] + x)[1..] == x;
  }

  /** Joins strings with a separator, as Array.prototype.join and str.join do. */
  function Join(xs: seq<string>, sep: string): (r: string)
    ensures xs == [] ==> r == ""
    ensures |xs| == 1 ==> r == xs[0]
  {
    if xs == [] then "" else if |xs| == 1 then xs[0] else xs[0] + sep + Join(xs[1..], sep)
  }

  /** Three strings joined: the separator goes between each pair. */
  lemma JoinThree(a: string, b: string, c: string, sep: string)
    ensures Join([a, b, c], sep) == a + sep + b + sep + c
  {
    assert [a, b, c][1..] == [b, c] && [b, c][1..] == [c];
  }

  // ---------------------------------------------------------------- numbers

  function DigitChar(d: nat): (c: char)
    requires d < 10
    ensures IsDigit(c)
  {
    ('0' as int + d) as char
  }

  function NatToString(n: nat): (r: string)
    ensures |r| > 0
    ensures forall i :: 0 <= i < |r| ==> IsDigit(r[i])
  {
    if n < 10 then [DigitChar(n)] else NatToString(n / 10) + [DigitChar(n % 10)]
  }

  /** Decimal text of an integer, as str(n) and String(n) print it. */
  function IntToString(n: int): (r: string)
    ensures |r| > 0
  {
    if n < 0 then "-" + NatToString(-n) else NatToString(n)
  }

  predicate AllDigits(s: string) {
    forall i :: 0 <= i < |s| ==> IsDigit(s[i])
  }

  predicate DigitsOrUnderscores(s: string) {
    forall i :: 0 <= i < |s| ==> IsDigit(s[i]) || s[i] == '_'
  }

  /** The value of a string of decimal digits; underscores are skipped. */
  function DigitsValue(s: string): (n: nat)
    requires DigitsOrUnderscores(s)
  {
    if s == [] then 0
    else if s[|s| - 1] == '_' then DigitsValue(s[..|s| - 1])
    else DigitsValue(s[..|s| - 1]) * 10 + (s[|s| - 1] as int - '0' as int)
  }

  lemma {:induction false} DigitsOfNat(n: nat)
    ensures AllDigits(NatToString(n)) && DigitsValue(NatToString(n)) == n
  {
    if n >= 10 {
      DigitsOfNat(n / 10);
      var s := NatToString(n);
      assert s[..|s| - 1] == NatToString(n / 10);
    }
  }

  /** The longest prefix of s made of digits. */
  function DigitPrefix(s: string): (r: string)
    ensures |r| <= |s| && AllDigits(r) && r == s[..|r|]
    ensures |r| < |s| ==> !IsDigit(s[|r|])
    ensures AllDigits(s) ==> r == s
  {
    if s != [] && IsDigit(s[0]) then [s[0]] + DigitPrefix(s[1..]) else ""
  }

  /** The value of a digit in bases up to 36: '0'..'9', then 'a'..'z' in
      either case; 36 for any other character. */
  function DigitOf(c: char): (d: nat)
    ensures d <= 36
    ensures IsDigit(c) <==> d < 10
  {
    if '0' <= c <= '9' then c as int - '0' as int
    else if 'a' <= c <= 'z' then c as int - 'a' as int + 10
    else if 'A' <= c <= 'Z' then c as int - 'A' as int + 10
    else 36
  }

  predicate AllRadix(s: string, radix: nat) {
    forall i :: 0 <= i < |s| ==> DigitOf(s[i]) < radix
  }

  /** The value of a string of digits in the given base (each character
      counted at its DigitOf value). */
  function RadixValue(s: string, radix: nat): nat
  {
    if s == [] then 0 else RadixValue(s[..|s| - 1], radix) * radix + DigitOf(s[|s| - 1])
  }

  /** The longest prefix of s made of digits of the given base. */
  function RadixPrefix(s: string, radix: nat): (r: string)
    ensures |r| <= |s| && r == s[..|r|]
    ensures AllRadix(s, radix) ==> r == s
  {
    if s != [] && DigitOf(s[0]) < radix then [s[0]] + RadixPrefix(s[1..], radix) else ""
  }

  /** Decimal digits in groups joined by single underscores, as Python's
      int() accepts them: no underscore first, last or next to another. */
  predicate PyDigitGroups(s: string) {
    && DigitsOrUnderscores(s) && s != [] && IsDigit(s[0]) && IsDigit(s[|s| - 1])
    && forall i :: 0 <= i < |s| - 1 && s[i] == '_' ==> IsDigit(s[i + 1])
  }

  /** A sign followed by a body: the sign's length and whether it is '-'. */
  function SignOf(t: string): (r: (nat, bool))
    ensures r.0 <= |t| && r.0 <= 1
    ensures r.1 ==> r.0 == 1
  {
    if t != [] && (t[0] == '-' || t[0] == '+') then (1, t[0] == '-') else (0, false)
  }

  /** Python's int(s) for a string: surrounding blanks, an optional sign and
      decimal digit groups; anything else raises ValueError (None here). */
  function PyIntOfString(s: string): (r: Option<int>)
    ensures AllDigits(s) && s != [] ==> r == Some(DigitsValue(s))
  {
    StripDigits(Python, s);
    var t := Strip(Python, s);
    var (k, minus) := SignOf(t);
    var u := t[k..];
    if !PyDigitGroups(u) then None
    else Some(if minus then -(DigitsValue(u) as int) else DigitsValue(u))
  }

  /** "0x" followed by hexadecimal digits parses as their value. */
  lemma HexDigitsParse(d: string)
    requires d != [] && AllRadix(d, 16)
    ensures JsParseInt("0x" + d) == Some(RadixValue(d, 16))
  {
    var t := "0x" + d;
    assert t[0] == '0' && t[1] == 'x' && t[..2] == "0x";
    assert DropLeadingSpace(JavaScript, t) == t by { assert !IsSpace(JavaScript, t[0]); }
    assert SignOf(t) == (0, false);
    assert t[0 + 2..] == d;
    LeadingValueReads(d, 16);
  }

  /** int() accepts underscores between digit groups: "8_000" is 8000. */
  lemma PyIntOfGroups()
    ensures PyIntOfString("8_000") == Some(8000)
  {
    GroupsStrip();
    GroupsValue();
  }

  lemma GroupsStrip()
    ensures Strip(Python, "8_000") == "8_000" && SignOf("8_000") == (0, false)
  {
    var s := "8_000";
    assert !IsSpace(Python, s[0]) && !IsSpace(Python, s[4]);
  }

  lemma GroupsValue()
    ensures PyDigitGroups("8_000") && DigitsValue("8_000") == 8000
  {
    var s := "8_000";
    assert forall i :: 0 <= i < |s| ==> IsDigit(s[i]) || s[i] == '_';
    assert s[..4] == "8_00" && "8_00"[..3] == "8_0" && "8_0"[..2] == "8_" && "8_"[..1] == "8" && "8"[..0] == "";
  }

  /** JavaScript's parseInt(s) without a radix: leading blanks, an optional
      sign, then a "0x" or "0X" prefix selects base 16 and otherwise base 10;
      the longest run of digits of that base is read. None is NaN. */
  function JsParseInt(s: string): (r: Option<int>)
    ensures AllDigits(s) && s != [] ==> r == Some(DigitsValue(s))
  {
    LeadingDigitsKept(JavaScript, s);
    SignedInt(DropLeadingSpace(JavaScript, s))
  }

  /** parseInt once the leading blanks are gone. */
  function SignedInt(t: string): (r: Option<int>)
    ensures AllDigits(t) && t != [] ==> r == Some(DigitsValue(t))
  {
    DigitsUnsigned(t);
    var (k, minus) := SignOf(t);
    var u := t[k..];
    var hex := StartsWith(u, "0x") || StartsWith(u, "0X");
    var n := if hex then LeadingValue(t[k + 2..], 16) else LeadingDecimal(u);
    if n.None? then None else Some(if minus then -(n.value as int) else n.value)
  }

  /** A run of decimal digits has no sign and no "0x" prefix. */
  lemma DigitsUnsigned(t: string)
    ensures AllDigits(t) && t != [] ==>
      SignOf(t) == (0, false) && t[0..] == t && !StartsWith(t, "0x") && !StartsWith(t, "0X")
  {
    if AllDigits(t) && |t| >= 2 {
      assert IsDigit(t[1]) && t[..2][1] == t[1];
    }
  }

  /** The value of the longest prefix of s made of decimal digits; None
      when s does not start with one. */
  function LeadingDecimal(s: string): (r: Option<nat>)
    ensures r.None? <==> s == [] || !IsDigit(s[0])
    ensures AllDigits(s) && s != [] ==> r == Some(DigitsValue(s))
  {
    var d := DigitPrefix(s);
    if d == [] then None else Some(DigitsValue(d))
  }

  /** The value of the longest prefix of s made of digits of the given
      base; None when s does not start with one. */
  function LeadingValue(s: string, radix: nat): Option<nat>
  {
    var d := RadixPrefix(s, radix);
    if d == [] then None else Some(RadixValue(d, radix))
  }

  /** No value without a leading digit; a string of digits of the base is
      read whole. */
  lemma LeadingValueReads(s: string, radix: nat)
    ensures LeadingValue(s, radix).None? <==> s == [] || DigitOf(s[0]) >= radix
    ensures AllRadix(s, radix) && s != [] ==> LeadingValue(s, radix) == Some(RadixValue(s, radix))
  {
  }

  /** JavaScript's String(v). */
  function JsString(v: Value): (r: string)
    decreases v, 1
  {
    match v
    case Undefined => "undefined"
    case Null => "null"
    case Bool(b) => if b then "true" else "false"
    case Int(i) => IntToString(i)
    case Str(s) => s
    case List(xs) => JsJoinElements(xs, v)
    case Obj(_) => "[object Object]"
  }

  /** Array.prototype.join(",") as String() of an array applies it: null and
      undefined elements print as "". */
  function JsJoinElements(xs: seq<Value>, whole: Value): (r: string)
    requires forall x :: x in xs ==> x < whole
    decreases whole, 0, |xs|
  {
    if xs == [] then ""
    else
      assert xs[0] in xs;
      var first := if xs[0].Null? || xs[0].Undefined? then "" else JsString(xs[0]);
      if |xs| == 1 then first
      else
        assert forall x :: x in xs[1..] ==> x in xs;
        first + "," + JsJoinElements(xs[1..], whole)
  }

  /** A JavaScript number as comparisons see it: NaN, a finite value (held
      exactly), or an infinity. */
  datatype Number = NaN | Finite(x: real) | Infinite(negative: bool)

  /** `n < k` in JavaScript: false whenever n is NaN. */
  predicate NumLess(n: Number, k: int) {
    match n
    case NaN => false
    case Finite(x) => x < k as real
    case Infinite(negative) => negative
  }

  /** `n > k` in JavaScript: false whenever n is NaN. */
  predicate NumGreater(n: Number, k: int) {
    match n
    case NaN => false
    case Finite(x) => x > k as real
    case Infinite(negative) => !negative
  }

  function Pow10(e: nat): (r: nat)
    ensures r >= 1
  {
    if e == 0 then 1 else 10 * Pow10(e - 1)
  }

  /** m times ten to the power e. */
  function Scaled(m: nat, e: int): real {
    if e >= 0 then (m * Pow10(e)) as real else m as real / Pow10(-e) as real
  }

  function Negate(n: Number): Number {
    match n
    case NaN => NaN
    case Finite(x) => Finite(-x)
    case Infinite(negative) => Infinite(!negative)
  }

  /** The base a "0x", "0o" or "0b" prefix names; 0 for any other letter. */
  function Radix(c: char): nat {
    if c == 'x' || c == 'X' then 16 else if c == 'o' || c == 'O' then 8 else if c == 'b' || c == 'B' then 2 else 0
  }

  /** An exponent part: nothing (0), or 'e' or 'E', an optional sign and
      digits. None when the text is anything else. */
  function Exponent(s: string): (r: Option<int>)
    ensures s == [] ==> r == Some(0)
  {
    if s == [] then Some(0)
    else if s[0] != 'e' && s[0] != 'E' then None
    else
      var (k, minus) := SignOf(s[1..]);
      var d := s[1..][k..];
      if d != [] && AllDigits(d) then Some(if minus then -(DigitsValue(d) as int) else DigitsValue(d)) else None
  }

  /** An unsigned decimal literal: "Infinity", or digits with an optional
      fraction (at least one digit on either side of the point) and an
      optional exponent. */
  function UnsignedDecimal(u: string): (r: Number)
    ensures u == [] ==> r == NaN
  {
    if u == "Infinity" then Infinite(false)
    else
      var whole := DigitPrefix(u);
      var afterWhole := u[|whole|..];
      var point := afterWhole != [] && afterWhole[0] == '.';
      var frac := if point then DigitPrefix(afterWhole[1..]) else "";
      var afterFrac := if point then afterWhole[1 + |frac|..] else afterWhole;
      if whole == [] && frac == [] then NaN
      else match Exponent(afterFrac)
        case None => NaN
        case Some(e) => Finite(Scaled(DigitsValue(whole + frac), e - |frac|))
  }

  /** JavaScript's Number(s) for a string, by the StringNumericLiteral
      grammar of ECMA-262: blank text is 0; otherwise, between blanks, a
      "0x", "0o" or "0b" integer, or a signed decimal literal or a signed
      "Infinity"; anything else is NaN. */
  function StringToNumber(s: string): (r: Number)
    ensures Strip(JavaScript, s) == [] ==> r == Finite(0.0)
  {
    var t := Strip(JavaScript, s);
    if t == [] then Finite(0.0)
    else if |t| >= 2 && t[0] == '0' && Radix(t[1]) > 0 then
      var d := t[2..];
      if d != [] && AllRadix(d, Radix(t[1])) then Finite(RadixValue(d, Radix(t[1])) as real) else NaN
    else if t[0] == '-' then Negate(UnsignedDecimal(t[1..]))
    else if t[0] == '+' then UnsignedDecimal(t[1..])
    else UnsignedDecimal(t)
  }

  /** Decimal digits read as the number they spell. */
  lemma DecimalDigitsNumber(s: string)
    requires s != [] && AllDigits(s)
    ensures StringToNumber(s) == Finite(DigitsValue(s) as real)
  {
    StripDigits(JavaScript, s);
    assert IsDigit(s[0]) && s[0] != '-' && s[0] != '+';
    assert |s| >= 2 ==> IsDigit(s[1]) && Radix(s[1]) == 0;
    DigitsDecimal(s);
  }

  lemma DigitsDecimal(s: string)
    requires s != [] && AllDigits(s)
    ensures UnsignedDecimal(s) == Finite(DigitsValue(s) as real)
  {
    assert s != "Infinity" by { assert "Infinity"[0] == 'I'; }
    var whole := DigitPrefix(s);
    assert whole == s && s[|whole|..] == [];
    assert whole + "" == s;
  }

  /** An exponent scales the digits before it: "1e9" is a billion. */
  lemma ExponentLiteral()
    ensures StringToNumber("1e9") == Finite(1000000000.0)
  {
    var t := "1e9";
    assert Strip(JavaScript, t) == t by {
      assert !IsSpace(JavaScript, t[0]) && !IsSpace(JavaScript, t[2]);
    }
    assert t[0] == '1';
    UnsignedExponent();
  }

  lemma UnsignedExponent()
    ensures UnsignedDecimal("1e9") == Finite(1000000000.0)
  {
    assert DigitPrefix("1e9") == "1" by { assert "1e9"[1..] == "e9"; }
    assert "1e9"[1..] == "e9";
    ExponentNine();
    assert "1" + "" == "1";
    assert DigitsValue("1") == 1 by { assert "1"[..0] == ""; }
    assert Scaled(1, 9) == 1000000000.0 by { PowerNine(); }
  }

  lemma PowerNine()
    ensures Pow10(9) == 1000000000
  {
    assert Pow10(3) == 1000;
    assert Pow10(6) == 1000 * Pow10(3) by { assert Pow10(6) == 10 * (10 * (10 * Pow10(3))); }
    assert Pow10(9) == 1000 * Pow10(6) by { assert Pow10(9) == 10 * (10 * (10 * Pow10(6))); }
  }

  lemma ExponentNine()
    ensures Exponent("e9") == Some(9)
  {
    assert "e9"[1..] == "9";
    assert SignOf("9") == (0, false);
    assert "9"[0..] == "9";
  }

  /** A signed "Infinity" is an infinity, not NaN. */
  lemma InfinityLiteral()
    ensures StringToNumber("-Infinity") == Infinite(true)
  {
    assert Strip(JavaScript, "-Infinity") == "-Infinity" by {
      assert !IsSpace(JavaScript, "-Infinity"[0]) && !IsSpace(JavaScript, "-Infinity"[8]);
    }
    assert "-Infinity"[1..] == "Infinity";
  }

  /** The hexadecimal digits "1F90" spell 8080. */
  lemma HexValue()
    ensures AllRadix("1F90", 16) && RadixValue("1F90", 16) == 8080
  {
    assert "1F90"[..3] == "1F9" && "1F9"[..2] == "1F" && "1F"[..1] == "1" && "1"[..0] == "";
  }

  /** JavaScript's Number(v): an array goes through its String() form and
      any other object is NaN. */
  function JsToNumber(v: Value): (r: Number)
    ensures v.Int? ==> r == Finite(v.i as real)
    ensures v.Undefined? || v.Obj? ==> r == NaN
    ensures v.Null? ==> r == Finite(0.0)
  {
    match v
    case Undefined => NaN
    case Null => Finite(0.0)
    case Bool(b) => Finite(if b then 1.0 else 0.0)
    case Int(i) => Finite(i as real)
    case Str(s) => StringToNumber(s)
    case List(_) => StringToNumber(JsString(v))
    case Obj(_) => NaN
  }
}
