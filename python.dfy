/**
 * The slice of Python's value model and builtins that the plugin code relies on:
 * optional values, exceptions, the shapes a stored rule value can take, truthiness,
 * `dict.get`, tuple unpacking, `int()`, `float()` and `" ".join`.
 */
module Python {

  /** `Optional[T]`: a value or `None`. */
  datatype Option<+T> = None | Some(value: T)

  /** The exception classes the modelled code can raise. */
  datatype PyError = TypeError | ValueError | IndexError | KeyError | AttributeError

  /** The outcome of evaluating Python code that may raise an exception. */
  datatype Outcome<+T> = Ok(value: T) | Raised(error: PyError) {
    predicate IsFailure() {
      Raised?
    }

    function PropagateFailure<U>(): Outcome<U>
      requires Raised?
    {
      Raised(error)
    }

    function Extract(): T
      requires Ok?
    {
      value
    }
  }

  /**
   * The values a stored rule configuration is built from. `Num` stands for both
   * `int` and `float` (Python compares them by value, so `60 == 60.0`).
   */
  datatype Value =
    | NoneV
    | Num(x: real)
    | Str(s: string)
    | Tuple(items: seq<Value>)
    | List(items: seq<Value>)
    | Dict(entries: map<string, Value>)

  /** Python truthiness: `None`, zero and empty containers are false, every other value is true. */
  function Truthy(v: Value): (b: bool)
    ensures v == NoneV ==> !b
    ensures v.Num? ==> (b <==> v.x != 0.0)
    ensures v.Str? ==> (b <==> |v.s| > 0)
    ensures v.Tuple? || v.List? ==> (b <==> |v.items| > 0)
    ensures v.Dict? ==> (b <==> |v.entries| > 0)
  {
    match v
    case NoneV => false
    case Num(x) => x != 0.0
    case Str(s) => s != ""
    case Tuple(items) => items != []
    case List(items) => items != []
    case Dict(entries) => entries != map[]
  }

  /** Truthiness of an `Optional[str]`. */
  predicate TruthyText(s: Option<string>) {
    s.Some? && s.value != ""
  }

  /** `d.get(key)`: the entry, or `None` when the key is absent. */
  function Get(d: map<string, Value>, key: string): (v: Value)
    ensures key in d ==> v == d[key]
    ensures key !in d ==> v == NoneV
  {
    if key in d then d[key] else NoneV
  }

  /** The two-element tuple `(a, b)`. */
  function Pair(a: Value, b: Value): Value {
    Tuple([a, b])
  }

  /** `a, b = t` for a tuple `t`: unpacking raises unless `t` has exactly two items. */
  function Unpack2(t: seq<Value>): (r: Outcome<(Value, Value)>)
    ensures r.Ok? <==> |t| == 2
    ensures r.Ok? ==> t == [r.value.0, r.value.1]
    ensures r.Raised? ==> r.error == ValueError
  {
    if |t| == 2 then Ok((t[0], t[1])) else Raised(ValueError)
  }

  /** `int(x)` for a number: truncation toward zero. */
  function Trunc(x: real): (n: int)
    ensures 0.0 <= x ==> 0 <= n && n as real <= x < n as real + 1.0
    ensures x < 0.0 ==> n <= 0 && n as real - 1.0 < x <= n as real
  {
    if x >= 0.0 then x.Floor else -((-x).Floor)
  }

  predicate IsDigit(c: char) {
    '0' <= c <= '9'
  }

  predicate AllDigits(s: string) {
    forall i :: 0 <= i < |s| ==> IsDigit(s[i])
  }

  /** The number a string of decimal digits denotes (0 for the empty string). */
  function DigitsValue(s: string): nat
    requires AllDigits(s)
  {
    if s == [] then 0 else DigitsValue(s[..|s| - 1]) * 10 + (s[|s| - 1] as int - '0' as int)
  }

  /**
   * `int(token)` on a whitespace-free token: an optional sign followed by one or
   * more decimal digits; anything else is rejected (Python raises ValueError).
   */
  function ParseInt(s: string): (r: Option<int>)
    ensures r.Some? <==>
      || (|s| > 0 && AllDigits(s))
      || (|s| > 1 && (s[0] == '-' || s[0] == '+') && AllDigits(s[1..]))
    ensures r.Some? && |s| > 0 && IsDigit(s[0]) ==> r.value >= 0
    ensures r.Some? && s[0] == '+' ==> r.value >= 0
    ensures r.Some? && s[0] == '-' ==> r.value <= 0
  {
    if |s| > 1 && s[0] == '-' && AllDigits(s[1..]) then Some(-(DigitsValue(s[1..]) as int))
    else if |s| > 1 && s[0] == '+' && AllDigits(s[1..]) then Some(DigitsValue(s[1..]))
    else if |s| > 0 && AllDigits(s) then Some(DigitsValue(s))
    else None
  }

  function DigitChar(d: nat): (c: char)
    requires d < 10
    ensures IsDigit(c) && c as int - '0' as int == d
  {
    (d + '0' as int) as char
  }

  /** `str(n)` for a natural number. */
  function NatToString(n: nat): (s: string)
    ensures |s| > 0 && AllDigits(s)
  {
    if n < 10 then [DigitChar(n)] else NatToString(n / 10) + [DigitChar(n % 10)]
  }

  /** `str(n)`: the decimal rendering an agent prints for a count or a timestamp. */
  function IntToString(n: int): (s: string)
    ensures |s| > 0
  {
    if n < 0 then "-" + NatToString(-n) else NatToString(n)
  }

  lemma {:induction false} DigitsOfNatToString(n: nat)
    ensures DigitsValue(NatToString(n)) == n
  {
    var s := NatToString(n);
    if n >= 10 {
      DigitsOfNatToString(n / 10);
      assert s[..|s| - 1] == NatToString(n / 10);
    }
  }

  /** Parsing what `str` renders gives the number back. */
  lemma ParseIntRoundTrip(n: int)
    ensures ParseInt(IntToString(n)) == Some(n)
  {
    if n < 0 {
      DigitsOfNatToString(-n);
      assert IntToString(n)[1..] == NatToString(-n);
    } else {
      DigitsOfNatToString(n);
    }
  }

  /** `int(v)`: numbers truncate, strings are parsed, everything else is a TypeError. */
  function IntOf(v: Value): (r: Outcome<int>)
    ensures v.Num? ==> r == Ok(Trunc(v.x))
    ensures v.Str? ==> (r.Ok? <==> ParseInt(v.s).Some?)
    ensures v.Str? && r.Ok? ==> Some(r.value) == ParseInt(v.s)
    ensures r.Raised? ==> r.error == (if v.Str? then ValueError else TypeError)
  {
    match v
    case Num(x) => Ok(Trunc(x))
    case Str(s) => if ParseInt(s).Some? then Ok(ParseInt(s).value) else Raised(ValueError)
    case _ => Raised(TypeError)
  }

  /** `float(v)`: numbers are kept, strings are parsed, everything else is a TypeError. */
  function FloatOf(v: Value): (r: Outcome<real>)
    ensures v.Num? ==> r == Ok(v.x)
    ensures v.Str? ==> (r.Ok? <==> ParseInt(v.s).Some?)
    ensures v.Str? && r.Ok? ==> r.value == ParseInt(v.s).value as real
    ensures r.Raised? ==> r.error == (if v.Str? then ValueError else TypeError)
  {
    match v
    case Num(x) => Ok(x)
    case Str(s) => if ParseInt(s).Some? then Ok(ParseInt(s).value as real) else Raised(ValueError)
    case _ => Raised(TypeError)
  }

  /** `v >= 0` for a non-None `v`: only numbers compare with an int. */
  function AtLeastZero(v: Value): (r: Outcome<bool>)
    ensures r.Ok? <==> v.Num?
    ensures r.Ok? ==> (r.value <==> v.x >= 0.0)
    ensures r.Raised? ==> r.error == TypeError
  {
    if v.Num? then Ok(v.x >= 0.0) else Raised(TypeError)
  }

  /** `" ".join(words)`; `SplitJoin` shows the words can be read back. */
  function Join(words: seq<string>): (r: string)
    ensures words == [] ==> r == ""
    ensures |words| == 1 ==> r == words[0]
    ensures |words| > 0 ==> words[0] <= r
    ensures |words| > 1 ==> |r| > |words[0]| && r[|words[0]|] == ' '
  {
    if words == [] then ""
    else if |words| == 1 then words[0]
    else words[0] + " " + Join(words[1..])
  }

  /** A word as whitespace splitting produces it: non-empty and without a space. */
  predicate IsWord(w: string) {
    w != "" && forall i | 0 <= i < |w| :: w[i] != ' '
  }

  /** The length of the word at the start of `s`: the index of the first space, or `|s|`. */
  function WordLength(s: string): (k: nat)
    ensures k <= |s|
    ensures forall i | 0 <= i < k :: s[i] != ' '
    ensures k < |s| ==> s[k] == ' '
  {
    if s == [] || s[0] == ' ' then 0 else 1 + WordLength(s[1..])
  }

  /** `s.split()` on a line whose only whitespace is spaces: the maximal runs of non-space characters. */
  function Split(s: string): (words: seq<string>)
    ensures forall i | 0 <= i < |words| :: IsWord(words[i])
    decreases |s|
  {
    if s == [] then []
    else if s[0] == ' ' then Split(s[1..])
    else
      var k := WordLength(s);
      [s[..k]] + Split(s[k..])
  }

  /** Splitting what `" ".join` built from words gives the words back. */
  lemma {:induction false} SplitJoin(words: seq<string>)
    requires forall i | 0 <= i < |words| :: IsWord(words[i])
    ensures Split(Join(words)) == words
  {
    if |words| == 1 {
      var w := words[0];
      assert WordLength(w) == |w|;
      assert w[..|w|] == w && w[|w|..] == [];
    } else if |words| > 1 {
      var w := words[0];
      var rest := Join(words[1..]);
      var s := w + " " + rest;
      assert Join(words) == s;
      assert WordLength(s) == |w| by {
        assert forall i | 0 <= i < |w| :: s[i] == w[i];
      }
      assert s[..|w|] == w;
      assert s[|w|..] == " " + rest;
      assert (" " + rest)[1..] == rest;
      SplitJoin(words[1..]);
      assert [w] + words[1..] == words;
    }
  }
}
