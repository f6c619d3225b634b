/** Python values as the publisher's hooks and settings handle them (Python 2),
    together with the failure-carrying wrappers the model uses in place of
    exceptions. */
module Values {

  datatype Option<+T> = None | Some(value: T) {
    function GetOr(default: T): T {
      match this
      case Some(v) => v
      case None => default
    }
  }

  /** An exception the source raises, by the name of its class. */
  datatype Error =
    | NameError(name: string)                 // a name that is not bound where it is used
    | KeyError(key: string)                   // a missing dictionary key
    | IndexError                              // indexing an empty list
    | TypeError(message: string)
    | AttributeError(attribute: string)
    | NotImplementedError
    | TankError(message: string)
    | TankMissingTemplateError(template: Value) // "The Template '<template>' does not exist!"
    | HostError(message: string)              // raised by a host routine and passed through unchanged

  datatype Result<+T> = Ok(value: T) | Err(error: Error) {
    predicate IsFailure() { Err? }
    function PropagateFailure<U>(): Result<U>
      requires Err?
    {
      Err(error)
    }
    function Extract(): T
      requires Ok?
    {
      value
    }
  }

  /** A Python value. Lists and dictionaries compare structurally, which is
      what Python's == does on them. `MultiplesValue` and `NoneValue` are the
      two sentinel objects the collector's value widgets use for "the selected
      items disagree" and "explicitly no value". */
  datatype Value =
    | NoneVal
    | BoolVal(b: bool)
    | IntVal(i: int)
    | StrVal(s: string)
    | ListVal(elems: seq<Value>)
    | DictVal(entries: map<string, Value>)
    | MultiplesValue
    | NoneValue

  /** Python truthiness: None, False, 0 and empty containers are false; any
      other object (the sentinels included) is true. */
  predicate Truthy(v: Value) {
    match v
    case NoneVal => false
    case BoolVal(b) => b
    case IntVal(i) => i != 0
    case StrVal(s) => s != ""
    case ListVal(e) => e != []
    case DictVal(m) => m != map[]
    case MultiplesValue => true
    case NoneValue => true
  }

  /** `type(v).__name__` under Python 2. */
  function TypeName(v: Value): string {
    match v
    case NoneVal => "NoneType"
    case BoolVal(_) => "bool"
    case IntVal(_) => "int"
    case StrVal(_) => "str"
    case ListVal(_) => "list"
    case DictVal(_) => "dict"
    case MultiplesValue => "MultiplesValue"
    case NoneValue => "NoneValue"
  }

  /** `d.get(key, default)`. */
  function Get(d: map<string, Value>, key: string, default: Value): (r: Value)
    ensures key in d ==> r == d[key]
    ensures key !in d ==> r == default
  {
    if key in d then d[key] else default
  }

  /** `s.startswith(prefix)`. */
  predicate StartsWith(s: string, prefix: string) {
    |prefix| <= |s| && s[..|prefix|] == prefix
  }

  /** `needle in haystack` on two strings: a substring test. */
  predicate Contains(haystack: string, needle: string)
    decreases |haystack|
  {
    StartsWith(haystack, needle) || (haystack != [] && Contains(haystack[1..], needle))
  }

  /** The `extra_info` entry the basic publish hooks attach to an item they
      reject or disable: a "Show Info" action carrying `text`. */
  function ShowMoreInfo(text: string): Value {
    DictVal(map["action_show_more_info" :=
      DictVal(map["label" := StrVal("Show Info"), "tooltip" := StrVal("Show more info"), "text" := StrVal(text)])])
  }

  // ---- Python's str() -------------------------------------------------------

  function DigitChar(d: nat): char
    requires d < 10
  {
    "0123456789"[d]
  }

  function DigitValue(c: char): nat {
    if '0' <= c <= '9' then (c as int - '0' as int) as nat else 0
  }

  /** The decimal digits of a natural number, most significant first. */
  function Digits(n: nat): (s: string)
    ensures |s| >= 1
    decreases n
  {
    if n < 10 then [DigitChar(n)] else Digits(n / 10) + [DigitChar(n % 10)]
  }

  /** Reads back a string of decimal digits. */
  function ParseDigits(s: string): nat
    decreases |s|
  {
    if s == [] then 0 else ParseDigits(s[..|s| - 1]) * 10 + DigitValue(s[|s| - 1])
  }

  lemma {:induction false} DigitsRoundTrip(n: nat)
    ensures ParseDigits(Digits(n)) == n
    decreases n
  {
    if n >= 10 {
      var s := Digits(n);
      DigitsRoundTrip(n / 10);
      assert s[..|s| - 1] == Digits(n / 10);
      assert s[|s| - 1] == DigitChar(n % 10);
      assert DigitValue(DigitChar(n % 10)) == n % 10;
    } else {
      assert DigitValue(DigitChar(n)) == n;
    }
  }

  /** `str(i)` for an integer. */
  function IntStr(i: int): string {
    if i < 0 then "-" + Digits(-i) else Digits(i)
  }

  /** Reads back `IntStr`. */
  function ParseInt(s: string): int {
    if |s| > 0 && s[0] == '-' then -(ParseDigits(s[1..]) as int) else ParseDigits(s)
  }

  lemma IntStrRoundTrip(i: int)
    ensures ParseInt(IntStr(i)) == i
  {
    if i < 0 {
      NegativeRoundTrip(i);
    } else {
      NonNegativeRoundTrip(i);
    }
  }

  lemma NegativeRoundTrip(i: int)
    requires i < 0
    ensures ParseInt(IntStr(i)) == i
  {
    var n: nat := -i;
    var d := Digits(n);
    assert IntStr(i) == "-" + d;
    DigitsRoundTrip(n);
    ParseNegative(d);
  }

  lemma NonNegativeRoundTrip(i: int)
    requires i >= 0
    ensures ParseInt(IntStr(i)) == i
  {
    DigitsAreDigits(i);
    DigitsRoundTrip(i);
    ParseNonNegative(Digits(i));
  }

  lemma ParseNegative(d: string)
    ensures ParseInt("-" + d) == -(ParseDigits(d) as int)
  {
    assert ("-" + d)[1..] == d;
  }

  lemma ParseNonNegative(d: string)
    requires d != [] && d[0] != '-'
    ensures ParseInt(d) == ParseDigits(d)
  {
  }

  lemma {:induction false} DigitsAreDigits(n: nat)
    ensures forall k | 0 <= k < |Digits(n)| :: '0' <= Digits(n)[k] <= '9'
    decreases n
  {
    if n >= 10 {
      DigitsAreDigits(n / 10);
    }
  }

  /** `str(v)`. Strings are quoted inside containers as `repr` does (without
      escaping); a dictionary's items appear in some fixed order, as Python 2's
      hash order is not modelled. */
  ghost function Str(v: Value): string {
    match v
    case StrVal(s) => s
    case _ => Repr(v)
  }

  ghost function Repr(v: Value): string
    decreases v
  {
    match v
    case NoneVal => "None"
    case BoolVal(b) => if b then "True" else "False"
    case IntVal(i) => IntStr(i)
    case StrVal(s) => "'" + s + "'"
    case ListVal(e) =>
      "[" + Join(seq(|e|, i requires 0 <= i < |e| => Repr(e[i]))) + "]"
    case DictVal(m) =>
      var ks := KeyOrder(m.Keys);
      "{" + Join(seq(|ks|, i requires 0 <= i < |ks| => "'" + ks[i] + "': " + Repr(m[ks[i]]))) + "}"
    case MultiplesValue => "<MultiplesValue>"
    case NoneValue => "<NoneValue>"
  }

  /** The parts separated by ", ". */
  function Join(parts: seq<string>): string {
    if parts == [] then ""
    else if |parts| == 1 then parts[0]
    else parts[0] + ", " + Join(parts[1..])
  }

  /** The keys of a dictionary in some fixed order. */
  ghost function KeyOrder(keys: set<string>): (ks: seq<string>)
    ensures forall k :: k in ks <==> k in keys
    decreases keys
  {
    if keys == {} then []
    else
      var k :| k in keys;
      [k] + KeyOrder(keys - {k})
  }
}
