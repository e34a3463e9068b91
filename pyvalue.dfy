/** Python-level values the bot handles: the decoded JSON body of a weather
    reply, the exceptions that can escape a call, and the text that an
    f-string placeholder produces for a value (`str()` of it). */
module PyValue {

  datatype Option<+T> = None | Some(value: T)

  /** A computation that either produced a value or raised an exception. */
  datatype Result<+T, +E> = Ok(value: T) | Err(error: E) {
    predicate IsFailure() { Err? }
    function PropagateFailure<U>(): Result<U, E>
      requires Err?
    {
      Err(error)
    }
    function Extract(): T
      requires Ok?
    {
      value
    }
  }

  /** The exceptions that matter to the bot's core. `RequestException` stands
      for every exception of the requests library (connection failures,
      HTTPError from raise_for_status, undecodable JSON). */
  datatype PyException =
    | RequestException
    | KeyError
    | IndexError
    | TypeError
    | AttributeError
    | OverflowError
    | ValueError

  /** A value produced by decoding JSON: None, bool, int, str, list or dict.
      A dict is kept as its entries in insertion order. JSON numbers are
      whole numbers in this model. */
  datatype Json =
    | JNull
    | JBool(b: bool)
    | JNum(n: int)
    | JStr(s: string)
    | JArray(items: seq<Json>)
    | JObject(entries: seq<(string, Json)>)

  /** The value bound to `key` in a dict's entries, if any. */
  function Lookup(entries: seq<(string, Json)>, key: string): (r: Option<Json>)
    ensures r.Some? ==> exists i :: 0 <= i < |entries| && entries[i] == (key, r.value)
    ensures r.None? <==> forall i :: 0 <= i < |entries| ==> entries[i].0 != key
  {
    if entries == [] then None
    else if entries[0].0 == key then Some(entries[0].1)
    else
      var r := Lookup(entries[1..], key);
      assert forall i :: 1 <= i < |entries| ==> entries[i] == entries[1..][i - 1];
      r
  }

  // ---------------------------------------------------------------------
  // Decimal text of integers, as `str(n)` writes it

  function DigitChar(d: nat): char
    requires d < 10
  {
    ('0' as int + d) as char
  }

  predicate IsDigit(c: char) { '0' <= c <= '9' }

  function DigitValue(c: char): nat
    requires IsDigit(c)
  {
    (c - '0') as nat
  }

  predicate AllDigits(s: string)
  {
    forall i :: 0 <= i < |s| ==> IsDigit(s[i])
  }

  /** A non-empty string of digits, possibly after one leading minus. */
  predicate IsNumeral(s: string)
  {
    |s| >= 1 && forall i :: 0 <= i < |s| ==> IsDigit(s[i]) || (i == 0 && s[i] == '-')
  }

  /** Decimal digits of `n`, most significant first, without leading
      zeros. */
  function NatText(n: nat): string
    decreases n
  {
    if n < 10 then [DigitChar(n)] else NatText(n / 10) + [DigitChar(n % 10)]
  }

  /** `str(n)` for a Python int. */
  function IntText(n: int): string
  {
    if n < 0 then "-" + NatText(-n) else NatText(n)
  }

  /** Reads back a string of decimal digits. */
  function ParseNat(s: string): nat
    requires AllDigits(s)
  {
    if s == [] then 0 else ParseNat(s[..|s| - 1]) * 10 + DigitValue(s[|s| - 1])
  }

  /** Reads back an optional minus sign followed by decimal digits. */
  function ParseInt(s: string): int
    requires IsNumeral(s)
  {
    if s[0] == '-' then 0 - ParseNat(s[1..]) as int else ParseNat(s)
  }

  /** The decimal text of a natural number is a non-empty string of digits
      that reads back as the number. */
  lemma {:induction false} NatTextRoundTrip(n: nat)
    ensures |NatText(n)| >= 1 && AllDigits(NatText(n)) && ParseNat(NatText(n)) == n
    decreases n
  {
    if n >= 10 {
      NatTextRoundTrip(n / 10);
      var s := NatText(n);
      assert s[..|s| - 1] == NatText(n / 10);
    }
  }

  /** The decimal text of an int is a numeral, negative exactly when the
      int is, and reads back as the int. */
  lemma IntTextRoundTrip(n: int)
    ensures IsNumeral(IntText(n)) && ParseInt(IntText(n)) == n
    ensures IntText(n)[0] == '-' <==> n < 0
  {
    if n < 0 {
      NatTextRoundTrip(-n);
      var digits := NatText(-n);
      var s := "-" + digits;
      assert s[1..] == digits;
      assert forall i :: 1 <= i < |s| ==> s[i] == digits[i - 1];
    } else {
      NatTextRoundTrip(n);
    }
  }

  /** Distinct ints have distinct decimal texts. */
  lemma IntTextInjective(m: int, n: int)
    requires IntText(m) == IntText(n)
    ensures m == n
  {
    IntTextRoundTrip(m);
    IntTextRoundTrip(n);
  }

  // ---------------------------------------------------------------------
  // str() and repr() of decoded JSON values

  /** `repr(v)`: how a value shows inside a list or a dict. Strings are
      single-quoted; escaping of quotes and control characters is not
      modelled. */
  function Repr(v: Json): string
    decreases v, 2, 0
  {
    match v
    case JStr(s) => "'" + s + "'"
    case _ => Str(v)
  }

  /** `str(v)`, the text an f-string placeholder `{v}` produces. */
  function Str(v: Json): string
    decreases v, 1, 0
  {
    match v
    case JNull => "None"
    case JBool(b) => if b then "True" else "False"
    case JNum(n) => IntText(n)
    case JStr(s) => s
    case JArray(items) => "[" + ItemsRepr(v, 0) + "]"
    case JObject(entries) => "{" + EntriesRepr(v, 0) + "}"
  }

  /** The items of a list from position `i` on, each as `repr` shows it,
      separated by ", ". */
  function ItemsRepr(v: Json, i: nat): string
    requires v.JArray? && i <= |v.items|
    decreases v, 0, |v.items| - i
  {
    if i == |v.items| then ""
    else
      var sep := if i + 1 == |v.items| then "" else ", ";
      Repr(v.items[i]) + sep + ItemsRepr(v, i + 1)
  }

  /** The entries of a dict from position `i` on, as `'key': value`,
      separated by ", ". */
  function EntriesRepr(v: Json, i: nat): string
    requires v.JObject? && i <= |v.entries|
    decreases v, 0, |v.entries| - i
  {
    if i == |v.entries| then ""
    else
      var sep := if i + 1 == |v.entries| then "" else ", ";
      assert v.entries[i].1 < v.entries[i] < v;
      "'" + v.entries[i].0 + "': " + Repr(v.entries[i].1) + sep + EntriesRepr(v, i + 1)
  }
}
