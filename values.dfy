/**
 * The Python values a webhook request and a Firestore document are made of (the JSON
 * types, as the Flask request parser and the Firestore client hand them over), with
 * the few built-ins the webhook applies to them: dict.get, str(), truthiness, int()
 * and format(x, '.2f'). A Python exception is an `Err` of the exception's class.
 */
module Values {
  import opened Numerals

  datatype Option<T> = None | Some(value: T)

  datatype Error = AttributeError | TypeError | ValueError | OverflowError

  datatype Result<T> = Ok(value: T) | Err(error: Error) {
    predicate IsFailure() { Err? }

    function PropagateFailure<U>(): Result<U>
      requires Err?
    {
      Err(error)
    }

    function Extract(): T
      requires Ok?
    {
      value
    }
  }

  /**
   * A Python value. `PFloat(c)` is the float c / 100 (prices and Dialogflow's clock
   * fields are such floats); `PDict` keeps its entries in insertion order, as Python
   * dicts do, and its keys are strings, as in JSON and Firestore.
   */
  datatype Value =
    | PNone
    | PBool(b: bool)
    | PInt(i: int)
    | PFloat(cents: int)
    | PStr(s: string)
    | PList(items: seq<Value>)
    | PDict(entries: seq<Entry>)

  datatype Entry = Entry(key: string, val: Value)

  /** The value stored under `key`, if any: that of the first entry with that key. */
  function Find(entries: seq<Entry>, key: string): Option<Value>
  {
    if entries == [] then None
    else if entries[0].key == key then Some(entries[0].val)
    else Find(entries[1..], key)
  }

  /**
   * Find sees a key exactly when some entry has it, and then gives the value of the first
   * such entry, as a dict built from these entries in order would keep it.
   */
  lemma {:induction false} FindFirst(entries: seq<Entry>, key: string)
    ensures Find(entries, key).Some? <==> exists i :: 0 <= i < |entries| && entries[i].key == key
    ensures Find(entries, key).Some? ==>
      exists i :: && 0 <= i < |entries| && entries[i] == Entry(key, Find(entries, key).value)
                  && forall j :: 0 <= j < i ==> entries[j].key != key
  {
    if entries != [] && entries[0].key != key {
      FindFirst(entries[1..], key);
      assert forall i :: 0 < i < |entries| ==> entries[i] == entries[1..][i - 1];
      if Find(entries, key).Some? {
        var i :| && 0 <= i < |entries[1..]| && entries[1..][i] == Entry(key, Find(entries, key).value)
                 && forall j :: 0 <= j < i ==> entries[1..][j].key != key;
        assert entries[i + 1] == Entry(key, Find(entries, key).value);
        assert forall j :: 0 <= j < i + 1 ==> entries[j].key != key;
      }
    } else if entries != [] {
      assert entries[0] == Entry(key, Find(entries, key).value);
    }
  }

  /** dict.get(key, default) on a dict. */
  function GetIn(entries: seq<Entry>, key: string, default: Value): Value
  {
    match Find(entries, key)
    case Some(v) => v
    case None => default
  }

  /** d.get(key, default): only a dict has the method. */
  function Get(d: Value, key: string, default: Value): (r: Result<Value>)
    ensures r.Err? <==> !d.PDict?
    ensures r.Err? ==> r.error == AttributeError
  {
    match d
    case PDict(entries) => Ok(GetIn(entries, key, default))
    case _ => Err(AttributeError)
  }

  /** Python's truth value of v, as `if v:` tests it. */
  predicate Truthy(v: Value)
  {
    match v
    case PNone => false
    case PBool(b) => b
    case PInt(i) => i != 0
    case PFloat(c) => c != 0
    case PStr(s) => s != ""
    case PList(items) => items != []
    case PDict(entries) => entries != []
  }

  function HexDigit(d: nat): char
    requires d < 16
  {
    "0123456789abcdef"[d]
  }

  /** One character of a str inside repr quotes `q`. */
  function EscapeChar(c: char, q: char): string
  {
    if c == '\\' || c == q then ['\\', c]
    else if c == '\n' then "\\n"
    else if c == '\r' then "\\r"
    else if c == '\t' then "\\t"
    else if c as int < 0x20 || 0x7F <= c as int <= 0xA0 then
      "\\x" + [HexDigit(c as int / 16), HexDigit(c as int % 16)]
    else [c]
  }

  function Escape(s: string, q: char): string
  {
    if s == [] then "" else EscapeChar(s[0], q) + Escape(s[1..], q)
  }

  /** repr(s) of a str: single quotes unless s holds a single quote and no double quote. */
  function QuoteString(s: string): string
  {
    var q := if '\'' in s && '"' !in s then '"' else '\'';
    [q] + Escape(s, q) + [q]
  }

  /** repr(v). */
  function Repr(v: Value): string
    decreases v, 2
  {
    match v
    case PNone => "None"
    case PBool(b) => if b then "True" else "False"
    case PInt(i) => IntToString(i)
    case PFloat(c) => FloatRepr(c)
    case PStr(s) => QuoteString(s)
    case PList(items) => "[" + ReprItems(items) + "]"
    case PDict(entries) => "{" + ReprEntries(entries) + "}"
  }

  /** The reprs of a list's items, separated by ", ". */
  function ReprItems(items: seq<Value>): string
    decreases items, 1
  {
    if items == [] then ""
    else Repr(items[0]) + (if |items| == 1 then "" else ", " + ReprItems(items[1..]))
  }

  /** The key: value pairs of a dict, separated by ", ". */
  function ReprEntries(entries: seq<Entry>): string
    decreases entries, 1
  {
    if entries == [] then ""
    else
      QuoteString(entries[0].key) + ": " + Repr(entries[0].val)
      + (if |entries| == 1 then "" else ", " + ReprEntries(entries[1..]))
  }

  /** str(v), which is also what an f-string field without a format spec shows. */
  function Str(v: Value): string
    decreases v, 3
  {
    match v
    case PStr(s) => s
    case _ => Repr(v)
  }

  /** A character repr leaves as it is inside the quotes `q`. */
  predicate PlainIn(c: char, q: char)
  {
    c != '\\' && c != q && 0x20 <= c as int && !(0x7F <= c as int <= 0xA0)
  }

  /** repr escapes a character exactly when it is not plain. */
  lemma EscapeCharPlain(c: char, q: char)
    ensures EscapeChar(c, q) == [c] <==> PlainIn(c, q)
    ensures !PlainIn(c, q) ==> |EscapeChar(c, q)| >= 2
  {
  }

  /** repr never shortens a string, and keeps it as it is exactly when every character is plain. */
  lemma {:induction false} EscapeKeepsPlain(s: string, q: char)
    ensures |Escape(s, q)| >= |s|
    ensures Escape(s, q) == s <==> forall i :: 0 <= i < |s| ==> PlainIn(s[i], q)
  {
    if s != [] {
      EscapeCharPlain(s[0], q);
      EscapeKeepsPlain(s[1..], q);
      assert forall i :: 0 < i < |s| ==> s[i] == s[1..][i - 1];
      if Escape(s, q) == s {
        assert |EscapeChar(s[0], q)| == 1;
        assert EscapeChar(s[0], q) == [s[0]];
        assert Escape(s[1..], q) == s[1..];
      }
    }
  }

  /**
   * repr of a str of plain characters is that str between single quotes, and str() of
   * it is the str itself.
   */
  lemma ReprOfPlainStr(s: string)
    requires forall i :: 0 <= i < |s| ==> PlainIn(s[i], '\'')
    ensures Repr(PStr(s)) == "'" + s + "'"
    ensures Str(PStr(s)) == s
  {
    EscapeKeepsPlain(s, '\'');
    assert forall i :: 0 <= i < |s| ==> s[i] != '\'';
    assert '\'' !in s;
  }

  /**
   * Whitespace for str.isspace(), below U+00A1: the characters int() skips around the
   * digits and str.strip() removes.
   */
  predicate IsSpace(c: char)
  {
    || c == ' ' || c == '\t' || c == '\n' || c == '\r' || c == '\U{0B}' || c == '\U{0C}'
    || '\U{1C}' <= c <= '\U{1F}' || c == '\U{85}' || c == '\U{A0}'
  }

  function TrimStart(s: string): (r: string)
    ensures r == [] || !IsSpace(r[0])
  {
    if s != [] && IsSpace(s[0]) then TrimStart(s[1..]) else s
  }

  function TrimEnd(s: string): (r: string)
    ensures r == [] || !IsSpace(r[|r| - 1])
  {
    if s != [] && IsSpace(s[|s| - 1]) then TrimEnd(s[..|s| - 1]) else s
  }

  /** str.strip() for the whitespace IsSpace names. */
  function Strip(s: string): string
  {
    TrimEnd(TrimStart(s))
  }

  /** One or more decimal digits and nothing else: the number they denote. */
  function ParseUnsigned(d: string): Option<int>
  {
    if d != [] && AllDigits(d) then Some(DigitsValue(d)) else None
  }

  /** An optional sign, then one or more digits. */
  function ParseSigned(t: string): Option<int>
  {
    if t != [] && (t[0] == '+' || t[0] == '-') then
      match ParseUnsigned(t[1..])
      case Some(n) => Some(if t[0] == '-' then -n else n)
      case None => None
    else ParseUnsigned(t)
  }

  /** int(s) for a str: surrounding whitespace, an optional sign, then one or more digits. */
  function ParseInt(s: string): Option<int>
  {
    ParseSigned(Strip(s))
  }

  /** A string that neither begins nor ends with whitespace is its own strip(). */
  lemma TrimmedAlready(s: string)
    requires s != [] && !IsSpace(s[0]) && !IsSpace(s[|s| - 1])
    ensures Strip(s) == s
  {
  }

  /** The digits of str(n) parse back as n. */
  lemma ParseUnsignedOfNat(n: nat)
    ensures ParseUnsigned(NatToString(n)) == Some(n)
  {
    NatToStringValue(n);
  }

  /** str(i) has no surrounding whitespace. */
  lemma IntToStringStripped(i: int)
    ensures Strip(IntToString(i)) == IntToString(i)
  {
    var s := IntToString(i);
    var digits := NatToString(if i < 0 then -i else i);
    assert s[|s| - 1] == digits[|digits| - 1];
    assert IsDigit(digits[|digits| - 1]);
    TrimmedAlready(s);
  }

  /** int(str(i)) == i. */
  lemma ParseIntOfIntToString(i: int)
    ensures ParseInt(IntToString(i)) == Some(i)
    ensures ToInt(PStr(Str(PInt(i)))) == Ok(i)
  {
    IntToStringStripped(i);
    if i < 0 {
      ParseUnsignedOfNat(-i);
      assert IntToString(i)[1..] == NatToString(-i);
    } else {
      ParseUnsignedOfNat(i);
    }
  }

  /** int(v): a float is truncated toward zero, a bool counts as 0 or 1. */
  function ToInt(v: Value): (r: Result<int>)
    ensures r.Err? <==> (v.PStr? && ParseInt(v.s).None?) || v.PNone? || v.PList? || v.PDict?
    ensures v.PInt? ==> r == Ok(v.i)
  {
    match v
    case PBool(b) => Ok(if b then 1 else 0)
    case PInt(i) => Ok(i)
    case PFloat(c) => Ok(if c >= 0 then c / 100 else -((-c) / 100))
    case PStr(s) =>
      (match ParseInt(s) case Some(i) => Ok(i) case None => Err(ValueError))
    case _ => Err(TypeError)
  }

  /**
   * 2^1024 - 2^970, the least int that float() rounds to infinity: from this magnitude on,
   * float() of an int raises OverflowError.
   */
  const FloatIntBound := 0xFFFFFFFFFFFFFC00_0000000000000000_0000000000000000_0000000000000000_0000000000000000_0000000000000000_0000000000000000_0000000000000000_0000000000000000_0000000000000000_0000000000000000_0000000000000000_0000000000000000_0000000000000000_0000000000000000_0000000000000000

  /** What format(v, '.2f') accepts: a bool, a float, or an int that float() can convert. */
  predicate Formattable(v: Value)
  {
    v.PBool? || v.PFloat? || (v.PInt? && Abs(v.i) < FloatIntBound)
  }

  /**
   * format(v, '.2f'): a str rejects the code 'f' and other non-numbers any format spec;
   * an int is first converted with float(), which raises for one too large.
   */
  function FormatFixed2(v: Value): (r: Result<string>)
    ensures r.Ok? <==> Formattable(v)
    ensures v.PStr? ==> r == Err(ValueError)
    ensures v.PInt? && !Formattable(v) ==> r == Err(OverflowError)
  {
    match v
    case PBool(b) => Ok(Fixed2(if b then 100 else 0))
    case PInt(i) => if Abs(i) < FloatIntBound then Ok(Fixed2(100 * i)) else Err(OverflowError)
    case PFloat(c) => Ok(Fixed2(c))
    case PStr(_) => Err(ValueError)
    case _ => Err(TypeError)
  }
}
