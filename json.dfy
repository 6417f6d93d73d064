/** JSON values as they reach a pydantic model, and the per-field rules a
    pydantic BaseModel applies: a field declared without a default is
    required, `Optional[X] = None` accepts an absent key or null, a declared
    default fills an absent key, keys the model does not declare are ignored.
    Numbers are integers here (money and durations are modelled as int).
    Float fields are read in pydantic's lax mode: a bool or a numeric text
    is accepted as a number; str fields take only strings. */
module Json {
  import opened Common

  datatype Json =
    | JNull
    | JBool(b: bool)
    | JNum(n: int)
    | JStr(s: string)
    | JArr(items: seq<Json>)
    | JObj(fields: map<string, Json>)

  type Object = map<string, Json>

  datatype ErrorKind = MissingField | WrongType

  /** One validation error, located by the top-level field it concerns. */
  datatype FieldError = FieldError(field: string, kind: ErrorKind)

  type Field<T> = Result<T, FieldError>

  /** The errors of one field, in the order pydantic reports them. */
  function Errors<T>(f: Field<T>): seq<FieldError>
  {
    if f.Err? then [f.error] else []
  }

  /** `name: str` (required, no default). */
  function RequiredStr(o: Object, name: string): (r: Field<string>)
    ensures r.Ok? <==> name in o && o[name].JStr?
    ensures r.Ok? ==> r.value == o[name].s
    ensures r.Err? ==> r.error.field == name
  {
    if name !in o then Err(FieldError(name, MissingField))
    else if o[name].JStr? then Ok(o[name].s)
    else Err(FieldError(name, WrongType))
  }

  /** `name: Optional[str] = None`. */
  function OptionalStr(o: Object, name: string): (r: Field<Option<string>>)
    ensures r.Ok? <==> name !in o || o[name].JNull? || o[name].JStr?
    ensures r.Ok? ==> r.value == StrOrNone(o, name)
    ensures r.Err? ==> r.error == FieldError(name, WrongType)
  {
    if name !in o || o[name].JNull? then Ok(None)
    else if o[name].JStr? then Ok(Some(o[name].s))
    else Err(FieldError(name, WrongType))
  }

  predicate IsDigit(c: char)
  {
    '0' <= c <= '9'
  }

  predicate AllDigits(s: string)
  {
    forall i :: 0 <= i < |s| ==> IsDigit(s[i])
  }

  function DigitsValue(s: string): nat
    requires AllDigits(s)
    decreases |s|
  {
    if s == [] then 0 else DigitsValue(s[..|s| - 1]) * 10 + (s[|s| - 1] as int - '0' as int)
  }

  /** A decimal integer text with an optional sign, read as the number it
      spells; any other text gives None. */
  function IntText(s: string): (r: Option<int>)
    ensures r.Some? <==>
      (|s| >= 1 && AllDigits(s)) || (|s| >= 2 && (s[0] == '-' || s[0] == '+') && AllDigits(s[1..]))
  {
    if |s| >= 1 && AllDigits(s) then Some(DigitsValue(s) as int)
    else if |s| >= 2 && s[0] == '-' && AllDigits(s[1..]) then Some(-(DigitsValue(s[1..]) as int))
    else if |s| >= 2 && s[0] == '+' && AllDigits(s[1..]) then Some(DigitsValue(s[1..]) as int)
    else None
  }

  lemma DigitCharValue(d: nat)
    requires d < 10
    ensures IsDigit(DigitChar(d)) && DigitChar(d) as int - '0' as int == d
  {
    if d == 0 {} else if d == 1 {} else if d == 2 {} else if d == 3 {} else if d == 4 {}
    else if d == 5 {} else if d == 6 {} else if d == 7 {} else if d == 8 {} else {}
  }

  lemma {:induction false} NatTextValue(n: nat)
    ensures AllDigits(NatToString(n)) && DigitsValue(NatToString(n)) == n
    decreases n
  {
    if n < 10 {
      DigitCharValue(n);
      assert NatToString(n) == [DigitChar(n)];
      assert NatToString(n)[..0] == [];
    } else {
      var t := NatToString(n / 10);
      NatTextValue(n / 10);
      DigitCharValue(n % 10);
      var s := t + [DigitChar(n % 10)];
      assert NatToString(n) == s;
      assert s[..|s| - 1] == t;
    }
  }

  /** Reading back the decimal text of any integer gives the integer. */
  lemma IntTextRoundTrip(n: int)
    ensures IntText(IntToString(n)) == Some(n)
  {
    if n < 0 {
      var t := NatToString(-n);
      NatTextValue(-n);
      NegTextValue(t);
      assert IntToString(n) == "-" + t;
    } else {
      NatTextValue(n);
      assert IntText(NatToString(n)) == Some(DigitsValue(NatToString(n)) as int);
    }
  }

  /** A minus sign before a digit run reads as the run's value negated. */
  lemma NegTextValue(t: string)
    requires |t| >= 1 && AllDigits(t)
    ensures IntText("-" + t) == Some(-(DigitsValue(t) as int))
  {
    var s := "-" + t;
    assert s[1..] == t;
    assert !IsDigit(s[0]);
  }

  /** Pydantic's lax reading of a JSON value into a float field: a number,
      a bool as 1 or 0, or a numeric text; anything else is refused.
      Numeric texts are modelled for decimal integers. */
  function LaxNumber(j: Json): Option<int>
  {
    match j
    case JNum(n) => Some(n)
    case JBool(b) => Some(if b then 1 else 0)
    case JStr(s) => IntText(s)
    case _ => None
  }

  /** The value a valid `Optional[str] = None` field holds. */
  function StrOrNone(o: Object, name: string): Option<string>
  {
    if name in o && o[name].JStr? then Some(o[name].s) else None
  }

  /** The value a valid `Optional[float] = None` field holds. */
  function NumOrNone(o: Object, name: string): Option<int>
  {
    if name in o && !o[name].JNull? then LaxNumber(o[name]) else None
  }

  /** `name: Optional[float] = None`, numbers kept as integers. */
  function OptionalNum(o: Object, name: string): (r: Field<Option<int>>)
    ensures r.Ok? <==> name !in o || o[name].JNull? || LaxNumber(o[name]).Some?
    ensures r.Ok? ==> r.value == NumOrNone(o, name)
    ensures r.Err? ==> r.error == FieldError(name, WrongType)
  {
    if name !in o || o[name].JNull? then Ok(None)
    else match LaxNumber(o[name])
      case Some(n) => Ok(Some(n))
      case None => Err(FieldError(name, WrongType))
  }

  predicate AllStrings(items: seq<Json>)
  {
    forall i :: 0 <= i < |items| ==> items[i].JStr?
  }

  function Strings(items: seq<Json>): (r: seq<string>)
    requires AllStrings(items)
    ensures |r| == |items|
    ensures forall i :: 0 <= i < |items| ==> r[i] == items[i].s
  {
    if items == [] then [] else [items[0].s] + Strings(items[1..])
  }

  /** The value a valid `Optional[List[str]] = []` field holds. */
  function StrListOrDefault(o: Object, name: string): Option<seq<string>>
  {
    if name !in o then Some([])
    else if o[name].JArr? && AllStrings(o[name].items) then Some(Strings(o[name].items))
    else None
  }

  /** `name: Optional[List[str]] = []`: absent gives the default empty list,
      an explicit null gives None. */
  function OptionalStrListDefaultEmpty(o: Object, name: string): (r: Field<Option<seq<string>>>)
    ensures r.Ok? <==> name !in o || o[name].JNull? || (o[name].JArr? && AllStrings(o[name].items))
    ensures name !in o ==> r == Ok(Some([]))
    ensures name in o && o[name].JNull? ==> r == Ok(None)
    ensures r.Ok? ==> r.value == StrListOrDefault(o, name)
    ensures r.Err? ==> r.error == FieldError(name, WrongType)
  {
    if name !in o then Ok(Some([]))
    else if o[name].JNull? then Ok(None)
    else if o[name].JArr? && AllStrings(o[name].items) then Ok(Some(Strings(o[name].items)))
    else Err(FieldError(name, WrongType))
  }

  /** The items of a required list field, before each item is validated. */
  function RequiredArray(o: Object, name: string): (r: Field<seq<Json>>)
    ensures r.Ok? <==> name in o && o[name].JArr?
    ensures r.Ok? ==> r.value == o[name].items
  {
    if name !in o then Err(FieldError(name, MissingField))
    else if o[name].JArr? then Ok(o[name].items)
    else Err(FieldError(name, WrongType))
  }
}
